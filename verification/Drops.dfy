/** The tunnel-drop counter of the pipeline, with lifecycle managers that answer its requests. */
module Drops {
  import opened Status
  import opened Protocol
  import opened Bootstrap
  import P = Pipeline
  import Laws = PipelineLaws

  /** Call `t` of this manager was answered with `decision`. */
  predicate Answers(w: World, t: Tid, decision: Decision) {
    t in w.tasks && w.tasks[t].Returned? && w.tasks[t].decision == decision
  }

  /** A manager answers Ready only with a ready status. */
  lemma ReadyAnswersAreReady(initial: BackendStatus, boot: seq<Label>, t: Tid, decision: Decision)
    requires Legal(Start(initial), boot) && Answers(Run(Start(initial), boot), t, decision) && decision.Ready?
    ensures BackendIsReady(decision.status)
  {
    DecisionsAreLinearizable(initial, boot, t);
  }

  /** Every first decision of the pipeline run is what a call of its kind's manager was answered in a run of it. */
  ghost predicate AnsweredByManagers(run: seq<P.Label>, initial: BackendStatus, boots: Request -> seq<Label>,
                                     kinds: P.Tid -> Request, calls: P.Tid -> Tid)
  {
    && (forall kind: Request :: Legal(Start(initial), boots(kind)))
    && forall i :: 0 <= i < |run| && run[i].Decide? ==>
                     Answers(Run(Start(initial), boots(kinds(run[i].t))), calls(run[i].t), run[i].decision)
  }

  lemma DecisionsAreReady(run: seq<P.Label>, initial: BackendStatus, boots: Request -> seq<Label>,
                          kinds: P.Tid -> Request, calls: P.Tid -> Tid)
    requires AnsweredByManagers(run, initial, boots, kinds, calls)
    ensures forall i :: 0 <= i < |run| ==> Laws.ReadyIsReady(run[i])
  {
    forall i | 0 <= i < |run|
      ensures Laws.ReadyIsReady(run[i])
    {
      if run[i].Decide? && run[i].decision.Ready? {
        ReadyAnswersAreReady(initial, boots(kinds(run[i].t)), calls(run[i].t), run[i].decision);
      }
    }
  }

  /** With decisions that the managers gave, no tunnel drop is ever counted. */
  lemma ManagersCountNoDrop(coldMax: nat, run: seq<P.Label>, initial: BackendStatus, boots: Request -> seq<Label>,
                            kinds: P.Tid -> Request, calls: P.Tid -> Tid)
    requires P.Legal(P.Start(coldMax), run) && AnsweredByManagers(run, initial, boots, kinds, calls)
    ensures P.Run(P.Start(coldMax), run).counters[P.TunnelDrops] == 0
  {
    DecisionsAreReady(run, initial, boots, kinds, calls);
    Laws.TunnelDropsStayZero(P.Start(coldMax), run);
  }
}
