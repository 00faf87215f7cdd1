/** What any single step leaves alone, whoever takes it. */
module Frames {
  import opened Protocol

  /** The shared state only moves forward: a step without a publish can only set `active` or raise `observe`. */
  ghost predicate Extends(c: Core, c': Core) {
    && c.chan <= c'.chan
    && (|c'.chan| == |c.chan| ==>
          c'.active || (c'.active == c.active && c'.lastError == c.lastError))
  }

  lemma StepExtends(w: World, l: Label)
    requires Enabled(w, l)
    ensures Extends(w.core, Next(w, l).core)
  {
  }

  /** A step touches the stepping task and, when it spawns, the child. */
  lemma OthersUntouched(w: World, l: Label, u: Tid)
    requires Enabled(w, l)
    ensures l.t in Next(w, l).tasks
    ensures u != l.t && !(l.Spawn? && u == l.child) ==>
              (u in Next(w, l).tasks <==> u in w.tasks) && (u in w.tasks ==> Next(w, l).tasks[u] == w.tasks[u])
    ensures l.Spawn? ==> l.child in Next(w, l).tasks && Next(w, l).tasks[l.child] == Idle && l.child != l.t
  {
  }

  /** The steps of the task that runs the bootstrap. */
  predicate OwnerStep(l: Label) {
    l.ReadRequest? || l.SshReply? || l.WakeReply? || l.HelperReply? || l.TunnelReply? || l.Publish?
    || l.Spawn? || l.Reborrow? || l.Finish? || l.Tick? || l.Deadline?
  }

  /** Only a finish, a publish or an edit adds to the channel, one value at a time. */
  predicate Publishes(l: Label) { l.Publish? || l.Finish? || l.CommitEdit? }

  lemma StepChannel(w: World, l: Label)
    requires Enabled(w, l)
    ensures Publishes(l) ==> |Next(w, l).core.chan| == |w.core.chan| + 1 && w.core.chan < Next(w, l).core.chan
    ensures !Publishes(l) ==> Next(w, l).core.chan == w.core.chan && Next(w, l).hist.origins == w.hist.origins
  {
  }
}
