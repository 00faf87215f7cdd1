/**
 The books of the epochs: one wake at most, for the leader's own kind and only
 from a snapshot that asked for it; the observe request is the highest priority
 among those that take part; epochs follow one another and each ends once.
 */
module Epochs {
  import opened Outcomes
  import opened Status
  import opened Protocol
  import opened Frames
  import opened SingleFlight

  /** Embeddings go before chat: the request is Embeddings as soon as one member asked for them. */
  predicate IsHighest(request: Request, members: seq<Request>) {
    request in members && (Request.Embeddings in members ==> request.Embeddings?)
  }

  function LastOf(epochs: seq<Epoch>): Epoch
    requires epochs != []
  {
    epochs[|epochs| - 1]
  }

  /** The leader found the host down and did not take it to be warming already. */
  predicate AsksForWake(probe: LeaderProbe) {
    probe.ssh == Ok(false) && !probe.snapshot.Warming?
  }

  /** A wake for the leader's kind, from a snapshot that asked for it, after an ssh probe that found the host down. */
  predicate WakeOk(wake: WakeCall, leader: Request) {
    wake.kind == leader && !wake.snapshot.Warming? && wake.ssh == Ok(false)
  }

  ghost predicate EpochOk(e: Epoch, versions: nat, now: nat) {
    && e.members != [] && e.members[0] == e.leader
    && (e.probe.None? ==> e.wakes == [])
    && (e.probe.Some? ==> |e.wakes| == if AsksForWake(e.probe.value) then 1 else 0)
    && (forall k :: 0 <= k < |e.wakes| ==> WakeOk(e.wakes[k], e.leader))
    && e.startVersion < versions
    && e.startedAt < now
    && (e.end.Some? ==> e.startVersion < e.end.value.version < versions)
  }

  ghost predicate Chained(epochs: seq<Epoch>) {
    forall i, j :: 0 <= i < j < |epochs| ==>
                     epochs[i].end.Some? && epochs[i].end.value.version <= epochs[j].startVersion
  }

  ghost predicate BooksOk(w: World) {
    var epochs := w.hist.epochs;
    && (forall i :: 0 <= i < |epochs| ==> EpochOk(epochs[i], |w.core.chan|, w.hist.now))
    && Chained(epochs)
    && (w.core.active ==> epochs != [])
    && (epochs != [] ==>
          && IsHighest(w.core.observe, LastOf(epochs).members)
          && (LastOf(epochs).end.Some? <==> !w.core.active)
          && (!w.core.active ==> LastOf(epochs).end.value.error == w.core.lastError))
  }

  ghost predicate AskedOk(probe: Probe, last: Epoch) {
    0 < probe.asked <= |last.members| && IsHighest(probe.request, last.members[..probe.asked])
  }

  ghost predicate ObsOk(epochs: seq<Epoch>, obs: Obs) {
    && 1 <= obs.epoch <= |epochs|
    && AskedOk(Probe(obs.request, obs.asked), epochs[obs.epoch - 1])
    && epochs[obs.epoch - 1].startedAt < obs.ssh.at
  }

  ghost predicate OriginOk(epochs: seq<Epoch>, origin: Origin) {
    origin.Epoch() <= |epochs| && (origin.Observed? ==> ObsOk(epochs, origin.obs))
  }

  ghost predicate RoleKind(role: Role, last: Epoch) {
    role.Leader? ==> role.kind == last.leader
  }

  /** The timestamp of the wake this epoch sent, if it sent one. */
  predicate CarriesWake(last: Epoch, status: BackendStatus) {
    last.wakes != [] ==> status.lastWakeAttemptAt == Some(last.wakes[0].clock)
  }

  /** What the owner knows about its epoch. */
  ghost predicate OwnerBook(last: Epoch, epochs: seq<Epoch>, pc: Pc) {
    match pc
    case Started(role, _) => RoleKind(role, last) && (role.Leader? ==> last.wakes == [] && last.probe.None?)
    case Probing(role, probe, _) =>
      RoleKind(role, last) && (role.Leader? ==> last.wakes == [] && last.probe.None?) && AskedOk(probe, last)
    case Waking(role, status) => role.Leader? && last.wakes != [] && CarriesWake(last, status)
    case Helping(role, probe, _, ssh) =>
      AskedOk(probe, last) && last.startedAt < ssh.at && (role.Leader? ==> last.wakes == [])
    case Tunnelling(role, probe, _, ssh, _) =>
      AskedOk(probe, last) && last.startedAt < ssh.at && (role.Leader? ==> last.wakes == [])
    case Publishing(role, status, origin) =>
      && OriginOk(epochs, origin) && origin.Epoch() == |epochs|
      && (role.Leader? ==> CarriesWake(last, status) && (last.wakes != [] ==> status.lifecycle.Warming?))
    case Finishing(role, status, origin, error, _) =>
      && OriginOk(epochs, origin)
      && (error.Some? ==> origin.Epoch() == |epochs|)
      && (role.Leader? && error.Some? ==> CarriesWake(last, status))
    case _ => true
  }

  ghost predicate BookPc(epochs: seq<Epoch>, pc: Pc) {
    Owns(pc) ==> epochs != [] && OwnerBook(LastOf(epochs), epochs, pc)
  }

  ghost predicate Booked(w: World) {
    && BooksOk(w)
    && |w.hist.origins| == |w.core.chan|
    && (forall v :: 0 <= v < |w.hist.origins| ==> OriginOk(w.hist.epochs, w.hist.origins[v]))
    && (forall t :: t in w.tasks ==> BookPc(w.hist.epochs, w.tasks[t]))
  }

  /** Records are only added to: members join, a wake is logged, an end is written. */
  ghost predicate Later(es: seq<Epoch>, es': seq<Epoch>) {
    && |es| <= |es'|
    && forall i :: 0 <= i < |es| ==>
                     && es[i].members <= es'[i].members
                     && es[i].leader == es'[i].leader
                     && es[i].startedAt == es'[i].startedAt
                     && es[i].startVersion == es'[i].startVersion
                     && es[i].wakes <= es'[i].wakes
                     && (es[i].probe.Some? ==> es'[i].probe == es[i].probe)
                     && (es[i].end.Some? ==> es'[i].end == es[i].end)
  }

  lemma StepLater(w: World, l: Label)
    requires Booked(w) && Owned(w) && Enabled(w, l)
    ensures Later(w.hist.epochs, Next(w, l).hist.epochs)
  {
    if l.SshReply? && Next(w, l).hist.epochs != w.hist.epochs { SshReplyWrites(w, l); }
  }

  lemma AskedStays(probe: Probe, e: Epoch, e': Epoch)
    requires AskedOk(probe, e) && e.members <= e'.members
    ensures AskedOk(probe, e')
  {
    assert e'.members[..probe.asked] == e.members[..probe.asked];
  }

  lemma OriginStays(es: seq<Epoch>, es': seq<Epoch>, origin: Origin)
    requires Later(es, es') && OriginOk(es, origin)
    ensures OriginOk(es', origin)
  {
    if origin.Observed? {
      var o := origin.obs;
      AskedStays(Probe(o.request, o.asked), es[o.epoch - 1], es'[o.epoch - 1]);
    }
  }

  /** The three steps that write in the books. */
  predicate Writes(l: Label) { l.StartOrJoin? || l.SshReply? || l.Finish? }

  lemma QuietStep(w: World, l: Label)
    requires Enabled(w, l) && !Writes(l)
    ensures Next(w, l).hist.epochs == w.hist.epochs
    ensures Next(w, l).core == w.core.(chan := Next(w, l).core.chan)
  {
  }

  lemma StartKeepsBooks(w: World, l: Label)
    requires BooksOk(w) && Enabled(w, l) && l.StartOrJoin? && !w.core.active
    ensures BooksOk(Next(w, l))
  {
  }

  lemma JoinKeepsBooks(w: World, l: Label)
    requires BooksOk(w) && Enabled(w, l) && l.StartOrJoin? && w.core.active
    ensures BooksOk(Next(w, l))
  {
    var es, es', n := w.hist.epochs, Next(w, l).hist.epochs, |w.hist.epochs| - 1;
    assert es' == es[n := es[n].(members := es[n].members + [w.tasks[l.t].kind])];
  }

  /** The leader's probe is written in the last book, with the wake if it asks for one. */
  lemma SshReplyWrites(w: World, l: Label)
    requires Owned(w) && Booked(w) && Enabled(w, l) && l.SshReply? && Next(w, l).hist.epochs != w.hist.epochs
    ensures var es, es', n := w.hist.epochs, Next(w, l).hist.epochs, |w.hist.epochs| - 1;
            && n >= 0 && |es'| == n + 1
            && es' == es[n := es[n].(probe := es'[n].probe, wakes := es'[n].wakes)]
            && es[n].probe.None? && es[n].wakes == [] && es'[n].probe.Some?
            && |es'[n].wakes| == (if AsksForWake(es'[n].probe.value) then 1 else 0)
            && (forall k :: 0 <= k < |es'[n].wakes| ==> WakeOk(es'[n].wakes[k], es[n].leader))
  {
    assert BookPc(w.hist.epochs, w.tasks[l.t]);
  }

  lemma SshReplyKeepsBooks(w: World, l: Label)
    requires Owned(w) && Booked(w) && Enabled(w, l) && l.SshReply?
    ensures BooksOk(Next(w, l))
  {
    assert BookPc(w.hist.epochs, w.tasks[l.t]);
    var es, es' := w.hist.epochs, Next(w, l).hist.epochs;
    if es' == es {
      LaterBooks(w, Next(w, l));
    } else {
      SshReplyWrites(w, l);
    }
  }

  lemma FinishKeepsBooks(w: World, l: Label)
    requires Owned(w) && BooksOk(w) && Enabled(w, l) && l.Finish?
    ensures BooksOk(Next(w, l))
  {
  }

  lemma StepKeepsBooks(w: World, l: Label)
    requires Owned(w) && Booked(w) && Enabled(w, l)
    ensures BooksOk(Next(w, l))
  {
    if l.StartOrJoin? {
      if w.core.active { JoinKeepsBooks(w, l); } else { StartKeepsBooks(w, l); }
    } else if l.SshReply? {
      SshReplyKeepsBooks(w, l);
    } else if l.Finish? {
      FinishKeepsBooks(w, l);
    } else {
      QuietStep(w, l);
      StepChannel(w, l);
      LaterBooks(w, Next(w, l));
    }
  }

  lemma LaterBooks(w: World, w': World)
    requires BooksOk(w) && w'.hist.epochs == w.hist.epochs
    requires |w.core.chan| <= |w'.core.chan| && w.hist.now <= w'.hist.now
    requires w'.core == w.core.(chan := w'.core.chan)
    ensures BooksOk(w')
  {
  }

  /** While the owner pauses, its epoch stays last and only gains members. */
  lemma PausedStaysBooked(w: World, l: Label, u: Tid)
    requires Owned(w) && Booked(w) && Enabled(w, l)
    requires u in w.tasks && u != l.t && u in Next(w, l).tasks && Next(w, l).tasks[u] == w.tasks[u]
    ensures BookPc(Next(w, l).hist.epochs, w.tasks[u])
  {
    var pc, es, es' := w.tasks[u], w.hist.epochs, Next(w, l).hist.epochs;
    if Owns(pc) {
      StepLater(w, l);
      PausedEpoch(w, l, u);
      assert BookPc(es, pc);
      match pc
      case Probing(_, probe, _) => AskedStays(probe, LastOf(es), LastOf(es'));
      case Helping(_, probe, _, _) => AskedStays(probe, LastOf(es), LastOf(es'));
      case Tunnelling(_, probe, _, _, _) => AskedStays(probe, LastOf(es), LastOf(es'));
      case Publishing(_, _, origin) => OriginStays(es, es', origin);
      case Finishing(_, _, origin, _, _) => OriginStays(es, es', origin);
      case _ =>
    }
  }

  lemma PausedEpoch(w: World, l: Label, u: Tid)
    requires Owned(w) && BooksOk(w) && Enabled(w, l)
    requires u in w.tasks && u != l.t && Owns(w.tasks[u])
    ensures w.hist.epochs != [] && |Next(w, l).hist.epochs| == |w.hist.epochs|
    ensures LastOf(Next(w, l).hist.epochs).wakes == LastOf(w.hist.epochs).wakes
    ensures LastOf(Next(w, l).hist.epochs).probe == LastOf(w.hist.epochs).probe
  {
  }

  lemma AskerStaysBooked(w: World, l: Label)
    requires Owned(w) && Booked(w) && Enabled(w, l) && l.ReadRequest?
    ensures BookPc(Next(w, l).hist.epochs, Next(w, l).tasks[l.t])
  {
    assert BookPc(w.hist.epochs, w.tasks[l.t]);
    var last := LastOf(w.hist.epochs);
    assert last.members[..|last.members|] == last.members;
    QuietStep(w, l);
  }

  lemma ProberStaysBooked(w: World, l: Label)
    requires Owned(w) && Booked(w) && Enabled(w, l) && l.SshReply?
    ensures BookPc(Next(w, l).hist.epochs, Next(w, l).tasks[l.t])
  {
    assert BookPc(w.hist.epochs, w.tasks[l.t]);
    if Next(w, l).hist.epochs != w.hist.epochs { SshReplyWrites(w, l); }
  }

  lemma ReplyStaysBooked(w: World, l: Label)
    requires Owned(w) && Booked(w) && Enabled(w, l) && (l.WakeReply? || l.HelperReply? || l.TunnelReply?)
    ensures BookPc(Next(w, l).hist.epochs, Next(w, l).tasks[l.t])
  {
    assert BookPc(w.hist.epochs, w.tasks[l.t]);
    QuietStep(w, l);
  }

  lemma OwnerStaysBooked(w: World, l: Label)
    requires Owned(w) && Booked(w) && Enabled(w, l) && OwnerStep(l) && l.t in Next(w, l).tasks
    ensures BookPc(Next(w, l).hist.epochs, Next(w, l).tasks[l.t])
  {
    if l.ReadRequest? {
      AskerStaysBooked(w, l);
    } else if l.SshReply? {
      ProberStaysBooked(w, l);
    } else if l.WakeReply? || l.HelperReply? || l.TunnelReply? {
      ReplyStaysBooked(w, l);
    } else if !l.Finish? {
      assert BookPc(w.hist.epochs, w.tasks[l.t]);
      QuietStep(w, l);
    }
  }

  lemma CallerStaysBooked(w: World, l: Label)
    requires Owned(w) && Booked(w) && Enabled(w, l) && !OwnerStep(l) && l.t in Next(w, l).tasks
    ensures BookPc(Next(w, l).hist.epochs, Next(w, l).tasks[l.t])
  {
  }

  lemma OriginsStayBooked(w: World, l: Label)
    requires Owned(w) && Booked(w) && Enabled(w, l)
    ensures forall v :: 0 <= v < |Next(w, l).hist.origins| ==>
              OriginOk(Next(w, l).hist.epochs, Next(w, l).hist.origins[v])
  {
    var es, es' := w.hist.epochs, Next(w, l).hist.epochs;
    StepLater(w, l);
    StepOrigins(w, l);
    forall v | 0 <= v < |Next(w, l).hist.origins|
      ensures OriginOk(es', Next(w, l).hist.origins[v])
    {
      if v < |w.hist.origins| {
        OriginStays(es, es', w.hist.origins[v]);
      } else if l.CommitEdit? {
        OriginStays(es, es', OriginAt(w, w.tasks[l.t].at));
      } else {
        assert BookPc(es, w.tasks[l.t]);
        OriginStays(es, es', w.tasks[l.t].origin);
      }
    }
  }

  lemma StepOrigins(w: World, l: Label)
    requires Enabled(w, l)
    ensures w.hist.origins <= Next(w, l).hist.origins
    ensures !Publishes(l) ==> Next(w, l).hist.origins == w.hist.origins
    ensures l.CommitEdit? ==> Next(w, l).hist.origins == w.hist.origins + [OriginAt(w, w.tasks[l.t].at)]
    ensures l.Publish? || l.Finish? ==> Next(w, l).hist.origins == w.hist.origins + [w.tasks[l.t].origin]
  {
  }

  lemma StepKeepsBooked(w: World, l: Label)
    requires Owned(w) && Booked(w) && Enabled(w, l)
    ensures Booked(Next(w, l))
  {
    var w' := Next(w, l);
    StepKeepsBooks(w, l);
    OriginsStayBooked(w, l);
    StepChannel(w, l);
    StepOrigins(w, l);
    forall u | u in w'.tasks
      ensures BookPc(w'.hist.epochs, w'.tasks[u])
    {
      OthersUntouched(w, l, u);
      if u == l.t {
        if OwnerStep(l) { OwnerStaysBooked(w, l); } else { CallerStaysBooked(w, l); }
      } else if u in w.tasks {
        PausedStaysBooked(w, l, u);
      } else {
        SpawnerBooked(w, l);
      }
    }
  }

  lemma SpawnerBooked(w: World, l: Label)
    requires Owned(w) && Booked(w) && Enabled(w, l)
    ensures l.Spawn? ==> Next(w, l).hist.epochs != []
  {
  }
}
