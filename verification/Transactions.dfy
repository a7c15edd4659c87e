/** Transactions: what the log of the live connection holds for each registered transaction, and
    that a failed commit is replayed in full before it leaves the registry. */
module Transactions {
  import opened Bytes
  import opened Session
  import opened Lifecycle
  import opened Effects
  import opened Prologue
  import S = Subscriptions

  predicate About(w: Written, x: nat)
  {
    match w
    case Begin(y) => y == x
    case Send(to, _) => to == Some(x)
    case Commit(y) => y == x
    case Abort(y) => y == x
    case _ => false
  }

  /** The frames of one transaction, in order. */
  function Restrict(log: seq<Written>, x: nat): seq<Written>
  {
    if log == [] then []
    else
      var w := log[|log| - 1];
      Restrict(log[..|log| - 1], x) + if About(w, x) then [w] else []
  }

  lemma RestrictAppend(log: seq<Written>, w: Written, x: nat)
    ensures Restrict(log + [w], x) == Restrict(log, x) + if About(w, x) then [w] else []
  {
    assert (log + [w])[..|log + [w]| - 1] == log;
  }

  lemma {:induction false} RestrictConcat(a: seq<Written>, b: seq<Written>, x: nat)
    ensures Restrict(a + b, x) == Restrict(a, x) + Restrict(b, x)
  {
    if b == [] {
      assert a + b == a;
    } else {
      var n := |b| - 1;
      RestrictConcat(a, b[..n], x);
      assert (a + b)[..|a + b| - 1] == a + b[..n] && (a + b)[|a + b| - 1] == b[n];
    }
  }

  lemma {:induction false} RestrictSubscribes(subs: seq<Subscription>, x: nat)
    ensures Restrict(Subscribes(subs), x) == []
  {
    if subs != [] {
      var n := |subs| - 1;
      RestrictSubscribes(subs[..n], x);
      RestrictAppend(Subscribes(subs[..n]), Subscribe(subs[n]), x);
    }
  }

  lemma {:induction false} RestrictSends(y: nat, bodies: seq<nat>, x: nat)
    ensures Restrict(Sends(y, bodies), x) == if x == y then Sends(y, bodies) else []
  {
    if bodies != [] {
      var n := |bodies| - 1;
      RestrictSends(y, bodies[..n], x);
      RestrictAppend(Sends(y, bodies[..n]), Send(Some(y), bodies[n]), x);
    }
  }

  /** A replay holds a transaction's sends in order and one COMMIT, and nothing else about it. */
  lemma {:induction false} RestrictReplay(rs: seq<Replayed>, x: nat)
    requires DistinctTxns(rs)
    ensures (forall r :: r in rs ==> r.txn != x) ==> Restrict(ReplayLog(rs), x) == []
    ensures forall r :: r in rs && r.txn == x ==> Restrict(ReplayLog(rs), x) == Sends(x, r.sends) + [Commit(x)]
  {
    if rs != [] {
      var n := |rs| - 1;
      var last := rs[n];
      RestrictReplay(rs[..n], x);
      RestrictReplayLast(rs, x);
      assert forall r :: r in rs[..n] ==> r in rs && r.txn != last.txn;
      assert forall r :: r in rs ==> r in rs[..n] || r == last;
    }
  }

  lemma RestrictReplayLast(rs: seq<Replayed>, x: nat)
    requires rs != []
    ensures Restrict(ReplayLog(rs), x)
         == Restrict(ReplayLog(rs[..|rs| - 1]), x)
            + if rs[|rs| - 1].txn == x then Sends(x, rs[|rs| - 1].sends) + [Commit(x)] else []
  {
    var last := rs[|rs| - 1];
    RestrictSends(last.txn, last.sends, x);
    RestrictAppend(Sends(last.txn, last.sends), Commit(last.txn), x);
    RestrictConcat(ReplayLog(rs[..|rs| - 1]), Sends(last.txn, last.sends) + [Commit(last.txn)], x);
  }

  lemma RestrictPrologue(snapshot: seq<Subscription>, rs: seq<Replayed>, x: nat)
    ensures Restrict(PrologueOf(snapshot, rs), x) == Restrict(ReplayLog(rs), x)
  {
    RestrictConcat([Connect] + Subscribes(snapshot), ReplayLog(rs), x);
    RestrictConcat([Connect], Subscribes(snapshot), x);
    RestrictSubscribes(snapshot, x);
    assert Restrict([Connect], x) == Restrict([], x) + [];
  }

  // ------------------------------------------------------------------------------------------
  // Phases
  // ------------------------------------------------------------------------------------------

  predicate Phased(s: State, x: nat, phases: set<TxnPhase>)
  {
    x in s.txns && s.txns[x].phase in phases
  }

  predicate BeginsTxn(pc: Pc, x: nat) { HasGoal(pc) && pc.goal == WriteBegin(x) }

  predicate SendsIn(pc: Pc, x: nat) { HasGoal(pc) && pc.goal.WriteSend? && pc.goal.to == Some(x) }

  predicate ExitsTxn(pc: Pc, x: nat) { pc.Exiting? && pc.txn == x }

  /** A task's transaction is in the phase that task left it in. */
  predicate PhasedPc(s: State, pc: Pc)
  {
    && (HasGoal(pc) && pc.goal.WriteBegin? ==> Phased(s, pc.goal.txn, {Beginning}))
    && (HasGoal(pc) && pc.goal.WriteSend? && pc.goal.to.Some? ==>
          pc.goal.to.value in s.txns && s.txns[pc.goal.to.value].phase != Beginning)
    && (pc.Exiting? ==> Phased(s, pc.txn, if pc.clean then {Committing, Orphaned} else {Aborting}))
    && (pc.Entering? && pc.stage.Replaying? ==>
          forall x :: x in pc.stage.order ==> x in s.txns && s.txns[x].phase != Beginning)
  }

  predicate PhasesOk(s: State)
  {
    && (forall x :: x in s.registry ==> Phased(s, x, {Open, Committing, CommitFailed, Aborting}))
    && (forall x :: x in s.txns && s.txns[x].phase == Beginning ==> s.txns[x].sends == [])
    && (forall t :: t in s.tasks ==> PhasedPc(s, s.tasks[t]))
  }

  /** One task begins a transaction, and one task exits it. */
  predicate Unique(s: State)
  {
    forall t, u :: t in s.tasks && u in s.tasks && t != u ==> Apart(s.tasks[t], s.tasks[u])
  }

  predicate Apart(p: Pc, q: Pc)
  {
    && !(HasGoal(p) && p.goal.WriteBegin? && BeginsTxn(q, p.goal.txn))
    && !(p.Exiting? && ExitsTxn(q, p.txn))
  }

  /** How the phase of a transaction can change. */
  lemma PhaseStep(cfg: Config, s: State, l: Label, x: nat)
    requires Sized(s) && Enabled(cfg, s, l) && x in s.txns
    ensures x in Next(cfg, s, l).txns
    ensures var p, p' := s.txns[x].phase, Next(cfg, s, l).txns[x].phase;
            || p' == p
            || (l.DrainOk? && PcOf(s, l.t).goal == WriteBegin(x) && p' == Open)
            || (l.ExitTxn? && l.txn == x && p == Open && p' != Beginning && p' != Open)
            || ((l.ExitOk? || l.ExitLost?) && PcOf(s, l.t).txn == x && p' == Finished)
            || (l.ExitLost? && PcOf(s, l.t).txn == x && PcOf(s, l.t).clean && p == Committing && p' == CommitFailed)
  {
    StepKeepsTxns(cfg, s, l);
    if l.DrainOk? {
      assert SizedPc(s, PcOf(s, l.t)) && Next(cfg, s, l) == NextDrainOk(s, l.t);
    } else if l.ExitTxn? {
      assert Next(cfg, s, l) == NextExit(s, l.t, l.txn, l.clean);
    } else if l.ExitOk? {
      assert SizedPc(s, PcOf(s, l.t)) && Next(cfg, s, l) == NextExitOk(s, l.t);
    } else if l.ExitLost? {
      assert SizedPc(s, PcOf(s, l.t)) && Next(cfg, s, l) == NextExitLost(s, l.t);
    }
  }

  lemma NewTxns(cfg: Config, s: State, l: Label, x: nat)
    requires Sized(s) && Enabled(cfg, s, l) && x !in s.txns && x in Next(cfg, s, l).txns
    ensures l == Spawn(l.t, WriteBegin(x)) && Next(cfg, s, l).txns[x] == Txn(Beginning, [])
  {
    StepKeepsTxns(cfg, s, l);
  }

  /** A transaction's recorded sends change only by its own sends, while it is open. */
  lemma SendsStep(cfg: Config, s: State, l: Label, x: nat)
    requires Sized(s) && Enabled(cfg, s, l) && x in s.txns
    ensures x in Next(cfg, s, l).txns
    ensures Next(cfg, s, l).txns[x].sends == s.txns[x].sends
         || (l.Spawn? && l.goal.WriteSend? && l.goal.to == Some(x) && s.txns[x].phase == Open
             && Next(cfg, s, l).txns[x].sends == s.txns[x].sends + [l.goal.body])
  {
    StepKeepsTxns(cfg, s, l);
  }

  /** How the registry can change. */
  lemma RegistryStep(cfg: Config, s: State, l: Label)
    requires Sized(s) && Enabled(cfg, s, l)
    ensures var r' := Next(cfg, s, l).registry;
            || r' == s.registry
            || (l.Install? && r' == {})
            || (l.DrainOk? && PcOf(s, l.t).goal.WriteBegin? && r' == s.registry + {PcOf(s, l.t).goal.txn})
            || (l.ExitTxn? && s.live.None? && !l.clean && r' == s.registry - {l.txn})
            || ((l.ExitOk? || l.ExitLost?) && r' == s.registry - {PcOf(s, l.t).txn})
    ensures l.ExitTxn? && s.live.None? && !l.clean ==> Next(cfg, s, l).registry == s.registry - {l.txn}
    ensures l.ExitOk? ==> Next(cfg, s, l).registry == s.registry - {PcOf(s, l.t).txn}
    ensures l.ExitLost? && !PcOf(s, l.t).clean ==> Next(cfg, s, l).registry == s.registry - {PcOf(s, l.t).txn}
    ensures l.DrainOk? && PcOf(s, l.t).goal.WriteBegin? ==>
              Next(cfg, s, l).registry == s.registry + {PcOf(s, l.t).goal.txn}
              && Phased(Next(cfg, s, l), PcOf(s, l.t).goal.txn, {Open})
  {
    GhostFrame(cfg, s, l);
    if l.DrainOk? || l.ExitTxn? || l.ExitOk? || l.ExitLost? {
      assert !l.ExitTxn? ==> SizedPc(s, PcOf(s, l.t));
      assert Next(cfg, s, l) == NextFollow(cfg, s, l);
    } else if l.Install? {
      assert Next(cfg, s, l) == NextInstall(s, l.t);
    }
  }

  /** What the mover is about afterwards, it was about before, or has just taken up. */
  predicate TakesUp(l: Label, pc: Pc, pc': Pc)
  {
    && (HasGoal(pc') && pc'.goal.WriteBegin? ==> BeginsTxn(pc, pc'.goal.txn) || (l.Spawn? && l.goal == pc'.goal))
    && (pc'.Exiting? ==> l.ExitTxn? && l.txn == pc'.txn)
  }

  lemma MoverPhase(cfg: Config, s: State, l: Label)
    requires Alive(s) && PhasesOk(s) && Enabled(cfg, s, l) && Mover(l).Some?
    ensures PhasedPc(Next(cfg, s, l), PcAfter(cfg, s, l))
    ensures TakesUp(l, PcOf(s, l.t), PcAfter(cfg, s, l))
  {
    var pc := PcOf(s, l.t);
    assert PhasedPc(s, pc) && SizedPc(s, pc);
    MoverTakesUp(cfg, s, l);
    if l.ExitTxn? {
      PhasedExit(cfg, s, l);
    } else if l.DrainOk? || l.ExitOk? || l.ExitLost? {
      assert PcAfter(cfg, s, l) == Idle;
    } else {
      StepKeepsTxns(cfg, s, l);
      PhasedAfter(cfg, s, l, Next(cfg, s, l));
    }
  }

  lemma PhasedExit(cfg: Config, s: State, l: Label)
    requires Sized(s) && Enabled(cfg, s, l) && l.ExitTxn?
    ensures PhasedPc(NextExit(s, l.t, l.txn, l.clean), PcAfter(cfg, s, l))
  {
  }

  lemma MoverTakesUp(cfg: Config, s: State, l: Label)
    requires Sized(s) && Enabled(cfg, s, l) && Mover(l).Some?
    ensures TakesUp(l, PcOf(s, l.t), PcAfter(cfg, s, l))
  {
  }

  lemma PhasedAfter(cfg: Config, s: State, l: Label, s': State)
    requires Sized(s) && PhasesOk(s) && Enabled(cfg, s, l) && Mover(l).Some? && PhasedPc(s, PcOf(s, l.t))
    requires !l.ExitTxn? && !l.DrainOk? && !l.ExitOk? && !l.ExitLost?
    requires s'.txns == if l.Spawn? then Record(s, l.goal).txns else s.txns
    ensures PhasedPc(s', PcAfter(cfg, s, l))
  {
    if l.Spawn? {
      PhasedSpawn(s, l.goal, s');
    } else if l.StartReplay? {
      assert forall x :: x in l.order ==> x in SetOf(l.order);
    } else {
      SameGoal(cfg, s, l);
    }
  }

  lemma PhasedSpawn(s: State, goal: Goal, s': State)
    requires goal.WriteBegin? ==> goal.txn !in s.txns
    requires goal.WriteSend? && goal.to.Some? ==> goal.to.value in s.txns && s.txns[goal.to.value].phase.Open?
    requires s'.txns == Record(s, goal).txns
    ensures PhasedPc(s', Arrived(s, goal))
  {
  }

  /** A task that neither starts nor begins to replay has no new goal and no new replay. */
  lemma SameGoal(cfg: Config, s: State, l: Label)
    requires Sized(s) && Enabled(cfg, s, l) && Mover(l).Some? && !l.Spawn? && !l.StartReplay? && !l.ExitTxn?
    ensures var pc, pc' := PcOf(s, l.t), PcAfter(cfg, s, l);
            && (HasGoal(pc') && pc'.goal != Listen ==> HasGoal(pc) && pc'.goal == pc.goal)
            && (pc'.Exiting? ==> pc' == pc)
            && (pc'.Entering? && pc'.stage.Replaying? ==> pc.Entering? && pc.stage.Replaying? && pc'.stage.order == pc.stage.order)
  {
  }

  lemma BystanderPhase(cfg: Config, s: State, l: Label, u: nat)
    requires Alive(s) && PhasesOk(s) && Unique(s) && Enabled(cfg, s, l)
    requires u in s.tasks && Mover(l) != Some(u)
    ensures PhasedPc(Next(cfg, s, l), s.tasks[u])
  {
    var pc := s.tasks[u];
    assert PhasedPc(s, pc);
    if HasGoal(pc) && pc.goal.WriteBegin? {
      UntouchedPhase(cfg, s, l, u, pc.goal.txn);
    } else if HasGoal(pc) && pc.goal.WriteSend? && pc.goal.to.Some? {
      NeverBeginsAgain(cfg, s, l, pc.goal.to.value);
    } else if pc.Exiting? {
      UntouchedPhase(cfg, s, l, u, pc.txn);
    }
    if pc.Entering? && pc.stage.Replaying? {
      forall x | x in pc.stage.order ensures x in Next(cfg, s, l).txns && Next(cfg, s, l).txns[x].phase != Beginning {
        NeverBeginsAgain(cfg, s, l, x);
      }
    }
  }

  lemma NeverBeginsAgain(cfg: Config, s: State, l: Label, x: nat)
    requires Sized(s) && Enabled(cfg, s, l) && x in s.txns && s.txns[x].phase != Beginning
    ensures x in Next(cfg, s, l).txns && Next(cfg, s, l).txns[x].phase != Beginning
  {
    PhaseStep(cfg, s, l, x);
  }

  /** Only a task that begins or exits a transaction changes its phase. */
  lemma UntouchedPhase(cfg: Config, s: State, l: Label, u: nat, x: nat)
    requires Alive(s) && PhasesOk(s) && Unique(s) && Enabled(cfg, s, l) && u in s.tasks && Mover(l) != Some(u)
    requires BeginsTxn(s.tasks[u], x) || ExitsTxn(s.tasks[u], x)
    ensures x in s.txns && x in Next(cfg, s, l).txns && Next(cfg, s, l).txns[x].phase == s.txns[x].phase
  {
    assert PhasedPc(s, s.tasks[u]);
    PhaseStep(cfg, s, l, x);
    if l.DrainOk? || l.ExitOk? || l.ExitLost? {
      assert PhasedPc(s, s.tasks[l.t]) && Apart(s.tasks[l.t], s.tasks[u]);
    }
  }

  lemma UniqueStep(cfg: Config, s: State, l: Label)
    requires Alive(s) && PhasesOk(s) && Unique(s) && Enabled(cfg, s, l)
    ensures Unique(Next(cfg, s, l))
  {
    var s' := Next(cfg, s, l);
    forall t, u | t in s'.tasks && u in s'.tasks && t != u ensures Apart(s'.tasks[t], s'.tasks[u]) {
      if Mover(l) == Some(u) {
        StayApart(cfg, s, l, u, t);
      } else {
        StayApart(cfg, s, l, t, u);
      }
    }
  }

  lemma StayApart(cfg: Config, s: State, l: Label, t: nat, u: nat)
    requires Alive(s) && PhasesOk(s) && Unique(s) && Enabled(cfg, s, l)
    requires t in Next(cfg, s, l).tasks && u in Next(cfg, s, l).tasks && t != u && Mover(l) != Some(u)
    ensures Apart(Next(cfg, s, l).tasks[t], Next(cfg, s, l).tasks[u])
  {
    OneTaskMoves(cfg, s, l);
    if Mover(l) == Some(t) {
      MoverApart(cfg, s, l, u);
    } else {
      assert Apart(s.tasks[t], s.tasks[u]);
    }
  }

  lemma MoverApart(cfg: Config, s: State, l: Label, u: nat)
    requires Alive(s) && PhasesOk(s) && Unique(s) && Enabled(cfg, s, l)
    requires Mover(l).Some? && u in s.tasks && l.t != u
    ensures Apart(PcAfter(cfg, s, l), s.tasks[u])
  {
    MoverPhase(cfg, s, l);
    assert PhasedPc(s, s.tasks[u]);
    assert l.t in s.tasks ==> Apart(s.tasks[l.t], s.tasks[u]);
  }

  lemma PhasesOkStep(cfg: Config, s: State, l: Label)
    requires Alive(s) && PhasesOk(s) && Unique(s) && Enabled(cfg, s, l)
    ensures PhasesOk(Next(cfg, s, l))
  {
    var s' := Next(cfg, s, l);
    OneTaskMoves(cfg, s, l);
    forall t | t in s'.tasks ensures PhasedPc(s', s'.tasks[t]) {
      if Mover(l) == Some(t) {
        MoverPhase(cfg, s, l);
      } else {
        BystanderPhase(cfg, s, l, t);
      }
    }
    forall x | x in s'.txns && s'.txns[x].phase == Beginning ensures s'.txns[x].sends == [] {
      if x in s.txns {
        PhaseStep(cfg, s, l, x);
        SendsStep(cfg, s, l, x);
      } else {
        NewTxns(cfg, s, l, x);
      }
    }
    RegistryStep(cfg, s, l);
    forall x | x in s'.registry ensures Phased(s', x, {Open, Committing, CommitFailed, Aborting}) {
      RegisteredPhase(cfg, s, l, x);
    }
  }

  lemma RegisteredPhase(cfg: Config, s: State, l: Label, x: nat)
    requires Alive(s) && PhasesOk(s) && Enabled(cfg, s, l) && x in Next(cfg, s, l).registry
    ensures Phased(Next(cfg, s, l), x, {Open, Committing, CommitFailed, Aborting})
  {
    RegistryStep(cfg, s, l);
    if x in s.registry {
      PhaseStep(cfg, s, l, x);
      if l.ExitTxn? {
        assert Next(cfg, s, l) == NextExit(s, l.t, l.txn, l.clean);
      } else if l.ExitLost? {
        assert SizedPc(s, PcOf(s, l.t)) && Next(cfg, s, l) == NextExitLost(s, l.t);
      }
    }
  }

  // ------------------------------------------------------------------------------------------
  // Who writes frames of a transaction
  // ------------------------------------------------------------------------------------------

  lemma TxnWriters(cfg: Config, s: State, l: Label, x: nat)
    requires Sized(s) && Enabled(cfg, s, l) && Wrote(cfg, s, l).Some? && About(Wrote(cfg, s, l).value.1, x)
    ensures var w := Wrote(cfg, s, l).value.1;
            || (l.Spawn? && l.goal == WriteBegin(x) && w == Begin(x))
            || (l.Spawn? && l.goal == WriteSend(Some(x), l.goal.body) && w == Send(Some(x), l.goal.body))
            || ((l.Resume? || l.Acquire?) && (BeginsTxn(PcOf(s, l.t), x) || SendsIn(PcOf(s, l.t), x)))
            || (l.ReplayNext? && PcOf(s, l.t).stage.order[PcOf(s, l.t).stage.done] == x)
            || (l.ExitTxn? && l.txn == x && w == if l.clean then Commit(x) else Abort(x))
  {
    assert l.ReplayNext? ==> SizedPc(s, PcOf(s, l.t));
  }

  /** Without a frame about `x`, every log restricted to `x` is what it was. */
  lemma RestrictStays(cfg: Config, s: State, l: Label, x: nat)
    requires Sized(s) && Enabled(cfg, s, l)
    requires Wrote(cfg, s, l).Some? ==> !About(Wrote(cfg, s, l).value.1, x)
    ensures |s.logs| <= |Next(cfg, s, l).logs|
    ensures forall c :: 0 <= c < |s.logs| ==> Restrict(Next(cfg, s, l).logs[c], x) == Restrict(s.logs[c], x)
    ensures forall c :: |s.logs| <= c < |Next(cfg, s, l).logs| ==> Restrict(Next(cfg, s, l).logs[c], x) == []
  {
    LogsGrow(cfg, s, l);
    var w := Wrote(cfg, s, l);
    if w.Some? {
      RestrictAppend(s.logs[w.value.0], w.value.1, x);
    }
    assert Restrict([Connect], x) == Restrict([], x) + [];
  }

  // ------------------------------------------------------------------------------------------
  // A transaction that has not begun
  // ------------------------------------------------------------------------------------------

  /** Its BEGIN is on no open connection but the one it is being drained to, where it stands alone. */
  predicate BeginOk(s: State, pc: Pc, x: nat)
    requires Sized(s)
  {
    && (forall c :: 0 <= c < |s.logs| && s.phases[c] != Closed && !(pc.Draining? && pc.conn == c) ==>
          Restrict(s.logs[c], x) == [])
    && (pc.Draining? ==> pc.conn < |s.logs| && Restrict(s.logs[pc.conn], x) == [Begin(x)])
  }

  ghost predicate BeginsOk(s: State)
    requires Sized(s)
  {
    && (forall x, c :: x !in s.txns && 0 <= c < |s.logs| ==> Restrict(s.logs[c], x) == [])
    && (forall t, x :: t in s.tasks && BeginsTxn(s.tasks[t], x) ==> BeginOk(s, s.tasks[t], x))
  }

  lemma UnknownIsUnwritten(cfg: Config, s: State, l: Label, x: nat)
    requires Sized(s) && BeginsOk(s) && Enabled(cfg, s, l) && x !in Next(cfg, s, l).txns
    ensures forall c :: 0 <= c < |Next(cfg, s, l).logs| ==> Restrict(Next(cfg, s, l).logs[c], x) == []
  {
    StepKeepsTxns(cfg, s, l);
    assert x !in s.txns;
    if Mover(l).Some? {
      assert SizedPc(s, PcOf(s, l.t));
    }
    if Wrote(cfg, s, l).Some? && About(Wrote(cfg, s, l).value.1, x) {
      TxnWriters(cfg, s, l, x);
    } else {
      RestrictStays(cfg, s, l, x);
    }
  }

  /** Nobody else writes about a transaction that has not begun. */
  lemma OnlyItsTaskWrites(cfg: Config, s: State, l: Label, u: nat, x: nat)
    requires Alive(s) && PhasesOk(s) && Unique(s) && Enabled(cfg, s, l)
    requires u in s.tasks && BeginsTxn(s.tasks[u], x) && Mover(l) != Some(u)
    ensures Wrote(cfg, s, l).Some? ==> !About(Wrote(cfg, s, l).value.1, x)
  {
    assert PhasedPc(s, s.tasks[u]) && SizedPc(s, s.tasks[u]);
    if Mover(l).Some? {
      assert l.t in s.tasks ==> PhasedPc(s, s.tasks[l.t]) && SizedPc(s, s.tasks[l.t]);
    }
    if Wrote(cfg, s, l).Some? && About(Wrote(cfg, s, l).value.1, x) {
      TxnWriters(cfg, s, l, x);
    }
  }

  lemma BystanderBegins(cfg: Config, s: State, l: Label, u: nat, x: nat)
    requires Alive(s) && PhasesOk(s) && Unique(s) && BeginsOk(s) && Enabled(cfg, s, l) && Sized(Next(cfg, s, l))
    requires u in s.tasks && BeginsTxn(s.tasks[u], x) && Mover(l) != Some(u)
    ensures BeginOk(Next(cfg, s, l), s.tasks[u], x)
  {
    OnlyItsTaskWrites(cfg, s, l, u, x);
    RestrictStays(cfg, s, l, x);
    S.ClosedStays(cfg, s, l);
    assert BeginOk(s, s.tasks[u], x);
  }

  /** The mover drains its BEGIN exactly when the step wrote it. */
  lemma BeginningMover(cfg: Config, s: State, l: Label, x: nat)
    requires Sized(s) && Enabled(cfg, s, l) && Reconnects(l) && BeginsTxn(PcAfter(cfg, s, l), x)
    ensures var pc, pc' := PcOf(s, l.t), PcAfter(cfg, s, l);
            && ((BeginsTxn(pc, x) && !pc.Draining?) || l == Spawn(l.t, WriteBegin(x)))
            && (pc'.Draining? ==> Wrote(cfg, s, l) == Some((pc'.conn, Begin(x))))
            && (!pc'.Draining? && Wrote(cfg, s, l).Some? ==> l.ResubscribeNext? || l.ReplayNext?)
  {
  }

  lemma MoverBegins(cfg: Config, s: State, l: Label, x: nat)
    requires Alive(s) && PhasesOk(s) && BeginsOk(s) && Enabled(cfg, s, l) && Sized(Next(cfg, s, l))
    requires Reconnects(l) && BeginsTxn(PcAfter(cfg, s, l), x)
    ensures BeginOk(Next(cfg, s, l), PcAfter(cfg, s, l), x)
  {
    var s' := Next(cfg, s, l);
    var pc, pc' := PcOf(s, l.t), PcAfter(cfg, s, l);
    BeginningMover(cfg, s, l, x);
    S.ClosedStays(cfg, s, l);
    assert BeginOk(s, Idle, x) by {
      assert BeginsTxn(pc, x) ==> BeginOk(s, pc, x);
    }
    if pc'.Draining? {
      WroteWhere(cfg, s, l);
      LogsGrow(cfg, s, l);
      assert s.phases[pc'.conn] == Active;
      DrainingBegins(s, s', pc', x);
    } else {
      OtherFrameReplayed(cfg, s, l, x);
      RestrictStays(cfg, s, l, x);
    }
  }

  lemma DrainingBegins(s: State, s': State, pc: Pc, x: nat)
    requires Sized(s) && Sized(s') && BeginOk(s, Idle, x) && pc.Draining? && pc.conn < |s.logs| && s.phases[pc.conn] == Active
    requires s'.logs == s.logs[pc.conn := s.logs[pc.conn] + [Begin(x)]]
    requires forall c :: 0 <= c < |s.phases| && s.phases[c] == Closed ==> s'.phases[c] == Closed
    ensures BeginOk(s', pc, x)
  {
    RestrictAppend(s.logs[pc.conn], Begin(x), x);
  }

  /** A transaction that has not begun is not replayed. */
  lemma OtherFrameReplayed(cfg: Config, s: State, l: Label, x: nat)
    requires Alive(s) && PhasesOk(s) && Enabled(cfg, s, l) && Reconnects(l)
    requires BeginsTxn(PcAfter(cfg, s, l), x) && !PcAfter(cfg, s, l).Draining?
    ensures Wrote(cfg, s, l).Some? ==> !About(Wrote(cfg, s, l).value.1, x)
  {
    BeginningMover(cfg, s, l, x);
    if l.ReplayNext? {
      assert PhasedPc(s, PcOf(s, l.t)) && SizedPc(s, PcOf(s, l.t));
    }
  }

  lemma LoserBegins(cfg: Config, s: State, t: nat, x: nat)
    requires Alive(s) && BeginsOk(s) && Enabled(cfg, s, DrainLost(t)) && Sized(Next(cfg, s, DrainLost(t)))
    requires BeginsTxn(PcOf(s, t), x)
    ensures BeginOk(Next(cfg, s, DrainLost(t)), Want(PcOf(s, t).goal), x)
  {
    var pc := PcOf(s, t);
    assert BeginOk(s, pc, x) && TaskOk(s, t, pc) && SizedPc(s, pc);
    S.ClosedStays(cfg, s, DrainLost(t));
    assert Next(cfg, s, DrainLost(t)).phases[pc.conn] == Closed;
  }

  lemma OtherBeginningMover(cfg: Config, s: State, l: Label, x: nat)
    requires Sized(s) && Enabled(cfg, s, l) && !Reconnects(l) && Mover(l).Some?
    ensures BeginsTxn(PcAfter(cfg, s, l), x) ==>
              l.DrainLost? && BeginsTxn(PcOf(s, l.t), x) && PcAfter(cfg, s, l) == Want(PcOf(s, l.t).goal)
  {
  }

  lemma BeginsOkStep(cfg: Config, s: State, l: Label)
    requires Alive(s) && PhasesOk(s) && Unique(s) && BeginsOk(s) && Enabled(cfg, s, l) && Sized(Next(cfg, s, l))
    ensures BeginsOk(Next(cfg, s, l))
  {
    var s' := Next(cfg, s, l);
    OneTaskMoves(cfg, s, l);
    forall x, c | x !in s'.txns && 0 <= c < |s'.logs| ensures Restrict(s'.logs[c], x) == [] {
      UnknownIsUnwritten(cfg, s, l, x);
    }
    forall u, x | u in s'.tasks && BeginsTxn(s'.tasks[u], x) ensures BeginOk(s', s'.tasks[u], x) {
      if Mover(l) != Some(u) {
        BystanderBegins(cfg, s, l, u, x);
      } else if Reconnects(l) {
        MoverBegins(cfg, s, l, x);
      } else {
        OtherBeginningMover(cfg, s, l, x);
        LoserBegins(cfg, s, u, x);
      }
    }
  }

  // ------------------------------------------------------------------------------------------
  // Registered transactions and the live connection
  // ------------------------------------------------------------------------------------------

  function Ending(x: nat, phase: TxnPhase): seq<Written>
  {
    match phase
    case Committing => [Commit(x)]
    case Aborting => [Abort(x)]
    case _ => []
  }

  /** On connection `c`: BEGIN, the recorded sends in order, and the COMMIT or ABORT once written. */
  predicate WholeOn(s: State, c: nat, x: nat)
    requires c < |s.logs|
  {
    && Phased(s, x, {Open, Committing, Aborting})
    && Restrict(s.logs[c], x) == [Begin(x)] + Sends(x, s.txns[x].sends) + Ending(x, s.txns[x].phase)
  }

  /** A task that works for a registered transaction does so on the live connection. */
  predicate Tied(s: State, pc: Pc)
  {
    && (HasGoal(pc) && pc.goal.WriteSend? && pc.goal.to.Some? && pc.goal.to.value in s.registry && s.live.Some? ==>
          pc.Draining? && s.live == Some(pc.conn))
    && (pc.Exiting? && pc.txn in s.registry && s.live.Some? ==> s.live == Some(pc.conn))
  }

  /** If transaction `x` is registered and a connection is live, `x` is whole there. */
  predicate Whole(s: State, x: nat)
    requires Sized(s)
  {
    s.live.Some? && x in s.registry ==> WholeOn(s, s.live.value, x)
  }

  predicate AllTied(s: State)
  {
    forall t :: t in s.tasks ==> Tied(s, s.tasks[t])
  }

  /** If the step registers `x`, its connection is still the live one, or none is. */
  predicate TimelyBegin(s: State, l: Label, x: nat)
  {
    l.DrainOk? && PcOf(s, l.t).Draining? && PcOf(s, l.t).goal == WriteBegin(x) ==>
      s.live.None? || s.live == Some(PcOf(s, l.t).conn)
  }

  lemma SendsAppend(x: nat, bodies: seq<nat>, b: nat)
    ensures Sends(x, bodies + [b]) == Sends(x, bodies) + [Send(Some(x), b)]
  {
    assert (bodies + [b])[..|bodies + [b]| - 1] == bodies;
  }

  /** A transaction that stays registered on the same live connection stays whole there. */
  lemma StaysWhole(cfg: Config, s: State, l: Label, x: nat)
    requires Alive(s) && PhasesOk(s) && AllTied(s) && Whole(s, x) && Enabled(cfg, s, l)
    requires s.live.Some? && Next(cfg, s, l).live == s.live && x in s.registry && x in Next(cfg, s, l).registry
    ensures s.live.value < |Next(cfg, s, l).logs| && WholeOn(Next(cfg, s, l), s.live.value, x)
  {
    var s', c := Next(cfg, s, l), s.live.value;
    assert WholeOn(s, c, x);
    LogsGrow(cfg, s, l);
    var w := Wrote(cfg, s, l);
    if w.Some? && About(w.value.1, x) {
      WritesWhole(cfg, s, l, x);
    } else {
      RestrictStays(cfg, s, l, x);
      QuietWhole(cfg, s, l, x);
    }
  }

  lemma QuietWhole(cfg: Config, s: State, l: Label, x: nat)
    requires Alive(s) && PhasesOk(s) && AllTied(s) && Whole(s, x) && Enabled(cfg, s, l)
    requires s.live.Some? && Next(cfg, s, l).live == s.live && x in s.registry && x in Next(cfg, s, l).registry
    requires Wrote(cfg, s, l).Some? ==> !About(Wrote(cfg, s, l).value.1, x)
    ensures x in Next(cfg, s, l).txns && Next(cfg, s, l).txns[x] == s.txns[x]
  {
    if l.DrainOk? || l.ExitOk? || l.ExitLost? {
      QuietExit(cfg, s, l, x);
    }
    QuietTxn(cfg, s, l, x);
  }

  lemma QuietTxn(cfg: Config, s: State, l: Label, x: nat)
    requires Sized(s) && Enabled(cfg, s, l) && s.live.Some? && x in s.txns
    requires Wrote(cfg, s, l).Some? ==> !About(Wrote(cfg, s, l).value.1, x)
    requires l.DrainOk? ==> PcOf(s, l.t).goal != WriteBegin(x)
    requires l.ExitOk? || l.ExitLost? ==> PcOf(s, l.t).txn != x
    ensures x in Next(cfg, s, l).txns && Next(cfg, s, l).txns[x] == s.txns[x]
  {
    PhaseStep(cfg, s, l, x);
    SendsStep(cfg, s, l, x);
  }

  lemma QuietExit(cfg: Config, s: State, l: Label, x: nat)
    requires Alive(s) && PhasesOk(s) && AllTied(s) && Enabled(cfg, s, l) && (l.DrainOk? || l.ExitOk? || l.ExitLost?)
    requires s.live.Some? && Next(cfg, s, l).live == s.live && x in s.registry && x in Next(cfg, s, l).registry
    ensures if l.DrainOk? then PcOf(s, l.t).goal != WriteBegin(x) else PcOf(s, l.t).txn != x
  {
    var pc := PcOf(s, l.t);
    assert PhasedPc(s, pc) && Tied(s, pc) && SizedPc(s, pc);
    if l.ExitOk? {
      assert Next(cfg, s, l) == NextExitOk(s, l.t);
    } else if l.ExitLost? {
      assert Next(cfg, s, l) == NextExitLost(s, l.t);
    }
  }

  lemma WritesWhole(cfg: Config, s: State, l: Label, x: nat)
    requires Alive(s) && PhasesOk(s) && AllTied(s) && Whole(s, x) && Enabled(cfg, s, l)
    requires s.live.Some? && Next(cfg, s, l).live == s.live && x in s.registry && x in Next(cfg, s, l).registry
    requires Wrote(cfg, s, l).Some? && About(Wrote(cfg, s, l).value.1, x)
    ensures s.live.value < |Next(cfg, s, l).logs| && WholeOn(Next(cfg, s, l), s.live.value, x)
  {
    LiveWriters(cfg, s, l, x);
    if l.Spawn? {
      SendWhole(s, l.t, x, l.goal.body);
    } else {
      ExitWhole(s, l.t, x, l.clean);
    }
  }

  lemma SendWhole(s: State, t: nat, x: nat, body: nat)
    requires Sized(s) && s.live.Some? && WholeOn(s, s.live.value, x) && s.txns[x].phase == Open
    ensures var s' := NextSpawn(s, t, WriteSend(Some(x), body));
            s.live.value < |s'.logs| && WholeOn(s', s.live.value, x)
  {
    RestrictAppend(s.logs[s.live.value], Send(Some(x), body), x);
    SendsAppend(x, s.txns[x].sends, body);
  }

  lemma ExitWhole(s: State, t: nat, x: nat, clean: bool)
    requires Sized(s) && s.live.Some? && WholeOn(s, s.live.value, x) && s.txns[x].phase == Open && x in s.registry
    ensures var s' := NextExit(s, t, x, clean);
            s.live.value < |s'.logs| && WholeOn(s', s.live.value, x)
  {
    RestrictAppend(s.logs[s.live.value], if clean then Commit(x) else Abort(x), x);
  }

  /** While a connection is live, only a new send or the exit writes about a registered transaction. */
  lemma LiveWriters(cfg: Config, s: State, l: Label, x: nat)
    requires Alive(s) && PhasesOk(s) && AllTied(s) && Whole(s, x) && Enabled(cfg, s, l) && s.live.Some? && x in s.registry
    requires Wrote(cfg, s, l).Some? && About(Wrote(cfg, s, l).value.1, x)
    ensures x in s.txns && s.txns[x].phase == Open && Wrote(cfg, s, l).value.0 == s.live.value
    ensures var w := Wrote(cfg, s, l).value.1;
            || (l.Spawn? && l.goal == WriteSend(Some(x), l.goal.body) && w == Send(Some(x), l.goal.body))
            || (l.ExitTxn? && l.txn == x && w == if l.clean then Commit(x) else Abort(x))
  {
    TxnWriters(cfg, s, l, x);
    WroteWhere(cfg, s, l);
    EnteringAlone(s, l.t);
    assert l.t in s.tasks ==> PhasedPc(s, s.tasks[l.t]) && Tied(s, s.tasks[l.t]);
  }

  lemma TiedStep(cfg: Config, s: State, l: Label, u: nat)
    requires Alive(s) && PhasesOk(s) && AllTied(s) && Enabled(cfg, s, l)
    requires u in Next(cfg, s, l).tasks
    ensures Tied(Next(cfg, s, l), Next(cfg, s, l).tasks[u])
  {
    OneTaskMoves(cfg, s, l);
    if l.Install? {
      assert Next(cfg, s, l).registry == {};
    } else if Mover(l) != Some(u) {
      BystanderTied(cfg, s, l, u);
    } else {
      MoverTied(cfg, s, l);
    }
  }

  lemma BystanderTied(cfg: Config, s: State, l: Label, u: nat)
    requires Sized(s) && PhasesOk(s) && AllTied(s) && Enabled(cfg, s, l) && !l.Install? && u in s.tasks
    ensures Tied(Next(cfg, s, l), s.tasks[u])
  {
    RegistryStep(cfg, s, l);
    S.LiveFrame(cfg, s, l);
    assert Tied(s, s.tasks[u]) && PhasedPc(s, s.tasks[u]);
    if l.DrainOk? {
      assert PhasedPc(s, PcOf(s, l.t));
    }
  }

  lemma MoverTied(cfg: Config, s: State, l: Label)
    requires Alive(s) && PhasesOk(s) && AllTied(s) && Enabled(cfg, s, l)
    requires Mover(l).Some? && !l.Install?
    ensures Tied(Next(cfg, s, l), PcAfter(cfg, s, l))
  {
    var pc := PcOf(s, l.t);
    assert Tied(s, pc) && SizedPc(s, pc);
    if l.DrainLost? {
      assert Next(cfg, s, l) == SetPc(Discard(s, pc.conn), l.t, Want(pc.goal));
    } else {
      S.LiveFrame(cfg, s, l);
      GhostFrame(cfg, s, l);
      TiedAfter(cfg, s, l, Next(cfg, s, l));
    }
  }

  lemma TiedAfter(cfg: Config, s: State, l: Label, s': State)
    requires Sized(s) && Enabled(cfg, s, l) && Mover(l).Some? && !l.Install? && !l.DrainLost? && Tied(s, PcOf(s, l.t))
    requires s'.live == s.live || s'.live.None?
    requires Reconnects(l) ==> s'.registry == s.registry
    ensures Tied(s', PcAfter(cfg, s, l))
  {
    if !l.Spawn? && !l.StartReplay? && !l.ExitTxn? && !l.Resume? && !l.Acquire? {
      SameGoal(cfg, s, l);
    }
  }

  lemma AllTiedStep(cfg: Config, s: State, l: Label)
    requires Alive(s) && PhasesOk(s) && AllTied(s) && Enabled(cfg, s, l)
    ensures AllTied(Next(cfg, s, l))
  {
    forall u | u in Next(cfg, s, l).tasks ensures Tied(Next(cfg, s, l), Next(cfg, s, l).tasks[u]) {
      TiedStep(cfg, s, l, u);
    }
  }

  /** From a whole transaction, a step leads to a whole one if and only if it is timely. */
  lemma WholeIffTimely(cfg: Config, s: State, l: Label, x: nat)
    requires Alive(s) && PhasesOk(s) && BeginsOk(s) && AllTied(s) && Whole(s, x) && Enabled(cfg, s, l) && Sized(Next(cfg, s, l))
    ensures Whole(Next(cfg, s, l), x) <==> TimelyBegin(s, l, x)
  {
    var s' := Next(cfg, s, l);
    RegistryStep(cfg, s, l);
    if !l.Install? {
      S.LiveFrame(cfg, s, l);
    }
    if !TimelyBegin(s, l, x) {
      BeganElsewhere(cfg, s, l.t);
    } else if s'.live.Some? && x in s'.registry {
      if x in s.registry {
        StaysWhole(cfg, s, l, x);
      } else {
        BeganWhole(cfg, s, l.t);
      }
    }
  }

  lemma BeganWhole(cfg: Config, s: State, t: nat)
    requires Alive(s) && PhasesOk(s) && BeginsOk(s) && Enabled(cfg, s, DrainOk(t)) && PcOf(s, t).goal.WriteBegin?
    requires s.live == Some(PcOf(s, t).conn)
    ensures s.live.value < |NextDrainOk(s, t).logs| && WholeOn(NextDrainOk(s, t), s.live.value, PcOf(s, t).goal.txn)
  {
    var pc := PcOf(s, t);
    var x := pc.goal.txn;
    assert SizedPc(s, pc) && PhasedPc(s, pc);
    assert BeginsTxn(s.tasks[t], x) && BeginOk(s, pc, x);
    assert s.txns[x].sends == [];
  }

  lemma BeganElsewhere(cfg: Config, s: State, t: nat)
    requires Alive(s) && PhasesOk(s) && BeginsOk(s) && Enabled(cfg, s, DrainOk(t)) && PcOf(s, t).goal.WriteBegin?
    requires s.live.Some? && s.live != Some(PcOf(s, t).conn)
    ensures var s' := Next(cfg, s, DrainOk(t));
            s'.live == s.live && PcOf(s, t).goal.txn in s'.registry && s.live.value < |s'.logs|
            && !WholeOn(s', s.live.value, PcOf(s, t).goal.txn)
  {
    var pc := PcOf(s, t);
    var x := pc.goal.txn;
    assert SizedPc(s, pc);
    assert BeginsTxn(s.tasks[t], x) && BeginOk(s, pc, x);
    assert s.phases[s.live.value] == Active;
    assert Restrict(s.logs[s.live.value], x) == [];
  }

  /** A clean exit of a registered transaction leaves BEGIN, its sends in order and COMMIT on the
      live connection. */
  lemma CleanExitIsWhole(cfg: Config, s: State, t: nat, x: nat)
    requires Alive(s) && PhasesOk(s) && AllTied(s) && Whole(s, x) && Enabled(cfg, s, ExitTxn(t, x, true))
    requires s.live.Some? && x in s.registry
    ensures Restrict(Next(cfg, s, ExitTxn(t, x, true)).logs[s.live.value], x)
         == [Begin(x)] + Sends(x, s.txns[x].sends) + [Commit(x)]
  {
    var c := s.live.value;
    assert WholeOn(s, c, x);
    RestrictAppend(s.logs[c], Commit(x), x);
  }

  // ------------------------------------------------------------------------------------------
  // Failed commits
  // ------------------------------------------------------------------------------------------

  /** Exited cleanly while registered, and its COMMIT is not confirmed. */
  predicate Unconfirmed(s: State, x: nat) { Phased(s, x, {Committing, CommitFailed}) }

  /** An installed connection's prologue holds all sends of `x` in order and then its COMMIT. */
  predicate ReplayedOn(s: State, c: nat, x: nat)
    requires Sized(s) && x in s.txns
  {
    c in s.installed && c < |s.replays| && Replayed(x, s.txns[x].sends) in s.replays[c]
  }

  /** Connection `c` has replayed `x` with other sends than are recorded now. */
  predicate StaleOn(s: State, c: nat, x: nat)
  {
    c < |s.replays| && x in s.txns && exists r :: r in s.replays[c] && r.txn == x && r.sends != s.txns[x].sends
  }

  predicate Opens(s: State, c: nat) { c < |s.phases| && s.phases[c] == Opening }

  /** The step exits the registered transaction `x` cleanly, while connection `c` is being entered and
      has already replayed `x` without a send that was recorded since. */
  predicate ExitsBehind(s: State, l: Label, c: nat, x: nat)
  {
    l.ExitTxn? && l.clean && l.txn == x && x in s.registry && Opens(s, c) && StaleOn(s, c, x)
  }

  /** A connection that is being entered after a step, if it is not new, was before. */
  lemma OpensBefore(cfg: Config, s: State, l: Label, c: nat)
    requires Alive(s) && Enabled(cfg, s, l) && Alive(Next(cfg, s, l)) && c < |s.phases| && Opens(Next(cfg, s, l), c)
    ensures Opens(s, c)
  {
    S.ClosedStays(cfg, s, l);
    if s.phases[c] == Active {
      LiveIsInstalled(s);
      InstalledGrows(cfg, s, l, c);
    }
  }

  lemma InstalledGrows(cfg: Config, s: State, l: Label, c: nat)
    requires Sized(s) && Enabled(cfg, s, l) && c in s.installed
    ensures c in Next(cfg, s, l).installed
  {
    GhostFrame(cfg, s, l);
    if l.Install? {
      assert Next(cfg, s, l) == NextInstall(s, l.t);
    }
  }

  /** Replays of installed connections are final. */
  lemma ReplayedStays(cfg: Config, s: State, l: Label, c: nat, x: nat)
    requires Alive(s) && Enabled(cfg, s, l) && Alive(Next(cfg, s, l)) && x in s.txns && ReplayedOn(s, c, x)
    requires x in Next(cfg, s, l).txns && Next(cfg, s, l).txns[x].sends == s.txns[x].sends
    ensures ReplayedOn(Next(cfg, s, l), c, x)
  {
    if Mover(l).Some? {
      EnteringAlone(s, l.t);
    }
    if s.live == Some(c) {
      LiveGrows(cfg, s, l);
    } else {
      Untouched(cfg, s, l, c);
    }
    InstalledGrows(cfg, s, l, c);
  }

  /** Nothing that was replayed is forgotten. */
  lemma ReplaysGrow(cfg: Config, s: State, l: Label, c: nat, r: Replayed)
    requires Sized(s) && Enabled(cfg, s, l) && c < |s.replays| && r in s.replays[c]
    ensures c < |Next(cfg, s, l).replays| && r in Next(cfg, s, l).replays[c]
  {
    GhostFrame(cfg, s, l);
    if l.Connected? {
      assert Next(cfg, s, l) == NextConnected(s, l.t);
    } else if l.ReplayNext? {
      assert SizedPc(s, PcOf(s, l.t)) && Next(cfg, s, l) == NextReplay(s, l.t);
    }
  }

  lemma StillRegistered(cfg: Config, s: State, l: Label, x: nat)
    requires Alive(s) && PhasesOk(s) && Enabled(cfg, s, l) && !l.Install? && x in s.registry
    requires Unconfirmed(s, x) && Unconfirmed(Next(cfg, s, l), x)
    ensures x in Next(cfg, s, l).registry
  {
    RegistryStep(cfg, s, l);
    if l.ExitOk? || l.ExitLost? {
      var pc := PcOf(s, l.t);
      assert PhasedPc(s, pc) && SizedPc(s, pc);
      assert Next(cfg, s, l) == NextFollow(cfg, s, l);
    }
  }

  /** What was replayed had begun, and what an installed connection replayed has left the registry. */
  predicate ReplaysOk(s: State)
    requires Sized(s)
  {
    forall c, r :: 0 <= c < |s.replays| && r in s.replays[c] ==> ReplayOk(s, c, r)
  }

  predicate ReplayOk(s: State, c: nat, r: Replayed)
  {
    r.txn in s.txns && s.txns[r.txn].phase != Beginning && (c in s.installed ==> r.txn !in s.registry)
  }

  /** The step writes the COMMIT that completes `r` on connection `c`, with the sends recorded then. */
  predicate Replays(s: State, l: Label, c: nat, r: Replayed)
  {
    && l.ReplayNext? && PcOf(s, l.t).Entering? && PcOf(s, l.t).conn == c
    && r.txn in s.txns && r.sends == s.txns[r.txn].sends
  }

  lemma ReplayOrigin(cfg: Config, s: State, l: Label, c: nat, r: Replayed)
    requires Alive(s) && PhasesOk(s) && Enabled(cfg, s, l) && Alive(Next(cfg, s, l))
    requires c < |Next(cfg, s, l).replays| && r in Next(cfg, s, l).replays[c]
    ensures c < |s.replays|
    ensures r in s.replays[c]
         || (Replays(s, l, c, r) && s.txns[r.txn].phase != Beginning && Wrote(cfg, s, l) == Some((c, Commit(r.txn))))
  {
    GhostFrame(cfg, s, l);
    if l.Connected? {
      assert Next(cfg, s, l) == NextConnected(s, l.t);
    } else if l.ReplayNext? {
      assert SizedPc(s, PcOf(s, l.t)) && PhasedPc(s, PcOf(s, l.t));
      assert Next(cfg, s, l) == NextReplay(s, l.t);
    }
  }

  lemma ReplaysOkStep(cfg: Config, s: State, l: Label)
    requires Alive(s) && PhasesOk(s) && ReplaysOk(s) && Enabled(cfg, s, l) && Alive(Next(cfg, s, l))
    ensures ReplaysOk(Next(cfg, s, l))
  {
    var s' := Next(cfg, s, l);
    forall c, r | 0 <= c < |s'.replays| && r in s'.replays[c] ensures ReplayOk(s', c, r) {
      ReplayOkStep(cfg, s, l, c, r);
    }
  }

  lemma ReplayOkStep(cfg: Config, s: State, l: Label, c: nat, r: Replayed)
    requires Alive(s) && PhasesOk(s) && ReplaysOk(s) && Enabled(cfg, s, l) && Alive(Next(cfg, s, l))
    requires c < |Next(cfg, s, l).replays| && r in Next(cfg, s, l).replays[c]
    ensures ReplayOk(Next(cfg, s, l), c, r)
  {
    ReplayOrigin(cfg, s, l, c, r);
    NeverBeginsAgain(cfg, s, l, r.txn);
    if c in Next(cfg, s, l).installed {
      ReplayedUnregistered(cfg, s, l, c, r);
    }
  }

  lemma ReplayedUnregistered(cfg: Config, s: State, l: Label, c: nat, r: Replayed)
    requires Alive(s) && PhasesOk(s) && ReplaysOk(s) && Enabled(cfg, s, l) && Alive(Next(cfg, s, l))
    requires c < |Next(cfg, s, l).replays| && r in Next(cfg, s, l).replays[c] && c in Next(cfg, s, l).installed
    ensures r.txn !in Next(cfg, s, l).registry
  {
    RegistryStep(cfg, s, l);
    GhostFrame(cfg, s, l);
    if !l.Install? {
      if l.ReplayNext? {
        EnteringAlone(s, l.t);
      }
      ReplayOrigin(cfg, s, l, c, r);
      assert r.txn in s.txns && s.txns[r.txn].phase != Beginning && r.txn !in s.registry;
      if l.DrainOk? {
        assert PhasedPc(s, s.tasks[l.t]);
      }
    }
  }

  predicate HasReplay(rs: seq<Replayed>, x: nat) { exists r :: r in rs && r.txn == x }

  /** No transaction is replayed by two installed connections. */
  ghost predicate ReplayedOnce(s: State)
    requires Sized(s)
  {
    forall c, d, x :: c in s.installed && d in s.installed && ReplaysOn(s, c, x) && ReplaysOn(s, d, x) ==> c == d
  }

  predicate ReplaysOn(s: State, c: nat, x: nat) { c < |s.replays| && HasReplay(s.replays[c], x) }

  lemma ReplayedOnceStep(cfg: Config, s: State, l: Label)
    requires Alive(s) && Prefaced(s) && ReplaysOk(s) && ReplayedOnce(s) && Enabled(cfg, s, l) && Alive(Next(cfg, s, l))
    ensures ReplayedOnce(Next(cfg, s, l))
  {
    var s' := Next(cfg, s, l);
    forall c, d, x | c in s'.installed && d in s'.installed && ReplaysOn(s', c, x) && ReplaysOn(s', d, x) ensures c == d {
      ReplayedBefore(cfg, s, l, c, x);
      ReplayedBefore(cfg, s, l, d, x);
    }
  }

  /** An installed connection that replayed `x` did so before; it is installed now only if `x` was still registered. */
  lemma ReplayedBefore(cfg: Config, s: State, l: Label, c: nat, x: nat)
    requires Alive(s) && Prefaced(s) && ReplaysOk(s) && Enabled(cfg, s, l) && Alive(Next(cfg, s, l))
    requires c in Next(cfg, s, l).installed && ReplaysOn(Next(cfg, s, l), c, x)
    ensures ReplaysOn(s, c, x)
    ensures if x in s.registry then Installs(s, l, c) else c in s.installed
  {
    InstalledOrigin(cfg, s, l, c);
    assert ReplaysOn(s, c, x);
    if l.Install? {
      InstallRegistered(cfg, s, l.t, c, x);
    } else {
      var r :| r in s.replays[c] && r.txn == x;
      assert ReplayOk(s, c, r);
    }
  }

  /** At an installation, a connection that replayed `x` is the new one if and only if `x` is registered. */
  lemma InstallRegistered(cfg: Config, s: State, t: nat, c: nat, x: nat)
    requires Alive(s) && Prefaced(s) && ReplaysOk(s) && Enabled(cfg, s, Install(t)) && ReplaysOn(s, c, x)
    ensures c == PcOf(s, t).conn ==> x in s.registry
    ensures c in s.installed ==> x !in s.registry
  {
    var r :| r in s.replays[c] && r.txn == x;
    assert ReplayOk(s, c, r);
    if c == PcOf(s, t).conn {
      InstalledReplayIsRegistered(cfg, s, t, r);
    }
  }

  /** An installed connection has replayed `x`. */
  predicate InstalledReplay(s: State, x: nat)
  {
    exists c :: 0 <= c < |s.replays| && c in s.installed && ReplaysOn(s, c, x)
  }

  /** Unless it is exited, a transaction leaves the registry only by a replay. */
  ghost predicate LeftByInstall(s: State)
  {
    forall x :: Phased(s, x, {Open, Orphaned}) && x !in s.registry ==> InstalledReplay(s, x)
  }

  lemma LeftByInstallStep(cfg: Config, s: State, l: Label)
    requires Alive(s) && Prefaced(s) && PhasesOk(s) && LeftByInstall(s) && Enabled(cfg, s, l) && Sized(Next(cfg, s, l))
    ensures LeftByInstall(Next(cfg, s, l))
  {
    var s' := Next(cfg, s, l);
    forall x | Phased(s', x, {Open, Orphaned}) && x !in s'.registry ensures InstalledReplay(s', x) {
      OpenOrigin(cfg, s, l, x);
      if x in s.registry {
        InstallReplaysSome(cfg, s, l.t, x);
      } else {
        var c :| 0 <= c < |s.replays| && c in s.installed && ReplaysOn(s, c, x);
        var r :| r in s.replays[c] && r.txn == x;
        ReplaysGrow(cfg, s, l, c, r);
        InstalledGrows(cfg, s, l, c);
        assert ReplaysOn(s', c, x);
      }
    }
  }

  /** An unregistered transaction that is open or orphaned was unregistered before, or an installation
      has just cleared the registry. */
  lemma OpenOrigin(cfg: Config, s: State, l: Label, x: nat)
    requires Alive(s) && PhasesOk(s) && Enabled(cfg, s, l)
    requires Phased(Next(cfg, s, l), x, {Open, Orphaned}) && x !in Next(cfg, s, l).registry
    ensures if x in s.registry then l.Install? else Phased(s, x, {Open, Orphaned})
  {
    RegistryStep(cfg, s, l);
    if x in s.txns {
      PhaseStep(cfg, s, l, x);
      if Next(cfg, s, l).txns[x].phase == Orphaned != s.txns[x].phase {
        OrphanOrigin(cfg, s, l, x);
      }
      if l.DrainOk? || l.ExitOk? || l.ExitLost? {
        assert PhasedPc(s, PcOf(s, l.t));
      }
    } else {
      NewTxns(cfg, s, l, x);
    }
  }

  /** A transaction is orphaned by a clean exit while it is not registered. */
  lemma OrphanOrigin(cfg: Config, s: State, l: Label, x: nat)
    requires Sized(s) && Enabled(cfg, s, l) && x in s.txns && Phased(Next(cfg, s, l), x, {Orphaned}) && s.txns[x].phase != Orphaned
    ensures l.ExitTxn? && l.txn == x && l.clean && x !in s.registry
  {
    PhaseStep(cfg, s, l, x);
    if l.ExitTxn? {
      assert Next(cfg, s, l) == NextExit(s, l.t, l.txn, l.clean);
    }
  }

  /** An installation has replayed every registered transaction. */
  lemma InstallReplaysSome(cfg: Config, s: State, t: nat, x: nat)
    requires Sized(s) && Prefaced(s) && Enabled(cfg, s, Install(t)) && x in s.registry
    ensures InstalledReplay(NextInstall(s, t), x)
  {
    var pc := PcOf(s, t);
    assert SizedPc(s, pc) && EnterOk(s, pc);
    assert x in SetOf(pc.stage.order);
    var i :| 0 <= i < |pc.stage.order| && pc.stage.order[i] == x;
    assert s.replays[pc.conn][i].txn == x && s.replays[pc.conn][i] in s.replays[pc.conn];
    assert ReplaysOn(NextInstall(s, t), pc.conn, x);
  }

  /** A replay is stale because it was, or because a send has just been recorded. */
  lemma StaleOrigin(cfg: Config, s: State, l: Label, c: nat, x: nat)
    requires Alive(s) && PhasesOk(s) && ReplaysOk(s) && Enabled(cfg, s, l) && Alive(Next(cfg, s, l))
    requires Opens(Next(cfg, s, l), c) && StaleOn(Next(cfg, s, l), c, x)
    ensures Opens(s, c) && x in s.txns
    ensures StaleOn(s, c, x) || Next(cfg, s, l).txns[x].sends != s.txns[x].sends
  {
    var s' := Next(cfg, s, l);
    var r :| r in s'.replays[c] && r.txn == x && r.sends != s'.txns[x].sends;
    ReplayOrigin(cfg, s, l, c, r);
    assert r in s.replays[c] ==> ReplayOk(s, c, r);
    OpensBefore(cfg, s, l, c);
  }

  /** A commit becomes unconfirmed only by the exit of a registered transaction. */
  lemma NewlyUnconfirmed(cfg: Config, s: State, l: Label, x: nat)
    requires Alive(s) && Enabled(cfg, s, l) && Unconfirmed(Next(cfg, s, l), x) && !Unconfirmed(s, x)
    ensures x in s.txns && l.ExitTxn? && l.txn == x && l.clean && x in s.registry
    ensures x in Next(cfg, s, l).registry && Next(cfg, s, l).txns[x].sends == s.txns[x].sends
    ensures Next(cfg, s, l).replays == s.replays && Next(cfg, s, l).phases == s.phases
    ensures s.live.None? ==> Next(cfg, s, l).txns[x].phase == CommitFailed
  {
    if x in s.txns {
      PhaseStep(cfg, s, l, x);
      assert l.ExitTxn? ==> Next(cfg, s, l) == NextExit(s, l.t, l.txn, l.clean);
    } else {
      NewTxns(cfg, s, l, x);
    }
  }

  /** A failed commit is final: its phase and its sends never change again. */
  lemma FailedStays(cfg: Config, s: State, l: Label, x: nat)
    requires Alive(s) && PhasesOk(s) && Enabled(cfg, s, l) && Phased(s, x, {CommitFailed})
    ensures x in Next(cfg, s, l).txns && Next(cfg, s, l).txns[x] == s.txns[x]
  {
    PhaseStep(cfg, s, l, x);
    SendsStep(cfg, s, l, x);
    if l.DrainOk? || l.ExitOk? || l.ExitLost? {
      assert PhasedPc(s, PcOf(s, l.t));
    }
  }

  /** The prologue of connection `c` holds, of transaction `x`, its sends in order and one COMMIT. */
  predicate ReplayedInFull(s: State, c: nat, x: nat)
    requires Sized(s) && x in s.txns
  {
    && c in s.installed && c < |s.logs|
    && PrologueOf(s.snapshots[c], s.replays[c]) <= s.logs[c]
    && Restrict(PrologueOf(s.snapshots[c], s.replays[c]), x) == Sends(x, s.txns[x].sends) + [Commit(x)]
  }

  lemma {:induction false} SendsInjective(x: nat, a: seq<nat>, b: seq<nat>)
    requires Sends(x, a) == Sends(x, b)
    ensures a == b
  {
    SendsLength(x, a);
    SendsLength(x, b);
    if a != [] {
      var n := |a| - 1;
      SendsLength(x, a[..n]);
      SendsLength(x, b[..n]);
      assert Sends(x, a)[..n] == Sends(x, a[..n]) && Sends(x, b)[..n] == Sends(x, b[..n]);
      assert Sends(x, a)[n] == Send(Some(x), a[n]) && Sends(x, b)[n] == Send(Some(x), b[n]);
      SendsInjective(x, a[..n], b[..n]);
      assert a == a[..n] + [a[n]] && b == b[..n] + [b[n]];
    }
  }

  lemma {:induction false} SendsLength(x: nat, bodies: seq<nat>)
    ensures |Sends(x, bodies)| == |bodies|
  {
    if bodies != [] { SendsLength(x, bodies[..|bodies| - 1]); }
  }

  /** The history of replays says what the logs say. */
  lemma InFullIffReplayed(s: State, c: nat, x: nat)
    requires Sized(s) && Prefaced(s) && x in s.txns
    ensures ReplayedInFull(s, c, x) <==> ReplayedOn(s, c, x)
  {
    if c in s.installed {
      assert InstalledOk(s, c);
      RestrictReplay(s.replays[c], x);
      RestrictPrologue(s.snapshots[c], s.replays[c], x);
      if ReplayedInFull(s, c, x) {
        var r :| r in s.replays[c] && r.txn == x;
        assert Sends(x, r.sends) == (Sends(x, r.sends) + [Commit(x)])[..|Sends(x, r.sends)|];
        assert Sends(x, s.txns[x].sends) == (Sends(x, s.txns[x].sends) + [Commit(x)])[..|Sends(x, s.txns[x].sends)|];
        SendsInjective(x, r.sends, s.txns[x].sends);
        assert r == Replayed(x, s.txns[x].sends);
      }
    }
  }

  /** Installing a connection that replays `x`: all of its sends if the replay is not stale. */
  lemma InstallReplays(cfg: Config, s: State, t: nat, x: nat)
    requires Alive(s) && Prefaced(s) && Enabled(cfg, s, Install(t)) && x in s.registry && x in s.txns
    requires !StaleOn(s, PcOf(s, t).conn, x) && Alive(NextInstall(s, t))
    ensures ReplayedOn(NextInstall(s, t), PcOf(s, t).conn, x)
  {
    var pc := PcOf(s, t);
    assert SizedPc(s, pc) && EnterOk(s, pc);
    assert x in SetOf(pc.stage.order);
    var i :| 0 <= i < |pc.stage.order| && pc.stage.order[i] == x;
    assert s.replays[pc.conn][i].txn == x && s.replays[pc.conn][i] in s.replays[pc.conn];
  }

  /** A connection can be installed only with replays of registered transactions. */
  lemma InstalledReplayIsRegistered(cfg: Config, s: State, t: nat, r: Replayed)
    requires Sized(s) && Prefaced(s) && Enabled(cfg, s, Install(t))
    requires PcOf(s, t).conn < |s.replays| && r in s.replays[PcOf(s, t).conn]
    ensures r.txn in s.registry
  {
    var pc := PcOf(s, t);
    assert SizedPc(s, pc) && EnterOk(s, pc);
    var i :| 0 <= i < |s.replays[pc.conn]| && s.replays[pc.conn][i] == r;
    assert pc.stage.order[i] in SetOf(pc.stage.order);
  }

  // ------------------------------------------------------------------------------------------
  // Exits inside the transaction's own block are not behind
  // ------------------------------------------------------------------------------------------

  /** A send recorded after its transaction was replayed is still waiting for the lock. */
  ghost predicate StaleWaits(s: State)
  {
    forall c, x :: Opens(s, c) && StaleOn(s, c, x) ==> SendWaits(s, x)
  }

  predicate SendWaits(s: State, x: nat)
  {
    exists u :: u in s.tasks && s.tasks[u].Waiting? && SendsIn(s.tasks[u], x)
  }

  /** A clean exit with no send of the transaction outstanding is behind no replay. */
  lemma QuietExitIsCurrent(s: State, l: Label, c: nat, x: nat)
    requires StaleWaits(s) && forall u :: u in s.tasks ==> !SendsIn(s.tasks[u], x)
    ensures !ExitsBehind(s, l, c, x)
  {
    assert !SendWaits(s, x);
  }

  /** While a connection is being entered nobody else gets the lock. */
  lemma WaitersWait(cfg: Config, s: State, l: Label, c: nat, x: nat)
    requires Alive(s) && Enabled(cfg, s, l) && Opens(s, c) && SendWaits(s, x)
    ensures SendWaits(Next(cfg, s, l), x)
  {
    var u :| u in s.tasks && s.tasks[u].Waiting? && SendsIn(s.tasks[u], x);
    OpensAlone(s, c);
    OneTaskMoves(cfg, s, l);
    assert Mover(l) != Some(u);
    assert Next(cfg, s, l).tasks[u] == s.tasks[u];
  }

  lemma OpensAlone(s: State, c: nat)
    requires Alive(s) && Opens(s, c)
    ensures s.lock.Some? && s.live.None? && c !in s.installed
  {
    EnteringAlone(s, s.lock.value);
  }

  lemma SpawnedSendWaits(cfg: Config, s: State, l: Label, x: nat)
    requires Alive(s) && Enabled(cfg, s, l) && s.live.None?
    requires l.Spawn? && l.goal.WriteSend? && l.goal.to == Some(x)
    ensures SendWaits(Next(cfg, s, l), x)
  {
    var s' := NextSpawn(s, l.t, l.goal);
    assert l.t in s'.tasks && s'.tasks[l.t] == Waiting(l.goal) && SendsIn(s'.tasks[l.t], x);
  }

  lemma StaleWaitsStep(cfg: Config, s: State, l: Label)
    requires Alive(s) && ReplaysOk(s) && PhasesOk(s) && StaleWaits(s) && Enabled(cfg, s, l) && Alive(Next(cfg, s, l))
    ensures StaleWaits(Next(cfg, s, l))
  {
    var s' := Next(cfg, s, l);
    forall c, x | Opens(s', c) && StaleOn(s', c, x) ensures SendWaits(s', x) {
      StaleWaitsOne(cfg, s, l, c, x);
    }
  }

  lemma StaleWaitsOne(cfg: Config, s: State, l: Label, c: nat, x: nat)
    requires Alive(s) && ReplaysOk(s) && PhasesOk(s) && StaleWaits(s) && Enabled(cfg, s, l) && Alive(Next(cfg, s, l))
    requires Opens(Next(cfg, s, l), c) && StaleOn(Next(cfg, s, l), c, x)
    ensures SendWaits(Next(cfg, s, l), x)
  {
    StaleOrigin(cfg, s, l, c, x);
    OpensAlone(s, c);
    SendsStep(cfg, s, l, x);
    if Next(cfg, s, l).txns[x].sends != s.txns[x].sends {
      SpawnedSendWaits(cfg, s, l, x);
    } else {
      WaitersWait(cfg, s, l, c, x);
    }
  }
}
