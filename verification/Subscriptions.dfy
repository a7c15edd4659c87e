/** Subscriptions: no connection carries two SUBSCRIBEs for one id, and what the snapshot of a
    connection has to do with its log. */
module Subscriptions {
  import opened Bytes
  import opened Session
  import opened Lifecycle
  import opened Effects
  import opened Messages
  import opened Prologue

  /** One SUBSCRIBE per started subscription at most, none for the others. */
  ghost predicate AtMostOnce(log: seq<Written>, started: set<Subscription>)
  {
    forall x :: Times(log, Subscribe(x)) <= if x in started then 1 else 0
  }

  ghost predicate LogsOk(s: State)
  {
    forall c :: 0 <= c < |s.logs| ==> AtMostOnce(s.logs[c], s.started)
  }

  predicate ListOk(xs: seq<Subscription>, started: set<Subscription>)
  {
    Distinct(xs) && forall x :: x in xs ==> x in started
  }

  predicate RegistryOk(s: State)
  {
    && ListOk(s.subs, s.started)
    && forall c :: 0 <= c < |s.snapshots| ==> ListOk(s.snapshots[c], s.started)
  }

  /** An id belongs to one subscription. */
  predicate IdsOk(started: set<Subscription>)
  {
    forall x, y :: x in started && y in started && x.id == y.id ==> x == y
  }

  predicate Pending(pc: Pc) { HasGoal(pc) && pc.goal.WriteSubscribe? }

  /** A subscription whose first SUBSCRIBE is not confirmed is in no list, belongs to one task, and
      is on no open connection but the one it is being drained to. */
  predicate PendingOk(s: State, t: nat, pc: Pc)
    requires Sized(s) && Pending(pc)
  {
    var x := pc.goal.sub;
    && x in s.started && Unlisted(s, x)
    && (forall u :: u in s.tasks && u != t && Pending(s.tasks[u]) ==> s.tasks[u].goal.sub != x)
    && CopiesOk(s, pc, x)
  }

  predicate CopiesOk(s: State, pc: Pc, x: Subscription)
    requires Sized(s)
  {
    && (forall c :: 0 <= c < |s.logs| && Times(s.logs[c], Subscribe(x)) > 0 ==>
          s.phases[c] == Closed || (pc.Draining? && pc.conn == c))
    && (pc.Draining? ==> pc.conn < |s.logs| && Times(s.logs[pc.conn], Subscribe(x)) == 1)
  }

  ghost predicate SubsOk(s: State)
    requires Sized(s)
  {
    && LogsOk(s)
    && RegistryOk(s)
    && forall t :: t in s.tasks && Pending(s.tasks[t]) ==> PendingOk(s, t, s.tasks[t])
  }

  // ------------------------------------------------------------------------------------------
  // Lists
  // ------------------------------------------------------------------------------------------

  lemma {:induction false} RemoveSubSpec(subs: seq<Subscription>, x: Subscription)
    ensures forall y :: y in RemoveSub(subs, x) <==> y in subs && y != x
    ensures Distinct(subs) ==> Distinct(RemoveSub(subs, x))
  {
    if subs != [] {
      RemoveSubSpec(subs[1..], x);
      assert forall y :: y in subs <==> y == subs[0] || y in subs[1..];
      if Distinct(subs) {
        assert subs[0] !in subs[1..];
      }
    }
  }

  lemma {:induction false} TimesSubscribes(subs: seq<Subscription>, x: Subscription)
    requires Distinct(subs)
    ensures Times(Subscribes(subs), Subscribe(x)) == if x in subs then 1 else 0
  {
    if subs != [] {
      var n := |subs| - 1;
      TimesSubscribes(subs[..n], x);
      TimesAppend(Subscribes(subs[..n]), Subscribe(subs[n]), Subscribe(x));
      assert x in subs <==> x in subs[..n] || x == subs[n];
      assert subs[n] !in subs[..n];
    }
  }

  /** Before a resubscription its SUBSCRIBE is not on the new connection. */
  lemma NextResubscriptionIsFresh(s: State, t: nat)
    requires Sized(s) && RegistryOk(s) && PcOf(s, t).Entering? && EnterOk(s, PcOf(s, t))
    requires PcOf(s, t).stage.Resubscribing? && PcOf(s, t).stage.todo != []
    ensures Times(s.logs[PcOf(s, t).conn], Subscribe(PcOf(s, t).stage.todo[0])) == 0
    ensures PcOf(s, t).stage.todo[0] in s.snapshots[PcOf(s, t).conn]
  {
    var pc := PcOf(s, t);
    var snapshot, todo := s.snapshots[pc.conn], pc.stage.todo;
    var k := |snapshot| - |todo|;
    var x := todo[0];
    assert snapshot[k] == x && x !in snapshot[..k];
    TimesSubscribes(snapshot[..k], x);
    assert multiset([Connect] + Subscribes(snapshot[..k])) == multiset([Connect]) + multiset(Subscribes(snapshot[..k]));
  }

  // ------------------------------------------------------------------------------------------
  // Every step
  // ------------------------------------------------------------------------------------------

  /** A SUBSCRIBE is written by the subscribing task or by a resubscription. */
  lemma SubscribeWriters(cfg: Config, s: State, l: Label)
    requires Sized(s) && Enabled(cfg, s, l) && Wrote(cfg, s, l).Some? && Wrote(cfg, s, l).value.1.Subscribe?
    ensures var x := Wrote(cfg, s, l).value.1.sub;
            || (l.Spawn? && l.goal == WriteSubscribe(x))
            || ((l.Resume? || l.Acquire?) && Pending(PcOf(s, l.t)) && !PcOf(s, l.t).Draining? && PcOf(s, l.t).goal.sub == x)
            || (l.ResubscribeNext? && x == PcOf(s, l.t).stage.todo[0])
  {
  }

  /** The SUBSCRIBE of a step is new on its connection. */
  lemma WrittenSubscribeIsFresh(cfg: Config, s: State, l: Label)
    requires Alive(s) && Prefaced(s) && SubsOk(s) && Enabled(cfg, s, l)
    requires Wrote(cfg, s, l).Some? && Wrote(cfg, s, l).value.1.Subscribe?
    ensures var (c, w) := Wrote(cfg, s, l).value;
            c < |s.logs| && Times(s.logs[c], w) == 0 && (w.sub in s.started || l == Spawn(l.t, WriteSubscribe(w.sub)))
  {
    LogsGrow(cfg, s, l);
    SubscribeWriters(cfg, s, l);
    WroteWhere(cfg, s, l);
    var (c, w) := Wrote(cfg, s, l).value;
    assert AtMostOnce(s.logs[c], s.started);
    if l.ResubscribeNext? {
      assert EnterOk(s, PcOf(s, l.t));
      NextResubscriptionIsFresh(s, l.t);
      assert ListOk(s.snapshots[c], s.started);
    } else if !l.Spawn? {
      assert PendingOk(s, l.t, PcOf(s, l.t));
      assert s.phases[c] == Active;
    }
  }

  lemma StartedFrame(cfg: Config, s: State, l: Label)
    requires Sized(s) && Enabled(cfg, s, l)
    ensures Next(cfg, s, l).started
         == if l.Spawn? && l.goal.WriteSubscribe? then s.started + {l.goal.sub} else s.started
    ensures !l.DrainOk? && !l.Unsub? ==> Next(cfg, s, l).subs == s.subs
  {
    if Reconnects(l) {
      assert l.ReplayNext? ==> SizedPc(s, PcOf(s, l.t));
      assert Next(cfg, s, l) == NextReconnect(cfg, s, l);
    } else if Follows(l) {
      assert l.ExitOk? || l.ExitLost? || l.DrainOk? ==> SizedPc(s, PcOf(s, l.t));
      assert Next(cfg, s, l) == NextFollow(cfg, s, l);
    } else {
      assert l.Dispatch? ==> SizedPc(s, PcOf(s, l.t));
      assert Next(cfg, s, l) == NextClient(cfg, s, l);
    }
  }

  lemma IdsOkStep(cfg: Config, s: State, l: Label)
    requires Sized(s) && IdsOk(s.started) && Enabled(cfg, s, l)
    ensures IdsOk(Next(cfg, s, l).started)
  {
    StartedFrame(cfg, s, l);
  }

  /** The registry is keyed by id. */
  lemma RegisteredIds(s: State)
    requires RegistryOk(s) && IdsOk(s.started)
    ensures DistinctIds(s.subs)
  {
  }

  /** No log carries two SUBSCRIBEs with one id. */
  lemma SubscribedIds(log: seq<Written>, started: set<Subscription>, i: nat, j: nat)
    requires AtMostOnce(log, started) && IdsOk(started) && i < j < |log| && log[i].Subscribe? && log[j].Subscribe?
    ensures log[i].sub.id != log[j].sub.id
  {
    var x, y := log[i].sub, log[j].sub;
    assert Times(log, Subscribe(x)) > 0 && Times(log, Subscribe(y)) > 0;
    assert x in started && y in started;
    TwiceCounts(log, i, j);
  }

  lemma TwiceCounts(log: seq<Written>, i: nat, j: nat)
    requires i < j < |log|
    ensures log[i] == log[j] ==> Times(log, log[i]) >= 2
  {
    assert log == log[..j] + log[j..];
    assert multiset(log) == multiset(log[..j]) + multiset(log[j..]);
    assert log[..j][i] == log[i] && log[j..][0] == log[j];
    assert log[i] in multiset(log[..j]) && log[j] in multiset(log[j..]);
  }

  lemma LogsOkStep(cfg: Config, s: State, l: Label)
    requires Alive(s) && Prefaced(s) && SubsOk(s) && Enabled(cfg, s, l)
    ensures LogsOk(Next(cfg, s, l))
  {
    var s' := Next(cfg, s, l);
    LogsGrow(cfg, s, l);
    StartedFrame(cfg, s, l);
    forall c | 0 <= c < |s'.logs| ensures AtMostOnce(s'.logs[c], s'.started) {
      if c < |s.logs| {
        LogGrows(cfg, s, l, c);
        AtMostOnceStep(cfg, s, l, c);
      }
    }
  }

  lemma AtMostOnceStep(cfg: Config, s: State, l: Label, c: nat)
    requires Alive(s) && Prefaced(s) && SubsOk(s) && Enabled(cfg, s, l) && c < |s.logs|
    ensures var w := Wrote(cfg, s, l);
            AtMostOnce(if w.Some? && w.value.0 == c then s.logs[c] + [w.value.1] else s.logs[c],
                       if l.Spawn? && l.goal.WriteSubscribe? then s.started + {l.goal.sub} else s.started)
  {
    var w := Wrote(cfg, s, l);
    assert AtMostOnce(s.logs[c], s.started);
    if w.Some? && w.value.0 == c {
      if w.value.1.Subscribe? {
        WrittenSubscribeIsFresh(cfg, s, l);
      }
      forall x ensures Times(s.logs[c] + [w.value.1], Subscribe(x))
                       == Times(s.logs[c], Subscribe(x)) + if w.value.1 == Subscribe(x) then 1 else 0 {
        TimesAppend(s.logs[c], w.value.1, Subscribe(x));
      }
    }
  }

  lemma RegistryOkStep(cfg: Config, s: State, l: Label)
    requires Alive(s) && SubsOk(s) && Enabled(cfg, s, l)
    ensures RegistryOk(Next(cfg, s, l))
  {
    var s' := Next(cfg, s, l);
    StartedFrame(cfg, s, l);
    GhostFrame(cfg, s, l);
    if l.Unsub? {
      RemoveSubSpec(s.subs, l.sub);
    } else if l.DrainOk? {
      var pc := PcOf(s, l.t);
      assert SizedPc(s, pc) && s' == NextDrainOk(s, l.t);
      if Pending(pc) {
        assert PendingOk(s, l.t, pc);
        assert s'.subs == s.subs + [pc.goal.sub];
      }
    } else if l.HandshakeDone? {
      assert SizedPc(s, PcOf(s, l.t)) && s' == NextHandshake(s, l.t);
    } else if l.Connected? {
      assert s' == NextConnected(s, l.t);
    }
  }

  /** A task that is still pending was pending before, or has just started; it is draining exactly
      when the step wrote its SUBSCRIBE. */
  lemma PendingMover(cfg: Config, s: State, l: Label, t: nat)
    requires Sized(s) && Enabled(cfg, s, l) && Reconnects(l) && l.t == t && Pending(PcAfter(cfg, s, l))
    ensures var pc, pc' := PcOf(s, t), PcAfter(cfg, s, l);
            || (Pending(pc) && pc.goal == pc'.goal && !pc.Draining?)
            || l == Spawn(t, pc'.goal)
    ensures var pc' := PcAfter(cfg, s, l);
            && (pc'.Draining? ==> Wrote(cfg, s, l) == Some((pc'.conn, Subscribe(pc'.goal.sub))))
            && (Wrote(cfg, s, l).Some? && Wrote(cfg, s, l).value.1 == Subscribe(pc'.goal.sub) && !l.ResubscribeNext? ==>
                  pc'.Draining?)
  {
  }

  lemma OtherPendingMover(cfg: Config, s: State, l: Label)
    requires Sized(s) && Enabled(cfg, s, l) && !Reconnects(l) && Mover(l).Some?
    ensures Pending(PcAfter(cfg, s, l)) ==>
              l.DrainLost? && Pending(PcOf(s, l.t)) && PcAfter(cfg, s, l) == Want(PcOf(s, l.t).goal)
  {
  }

  /** Closed connections stay closed. */
  lemma ClosedStays(cfg: Config, s: State, l: Label)
    requires Alive(s) && Enabled(cfg, s, l)
    ensures |s.phases| <= |Next(cfg, s, l).phases|
    ensures forall c :: 0 <= c < |s.phases| && s.phases[c] == Closed ==> Next(cfg, s, l).phases[c] == Closed
  {
    if Reconnects(l) {
      ReconnectCloses(cfg, s, l);
    } else if Follows(l) {
      FollowCloses(cfg, s, l);
    } else {
      assert l.Dispatch? ==> SizedPc(s, PcOf(s, l.t));
      assert Next(cfg, s, l) == NextClient(cfg, s, l);
    }
  }

  lemma ReconnectCloses(cfg: Config, s: State, l: Label)
    requires Alive(s) && Enabled(cfg, s, l) && Reconnects(l)
    ensures |s.phases| <= |NextReconnect(cfg, s, l).phases|
    ensures forall c :: 0 <= c < |s.phases| && s.phases[c] == Closed ==> NextReconnect(cfg, s, l).phases[c] == Closed
  {
    var s' := NextReconnect(cfg, s, l);
    assert l.ReplayNext? || l.EnterFails? ==> SizedPc(s, PcOf(s, l.t));
    if l.Install? {
      assert TaskOk(s, l.t, PcOf(s, l.t)) && s'.phases == s.phases[PcOf(s, l.t).conn := Active];
    } else if l.EnterFails? {
      assert s'.phases == s.phases[PcOf(s, l.t).conn := Closed];
    } else if l.Connected? {
      assert s'.phases == s.phases + [Opening];
    } else {
      assert s'.phases == s.phases;
    }
  }

  lemma FollowCloses(cfg: Config, s: State, l: Label)
    requires Sized(s) && Enabled(cfg, s, l) && Follows(l)
    ensures |s.phases| <= |NextFollow(cfg, s, l).phases|
    ensures forall c :: 0 <= c < |s.phases| && s.phases[c] == Closed ==> NextFollow(cfg, s, l).phases[c] == Closed
  {
    assert l.ExitOk? || l.ExitLost? || l.DrainOk? ==> SizedPc(s, PcOf(s, l.t));
  }

  /** In no list: neither registered nor in a snapshot. */
  predicate Unlisted(s: State, x: Subscription)
  {
    x !in s.subs && forall c :: 0 <= c < |s.snapshots| ==> x !in s.snapshots[c]
  }

  /** What is in no list stays so until its registration. */
  lemma UnlistedStays(cfg: Config, s: State, l: Label, x: Subscription)
    requires Sized(s) && Enabled(cfg, s, l) && Unlisted(s, x)
    requires l.DrainOk? ==> PcOf(s, l.t).goal != WriteSubscribe(x)
    ensures Unlisted(Next(cfg, s, l), x)
  {
    var s' := Next(cfg, s, l);
    StartedFrame(cfg, s, l);
    GhostFrame(cfg, s, l);
    if l.Unsub? {
      RemoveSubSpec(s.subs, l.sub);
    } else if l.DrainOk? {
      assert SizedPc(s, PcOf(s, l.t)) && s' == NextDrainOk(s, l.t);
    } else if l.HandshakeDone? {
      assert SizedPc(s, PcOf(s, l.t)) && s' == NextHandshake(s, l.t);
    } else if l.Connected? {
      assert s' == NextConnected(s, l.t);
    }
  }

  lemma PendingUnwritten(cfg: Config, s: State, l: Label, u: nat)
    requires Alive(s) && Prefaced(s) && SubsOk(s) && Enabled(cfg, s, l)
    requires u in s.tasks && Pending(s.tasks[u]) && Mover(l) != Some(u)
    ensures Wrote(cfg, s, l).Some? ==> Wrote(cfg, s, l).value.1 != Subscribe(s.tasks[u].goal.sub)
  {
    assert PendingOk(s, u, s.tasks[u]);
    if Wrote(cfg, s, l).Some? && Wrote(cfg, s, l).value.1.Subscribe? {
      SubscribeWriters(cfg, s, l);
      if l.ResubscribeNext? {
        assert EnterOk(s, PcOf(s, l.t));
        NextResubscriptionIsFresh(s, l.t);
      }
    }
  }

  /** The SUBSCRIBEs of `x` are where they were. */
  lemma TimesStay(cfg: Config, s: State, l: Label, x: Subscription)
    requires Sized(s) && Enabled(cfg, s, l)
    requires Wrote(cfg, s, l).Some? ==> Wrote(cfg, s, l).value.1 != Subscribe(x)
    ensures |s.logs| <= |Next(cfg, s, l).logs|
    ensures forall c :: 0 <= c < |s.logs| ==> Times(Next(cfg, s, l).logs[c], Subscribe(x)) == Times(s.logs[c], Subscribe(x))
    ensures forall c :: |s.logs| <= c < |Next(cfg, s, l).logs| ==> Times(Next(cfg, s, l).logs[c], Subscribe(x)) == 0
  {
    LogsGrow(cfg, s, l);
    var w := Wrote(cfg, s, l);
    if w.Some? {
      TimesAppend(s.logs[w.value.0], w.value.1, Subscribe(x));
    }
  }

  /** A pending task was pending before with the same goal, or has just been started. */
  lemma GoalOrigin(cfg: Config, s: State, l: Label, t: nat)
    requires Sized(s) && Enabled(cfg, s, l) && t in Next(cfg, s, l).tasks && Pending(Next(cfg, s, l).tasks[t])
    ensures var goal := Next(cfg, s, l).tasks[t].goal;
            (t in s.tasks && Pending(s.tasks[t]) && s.tasks[t].goal == goal) || (l.Spawn? && l.t == t && l.goal == goal)
  {
    OneTaskMoves(cfg, s, l);
    if Mover(l) == Some(t) {
      if Reconnects(l) { PendingMover(cfg, s, l, t); } else { OtherPendingMover(cfg, s, l); }
    }
  }

  lemma UniqueGoals(cfg: Config, s: State, l: Label, t: nat, u: nat)
    requires Alive(s) && SubsOk(s) && Enabled(cfg, s, l)
    requires t in Next(cfg, s, l).tasks && u in Next(cfg, s, l).tasks && t != u
    requires Pending(Next(cfg, s, l).tasks[t]) && Pending(Next(cfg, s, l).tasks[u])
    ensures Next(cfg, s, l).tasks[t].goal.sub != Next(cfg, s, l).tasks[u].goal.sub
  {
    GoalOrigin(cfg, s, l, t);
    GoalOrigin(cfg, s, l, u);
    assert t in s.tasks && Pending(s.tasks[t]) ==> PendingOk(s, t, s.tasks[t]);
    assert u in s.tasks && Pending(s.tasks[u]) ==> PendingOk(s, u, s.tasks[u]);
  }

  lemma BystanderPends(cfg: Config, s: State, l: Label, u: nat)
    requires Alive(s) && Prefaced(s) && SubsOk(s) && Enabled(cfg, s, l) && Sized(Next(cfg, s, l))
    requires u in s.tasks && Pending(s.tasks[u]) && Mover(l) != Some(u)
    ensures u in Next(cfg, s, l).tasks && Next(cfg, s, l).tasks[u] == s.tasks[u]
    ensures PendingOk(Next(cfg, s, l), u, s.tasks[u])
  {
    var s', x := Next(cfg, s, l), s.tasks[u].goal.sub;
    OneTaskMoves(cfg, s, l);
    StartedFrame(cfg, s, l);
    assert PendingOk(s, u, s.tasks[u]);
    PendingUnwritten(cfg, s, l, u);
    UnlistedStays(cfg, s, l, x);
    CopiesStay(cfg, s, l, s.tasks[u], x);
    forall v | v in s'.tasks && v != u && Pending(s'.tasks[v]) ensures s'.tasks[v].goal.sub != x {
      UniqueGoals(cfg, s, l, v, u);
    }
  }

  lemma MoverPends(cfg: Config, s: State, l: Label)
    requires Alive(s) && Prefaced(s) && SubsOk(s) && Enabled(cfg, s, l) && Sized(Next(cfg, s, l))
    requires Reconnects(l) && l.t in Next(cfg, s, l).tasks && Pending(Next(cfg, s, l).tasks[l.t])
    ensures PendingOk(Next(cfg, s, l), l.t, Next(cfg, s, l).tasks[l.t])
  {
    var s', t := Next(cfg, s, l), l.t;
    var pc' := s'.tasks[t];
    var x := pc'.goal.sub;
    MoverPc(cfg, s, l);
    MoverBefore(cfg, s, l, pc', x);
    StartedFrame(cfg, s, l);
    UnlistedStays(cfg, s, l, x);
    if pc'.Draining? {
      CopyDrains(cfg, s, l, pc', x);
    } else {
      CopiesStay(cfg, s, l, pc', x);
    }
    forall v | v in s'.tasks && v != t && Pending(s'.tasks[v]) ensures s'.tasks[v].goal.sub != x {
      UniqueGoals(cfg, s, l, v, t);
    }
  }

  /** Before the step, the mover's subscription is in no list and on closed connections only; if it is
      drained afterwards, the step has written it for the first time, and otherwise not at all. */
  lemma MoverBefore(cfg: Config, s: State, l: Label, pc': Pc, x: Subscription)
    requires Alive(s) && Prefaced(s) && SubsOk(s) && Enabled(cfg, s, l) && Reconnects(l)
    requires pc' == PcAfter(cfg, s, l) && Pending(pc') && pc'.goal.sub == x
    ensures (x in s.started || l == Spawn(l.t, WriteSubscribe(x))) && Unlisted(s, x) && CopiesOk(s, Idle, x)
    ensures if pc'.Draining? then Wrote(cfg, s, l) == Some((pc'.conn, Subscribe(x))) && s.live == Some(pc'.conn)
            else Wrote(cfg, s, l).Some? ==> Wrote(cfg, s, l).value.1 != Subscribe(x)
  {
    PendingMover(cfg, s, l, l.t);
    if l.Spawn? {
      assert forall c :: 0 <= c < |s.logs| ==> AtMostOnce(s.logs[c], s.started);
      assert forall c :: 0 <= c < |s.snapshots| ==> ListOk(s.snapshots[c], s.started);
    } else {
      assert PendingOk(s, l.t, PcOf(s, l.t));
    }
    if l.ResubscribeNext? {
      assert EnterOk(s, PcOf(s, l.t));
      NextResubscriptionIsFresh(s, l.t);
    } else if pc'.Draining? {
      WroteWhere(cfg, s, l);
    }
  }

  lemma CopyDrains(cfg: Config, s: State, l: Label, pc: Pc, x: Subscription)
    requires Alive(s) && Enabled(cfg, s, l) && Sized(Next(cfg, s, l)) && CopiesOk(s, Idle, x) && pc.Draining?
    requires Wrote(cfg, s, l) == Some((pc.conn, Subscribe(x))) && s.live == Some(pc.conn)
    ensures CopiesOk(Next(cfg, s, l), pc, x)
  {
    assert s.phases[pc.conn] == Active;
    ClosedStays(cfg, s, l);
    LogsGrow(cfg, s, l);
    assert !l.Connected?;
    DrainingCopies(s, Next(cfg, s, l), pc, x);
  }

  lemma CopiesStay(cfg: Config, s: State, l: Label, pc: Pc, x: Subscription)
    requires Alive(s) && Enabled(cfg, s, l) && Sized(Next(cfg, s, l)) && CopiesOk(s, pc, x)
    requires Wrote(cfg, s, l).Some? ==> Wrote(cfg, s, l).value.1 != Subscribe(x)
    ensures CopiesOk(Next(cfg, s, l), pc, x)
  {
    ClosedStays(cfg, s, l);
    TimesStay(cfg, s, l, x);
  }

  lemma DrainingCopies(s: State, s': State, pc: Pc, x: Subscription)
    requires Sized(s) && Sized(s') && CopiesOk(s, Idle, x) && pc.Draining? && pc.conn < |s.logs|
    requires s'.logs == s.logs[pc.conn := s.logs[pc.conn] + [Subscribe(x)]] && Times(s.logs[pc.conn], Subscribe(x)) == 0
    requires forall c :: 0 <= c < |s.phases| && s.phases[c] == Closed ==> s'.phases[c] == Closed
    ensures CopiesOk(s', pc, x)
  {
    TimesAppend(s.logs[pc.conn], Subscribe(x), Subscribe(x));
  }

  /** A drain that failed: the subscription is on closed connections only. */
  lemma LoserPends(cfg: Config, s: State, t: nat)
    requires Alive(s) && Prefaced(s) && SubsOk(s) && Enabled(cfg, s, DrainLost(t)) && Sized(Next(cfg, s, DrainLost(t)))
    requires Pending(PcOf(s, t))
    ensures PendingOk(Next(cfg, s, DrainLost(t)), t, Want(PcOf(s, t).goal))
  {
    var pc := PcOf(s, t);
    var s' := Next(cfg, s, DrainLost(t));
    assert PendingOk(s, t, pc) && TaskOk(s, t, pc) && SizedPc(s, pc);
    ClosedStays(cfg, s, DrainLost(t));
    OneTaskMoves(cfg, s, DrainLost(t));
    assert s' == SetPc(Discard(s, pc.conn), t, Want(pc.goal));
    forall v | v in s'.tasks && v != t && Pending(s'.tasks[v]) ensures s'.tasks[v].goal.sub != pc.goal.sub {
      assert s.tasks[v] == s'.tasks[v];
    }
  }

  lemma SubsOkStep(cfg: Config, s: State, l: Label)
    requires Alive(s) && Prefaced(s) && SubsOk(s) && Enabled(cfg, s, l) && Sized(Next(cfg, s, l))
    ensures SubsOk(Next(cfg, s, l))
  {
    var s' := Next(cfg, s, l);
    LogsOkStep(cfg, s, l);
    RegistryOkStep(cfg, s, l);
    OneTaskMoves(cfg, s, l);
    forall u | u in s'.tasks && Pending(s'.tasks[u]) ensures PendingOk(s', u, s'.tasks[u]) {
      if Mover(l) != Some(u) {
        BystanderPends(cfg, s, l, u);
      } else if Reconnects(l) {
        MoverPends(cfg, s, l);
      } else {
        OtherPendingMover(cfg, s, l);
        LoserPends(cfg, s, u);
      }
    }
  }

  /** Unsubscribed: started, not registered, and no task is about to register it. */
  predicate Gone(s: State, x: Subscription)
  {
    x in s.started && x !in s.subs && forall t :: t in s.tasks && Pending(s.tasks[t]) ==> s.tasks[t].goal.sub != x
  }

  lemma UnsubscribedIsGone(cfg: Config, s: State, x: Subscription)
    requires Sized(s) && SubsOk(s) && x in s.subs
    ensures Gone(Next(cfg, s, Unsub(x)), x)
  {
    RemoveSubSpec(s.subs, x);
    OneTaskMoves(cfg, s, Unsub(x));
    forall t | t in s.tasks && Pending(s.tasks[t]) ensures s.tasks[t].goal.sub != x {
      assert PendingOk(s, t, s.tasks[t]);
    }
  }

  /** What is gone never comes back. */
  lemma GoneStays(cfg: Config, s: State, l: Label, x: Subscription)
    requires Sized(s) && Enabled(cfg, s, l) && Gone(s, x)
    ensures Gone(Next(cfg, s, l), x)
  {
    var s' := Next(cfg, s, l);
    StartedFrame(cfg, s, l);
    OneTaskMoves(cfg, s, l);
    if l.DrainOk? && Pending(PcOf(s, l.t)) {
      assert s'.subs == s.subs + [PcOf(s, l.t).goal.sub];
    } else {
      SubsShrink(cfg, s, l);
    }
    forall t | t in s'.tasks && Pending(s'.tasks[t]) ensures s'.tasks[t].goal.sub != x {
      if Mover(l) == Some(t) {
        if Reconnects(l) { PendingMover(cfg, s, l, t); } else { OtherPendingMover(cfg, s, l); }
      }
    }
  }

  // ------------------------------------------------------------------------------------------
  // Snapshots and the live connection
  // ------------------------------------------------------------------------------------------

  /** enter() has taken its snapshot of the registry. */
  predicate PastSnapshot(pc: Pc) { pc.Entering? && !pc.stage.Handshake? }

  lemma {:induction false} NoSubscribeInReplay(rs: seq<Replayed>, x: Subscription)
    ensures Times(ReplayLog(rs), Subscribe(x)) == 0
  {
    if rs != [] {
      var r := rs[|rs| - 1];
      NoSubscribeInReplay(rs[..|rs| - 1], x);
      NoSubscribeInSends(r.txn, r.sends, x);
      TimesAppend(Sends(r.txn, r.sends), Commit(r.txn), Subscribe(x));
      assert multiset(ReplayLog(rs)) == multiset(ReplayLog(rs[..|rs| - 1])) + multiset(Sends(r.txn, r.sends) + [Commit(r.txn)]);
    }
  }

  lemma {:induction false} NoSubscribeInSends(y: nat, bodies: seq<nat>, x: Subscription)
    ensures Times(Sends(y, bodies), Subscribe(x)) == 0
  {
    if bodies != [] {
      var n := |bodies| - 1;
      NoSubscribeInSends(y, bodies[..n], x);
      TimesAppend(Sends(y, bodies[..n]), Send(Some(y), bodies[n]), Subscribe(x));
    }
  }

  /** A prologue subscribes exactly to its snapshot, once each. */
  lemma TimesInPrologue(snapshot: seq<Subscription>, rs: seq<Replayed>, x: Subscription)
    requires Distinct(snapshot)
    ensures Times(PrologueOf(snapshot, rs), Subscribe(x)) == if x in snapshot then 1 else 0
  {
    TimesSubscribes(snapshot, x);
    NoSubscribeInReplay(rs, x);
    assert multiset(PrologueOf(snapshot, rs))
        == multiset([Connect]) + multiset(Subscribes(snapshot)) + multiset(ReplayLog(rs));
  }

  lemma SubsShrink(cfg: Config, s: State, l: Label)
    requires Sized(s) && Enabled(cfg, s, l) && !(l.DrainOk? && Pending(PcOf(s, l.t)))
    ensures forall x :: x in Next(cfg, s, l).subs ==> x in s.subs
  {
    StartedFrame(cfg, s, l);
    if l.Unsub? {
      RemoveSubSpec(s.subs, l.sub);
    } else if l.DrainOk? {
      assert SizedPc(s, PcOf(s, l.t)) && Next(cfg, s, l) == NextDrainOk(s, l.t);
    }
  }

  /** Apart from an installation, a step leaves the live connection or ends it. */
  lemma LiveFrame(cfg: Config, s: State, l: Label)
    requires Sized(s) && Enabled(cfg, s, l) && !l.Install?
    ensures Next(cfg, s, l).live == s.live || Next(cfg, s, l).live.None?
  {
    if Reconnects(l) {
      assert l.ReplayNext? ==> SizedPc(s, PcOf(s, l.t));
      assert Next(cfg, s, l) == NextReconnect(cfg, s, l);
    } else if Follows(l) {
      assert l.ExitOk? || l.ExitLost? || l.DrainOk? ==> SizedPc(s, PcOf(s, l.t));
      assert Next(cfg, s, l) == NextFollow(cfg, s, l);
    } else {
      assert l.Dispatch? ==> SizedPc(s, PcOf(s, l.t));
      assert Next(cfg, s, l) == NextClient(cfg, s, l);
    }
  }

  /** A task past its snapshot was there before, on the same snapshot, or takes it now. */
  lemma SnapshotsStay(cfg: Config, s: State, l: Label, u: nat)
    requires Alive(s) && Enabled(cfg, s, l) && Alive(Next(cfg, s, l))
    requires u in Next(cfg, s, l).tasks && PastSnapshot(Next(cfg, s, l).tasks[u])
    ensures var s' := Next(cfg, s, l);
            var c := s'.tasks[u].conn;
            c < |s'.logs| && ((l == HandshakeDone(u) && s'.snapshots[c] == s.subs)
            || (u in s.tasks && PastSnapshot(s.tasks[u]) && s.tasks[u].conn == c && c < |s.logs| && s'.snapshots[c] == s.snapshots[c]))
  {
    OneTaskMoves(cfg, s, l);
    if Mover(l) != Some(u) {
      BystanderSnapshot(cfg, s, l, u);
    } else if Reconnects(l) {
      MoverSnapshot(cfg, s, l);
      EnteringAlone(Next(cfg, s, l), u);
    } else {
      OnlyReconnectorsEnter(cfg, s, l);
    }
  }

  lemma BystanderSnapshot(cfg: Config, s: State, l: Label, u: nat)
    requires Alive(s) && Enabled(cfg, s, l) && Alive(Next(cfg, s, l)) && u in s.tasks && s.tasks[u].Entering? && Mover(l) != Some(u)
    ensures var s', c := Next(cfg, s, l), s.tasks[u].conn;
            c < |s.logs| && c < |s'.logs| && s'.snapshots[c] == s.snapshots[c]
  {
    EnteringAlone(s, u);
    if Mover(l).Some? {
      EnteringAlone(s, Mover(l).value);
    }
    Untouched(cfg, s, l, s.tasks[u].conn);
  }

  lemma MoverSnapshot(cfg: Config, s: State, l: Label)
    requires Sized(s) && Enabled(cfg, s, l) && Reconnects(l) && PastSnapshot(PcAfter(cfg, s, l))
    ensures var s', pc, pc' := NextReconnect(cfg, s, l), PcOf(s, l.t), PcAfter(cfg, s, l);
            && pc.Entering? && pc'.conn == pc.conn < |s.logs| && |s'.snapshots| == |s.snapshots|
            && ((l.HandshakeDone? && s'.snapshots[pc.conn] == s.subs)
                || (PastSnapshot(pc) && s'.snapshots[pc.conn] == s.snapshots[pc.conn]))
  {
    if l.HandshakeDone? || l.ResubscribeNext? || l.StartReplay? || l.ReplayNext? {
      assert SizedPc(s, PcOf(s, l.t));
    } else if !l.Connected? {
      LeavesEnter(cfg, s, l);
    }
  }

  lemma TimesGrow(a: seq<Written>, b: seq<Written>, w: Written)
    requires a <= b
    ensures Times(a, w) <= Times(b, w)
  {
    assert b == a + b[|a|..];
    assert multiset(b) == multiset(a) + multiset(b[|a|..]);
  }
}
