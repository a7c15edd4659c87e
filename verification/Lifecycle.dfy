/** What every run keeps about connections: one live at a time, behind one lock, counted by epochs. */
module Lifecycle {
  import opened Bytes
  import opened Session

  predicate HoldsLock(pc: Pc) { pc.Holding? || pc.Entering? }

  /** The connections: which were installed, which one is live, what became of the others. */
  predicate ConnsOk(phases: seq<Phase>, live: Option<nat>, count: nat, installed: seq<nat>)
  {
    && |installed| == count + (if live.Some? then 1 else 0)
    && (live.Some? ==> installed[count] == live.value)
    && (forall i :: 0 <= i < |installed| ==> installed[i] < |phases| && phases[installed[i]] != Opening)
    && Distinct(installed)
    && (forall c :: 0 <= c < |phases| ==> (phases[c] == Active <==> live == Some(c)))
  }

  /** A task's view of the connections. */
  predicate TaskOk(s: State, t: nat, pc: Pc)
  {
    && (HoldsLock(pc) <==> s.lock == Some(t))
    && (HoldsLock(pc) ==> s.live.None?)
    && (match pc
        case Entering(_, c, _) => c < |s.phases| && s.phases[c] == Opening && c !in s.installed
        case Draining(_, c) => c in s.installed
        case Reading(c, e) => e < |s.installed| && s.installed[e] == c
        case Dispatching(c, e, m) => e < |s.installed| && s.installed[e] == c && m < |s.msgs|
        case Exiting(_, c, _) => c in s.installed
        case _ => true)
  }

  predicate LockOk(s: State)
  {
    && (s.lock.Some? ==> s.lock.value in s.tasks && HoldsLock(s.tasks[s.lock.value]))
    && (forall c :: 0 <= c < |s.phases| && s.phases[c] == Opening ==>
          s.lock.Some? && PcOf(s, s.lock.value).Entering? && PcOf(s, s.lock.value).conn == c)
  }

  predicate MessagesOk(s: State)
  {
    forall m :: 0 <= m < |s.msgs| ==> s.msgs[m].epoch < |s.installed| && s.installed[s.msgs[m].epoch] == s.msgs[m].conn
  }

  predicate Alive(s: State)
  {
    && Sized(s)
    && ConnsOk(s.phases, s.live, s.count, s.installed)
    && LockOk(s)
    && (forall t :: t in s.tasks ==> TaskOk(s, t, s.tasks[t]))
    && MessagesOk(s)
  }

  // ------------------------------------------------------------------------------------------
  // Pieces of steps keep it
  // ------------------------------------------------------------------------------------------

  lemma WriteKeeps(s: State, c: nat, w: Written)
    requires Alive(s) && c < |s.logs|
    ensures Alive(Write(s, c, w))
  {
    var s' := Write(s, c, w);
    assert forall t :: t in s'.tasks ==> SizedPc(s, s'.tasks[t]) && TaskOk(s, t, s'.tasks[t]);
  }

  /** A stale failure changes nothing; a fresh one closes the live connection and starts an epoch. */
  lemma DiscardKeeps(s: State, c: nat)
    requires Alive(s) && c < |s.phases|
    ensures Alive(Discard(s, c))
    ensures s.live != Some(c) ==> Discard(s, c) == s
    ensures s.live == Some(c) ==>
              && Discard(s, c).live.None? && Discard(s, c).count == s.count + 1
              && Discard(s, c).phases == s.phases[c := Closed] && Discard(s, c).installed[s.count] == c
  {
    var s' := Discard(s, c);
    assert forall t :: t in s'.tasks ==> SizedPc(s, s'.tasks[t]) && TaskOk(s, t, s'.tasks[t]);
    if s.live == Some(c) {
      assert s.phases[c] == Active;
    }
  }

  /** A task that neither holds nor takes the lock moves on. */
  lemma MoveKeeps(s: State, t: nat, pc: Pc)
    requires Alive(s) && !HoldsLock(PcOf(s, t)) && !HoldsLock(pc)
    requires SizedPc(s, pc) && TaskOk(s, t, pc)
    ensures Alive(SetPc(s, t, pc))
  {
    var s' := SetPc(s, t, pc);
    assert forall u :: u in s'.tasks && u != t ==> SizedPc(s, s'.tasks[u]) && TaskOk(s, u, s'.tasks[u]);
  }

  lemma LiveIsInstalled(s: State)
    requires Alive(s) && s.live.Some?
    ensures s.live.value in s.installed && s.installed[s.count] == s.live.value && s.count < |s.installed|
  {
  }

  /** A task inside enter() holds the lock, and its connection is not yet installed. */
  lemma EnteringAlone(s: State, t: nat)
    requires Alive(s)
    ensures PcOf(s, t).Entering? ==>
              s.lock == Some(t) && s.live.None? && PcOf(s, t).conn < |s.logs| && PcOf(s, t).conn !in s.installed
  {
  }

  predicate GoalSized(s: State, goal: Goal)
  {
    && (goal.WriteBegin? ==> goal.txn in s.txns)
    && (goal.WriteSend? && goal.to.Some? ==> goal.to.value in s.txns)
  }

  lemma PerformKeeps(s: State, t: nat, goal: Goal)
    requires Alive(s) && !HoldsLock(PcOf(s, t)) && s.live.Some? && GoalSized(s, goal) && s.lock != Some(t)
    ensures Alive(Perform(s, t, goal, s.live.value))
  {
    var c := s.live.value;
    LiveIsInstalled(s);
    match goal {
      case Beat => MoveKeeps(s, t, Idle);
      case Listen => MoveKeeps(s, t, Reading(c, s.count));
      case _ =>
        WriteKeeps(s, c, FrameOf(goal));
        MoveKeeps(Write(s, c, FrameOf(goal)), t, Draining(goal, c));
    }
  }

  lemma NotHolder(s: State, t: nat)
    requires Alive(s) && !HoldsLock(PcOf(s, t))
    ensures s.lock != Some(t)
  {
  }

  lemma AttemptKeeps(s: State, t: nat, goal: Goal)
    requires Alive(s) && !HoldsLock(PcOf(s, t)) && GoalSized(s, goal)
    ensures Alive(Attempt(s, t, goal))
  {
    NotHolder(s, t);
    if s.live.Some? {
      PerformKeeps(s, t, goal);
    } else {
      MoveKeeps(s, t, Waiting(goal));
    }
  }

  /** Only the lists of subscriptions and transactions change, and no transaction is forgotten. */
  predicate SameConnections(s: State, s': State)
  {
    && s'.logs == s.logs && s'.phases == s.phases && s'.snapshots == s.snapshots && s'.replays == s.replays
    && s'.installedAt == s.installedAt && s'.live == s.live && s'.count == s.count && s'.installed == s.installed
    && s'.lock == s.lock && s'.tasks == s.tasks
    && s.txns.Keys <= s'.txns.Keys && s'.registry <= s'.txns.Keys
    && |s'.msgs| >= |s.msgs|
  }

  lemma BookkeepingKeeps(s: State, s': State)
    requires Alive(s) && SameConnections(s, s') && MessagesOk(s')
    ensures Alive(s')
  {
    assert forall t :: t in s'.tasks ==> SizedPc(s, s'.tasks[t]) && TaskOk(s, t, s'.tasks[t]);
  }

  lemma SpawnKeeps(s: State, t: nat, goal: Goal)
    requires Alive(s) && PcOf(s, t).Idle? && (goal.WriteSend? && goal.to.Some? ==> goal.to.value in s.txns)
    ensures Alive(NextSpawn(s, t, goal))
  {
    BookkeepingKeeps(s, Record(s, goal));
    AttemptKeeps(Record(s, goal), t, goal);
  }

  lemma ResumeKeeps(s: State, t: nat)
    requires Alive(s) && PcOf(s, t).Want?
    ensures Alive(Attempt(s, t, PcOf(s, t).goal))
  {
    assert SizedPc(s, PcOf(s, t));
    AttemptKeeps(s, t, PcOf(s, t).goal);
  }

  lemma GiveUpKeeps(s: State, t: nat)
    requires Alive(s) && PcOf(s, t).Want?
    ensures Alive(SetPc(s, t, Idle))
  {
    NotHolder(s, t);
    MoveKeeps(s, t, Idle);
  }

  lemma AcquireKeeps(s: State, t: nat)
    requires Alive(s) && PcOf(s, t).Waiting? && s.lock.None?
    ensures Alive(NextAcquire(s, t))
  {
    var goal := PcOf(s, t).goal;
    assert SizedPc(s, PcOf(s, t));
    if s.live.Some? {
      PerformKeeps(s, t, goal);
    } else {
      var s' := NextAcquire(s, t);
      assert forall u :: u in s'.tasks && u != t ==> SizedPc(s, s'.tasks[u]) && TaskOk(s, u, s'.tasks[u]);
    }
  }

  lemma ConnectedKeeps(s: State, t: nat)
    requires Alive(s) && PcOf(s, t).Holding?
    ensures Alive(NextConnected(s, t))
  {
    var s' := NextConnected(s, t);
    assert SizedPc(s, PcOf(s, t)) && TaskOk(s, t, PcOf(s, t));
    assert forall u :: u in s'.tasks && u != t ==> SizedPc(s, s'.tasks[u]) && TaskOk(s, u, s'.tasks[u]);
    assert |s.logs| !in s.installed;
    assert forall c :: 0 <= c < |s.phases| ==> s'.phases[c] == s.phases[c] != Opening;
  }

  /** Inside enter() the lock holder stays the lock holder and keeps its connection. */
  lemma StageKeeps(s: State, s': State, t: nat, stage: Stage)
    requires Alive(s) && PcOf(s, t).Entering?
    requires stage.Replaying? ==> stage.done <= |stage.order| && forall x :: x in stage.order ==> x in s.txns
    requires |s'.logs| == |s.logs| && |s'.snapshots| == |s.snapshots| && |s'.replays| == |s.replays|
    requires s' == SetPc(s, t, PcOf(s, t).(stage := stage)).(logs := s'.logs, snapshots := s'.snapshots, replays := s'.replays)
    ensures Alive(s')
  {
    assert SizedPc(s, PcOf(s, t)) && TaskOk(s, t, PcOf(s, t));
    assert forall u :: u in s'.tasks && u != t ==> SizedPc(s, s'.tasks[u]) && TaskOk(s, u, s'.tasks[u]);
  }

  lemma HandshakeKeeps(s: State, t: nat)
    requires Alive(s) && PcOf(s, t).Entering?
    ensures Alive(NextHandshake(s, t))
  {
    assert SizedPc(s, PcOf(s, t));
    StageKeeps(s, NextHandshake(s, t), t, Resubscribing(s.subs));
  }

  lemma ResubscribeKeeps(s: State, t: nat)
    requires Alive(s) && PcOf(s, t).Entering? && PcOf(s, t).stage.Resubscribing? && PcOf(s, t).stage.todo != []
    ensures Alive(NextResubscribe(s, t))
  {
    assert SizedPc(s, PcOf(s, t));
    StageKeeps(s, NextResubscribe(s, t), t, Resubscribing(PcOf(s, t).stage.todo[1..]));
  }

  lemma StartReplayKeeps(s: State, t: nat, order: seq<nat>)
    requires Alive(s) && PcOf(s, t).Entering? && SetOf(order) == s.registry
    ensures Alive(SetPc(s, t, PcOf(s, t).(stage := Replaying(order, 0, 0))))
  {
    assert forall x :: x in order ==> x in SetOf(order);
    StageKeeps(s, SetPc(s, t, PcOf(s, t).(stage := Replaying(order, 0, 0))), t, Replaying(order, 0, 0));
  }

  lemma ReplayKeeps(s: State, t: nat)
    requires Alive(s) && PcOf(s, t).Entering? && PcOf(s, t).stage.Replaying?
    requires PcOf(s, t).stage.done < |PcOf(s, t).stage.order|
    ensures Alive(NextReplay(s, t))
  {
    assert SizedPc(s, PcOf(s, t));
    StageKeeps(s, NextReplay(s, t), t, PcOf(NextReplay(s, t), t).stage);
  }

  /** Installing never overwrites a live connection. */
  lemma InstallKeeps(s: State, t: nat)
    requires Alive(s) && PcOf(s, t).Entering?
    ensures s.live.None?
    ensures Alive(NextInstall(s, t))
  {
    assert SizedPc(s, PcOf(s, t)) && TaskOk(s, t, PcOf(s, t));
    InstallTasks(s, t);
    InstallCounts(s.phases, s.count, s.installed, PcOf(s, t).conn);
  }

  lemma InstallTasks(s: State, t: nat)
    requires Alive(s) && PcOf(s, t).Entering?
    ensures var s' := NextInstall(s, t);
            && (forall u :: u in s'.tasks ==> SizedPc(s', s'.tasks[u]) && TaskOk(s', u, s'.tasks[u]))
            && LockOk(s') && MessagesOk(s')
  {
    var s' := NextInstall(s, t);
    assert SizedPc(s, PcOf(s, t)) && TaskOk(s, t, PcOf(s, t));
    assert forall u :: u in s'.tasks && u != t ==> SizedPc(s, s'.tasks[u]) && TaskOk(s, u, s'.tasks[u]);
    assert forall i :: 0 <= i < |s.installed| ==> s'.installed[i] == s.installed[i];
  }

  lemma InstallCounts(phases: seq<Phase>, count: nat, installed: seq<nat>, c: nat)
    requires ConnsOk(phases, None, count, installed) && c < |phases| && c !in installed
    ensures ConnsOk(phases[c := Active], Some(c), count, installed + [c])
  {
  }

  /** A failed attempt closes its connection; its task keeps the lock for the next one. */
  lemma AttemptFailsKeeps(s: State, t: nat)
    requires Alive(s) && PcOf(s, t).Entering?
    ensures Alive(NextEnterFails(s, t, false))
  {
    var s' := NextEnterFails(s, t, false);
    var pc := PcOf(s, t);
    assert SizedPc(s, pc) && TaskOk(s, t, pc);
    assert forall u :: u in s'.tasks && u != t ==> SizedPc(s, s'.tasks[u]) && TaskOk(s, u, s'.tasks[u]);
    assert forall i :: 0 <= i < |s.installed| ==> s.installed[i] != pc.conn;
  }

  /** An attempt that raises gives the lock back. */
  lemma AttemptRaisesKeeps(s: State, t: nat)
    requires Alive(s) && PcOf(s, t).Entering?
    ensures Alive(NextEnterFails(s, t, true))
  {
    var s' := NextEnterFails(s, t, true);
    var pc := PcOf(s, t);
    assert SizedPc(s, pc) && TaskOk(s, t, pc);
    assert forall u :: u in s'.tasks && u != t ==> SizedPc(s, s'.tasks[u]) && TaskOk(s, u, s'.tasks[u]);
    assert forall i :: 0 <= i < |s.installed| ==> s.installed[i] != pc.conn;
  }

  lemma EnterFailsKeeps(s: State, t: nat, raises: bool)
    requires Alive(s) && PcOf(s, t).Entering?
    ensures Alive(NextEnterFails(s, t, raises))
  {
    if raises {
      AttemptRaisesKeeps(s, t);
    } else {
      AttemptFailsKeeps(s, t);
    }
  }

  lemma ExhaustedKeeps(s: State, t: nat, pc: Pc)
    requires Alive(s) && PcOf(s, t).Holding? && (pc == Idle || pc == Want(PcOf(s, t).goal))
    ensures Alive(SetPc(s.(lock := None), t, pc))
  {
    var s' := SetPc(s.(lock := None), t, pc);
    assert SizedPc(s, PcOf(s, t)) && TaskOk(s, t, PcOf(s, t));
    assert forall u :: u in s'.tasks && u != t ==> SizedPc(s, s'.tasks[u]) && TaskOk(s, u, s'.tasks[u]);
  }

  lemma DrainOkKeeps(s: State, t: nat)
    requires Alive(s) && PcOf(s, t).Draining?
    ensures Alive(NextDrainOk(s, t))
  {
    var pc := PcOf(s, t);
    assert SizedPc(s, pc);
    MoveKeeps(s, t, Idle);
    BookkeepingKeeps(SetPc(s, t, Idle), NextDrainOk(s, t));
  }

  /** A task finds its connection lost: it is discarded if it is still the live one. */
  lemma LostKeeps(s: State, t: nat, c: nat, pc: Pc)
    requires Alive(s) && c < |s.phases| && !HoldsLock(PcOf(s, t))
    requires pc.Idle? || (pc.Want? && SizedPc(s, pc))
    ensures Alive(SetPc(Discard(s, c), t, pc))
  {
    DiscardKeeps(s, c);
    MoveKeeps(Discard(s, c), t, pc);
  }

  lemma ExitKeeps(s: State, t: nat, x: nat, clean: bool)
    requires Alive(s) && PcOf(s, t).Idle? && x in s.txns
    ensures Alive(NextExit(s, t, x, clean))
  {
    if s.live.None? {
      BookkeepingKeeps(s, NextExit(s, t, x, clean));
    } else {
      var c := s.live.value;
      var w := if clean then Commit(x) else Abort(x);
      LiveIsInstalled(s);
      WriteKeeps(s, c, w);
      MoveKeeps(Write(s, c, w), t, Exiting(x, c, clean));
      BookkeepingKeeps(SetPc(Write(s, c, w), t, Exiting(x, c, clean)), NextExit(s, t, x, clean));
    }
  }

  lemma ExitEndsKeeps(s: State, t: nat)
    requires Alive(s) && PcOf(s, t).Exiting?
    ensures Alive(NextExitOk(s, t)) && Alive(NextExitLost(s, t))
  {
    var pc := PcOf(s, t);
    assert SizedPc(s, pc);
    MoveKeeps(s, t, Idle);
    BookkeepingKeeps(SetPc(s, t, Idle), NextExitOk(s, t));
    LostKeeps(s, t, pc.conn, Idle);
    BookkeepingKeeps(SetPc(Discard(s, pc.conn), t, Idle), NextExitLost(s, t));
  }

  lemma DeliverKeeps(s: State, t: nat, sub: Subscription, hasAck: bool)
    requires Alive(s) && PcOf(s, t).Reading?
    ensures Alive(NextDeliver(s, t, sub, hasAck))
  {
    var pc := PcOf(s, t);
    assert SizedPc(s, pc) && TaskOk(s, t, pc);
    var m := Message(pc.conn, pc.epoch, sub, hasAck, s.now, if sub in s.subs then Queued else Ignored);
    var s1 := s.(msgs := s.msgs + [m], lastMessage := s.now);
    assert forall i :: 0 <= i < |s.msgs| ==> s1.msgs[i] == s.msgs[i];
    BookkeepingKeeps(s, s1);
    if sub in s.subs {
      MoveKeeps(s1, t, Dispatching(pc.conn, pc.epoch, |s.msgs|));
    }
  }

  lemma ReaderLostKeeps(s: State, t: nat)
    requires Alive(s) && PcOf(s, t).Reading?
    ensures PcOf(s, t).conn < |s.phases| && Alive(SetPc(Discard(s, PcOf(s, t).conn), t, Want(Listen)))
  {
    assert SizedPc(s, PcOf(s, t));
    LostKeeps(s, t, PcOf(s, t).conn, Want(Listen));
  }

  lemma SetMessageKeeps(s: State, m: nat, phase: MessagePhase)
    requires Alive(s) && m < |s.msgs|
    ensures Alive(SetMessage(s, m, phase))
  {
    BookkeepingKeeps(s, SetMessage(s, m, phase));
  }

  lemma SettleKeeps(s: State, m: nat, positive: bool)
    requires Alive(s) && m < |s.msgs|
    ensures Alive(Settle(s, m, positive))
  {
    if MaySettle(s, m) {
      WriteKeeps(s, s.live.value, if positive then Ack(m) else Nack(m));
    }
  }

  lemma DispatchKeeps(s: State, t: nat)
    requires Alive(s) && PcOf(s, t).Dispatching?
    ensures Alive(NextDispatch(s, t))
  {
    var pc := PcOf(s, t);
    assert SizedPc(s, pc) && TaskOk(s, t, pc);
    MoveKeeps(s, t, Reading(pc.conn, pc.epoch));
    BookkeepingKeeps(SetPc(s, t, Reading(pc.conn, pc.epoch)), NextDispatch(s, t));
  }

  lemma HandlerEndsKeeps(s: State, m: nat, outcome: Outcome)
    requires Alive(s) && m < |s.msgs|
    ensures Alive(NextHandlerEnds(s, m, outcome))
  {
    SetMessageKeeps(s, m, Settling(outcome));
    SettleKeeps(SetMessage(s, m, Settling(outcome)), m, outcome.Returned?);
  }

  lemma UnsubKeeps(s: State, x: Subscription)
    requires Alive(s)
    ensures Alive(NextUnsub(s, x))
  {
    var s1 := s.(subs := RemoveSub(s.subs, x));
    BookkeepingKeeps(s, s1);
    if s1.live.Some? {
      WriteKeeps(s1, s1.live.value, Unsubscribe(x));
    }
  }

  lemma ReconnectKeeps(cfg: Config, s: State, l: Label)
    requires Alive(s) && Enabled(cfg, s, l) && Reconnects(l)
    ensures Alive(NextReconnect(cfg, s, l))
  {
    match l
    case Spawn(t, goal) => SpawnKeeps(s, t, goal);
    case Resume(t) => ResumeKeeps(s, t);
    case GiveUp(t) => GiveUpKeeps(s, t);
    case Acquire(t) => AcquireKeeps(s, t);
    case Connected(t) => ConnectedKeeps(s, t);
    case Exhausted(t, again) => ExhaustedKeeps(s, t, if again then Want(PcOf(s, t).goal) else Idle);
    case HandshakeDone(t) => HandshakeKeeps(s, t);
    case ResubscribeNext(t) => ResubscribeKeeps(s, t);
    case StartReplay(t, order) => StartReplayKeeps(s, t, order);
    case ReplayNext(t) => ReplayKeeps(s, t);
    case Install(t) => InstallKeeps(s, t);
    case EnterFails(t, raises) => EnterFailsKeeps(s, t, raises);
  }

  lemma FollowKeeps(cfg: Config, s: State, l: Label)
    requires Alive(s) && Enabled(cfg, s, l) && Follows(l)
    ensures Alive(NextFollow(cfg, s, l))
  {
    match l
    case DrainOk(t) => DrainOkKeeps(s, t);
    case DrainLost(t) => assert SizedPc(s, PcOf(s, t)); LostKeeps(s, t, PcOf(s, t).conn, Want(PcOf(s, t).goal));
    case Fails(c) => DiscardKeeps(s, c);
    case MonitorFires => DiscardKeeps(s, s.live.value);
    case Unsub(x) => UnsubKeeps(s, x);
    case ExitTxn(t, x, clean) => ExitKeeps(s, t, x, clean);
    case ExitOk(t) => ExitEndsKeeps(s, t);
    case ExitLost(t) => ExitEndsKeeps(s, t);
  }

  lemma ReaderKeeps(cfg: Config, s: State, l: Label)
    requires Alive(s) && Enabled(cfg, s, l) && (l.Deliver? || l.Dispatch? || l.ReaderLost?)
    ensures Alive(NextClient(cfg, s, l))
  {
    match l
    case Deliver(t, sub, hasAck) => DeliverKeeps(s, t, sub, hasAck);
    case Dispatch(t) => DispatchKeeps(s, t);
    case ReaderLost(t) => ReaderLostKeeps(s, t);
  }

  lemma HandlerKeeps(cfg: Config, s: State, l: Label)
    requires Alive(s) && Enabled(cfg, s, l) && (l.HandlerEnds? || l.ManualSettle?)
    ensures Alive(NextClient(cfg, s, l))
  {
    if l.HandlerEnds? {
      HandlerEndsKeeps(s, l.m, l.outcome);
    } else {
      SettleKeeps(s, l.m, l.positive);
    }
  }

  lemma NoticeKeeps(cfg: Config, s: State, l: Label)
    requires Alive(s) && Enabled(cfg, s, l) && (l.TaskDone? || l.Tick?)
    ensures Alive(NextClient(cfg, s, l))
  {
    BookkeepingKeeps(s, NextClient(cfg, s, l));
  }

  /** Every step keeps the connections in order. */
  lemma AliveStep(cfg: Config, s: State, l: Label)
    requires Alive(s) && Enabled(cfg, s, l)
    ensures Alive(Next(cfg, s, l))
  {
    if Reconnects(l) {
      ReconnectKeeps(cfg, s, l);
    } else if Follows(l) {
      FollowKeeps(cfg, s, l);
    } else if l.Deliver? || l.Dispatch? || l.ReaderLost? {
      ReaderKeeps(cfg, s, l);
    } else if l.HandlerEnds? || l.ManualSettle? {
      HandlerKeeps(cfg, s, l);
    } else {
      NoticeKeeps(cfg, s, l);
    }
  }
}
