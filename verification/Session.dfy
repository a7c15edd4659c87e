/** The reconnecting session as a labelled transition system.

    Every asyncio task of the client is one entry of `tasks`; a label is what one task does between
    two points where it can be suspended (connect, enter, drain, close, lock wait, sleep), so runs
    range over all interleavings. A connection is an index into parallel lists: the frames handed
    to its writer, in order, and what became of it. Writing a frame and the completion of its drain
    are separate steps: in between, any other task may run. */
module Session {
  import opened Bytes

  /** `settles` is ack mode "client" or "client-individual". */
  datatype Subscription = Subscription(id: nat, autoAck: bool, settles: bool)

  /** A frame handed to a connection's writer. ACK and NACK name the message they answer by its
      position in `msgs`. */
  datatype Written =
    | Connect
    | Subscribe(sub: Subscription)
    | Unsubscribe(sub: Subscription)
    | Begin(txn: nat)
    | Send(to: Option<nat>, body: nat)
    | Commit(txn: nat)
    | Abort(txn: nat)
    | Ack(msg: nat)
    | Nack(msg: nat)

  datatype Phase = Opening | Active | Closed

  datatype Replayed = Replayed(txn: nat, sends: seq<nat>)

  /** What a task wants a connection for. */
  datatype Goal =
    | WriteSubscribe(sub: Subscription)
    | WriteBegin(txn: nat)
    | WriteSend(to: Option<nat>, body: nat)
    | Beat
    | Listen

  /** How far `ConnectionLifespan.enter` has come. */
  datatype Stage =
    | Handshake
    | Resubscribing(todo: seq<Subscription>)
    | Replaying(order: seq<nat>, done: nat, sent: nat)

  /** Where a task is suspended. */
  datatype Pc =
    | Idle
    | Want(goal: Goal)                                // about to ask for the active connection
    | Waiting(goal: Goal)                             // blocked on the reconnect lock
    | Holding(goal: Goal)                             // holds the lock: connecting or backing off
    | Entering(goal: Goal, conn: nat, stage: Stage)   // holds the lock: inside enter()
    | Draining(goal: Goal, conn: nat)                 // written, drain not finished
    | Reading(conn: nat, epoch: nat)
    | Dispatching(conn: nat, epoch: nat, msg: nat)    // blocked on the handler semaphore
    | Exiting(txn: nat, conn: nat, clean: bool)       // COMMIT or ABORT written, drain not finished

  datatype TxnPhase = Beginning | Open | Committing | CommitFailed | Aborting | Finished | Orphaned

  datatype Txn = Txn(phase: TxnPhase, sends: seq<nat>)

  datatype Outcome = Returned | Suppressed | Raised

  datatype MessagePhase = Ignored | Queued | Running | Settling(outcome: Outcome) | Done(outcome: Outcome)

  datatype Message = Message(conn: nat, epoch: nat, sub: Subscription, hasAck: bool, at: int, phase: MessagePhase)

  datatype State = State(
    // connections
    logs: seq<seq<Written>>,
    phases: seq<Phase>,
    snapshots: seq<seq<Subscription>>,   // the subscriptions enter() resubscribes
    replays: seq<seq<Replayed>>,         // the transactions enter() replayed
    installedAt: seq<int>,
    // ConnectionManager
    live: Option<nat>,                   // _active_connection_state
    count: nat,                          // _reconnection_count
    installed: seq<nat>,                 // every connection that was ever active, in order
    lock: Option<nat>,                   // _reconnect_lock
    tasks: map<nat, Pc>,
    // registries
    subs: seq<Subscription>,             // ActiveSubscriptions, in insertion order
    started: set<Subscription>,          // every subscription ever created
    registry: set<nat>,                  // ActiveTransactions
    txns: map<nat, Txn>,                 // every transaction ever created
    // Client
    msgs: seq<Message>,                  // every MESSAGE ever read, in order
    permits: int,                        // free permits of the handler semaphore
    // clock
    now: int,
    lastMessage: int)

  /** `interval` is no_message_restart_interval; `cap` is max_concurrent_handlers, `None` for no cap. */
  datatype Config = Config(interval: int, cap: Option<nat>)

  /** What a task, or the clock, does next. */
  datatype Label =
    | Spawn(t: nat, goal: Goal)
    | Resume(t: nat)
    | GiveUp(t: nat)
    | Acquire(t: nat)
    | Connected(t: nat)
    | Exhausted(t: nat, again: bool)
    | HandshakeDone(t: nat)
    | ResubscribeNext(t: nat)
    | StartReplay(t: nat, order: seq<nat>)
    | ReplayNext(t: nat)
    | Install(t: nat)
    | EnterFails(t: nat, raises: bool)
    | DrainOk(t: nat)
    | DrainLost(t: nat)
    | Fails(c: nat)
    | MonitorFires
    | Unsub(sub: Subscription)
    | ExitTxn(t: nat, txn: nat, clean: bool)
    | ExitOk(t: nat)
    | ExitLost(t: nat)
    | Deliver(t: nat, sub: Subscription, hasAck: bool)
    | Dispatch(t: nat)
    | ReaderLost(t: nat)
    | HandlerEnds(m: nat, outcome: Outcome)
    | TaskDone(m: nat)
    | ManualSettle(m: nat, positive: bool)
    | Tick(elapsed: nat)

  function Cap(cfg: Config): nat
  {
    if cfg.cap.Some? then cfg.cap.value else 0
  }

  function Initial(cfg: Config, time: int): State
  {
    State([], [], [], [], [], None, 0, [], None, map[], [], {}, {}, map[], [], Cap(cfg), time, time)
  }

  // ------------------------------------------------------------------------------------------
  // Pieces of steps
  // ------------------------------------------------------------------------------------------

  function PcOf(s: State, t: nat): Pc
  {
    if t in s.tasks then s.tasks[t] else Idle
  }

  function SetPc(s: State, t: nat, pc: Pc): State
  {
    s.(tasks := s.tasks[t := pc])
  }

  function Write(s: State, c: nat, w: Written): State
    requires c < |s.logs|
  {
    s.(logs := s.logs[c := s.logs[c] + [w]])
  }

  /** `_discard_failed_connection_state`, with its identity test. */
  function Discard(s: State, c: nat): State
    requires c < |s.phases|
  {
    if s.live == Some(c) then s.(live := None, count := s.count + 1, phases := s.phases[c := Closed]) else s
  }

  function FrameOf(goal: Goal): Written
    requires goal.WriteSubscribe? || goal.WriteBegin? || goal.WriteSend?
  {
    match goal
    case WriteSubscribe(x) => Subscribe(x)
    case WriteBegin(x) => Begin(x)
    case WriteSend(to, body) => Send(to, body)
  }

  /** A task that got the active connection `c` goes on without suspension. */
  function Perform(s: State, t: nat, goal: Goal, c: nat): State
    requires c < |s.logs|
  {
    match goal
    case Beat => SetPc(s, t, Idle)
    case Listen => SetPc(s, t, Reading(c, s.count))
    case _ => SetPc(Write(s, c, FrameOf(goal)), t, Draining(goal, c))
  }

  /** `_get_active_connection_state` up to its first suspension. */
  function Attempt(s: State, t: nat, goal: Goal): State
    requires s.live.Some? ==> s.live.value < |s.logs|
  {
    if s.live.Some? then Perform(s, t, goal, s.live.value) else SetPc(s, t, Waiting(goal))
  }

  function RemoveSub(subs: seq<Subscription>, x: Subscription): seq<Subscription>
  {
    if subs == [] then []
    else if subs[0] == x then RemoveSub(subs[1..], x)
    else [subs[0]] + RemoveSub(subs[1..], x)
  }

  /** `_ack`/`_nack` go through only for a registered subscription, a message with an ack header,
      the epoch in which it was received, and an active connection. */
  predicate MaySettle(s: State, m: nat)
    requires m < |s.msgs|
  {
    s.msgs[m].sub in s.subs && s.msgs[m].hasAck && s.msgs[m].epoch == s.count && s.live.Some?
  }

  function Settle(s: State, m: nat, positive: bool): State
    requires m < |s.msgs| && (s.live.Some? ==> s.live.value < |s.logs|)
  {
    if MaySettle(s, m) then Write(s, s.live.value, if positive then Ack(m) else Nack(m)) else s
  }

  function SetMessage(s: State, m: nat, phase: MessagePhase): State
    requires m < |s.msgs|
  {
    s.(msgs := s.msgs[m := s.msgs[m].(phase := phase)])
  }

  function SetTxn(s: State, x: nat, phase: TxnPhase): State
    requires x in s.txns
  {
    s.(txns := s.txns[x := s.txns[x].(phase := phase)])
  }

  function SetOf(order: seq<nat>): set<nat>
  {
    set x | x in order
  }

  predicate Distinct<T(==)>(xs: seq<T>)
  {
    forall i, j :: 0 <= i < j < |xs| ==> xs[i] != xs[j]
  }

  predicate DistinctIds(xs: seq<Subscription>)
  {
    forall i, j :: 0 <= i < j < |xs| ==> xs[i].id != xs[j].id
  }

  predicate FreshId(started: set<Subscription>, x: Subscription)
  {
    x !in started && forall y :: y in started ==> y.id != x.id
  }

  // ------------------------------------------------------------------------------------------
  // Steps
  // ------------------------------------------------------------------------------------------

  /** All indices a step follows are in range; `Reachability.AlwaysSized` shows that no reachable
      state is anything else. */
  predicate Sized(s: State)
  {
    && |s.logs| == |s.phases| == |s.snapshots| == |s.replays| == |s.installedAt|
    && (s.live.Some? ==> s.live.value < |s.logs|)
    && (forall i :: 0 <= i < |s.installed| ==> s.installed[i] < |s.logs|)
    && s.registry <= s.txns.Keys
    && (forall t :: t in s.tasks ==> SizedPc(s, s.tasks[t]))
  }

  predicate HasGoal(pc: Pc) { pc.Want? || pc.Waiting? || pc.Holding? || pc.Entering? || pc.Draining? }

  predicate SizedPc(s: State, pc: Pc)
  {
    && (HasGoal(pc) ==>
        && (pc.goal.WriteBegin? ==> pc.goal.txn in s.txns)
        && (pc.goal.WriteSend? && pc.goal.to.Some? ==> pc.goal.to.value in s.txns))
    && (pc.Entering? || pc.Draining? || pc.Reading? || pc.Dispatching? || pc.Exiting? ==> pc.conn < |s.logs|)
    && (pc.Entering? && pc.stage.Replaying? ==>
        pc.stage.done <= |pc.stage.order| && forall x :: x in pc.stage.order ==> x in s.txns)
    && (pc.Dispatching? ==> pc.msg < |s.msgs|)
    && (pc.Exiting? ==> pc.txn in s.txns)
  }

  predicate Enabled(cfg: Config, s: State, l: Label)
  {
    match l
    case Spawn(t, goal) =>
      PcOf(s, t).Idle? &&
      (match goal
       case WriteSubscribe(x) => FreshId(s.started, x)
       case WriteBegin(x) => x !in s.txns
       case WriteSend(Some(x), _) => x in s.txns && s.txns[x].phase.Open?
       case _ => true)
    case Resume(t) => PcOf(s, t).Want?
    case GiveUp(t) => PcOf(s, t).Want?
    case Acquire(t) => PcOf(s, t).Waiting? && s.lock.None?
    case Connected(t) => PcOf(s, t).Holding?
    case Exhausted(t, _) => PcOf(s, t).Holding?
    case HandshakeDone(t) => PcOf(s, t).Entering? && PcOf(s, t).stage.Handshake?
    case ResubscribeNext(t) => PcOf(s, t).Entering? && PcOf(s, t).stage.Resubscribing? && PcOf(s, t).stage.todo != []
    case StartReplay(t, order) =>
      PcOf(s, t).Entering? && PcOf(s, t).stage == Resubscribing([]) && Distinct(order) && SetOf(order) == s.registry
    case ReplayNext(t) =>
      PcOf(s, t).Entering? && PcOf(s, t).stage.Replaying? && PcOf(s, t).stage.done < |PcOf(s, t).stage.order|
      && (PcOf(s, t).stage.sent == 0 ==> SetOf(PcOf(s, t).stage.order) == s.registry)
    case Install(t) =>
      PcOf(s, t).Entering? && PcOf(s, t).stage.Replaying? && PcOf(s, t).stage.done == |PcOf(s, t).stage.order|
      && SetOf(PcOf(s, t).stage.order) == s.registry
    case EnterFails(t, _) => PcOf(s, t).Entering?
    case DrainOk(t) => PcOf(s, t).Draining?
    case DrainLost(t) => PcOf(s, t).Draining?
    case Fails(c) => c in s.installed
    case MonitorFires => s.live.Some? && s.now - s.lastMessage >= cfg.interval
    case Unsub(_) => true
    case ExitTxn(t, x, _) => PcOf(s, t).Idle? && x in s.txns && s.txns[x].phase.Open?
    case ExitOk(t) => PcOf(s, t).Exiting?
    case ExitLost(t) => PcOf(s, t).Exiting?
    case Deliver(t, _, _) => PcOf(s, t).Reading?
    case Dispatch(t) => PcOf(s, t).Dispatching? && (cfg.cap.Some? ==> s.permits > 0)
    case ReaderLost(t) => PcOf(s, t).Reading?
    case HandlerEnds(m, _) => m < |s.msgs| && s.msgs[m].phase.Running?
    case TaskDone(m) => m < |s.msgs| && s.msgs[m].phase.Settling?
    case ManualSettle(m, _) =>
      m < |s.msgs| && !s.msgs[m].sub.autoAck && (s.msgs[m].phase.Running? || s.msgs[m].phase.Settling? || s.msgs[m].phase.Done?)
    case Tick(_) => true
  }

  /** Steps on the way to an active connection. */
  predicate Reconnects(l: Label)
  {
    l.Spawn? || l.Resume? || l.GiveUp? || l.Acquire? || l.Connected? || l.Exhausted? || l.HandshakeDone?
     || l.ResubscribeNext? || l.StartReplay? || l.ReplayNext? || l.Install? || l.EnterFails?
  }

  /** Steps of a task that has written to a connection, or sees it fail. */
  predicate Follows(l: Label)
  {
    l.DrainOk? || l.DrainLost? || l.Fails? || l.MonitorFires? || l.Unsub? || l.ExitTxn? || l.ExitOk?
     || l.ExitLost?
  }

  /** One step, by the part of the client that takes it. */
  function Next(cfg: Config, s: State, l: Label): State
    requires Sized(s) && Enabled(cfg, s, l)
  {
    if Reconnects(l) then NextReconnect(cfg, s, l)
    else if Follows(l) then NextFollow(cfg, s, l)
    else NextClient(cfg, s, l)
  }

  function NextReconnect(cfg: Config, s: State, l: Label): State
    requires Sized(s) && Enabled(cfg, s, l) && Reconnects(l)
  {
    match l
    case Spawn(t, goal) => NextSpawn(s, t, goal)
    case Resume(t) => Attempt(s, t, PcOf(s, t).goal)
    case GiveUp(t) => SetPc(s, t, Idle)
    case Acquire(t) => NextAcquire(s, t)
    case Connected(t) => NextConnected(s, t)
    case Exhausted(t, again) => SetPc(s.(lock := None), t, if again then Want(PcOf(s, t).goal) else Idle)
    case HandshakeDone(t) => NextHandshake(s, t)
    case ResubscribeNext(t) => NextResubscribe(s, t)
    case StartReplay(t, order) => SetPc(s, t, PcOf(s, t).(stage := Replaying(order, 0, 0)))
    case ReplayNext(t) => NextReplay(s, t)
    case Install(t) => NextInstall(s, t)
    case EnterFails(t, raises) => NextEnterFails(s, t, raises)
  }

  function NextFollow(cfg: Config, s: State, l: Label): State
    requires Sized(s) && Enabled(cfg, s, l) && Follows(l)
  {
    match l
    case DrainOk(t) => NextDrainOk(s, t)
    case DrainLost(t) => SetPc(Discard(s, PcOf(s, t).conn), t, Want(PcOf(s, t).goal))
    case Fails(c) => Discard(s, c)
    case MonitorFires => Discard(s, s.live.value)
    case Unsub(x) => NextUnsub(s, x)
    case ExitTxn(t, x, clean) => NextExit(s, t, x, clean)
    case ExitOk(t) => NextExitOk(s, t)
    case ExitLost(t) => NextExitLost(s, t)
  }

  function NextClient(cfg: Config, s: State, l: Label): State
    requires Sized(s) && Enabled(cfg, s, l) && !Reconnects(l) && !Follows(l)
  {
    match l
    case Deliver(t, sub, hasAck) => NextDeliver(s, t, sub, hasAck)
    case Dispatch(t) => NextDispatch(s, t)
    case ReaderLost(t) => SetPc(Discard(s, PcOf(s, t).conn), t, Want(Listen))
    case HandlerEnds(m, outcome) => NextHandlerEnds(s, m, outcome)
    case TaskDone(m) => SetMessage(s.(permits := s.permits + 1), m, Done(s.msgs[m].phase.outcome))
    case ManualSettle(m, positive) => Settle(s, m, positive)
    case Tick(elapsed) => s.(now := s.now + elapsed)
  }

  /** A new task; a transaction's send is recorded before it is written. */
  function Record(s: State, goal: Goal): State
    requires goal.WriteSend? && goal.to.Some? ==> goal.to.value in s.txns
  {
    match goal
    case WriteSubscribe(x) => s.(started := s.started + {x})
    case WriteBegin(x) => s.(txns := s.txns[x := Txn(Beginning, [])])
    case WriteSend(Some(x), body) => s.(txns := s.txns[x := s.txns[x].(sends := s.txns[x].sends + [body])])
    case _ => s
  }

  function NextSpawn(s: State, t: nat, goal: Goal): State
    requires Sized(s) && (goal.WriteSend? && goal.to.Some? ==> goal.to.value in s.txns)
  {
    Attempt(Record(s, goal), t, goal)
  }

  /** The lock is taken; the connection may have come back meanwhile. */
  function NextAcquire(s: State, t: nat): State
    requires Sized(s) && PcOf(s, t).Waiting?
  {
    var goal := PcOf(s, t).goal;
    if s.live.Some? then Perform(s, t, goal, s.live.value) else SetPc(s.(lock := Some(t)), t, Holding(goal))
  }

  /** A new socket; CONNECT is its first frame. */
  function NextConnected(s: State, t: nat): State
    requires PcOf(s, t).Holding?
  {
    var c := |s.logs|;
    SetPc(s.(logs := s.logs + [[Connect]], phases := s.phases + [Opening], snapshots := s.snapshots + [[]],
             replays := s.replays + [[]], installedAt := s.installedAt + [s.now]),
          t, Entering(PcOf(s, t).goal, c, Handshake))
  }

  function NextHandshake(s: State, t: nat): State
    requires Sized(s) && PcOf(s, t).Entering?
  {
    var pc := PcOf(s, t);
    SetPc(s.(snapshots := s.snapshots[pc.conn := s.subs]), t, pc.(stage := Resubscribing(s.subs)))
  }

  function NextResubscribe(s: State, t: nat): State
    requires Sized(s) && PcOf(s, t).Entering? && PcOf(s, t).stage.Resubscribing? && PcOf(s, t).stage.todo != []
  {
    var pc := PcOf(s, t);
    SetPc(Write(s, pc.conn, Subscribe(pc.stage.todo[0])), t, pc.(stage := Resubscribing(pc.stage.todo[1..])))
  }

  /** The inner loop of commit_pending_transactions: the next send, or the COMMIT after the last one. */
  function NextReplay(s: State, t: nat): State
    requires Sized(s) && PcOf(s, t).Entering? && PcOf(s, t).stage.Replaying?
    requires PcOf(s, t).stage.done < |PcOf(s, t).stage.order|
  {
    var pc := PcOf(s, t);
    var st := pc.stage;
    var x := st.order[st.done];
    assert SizedPc(s, pc);
    var sends := s.txns[x].sends;
    if st.sent < |sends| then
      SetPc(Write(s, pc.conn, Send(Some(x), sends[st.sent])), t, pc.(stage := st.(sent := st.sent + 1)))
    else
      SetPc(Write(s.(replays := s.replays[pc.conn := s.replays[pc.conn] + [Replayed(x, sends)]]), pc.conn, Commit(x)),
            t, pc.(stage := st.(done := st.done + 1, sent := 0)))
  }

  /** The registry is cleared and the connection published in one go. */
  function NextInstall(s: State, t: nat): State
    requires Sized(s) && PcOf(s, t).Entering?
  {
    var pc := PcOf(s, t);
    SetPc(s.(registry := {}, live := Some(pc.conn), phases := s.phases[pc.conn := Active],
             installed := s.installed + [pc.conn], installedAt := s.installedAt[pc.conn := s.now],
             lastMessage := s.now, lock := None),
          t, Want(pc.goal))
  }

  function NextEnterFails(s: State, t: nat, raises: bool): State
    requires Sized(s) && PcOf(s, t).Entering?
  {
    var pc := PcOf(s, t);
    var closed := s.(phases := s.phases[pc.conn := Closed]);
    if raises then SetPc(closed.(lock := None), t, Idle) else SetPc(closed, t, Holding(pc.goal))
  }

  /** What follows a completed write: the registries learn of it. */
  function NextDrainOk(s: State, t: nat): State
    requires Sized(s) && PcOf(s, t).Draining?
  {
    var pc := PcOf(s, t);
    assert SizedPc(s, pc);
    var s1 := SetPc(s, t, Idle);
    match pc.goal
    case WriteSubscribe(x) => s1.(subs := s1.subs + [x])
    case WriteBegin(x) => SetTxn(s1.(registry := s1.registry + {x}), x, Open)
    case _ => s1
  }

  function NextUnsub(s: State, x: Subscription): State
    requires Sized(s)
  {
    var s1 := s.(subs := RemoveSub(s.subs, x));
    if s1.live.Some? then Write(s1, s1.live.value, Unsubscribe(x)) else s1
  }

  /** `Transaction.__aexit__` up to its first suspension. */
  function NextExit(s: State, t: nat, x: nat, clean: bool): State
    requires Sized(s) && x in s.txns
  {
    if s.live.None? then
      if clean then SetTxn(s, x, if x in s.registry then CommitFailed else Orphaned)
      else SetTxn(s.(registry := s.registry - {x}), x, Finished)
    else
      var c := s.live.value;
      var s1 := SetPc(Write(s, c, if clean then Commit(x) else Abort(x)), t, Exiting(x, c, clean));
      SetTxn(s1, x, if !clean then Aborting else if x in s.registry then Committing else Orphaned)
  }

  /** The set.remove raises when a replay already removed the transaction; the state is the same. */
  function NextExitOk(s: State, t: nat): State
    requires Sized(s) && PcOf(s, t).Exiting?
  {
    var pc := PcOf(s, t);
    assert SizedPc(s, pc);
    SetTxn(SetPc(s, t, Idle).(registry := s.registry - {pc.txn}), pc.txn, Finished)
  }

  function NextExitLost(s: State, t: nat): State
    requires Sized(s) && PcOf(s, t).Exiting?
  {
    var pc := PcOf(s, t);
    assert SizedPc(s, pc);
    var s1 := SetPc(Discard(s, pc.conn), t, Idle);
    if !pc.clean then SetTxn(s1.(registry := s1.registry - {pc.txn}), pc.txn, Finished)
    else if s.txns[pc.txn].phase.Committing? then SetTxn(s1, pc.txn, CommitFailed)
    else s1
  }

  function NextDeliver(s: State, t: nat, sub: Subscription, hasAck: bool): State
    requires PcOf(s, t).Reading?
  {
    var pc := PcOf(s, t);
    var known := sub in s.subs;
    var m := Message(pc.conn, pc.epoch, sub, hasAck, s.now, if known then Queued else Ignored);
    var s1 := s.(msgs := s.msgs + [m], lastMessage := s.now);
    if known then SetPc(s1, t, Dispatching(pc.conn, pc.epoch, |s.msgs|)) else s1
  }

  function NextDispatch(s: State, t: nat): State
    requires Sized(s) && PcOf(s, t).Dispatching?
  {
    var pc := PcOf(s, t);
    assert SizedPc(s, pc);
    SetMessage(SetPc(s.(permits := s.permits - 1), t, Reading(pc.conn, pc.epoch)), pc.msg, Running)
  }

  /** `AutoAckSubscription._run_handler`: ACK after a return, NACK after a suppressed exception. */
  function NextHandlerEnds(s: State, m: nat, outcome: Outcome): State
    requires Sized(s) && m < |s.msgs|
  {
    var sub := s.msgs[m].sub;
    var s1 := SetMessage(s, m, Settling(outcome));
    if sub.autoAck && sub.settles && !outcome.Raised? then Settle(s1, m, outcome.Returned?) else s1
  }

  /** The step publishes connection `c`. */
  predicate Installs(s: State, l: Label, c: nat)
  {
    l.Install? && PcOf(s, l.t).Entering? && PcOf(s, l.t).conn == c
  }

  // ------------------------------------------------------------------------------------------
  // Runs
  // ------------------------------------------------------------------------------------------

  /** `run` is a sequence of states, each reached from the one before by an enabled step. */
  ghost predicate IsRun(cfg: Config, run: seq<State>, labels: seq<Label>)
  {
    && |run| == |labels| + 1
    && (exists time :: run[0] == Initial(cfg, time))
    && forall i :: 0 <= i < |labels| ==> StepAt(cfg, run, labels, i)
  }

  predicate StepAt(cfg: Config, run: seq<State>, labels: seq<Label>, i: nat)
    requires i < |labels| < |run|
  {
    StepOf(cfg, run[i], labels[i], run[i + 1])
  }

  predicate StepOf(cfg: Config, s: State, l: Label, s': State)
  {
    Sized(s) && Enabled(cfg, s, l) && s' == Next(cfg, s, l)
  }
}
