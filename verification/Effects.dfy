/** What a step writes, and where. */
module Effects {
  import opened Bytes
  import opened Session

  /** The frame a task asks for, on the live connection. */
  function WrittenBy(s: State, goal: Goal): Option<(nat, Written)>
  {
    if s.live.None? then None
    else match goal
      case WriteSubscribe(x) => Some((s.live.value, Subscribe(x)))
      case WriteBegin(x) => Some((s.live.value, Begin(x)))
      case WriteSend(to, body) => Some((s.live.value, Send(to, body)))
      case Beat => None
      case Listen => None
  }

  function ReplayedBy(s: State, pc: Pc): Written
    requires pc.Entering? && pc.stage.Replaying? && pc.stage.done < |pc.stage.order|
    requires pc.stage.order[pc.stage.done] in s.txns
  {
    var x := pc.stage.order[pc.stage.done];
    var sends := s.txns[x].sends;
    if pc.stage.sent < |sends| then Send(Some(x), sends[pc.stage.sent]) else Commit(x)
  }

  function SettledBy(s: State, m: nat, positive: bool): Option<(nat, Written)>
    requires m < |s.msgs|
  {
    var msg := s.msgs[m];
    if s.live.Some? && msg.epoch == s.count && msg.hasAck && msg.sub in s.subs
    then Some((s.live.value, if positive then Ack(m) else Nack(m)))
    else None
  }

  predicate Settles(s: State, m: nat, outcome: Outcome)
    requires m < |s.msgs|
  {
    s.msgs[m].sub.autoAck && s.msgs[m].sub.settles && !outcome.Raised?
  }

  /** The one frame a step hands to a connection's writer, if any; CONNECT opens a new connection. */
  function Wrote(cfg: Config, s: State, l: Label): Option<(nat, Written)>
    requires Sized(s) && Enabled(cfg, s, l)
  {
    match l
    case Spawn(_, goal) => WrittenBy(s, goal)
    case Resume(t) => WrittenBy(s, PcOf(s, t).goal)
    case Acquire(t) => WrittenBy(s, PcOf(s, t).goal)
    case ResubscribeNext(t) => Some((PcOf(s, t).conn, Subscribe(PcOf(s, t).stage.todo[0])))
    case ReplayNext(t) => assert SizedPc(s, PcOf(s, t)); Some((PcOf(s, t).conn, ReplayedBy(s, PcOf(s, t))))
    case Unsub(x) => if s.live.Some? then Some((s.live.value, Unsubscribe(x))) else None
    case ExitTxn(_, x, clean) =>
      if s.live.Some? then Some((s.live.value, if clean then Commit(x) else Abort(x))) else None
    case HandlerEnds(m, outcome) => if Settles(s, m, outcome) then SettledBy(s, m, outcome.Returned?) else None
    case ManualSettle(m, positive) => SettledBy(s, m, positive)
    case _ => None
  }

  function Logged(s: State, w: Option<(nat, Written)>): seq<seq<Written>>
    requires w.Some? ==> w.value.0 < |s.logs|
  {
    if w.Some? then s.logs[w.value.0 := s.logs[w.value.0] + [w.value.1]] else s.logs
  }

  lemma WroteInRange(cfg: Config, s: State, l: Label)
    requires Sized(s) && Enabled(cfg, s, l)
    ensures Wrote(cfg, s, l).Some? ==> Wrote(cfg, s, l).value.0 < |s.logs|
  {
    if l.ResubscribeNext? || l.ReplayNext? {
      assert SizedPc(s, PcOf(s, l.t));
    }
  }

  lemma ReconnectLogs(cfg: Config, s: State, l: Label)
    requires Sized(s) && Enabled(cfg, s, l) && Reconnects(l)
    requires Wrote(cfg, s, l).Some? ==> Wrote(cfg, s, l).value.0 < |s.logs|
    ensures NextReconnect(cfg, s, l).logs
         == if l.Connected? then s.logs + [[Connect]] else Logged(s, Wrote(cfg, s, l))
  {
    if l.ReplayNext? {
      assert SizedPc(s, PcOf(s, l.t));
    }
  }

  lemma OtherLogs(cfg: Config, s: State, l: Label)
    requires Sized(s) && Enabled(cfg, s, l) && !Reconnects(l)
    requires Wrote(cfg, s, l).Some? ==> Wrote(cfg, s, l).value.0 < |s.logs|
    ensures Next(cfg, s, l).logs == Logged(s, Wrote(cfg, s, l))
  {
    if l.HandlerEnds? {
      assert MaySettle(SetMessage(s, l.m, Settling(l.outcome)), l.m) == MaySettle(s, l.m);
    }
  }

  /** Logs grow by exactly the frame a step writes. */
  lemma LogsGrow(cfg: Config, s: State, l: Label)
    requires Sized(s) && Enabled(cfg, s, l)
    ensures Wrote(cfg, s, l).Some? ==> Wrote(cfg, s, l).value.0 < |s.logs|
    ensures Next(cfg, s, l).logs == if l.Connected? then s.logs + [[Connect]] else Logged(s, Wrote(cfg, s, l))
  {
    WroteInRange(cfg, s, l);
    if Reconnects(l) {
      ReconnectLogs(cfg, s, l);
    } else {
      OtherLogs(cfg, s, l);
    }
  }

  /** Which asyncio task a step belongs to. */
  function Mover(l: Label): Option<nat>
  {
    match l
    case Fails(_) => None
    case MonitorFires => None
    case Unsub(_) => None
    case HandlerEnds(_, _) => None
    case TaskDone(_) => None
    case ManualSettle(_, _) => None
    case Tick(_) => None
    case _ => Some(l.t)
  }

  /** Where a task gets that asks for the active connection. */
  function Arrived(s: State, goal: Goal): Pc
  {
    if s.live.None? then Waiting(goal)
    else match goal
      case Beat => Idle
      case Listen => Reading(s.live.value, s.count)
      case _ => Draining(goal, s.live.value)
  }

  /** Where a step leaves its task. */
  function PcAfter(cfg: Config, s: State, l: Label): Pc
    requires Sized(s) && Enabled(cfg, s, l) && Mover(l).Some?
  {
    var pc := PcOf(s, l.t);
    match l
    case Spawn(_, goal) => Arrived(s, goal)
    case Resume(_) => Arrived(s, pc.goal)
    case GiveUp(_) => Idle
    case Acquire(_) => if s.live.None? then Holding(pc.goal) else Arrived(s, pc.goal)
    case Connected(_) => Entering(pc.goal, |s.logs|, Handshake)
    case Exhausted(_, again) => if again then Want(pc.goal) else Idle
    case HandshakeDone(_) => pc.(stage := Resubscribing(s.subs))
    case ResubscribeNext(_) => pc.(stage := Resubscribing(pc.stage.todo[1..]))
    case StartReplay(_, order) => pc.(stage := Replaying(order, 0, 0))
    case ReplayNext(_) =>
      pc.(stage := if CommitsReplay(s, l) then pc.stage.(done := pc.stage.done + 1, sent := 0)
                   else pc.stage.(sent := pc.stage.sent + 1))
    case Install(_) => Want(pc.goal)
    case EnterFails(_, raises) => if raises then Idle else Holding(pc.goal)
    case DrainOk(_) => Idle
    case DrainLost(_) => Want(pc.goal)
    case ExitTxn(_, x, clean) => if s.live.Some? then Exiting(x, s.live.value, clean) else pc
    case ExitOk(_) => Idle
    case ExitLost(_) => Idle
    case Deliver(_, sub, _) => if sub in s.subs then Dispatching(pc.conn, pc.epoch, |s.msgs|) else pc
    case Dispatch(_) => Reading(pc.conn, pc.epoch)
    case ReaderLost(_) => Want(Listen)
  }

  lemma ArrivalPc(cfg: Config, s: State, l: Label)
    requires Sized(s) && Enabled(cfg, s, l) && Arrives(l)
    ensures PcOf(NextReconnect(cfg, s, l), l.t) == PcAfter(cfg, s, l)
  {
  }

  lemma ReconnectPc(cfg: Config, s: State, l: Label)
    requires Sized(s) && Enabled(cfg, s, l) && Reconnects(l)
    ensures PcOf(NextReconnect(cfg, s, l), l.t) == PcAfter(cfg, s, l)
  {
    if Arrives(l) {
      ArrivalPc(cfg, s, l);
    } else if l.ReplayNext? {
      assert SizedPc(s, PcOf(s, l.t));
    }
  }

  lemma MoverPc(cfg: Config, s: State, l: Label)
    requires Sized(s) && Enabled(cfg, s, l) && Mover(l).Some?
    ensures PcOf(Next(cfg, s, l), l.t) == PcAfter(cfg, s, l)
  {
    if Reconnects(l) {
      ReconnectPc(cfg, s, l);
    } else if Follows(l) {
      assert l.ExitOk? || l.ExitLost? || l.DrainOk? ==> SizedPc(s, PcOf(s, l.t));
      assert PcOf(NextFollow(cfg, s, l), l.t) == PcAfter(cfg, s, l);
    } else {
      assert l.Dispatch? ==> SizedPc(s, PcOf(s, l.t));
      assert PcOf(NextClient(cfg, s, l), l.t) == PcAfter(cfg, s, l);
    }
  }

  /** All tasks but the mover stay where they are. */
  ghost predicate OthersStay(s: State, s': State, mover: Option<nat>)
  {
    forall u :: mover != Some(u) ==> (u in s'.tasks <==> u in s.tasks) && (u in s.tasks ==> s'.tasks[u] == s.tasks[u])
  }

  lemma OneTaskMoves(cfg: Config, s: State, l: Label)
    requires Sized(s) && Enabled(cfg, s, l)
    ensures OthersStay(s, Next(cfg, s, l), Mover(l))
    ensures Mover(l).None? ==> Next(cfg, s, l).tasks == s.tasks
    ensures Mover(l).Some? ==> PcOf(Next(cfg, s, l), l.t) == PcAfter(cfg, s, l)
  {
    if Mover(l).Some? {
      MoverPc(cfg, s, l);
    }
    if Reconnects(l) {
      ReconnectMoves(cfg, s, l);
    } else if Follows(l) {
      FollowMoves(cfg, s, l);
    } else if l.Dispatch? {
      assert SizedPc(s, PcOf(s, l.t));
    }
  }

  lemma ReconnectMoves(cfg: Config, s: State, l: Label)
    requires Sized(s) && Enabled(cfg, s, l) && Reconnects(l)
    ensures OthersStay(s, NextReconnect(cfg, s, l), Mover(l))
  {
    if Arrives(l) {
      ArrivalMoves(cfg, s, l);
    } else if l.ReplayNext? {
      assert SizedPc(s, PcOf(s, l.t));
    }
  }

  /** Steps after which the mover may be writing to the live connection. */
  predicate Arrives(l: Label) { l.Spawn? || l.Resume? || l.Acquire? }

  lemma ArrivalMoves(cfg: Config, s: State, l: Label)
    requires Sized(s) && Enabled(cfg, s, l) && Arrives(l)
    ensures OthersStay(s, NextReconnect(cfg, s, l), Mover(l))
  {
  }

  lemma FollowMoves(cfg: Config, s: State, l: Label)
    requires Sized(s) && Enabled(cfg, s, l) && Follows(l)
    ensures OthersStay(s, NextFollow(cfg, s, l), Mover(l))
    ensures Mover(l).None? ==> NextFollow(cfg, s, l).tasks == s.tasks
  {
    if l.ExitOk? || l.ExitLost? || l.DrainOk? {
      assert SizedPc(s, PcOf(s, l.t));
    }
  }

  /** Application frames go to the live connection; the prologue to the one being entered. */
  lemma WroteWhere(cfg: Config, s: State, l: Label)
    requires Sized(s) && Enabled(cfg, s, l) && Wrote(cfg, s, l).Some?
    ensures if l.ResubscribeNext? || l.ReplayNext? then Wrote(cfg, s, l).value.0 == PcOf(s, l.t).conn
            else s.live == Some(Wrote(cfg, s, l).value.0)
  {
  }

  /** Is the step the last write of one transaction's replay? */
  predicate CommitsReplay(s: State, l: Label)
    requires Sized(s)
  {
    && l.ReplayNext? && PcOf(s, l.t).Entering? && PcOf(s, l.t).stage.Replaying?
    && PcOf(s, l.t).stage.done < |PcOf(s, l.t).stage.order|
    && (assert SizedPc(s, PcOf(s, l.t));
        PcOf(s, l.t).stage.sent >= |s.txns[PcOf(s, l.t).stage.order[PcOf(s, l.t).stage.done]].sends|)
  }

  /** What enter() promised for each connection is fixed by the handshake and the replayed commits. */
  lemma GhostFrame(cfg: Config, s: State, l: Label)
    requires Sized(s) && Enabled(cfg, s, l)
    ensures !l.Connected? && !l.HandshakeDone? ==> Next(cfg, s, l).snapshots == s.snapshots
    ensures !l.Connected? && !CommitsReplay(s, l) ==> Next(cfg, s, l).replays == s.replays
    ensures !l.Install? ==> Next(cfg, s, l).installed == s.installed
    ensures !l.Install? && !l.DrainOk? && !l.ExitTxn? && !l.ExitOk? && !l.ExitLost? ==>
              Next(cfg, s, l).registry == s.registry
  {
    if Reconnects(l) {
      ReconnectFrame(cfg, s, l);
    } else if Follows(l) {
      FollowFrame(cfg, s, l);
    } else {
      assert l.Dispatch? ==> SizedPc(s, PcOf(s, l.t));
      assert NextClient(cfg, s, l) == Next(cfg, s, l);
    }
  }

  lemma ReconnectFrame(cfg: Config, s: State, l: Label)
    requires Sized(s) && Enabled(cfg, s, l) && Reconnects(l)
    ensures !l.Connected? && !l.HandshakeDone? ==> NextReconnect(cfg, s, l).snapshots == s.snapshots
    ensures !l.Connected? && !CommitsReplay(s, l) ==> NextReconnect(cfg, s, l).replays == s.replays
    ensures !l.Install? ==> NextReconnect(cfg, s, l).installed == s.installed && NextReconnect(cfg, s, l).registry == s.registry
  {
    if Arrives(l) {
      ArrivalFrame(cfg, s, l);
    } else if l.ReplayNext? {
      assert SizedPc(s, PcOf(s, l.t));
    }
  }

  lemma ArrivalFrame(cfg: Config, s: State, l: Label)
    requires Sized(s) && Enabled(cfg, s, l) && Arrives(l)
    ensures SameLists(s, NextReconnect(cfg, s, l))
  {
    if l.Spawn? {
      RecordFrame(s, l.goal);
      AttemptFrame(Record(s, l.goal), l.t, l.goal);
    } else {
      AttemptFrame(s, l.t, PcOf(s, l.t).goal);
    }
  }

  predicate SameLists(s: State, s': State)
  {
    s'.snapshots == s.snapshots && s'.replays == s.replays && s'.installed == s.installed && s'.registry == s.registry
  }

  lemma RecordFrame(s: State, goal: Goal)
    requires goal.WriteSend? && goal.to.Some? ==> goal.to.value in s.txns
    ensures SameLists(s, Record(s, goal)) && Record(s, goal).live == s.live && Record(s, goal).logs == s.logs
  {
  }

  lemma AttemptFrame(s: State, t: nat, goal: Goal)
    requires s.live.Some? ==> s.live.value < |s.logs|
    ensures SameLists(s, Attempt(s, t, goal)) && Attempt(s, t, goal).txns == s.txns
  {
  }

  lemma FollowFrame(cfg: Config, s: State, l: Label)
    requires Sized(s) && Enabled(cfg, s, l) && Follows(l)
    ensures NextFollow(cfg, s, l).snapshots == s.snapshots && NextFollow(cfg, s, l).replays == s.replays
    ensures NextFollow(cfg, s, l).installed == s.installed
    ensures !l.DrainOk? && !l.ExitTxn? && !l.ExitOk? && !l.ExitLost? ==> NextFollow(cfg, s, l).registry == s.registry
  {
    assert l.ExitOk? || l.ExitLost? || l.DrainOk? ==> SizedPc(s, PcOf(s, l.t));
  }

  /** No transaction is forgotten and recorded sends only grow. */
  ghost predicate TxnsGrow(s: State, s': State)
  {
    forall x :: x in s.txns ==> x in s'.txns && s.txns[x].sends <= s'.txns[x].sends
  }

  ghost predicate SameSends(s: State, s': State)
  {
    forall x :: x in s.txns ==> x in s'.txns && s'.txns[x].sends == s.txns[x].sends
  }

  lemma StepKeepsTxns(cfg: Config, s: State, l: Label)
    requires Sized(s) && Enabled(cfg, s, l)
    ensures TxnsGrow(s, Next(cfg, s, l))
    ensures !l.Spawn? ==> SameSends(s, Next(cfg, s, l)) && Next(cfg, s, l).txns.Keys == s.txns.Keys
    ensures !l.Spawn? && !l.DrainOk? && !l.ExitTxn? && !l.ExitOk? && !l.ExitLost? ==> Next(cfg, s, l).txns == s.txns
    ensures l.Spawn? ==> Next(cfg, s, l).txns == Record(s, l.goal).txns
  {
    if Reconnects(l) {
      ReconnectTxns(cfg, s, l);
    } else if Follows(l) {
      FollowTxns(cfg, s, l);
    } else {
      assert l.Dispatch? ==> SizedPc(s, PcOf(s, l.t));
      assert NextClient(cfg, s, l).txns == s.txns;
    }
  }

  lemma ReconnectTxns(cfg: Config, s: State, l: Label)
    requires Sized(s) && Enabled(cfg, s, l) && Reconnects(l)
    ensures NextReconnect(cfg, s, l).txns == if l.Spawn? then Record(s, l.goal).txns else s.txns
  {
    if l.Spawn? {
      RecordFrame(s, l.goal);
      AttemptFrame(Record(s, l.goal), l.t, l.goal);
    } else if Arrives(l) {
      AttemptFrame(s, l.t, PcOf(s, l.t).goal);
    } else if l.ReplayNext? {
      assert SizedPc(s, PcOf(s, l.t));
    }
  }

  lemma FollowTxns(cfg: Config, s: State, l: Label)
    requires Sized(s) && Enabled(cfg, s, l) && Follows(l)
    ensures SameSends(s, NextFollow(cfg, s, l)) && NextFollow(cfg, s, l).txns.Keys == s.txns.Keys
    ensures !l.DrainOk? && !l.ExitTxn? && !l.ExitOk? && !l.ExitLost? ==> NextFollow(cfg, s, l).txns == s.txns
  {
    if l.ExitOk? || l.ExitLost? {
      ExitTxns(s, l.t);
    } else if l.DrainOk? {
      assert SizedPc(s, PcOf(s, l.t));
    } else if !l.ExitTxn? {
      assert NextFollow(cfg, s, l).txns == s.txns;
    }
  }

  lemma SetTxnKeeps(s: State, x: nat, phase: TxnPhase)
    requires x in s.txns
    ensures SameSends(s, SetTxn(s, x, phase)) && SetTxn(s, x, phase).txns.Keys == s.txns.Keys
  {
  }

  lemma ExitTxns(s: State, t: nat)
    requires Sized(s) && PcOf(s, t).Exiting?
    ensures SameSends(s, NextExitOk(s, t)) && NextExitOk(s, t).txns.Keys == s.txns.Keys
    ensures SameSends(s, NextExitLost(s, t)) && NextExitLost(s, t).txns.Keys == s.txns.Keys
  {
    assert SizedPc(s, PcOf(s, t));
    SetTxnKeeps(s, PcOf(s, t).txn, Finished);
    SetTxnKeeps(s, PcOf(s, t).txn, CommitFailed);
  }
}
