/** Runs in which the unconditional forms of the exact results fail: the conditions in `Agreement` and
    `Commits` are not vacuous. */
module Witnesses {
  import opened Bytes
  import opened Session
  import opened Transactions
  import opened Reachability
  import opened Commits

  ghost predicate Reachable(cfg: Config, s: State)
  {
    exists run, labels :: IsRun(cfg, run, labels) && run[|labels|] == s
  }

  lemma InitiallyReachable(cfg: Config, time: int)
    ensures Reachable(cfg, Initial(cfg, time))
  {
    assert IsRun(cfg, [Initial(cfg, time)], []);
  }

  /** An enabled step leads from a reachable state to a reachable one. */
  lemma ReachableStep(cfg: Config, s: State, l: Label)
    requires Reachable(cfg, s) && Enabled(cfg, s, l)
    ensures Sized(s) && Reachable(cfg, Next(cfg, s, l))
  {
    var run, labels :| IsRun(cfg, run, labels) && run[|labels|] == s;
    AlwaysSized(cfg, run, labels, |labels|, l);
    Extends(cfg, run, labels, l, Next(cfg, s, l));
  }

  lemma Extends(cfg: Config, run: seq<State>, labels: seq<Label>, l: Label, s': State)
    requires IsRun(cfg, run, labels) && StepOf(cfg, run[|labels|], l, s')
    ensures IsRun(cfg, run + [s'], labels + [l]) && (run + [s'])[|labels + [l]|] == s'
  {
    forall i | 0 <= i < |labels + [l]| ensures StepAt(cfg, run + [s'], labels + [l], i) {
      assert i < |labels| ==> StepAt(cfg, run, labels, i);
    }
    assert (run + [s'])[0] == run[0];
  }

  lemma ReachableInv(cfg: Config, s: State)
    requires Reachable(cfg, s)
    ensures Inv(cfg, s)
  {
    var run, labels :| IsRun(cfg, run, labels) && run[|labels|] == s;
    RunInv(cfg, run, labels, |labels|);
  }

  // ------------------------------------------------------------------------------------------
  // Pieces of runs; task 0 goes on with its heartbeat as soon as it has installed a connection
  // ------------------------------------------------------------------------------------------

  /** The state after a heartbeat of task 0 has reconnected with nothing registered. */
  function Reconnected(s: State): State
  {
    SetPc(s.(logs := s.logs + [[Connect]], phases := s.phases + [Active], snapshots := s.snapshots + [[]],
             replays := s.replays + [[]], installedAt := s.installedAt + [s.now],
             live := Some(|s.logs|), installed := s.installed + [|s.logs|], lastMessage := s.now),
          0, Idle)
  }

  lemma ReachEntering(cfg: Config, s: State) returns (s': State)
    requires Reachable(cfg, s) && PcOf(s, 0) == Waiting(Beat) && s.live.None? && s.lock.None?
    ensures Reachable(cfg, s') && s' == NextConnected(SetPc(s.(lock := Some(0)), 0, Holding(Beat)), 0)
  {
    ReachableStep(cfg, s, Acquire(0));
    s' := SetPc(s.(lock := Some(0)), 0, Holding(Beat));
    assert s' == Next(cfg, s, Acquire(0));
    ReachableStep(cfg, s', Connected(0));
    s' := NextConnected(s', 0);
  }

  lemma ReachSnapshot(cfg: Config, s: State) returns (s': State)
    requires Reachable(cfg, s) && PcOf(s, 0).Entering? && PcOf(s, 0).stage.Handshake? && s.subs == []
    ensures Sized(s) && Reachable(cfg, s') && s' == NextHandshake(s, 0)
  {
    ReachableStep(cfg, s, HandshakeDone(0));
    s' := NextHandshake(s, 0);
  }

  /** Nothing to replay: the connection is installed, and the heartbeat written. */
  lemma ReachInstalled(cfg: Config, s: State) returns (s': State)
    requires Reachable(cfg, s) && PcOf(s, 0).Entering? && PcOf(s, 0).goal == Beat
    requires PcOf(s, 0).stage == Resubscribing([]) && s.registry == {}
    ensures Sized(s) && Reachable(cfg, s') && s' == SetPc(NextInstall(s, 0), 0, Idle)
  {
    ReachableStep(cfg, s, StartReplay(0, []));
    s' := InstallsAndBeats(cfg, SetPc(s, 0, PcOf(s, 0).(stage := Replaying([], 0, 0))));
  }

  lemma InstallsAndBeats(cfg: Config, s: State) returns (s': State)
    requires Reachable(cfg, s) && PcOf(s, 0).Entering? && PcOf(s, 0).goal == Beat && PcOf(s, 0).stage.Replaying?
    requires PcOf(s, 0).stage.done == |PcOf(s, 0).stage.order| && SetOf(PcOf(s, 0).stage.order) == s.registry
    ensures Sized(s) && Reachable(cfg, s') && s' == SetPc(NextInstall(s, 0), 0, Idle)
  {
    ReachableStep(cfg, s, Install(0));
    s' := Beats(cfg, NextInstall(s, 0));
  }

  lemma Beats(cfg: Config, s: State) returns (s': State)
    requires Reachable(cfg, s) && PcOf(s, 0) == Want(Beat) && s.live.Some?
    ensures Reachable(cfg, s') && s' == SetPc(s, 0, Idle)
  {
    ReachableStep(cfg, s, Resume(0));
    s' := SetPc(s, 0, Idle);
  }

  lemma Reconnects(cfg: Config, s: State)
    requires Reachable(cfg, s) && PcOf(s, 0) == Waiting(Beat) && s.live.None? && s.lock.None?
    requires s.subs == [] && s.registry == {}
    ensures Reachable(cfg, Reconnected(s))
  {
    var s1 := ReachEntering(cfg, s);
    var s2 := ReachSnapshot(cfg, s1);
    var s3 := ReachInstalled(cfg, s2);
    ReconnectedIs(s, s2);
  }

  lemma ReconnectedIs(s: State, s2: State)
    requires Sized(s2) && s.subs == [] && s.registry == {} && s.lock.None?
    requires s2 == s.(lock := Some(0), logs := s.logs + [[Connect]], phases := s.phases + [Opening], snapshots := s.snapshots + [[]],
                      replays := s.replays + [[]], installedAt := s.installedAt + [s.now], tasks := s2.tasks)
    requires s2.tasks == s.tasks[0 := Entering(Beat, |s.logs|, Resubscribing([]))]
    ensures SetPc(NextInstall(s2, 0), 0, Idle) == Reconnected(s)
  {
  }

  /** Task 0 has connected for the first time. */
  function FirstConnected(cfg: Config): State
  {
    Reconnected(SetPc(Initial(cfg, 0), 0, Waiting(Beat)))
  }

  lemma FirstConnects(cfg: Config)
    ensures Reachable(cfg, FirstConnected(cfg))
  {
    InitiallyReachable(cfg, 0);
    ReachableStep(cfg, Initial(cfg, 0), Spawn(0, Beat));
    Reconnects(cfg, SetPc(Initial(cfg, 0), 0, Waiting(Beat)));
  }

  /** The first connection fails, and the next heartbeat of task 0 asks for another. */
  lemma Loses(cfg: Config, s: State) returns (s': State)
    requires Reachable(cfg, s) && s.live == Some(0) && s.installed == [0] && PcOf(s, 0) == Idle && |s.phases| == 1
    ensures Reachable(cfg, s') && s' == SetPc(Discard(s, 0), 0, Waiting(Beat))
  {
    ReachableStep(cfg, s, Fails(0));
    ReachableStep(cfg, Discard(s, 0), Spawn(0, Beat));
    s' := SetPc(Discard(s, 0), 0, Waiting(Beat));
  }

  /** Task 1 has written its frame to the first connection. */
  lemma Writes(cfg: Config, goal: Goal) returns (s: State)
    requires goal.WriteSubscribe? || goal.WriteBegin?
    ensures Reachable(cfg, s) && s.live == Some(0) && s.lock.None? && s.subs == [] && s.registry == {}
    ensures s.tasks == map[0 := Idle, 1 := Draining(goal, 0)] && s.installed == [0] && s.replays == [[]]
    ensures s.txns == (if goal.WriteBegin? then map[goal.txn := Txn(Beginning, [])] else map[])
    ensures |s.logs| == |s.phases| == 1
  {
    FirstConnects(cfg);
    var s1 := FirstConnected(cfg);
    ReachableStep(cfg, s1, Spawn(1, goal));
    s := Perform(Record(s1, goal), 1, goal, 0);
  }

  // ------------------------------------------------------------------------------------------
  // A drain that ends late
  // ------------------------------------------------------------------------------------------

  /** Task 1 writes its frame; the connection fails and is replaced before the drain completes. */
  lemma LateDrain(cfg: Config, goal: Goal) returns (s: State)
    requires goal.WriteSubscribe? || goal.WriteBegin?
    ensures Reachable(cfg, s) && PcOf(s, 1) == Draining(goal, 0)
    ensures s.live == Some(1) && |s.logs| == 2 && s.logs[1] == [Connect] && s.subs == []
  {
    var s1 := Writes(cfg, goal);
    var s2 := Loses(cfg, s1);
    Reconnects(cfg, s2);
    s := Reconnected(s2);
  }

  /** A subscription confirmed after its connection was replaced is registered, yet the live
      connection never carried it. */
  lemma LateSubscribeDisagrees(cfg: Config, x: Subscription)
    ensures exists s :: Reachable(cfg, s) && s.subs == [x] && LiveLogIs(s, [Connect])
  {
    var s := LateDrain(cfg, WriteSubscribe(x));
    ReachableStep(cfg, s, DrainOk(1));
    var s' := NextDrainOk(s, 1);
    assert s'.subs == [x] && LiveLogIs(s', [Connect]);
  }

  predicate LiveLogIs(s: State, log: seq<Written>)
  {
    s.live.Some? && s.live.value < |s.logs| && s.logs[s.live.value] == log
  }

  /** So is one confirmed between the snapshot of a connection and its installation. */
  lemma MissedSnapshotDisagrees(cfg: Config, x: Subscription)
    ensures exists s :: Reachable(cfg, s) && s.subs == [x] && LiveLogIs(s, [Connect])
  {
    var s1 := MissesSnapshot(cfg, x);
    var s2 := ReachInstalled(cfg, s1);
    assert s2.subs == [x] && LiveLogIs(s2, [Connect]);
  }

  lemma MissesSnapshot(cfg: Config, x: Subscription) returns (s: State)
    ensures Reachable(cfg, s) && s.subs == [x] && s.registry == {} && |s.logs| == 2 && s.logs[1] == [Connect]
    ensures PcOf(s, 0) == Entering(Beat, 1, Resubscribing([]))
  {
    var s1 := ReachMissing(cfg, WriteSubscribe(x));
    ReachableStep(cfg, s1, DrainOk(1));
    s := NextDrainOk(s1, 1);
  }

  /** Task 1 has written its frame, and the next connection has taken its snapshot. */
  lemma ReachMissing(cfg: Config, goal: Goal) returns (s: State)
    requires goal.WriteSubscribe?
    ensures Reachable(cfg, s) && s.subs == [] && s.registry == {} && |s.logs| == 2 && s.logs[1] == [Connect]
    ensures s.tasks == map[0 := Entering(Beat, 1, Resubscribing([])), 1 := Draining(goal, 0)]
  {
    var s1 := Writes(cfg, goal);
    var s2 := Loses(cfg, s1);
    var s3 := ReachEntering(cfg, s2);
    s := ReachSnapshot(cfg, s3);
  }

  /** A transaction whose BEGIN was confirmed late is registered, yet the live connection never saw it. */
  lemma LateBeginIsNowhere(cfg: Config, x: nat)
    ensures exists s :: Reachable(cfg, s) && x in s.registry && LiveLogIs(s, [Connect])
  {
    var s := LateDrain(cfg, WriteBegin(x));
    ReachableStep(cfg, s, DrainOk(1));
    var s' := NextDrainOk(s, 1);
    assert x in s'.registry && LiveLogIs(s', [Connect]);
  }

  // ------------------------------------------------------------------------------------------
  // Work that is lost
  // ------------------------------------------------------------------------------------------

  /** Transaction `x` is open on the first connection. */
  lemma Begins(cfg: Config, x: nat) returns (s: State)
    ensures Reachable(cfg, s) && s.live == Some(0) && s.lock.None? && s.subs == [] && s.registry == {x}
    ensures s.txns == map[x := Txn(Open, [])] && s.tasks == map[0 := Idle, 1 := Idle]
    ensures s.replays == [[]] && s.installed == [0] && |s.logs| == |s.phases| == 1
  {
    var s1 := Writes(cfg, WriteBegin(x));
    ReachableStep(cfg, s1, DrainOk(1));
    s := NextDrainOk(s1, 1);
  }

  /** Transaction `x` is open, its connection has failed, and task 0 is entering the next one. */
  lemma OpenTransaction(cfg: Config, x: nat) returns (s: State)
    ensures Reachable(cfg, s) && s.live.None? && s.lock == Some(0) && s.subs == [] && s.registry == {x}
    ensures s.txns == map[x := Txn(Open, [])] && s.tasks == map[0 := Entering(Beat, 1, Handshake), 1 := Idle]
    ensures |s.replays| == 2 && s.replays[1] == [] && s.installed == [0]
  {
    var s1 := Begins(cfg, x);
    var s2 := Loses(cfg, s1);
    s := ReachEntering(cfg, s2);
  }

  /** The connection being entered has replayed `x` and written its COMMIT. */
  lemma ReplayedTransaction(cfg: Config, x: nat) returns (s: State)
    ensures Reachable(cfg, s) && s.live.None? && s.registry == {x} && s.txns == map[x := Txn(Open, [])]
    ensures s.tasks == map[0 := Entering(Beat, 1, Replaying([x], 1, 0)), 1 := Idle]
    ensures |s.replays| == 2 && s.replays[1] == [Replayed(x, [])] && s.installed == [0]
  {
    var s1 := OpenTransaction(cfg, x);
    var s2 := ReachSnapshot(cfg, s1);
    assert SetOf([x]) == {x};
    ReachableStep(cfg, s2, StartReplay(0, [x]));
    s := ReplaysEmpty(cfg, SetPc(s2, 0, Entering(Beat, 1, Replaying([x], 0, 0))), x);
  }

  /** A transaction without sends is replayed by its COMMIT alone. */
  lemma ReplaysEmpty(cfg: Config, s: State, x: nat) returns (s': State)
    requires Reachable(cfg, s) && PcOf(s, 0) == Entering(Beat, 1, Replaying([x], 0, 0)) && s.registry == {x}
    requires s.txns == map[x := Txn(Open, [])] && |s.replays| == 2 && s.replays[1] == []
    ensures Reachable(cfg, s') && s'.live == s.live && s'.registry == s.registry && s'.txns == s.txns
    ensures s'.tasks == s.tasks[0 := Entering(Beat, 1, Replaying([x], 1, 0))] && s'.installed == s.installed
    ensures |s'.replays| == 2 && s'.replays[1] == [Replayed(x, [])]
  {
    assert SetOf([x]) == {x};
    ReachableStep(cfg, s, ReplayNext(0));
    s' := NextReplay(s, 0);
  }

  /** The connection that replayed `x` is installed, and the registry is empty. */
  lemma InstallsReplayed(cfg: Config, s: State, x: nat) returns (s': State)
    requires Reachable(cfg, s) && s.registry == {x} && PcOf(s, 0) == Entering(Beat, 1, Replaying([x], 1, 0))
    ensures Sized(s) && Reachable(cfg, s') && s' == SetPc(NextInstall(s, 0), 0, Idle)
  {
    assert SetOf([x]) == {x};
    s' := InstallsAndBeats(cfg, s);
  }

  lemma StaleIsDropped(cfg: Config, s: State, c: nat, x: nat)
    requires Reachable(cfg, s) && Phased(s, x, {CommitFailed, Orphaned}) && x !in s.registry
    requires c in s.installed && StaleOn(s, c, x) && forall t :: t in s.tasks ==> !ExitsTxn(s.tasks[t], x)
    ensures Dropped(s, x)
  {
    ReachableInv(cfg, s);
    StaleIsNotInFull(s, c, x);
  }

  /** A send recorded after the replay is missing from it; the transaction is then exited, and the
      installation drops its commit. */
  lemma ExitBehindReplayDrops(cfg: Config, x: nat, body: nat)
    ensures exists s :: Reachable(cfg, s) && Dropped(s, x) && s.txns[x] == Txn(CommitFailed, [body]) && s.registry == {}
  {
    var s := ReplayedTransaction(cfg, x);
    var s1 := HoldsSend(cfg, s, x, body);
    var s2 := FailedExit(cfg, s1, x);
    var s3 := InstallsReplayed(cfg, s2, x);
    assert Replayed(x, []) in s3.replays[1];
    StaleIsDropped(cfg, s3, 1, x);
  }

  lemma HoldsSend(cfg: Config, s: State, x: nat, body: nat) returns (s': State)
    requires Reachable(cfg, s) && s.live.None? && s.txns == map[x := Txn(Open, [])] && PcOf(s, 2).Idle?
    ensures Reachable(cfg, s') && x in s.txns
    ensures s' == SetPc(s.(txns := map[x := Txn(Open, [body])]), 2, Waiting(WriteSend(Some(x), body)))
  {
    ReachableStep(cfg, s, Spawn(2, WriteSend(Some(x), body)));
    s' := SetPc(Record(s, WriteSend(Some(x), body)), 2, Waiting(WriteSend(Some(x), body)));
    assert [] + [body] == [body];
  }

  lemma FailedExit(cfg: Config, s: State, x: nat) returns (s': State)
    requires Reachable(cfg, s) && s.live.None? && x in s.txns && s.txns[x].phase == Open && PcOf(s, 3).Idle?
    ensures Reachable(cfg, s') && s' == SetTxn(s, x, if x in s.registry then CommitFailed else Orphaned)
  {
    ReachableStep(cfg, s, ExitTxn(3, x, true));
    s' := SetTxn(s, x, if x in s.registry then CommitFailed else Orphaned);
  }

  /** Transaction `x` is open, a replay has removed it from the registry, and its connection is live. */
  lemma RemovedTransaction(cfg: Config, x: nat) returns (s: State)
    ensures Reachable(cfg, s) && s.live == Some(1) && s.registry == {} && s.txns == map[x := Txn(Open, [])]
    ensures s.tasks == map[0 := Idle, 1 := Idle] && s.installed == [0, 1]
    ensures |s.replays| == 2 && s.replays[1] == [Replayed(x, [])]
  {
    var s1 := ReplayedTransaction(cfg, x);
    s := InstallsReplayed(cfg, s1, x);
  }

  /** Task 2 sends in `x` and awaits it; then the connection fails. */
  lemma SendsAndLoses(cfg: Config, x: nat, body: nat) returns (s: State)
    ensures Reachable(cfg, s) && s.live.None? && s.registry == {} && s.txns == map[x := Txn(Open, [body])]
    ensures s.tasks == map[0 := Idle, 1 := Idle, 2 := Idle] && s.installed == [0, 1]
    ensures |s.replays| == 2 && s.replays[1] == [Replayed(x, [])]
  {
    var s1 := RemovedTransaction(cfg, x);
    var s2 := AwaitsSend(cfg, s1, x, body);
    ReachableStep(cfg, s2, Fails(1));
    s := Discard(s2, 1);
  }

  lemma AwaitsSend(cfg: Config, s: State, x: nat, body: nat) returns (s': State)
    requires Reachable(cfg, s) && s.live == Some(1) && s.txns == map[x := Txn(Open, [])] && PcOf(s, 2).Idle?
    ensures Reachable(cfg, s') && s'.live == s.live && s'.registry == s.registry && s'.installed == s.installed
    ensures s'.txns == map[x := Txn(Open, [body])] && s'.tasks == s.tasks[2 := Idle] && s'.replays == s.replays
  {
    var goal := WriteSend(Some(x), body);
    ReachableStep(cfg, s, Spawn(2, goal));
    var s1 := Perform(Record(s, goal), 2, goal, 1);
    assert s1.txns[x].sends == [] + [body] == [body];
    ReachableStep(cfg, s1, DrainOk(2));
    s' := NextDrainOk(s1, 2);
  }

  /** A transaction that a replay has removed from the registry is exited without a live connection:
      nothing is written and nothing raised, and the send it has awaited is lost. */
  lemma UnregisteredExitDrops(cfg: Config, x: nat, body: nat)
    ensures exists s :: Reachable(cfg, s) && Dropped(s, x) && s.txns[x] == Txn(Orphaned, [body])
              && forall t :: t in s.tasks ==> s.tasks[t] == Idle
  {
    var s := SendsAndLoses(cfg, x, body);
    var s' := FailedExit(cfg, s, x);
    assert Replayed(x, []) in s'.replays[1] && s'.txns[x].sends == [body];
    assert 1 in s'.installed && StaleOn(s', 1, x);
    StaleIsDropped(cfg, s', 1, x);
  }
}
