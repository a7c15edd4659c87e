/** No run is a dead end: what a task waits for can still happen, whatever has happened so far. */
module Progress {
  import opened Bytes
  import opened Session
  import opened Lifecycle
  import opened Effects
  import opened Messages
  import opened Subscriptions
  import opened Reachability
  import opened Failures

  // ------------------------------------------------------------------------------------------
  // Going on from a state
  // ------------------------------------------------------------------------------------------

  /** The labels can be taken one after the other from `s` and lead to `s'`. */
  ghost predicate Leads(cfg: Config, s: State, labels: seq<Label>, s': State)
    decreases |labels|
  {
    if labels == [] then s' == s
    else Sized(s) && Enabled(cfg, s, labels[0]) && Leads(cfg, Next(cfg, s, labels[0]), labels[1..], s')
  }

  ghost predicate CanReach(cfg: Config, s: State, s': State)
  {
    exists labels :: Leads(cfg, s, labels, s')
  }

  lemma LeadsFirst(cfg: Config, s: State, l: Label, rest: seq<Label>, s': State)
    requires Sized(s) && Enabled(cfg, s, l) && Leads(cfg, Next(cfg, s, l), rest, s')
    ensures Leads(cfg, s, [l] + rest, s')
  {
    assert ([l] + rest)[1..] == rest;
  }

  lemma {:induction false} LeadsOn(cfg: Config, s: State, a: seq<Label>, u: State, b: seq<Label>, s': State)
    requires Leads(cfg, s, a, u) && Leads(cfg, u, b, s')
    ensures Leads(cfg, s, a + b, s')
    decreases |a|
  {
    if a == [] {
      assert a + b == b;
    } else {
      LeadsOn(cfg, Next(cfg, s, a[0]), a[1..], u, b, s');
      LeadsFirst(cfg, s, a[0], a[1..] + b, s');
      assert a + b == [a[0]] + (a[1..] + b);
    }
  }

  lemma ReachOn(cfg: Config, s: State, u: State, s': State)
    requires CanReach(cfg, s, u) && CanReach(cfg, u, s')
    ensures CanReach(cfg, s, s')
  {
    var a :| Leads(cfg, s, a, u);
    var b :| Leads(cfg, u, b, s');
    LeadsOn(cfg, s, a, u, b, s');
  }

  lemma Stay(cfg: Config, s: State)
    ensures CanReach(cfg, s, s)
  {
    assert Leads(cfg, s, [], s);
  }

  /** One step, with what it does to the tasks and the logs. */
  lemma Take(cfg: Config, s: State, l: Label) returns (s': State)
    requires Alive(s) && Enabled(cfg, s, l)
    ensures s' == Next(cfg, s, l) && Alive(s') && CanReach(cfg, s, s')
    ensures OthersStay(s, s', Mover(l))
    ensures Mover(l).Some? ==> PcOf(s', l.t) == PcAfter(cfg, s, l)
  {
    s' := Next(cfg, s, l);
    AliveStep(cfg, s, l);
    OneTaskMoves(cfg, s, l);
    LeadsFirst(cfg, s, l, [], s');
  }

  /** What can be reached from a state of a run ends a run that continues it. */
  lemma {:induction false} ContinuesRun(cfg: Config, run: seq<State>, labels: seq<Label>, more: seq<Label>, s': State)
    returns (run': seq<State>)
    requires IsRun(cfg, run, labels) && Leads(cfg, run[|labels|], more, s')
    ensures run <= run' && IsRun(cfg, run', labels + more) && run'[|run'| - 1] == s'
    decreases |more|
  {
    if more == [] {
      run' := run;
      assert labels + more == labels;
    } else {
      var l := more[0];
      var next := Next(cfg, run[|labels|], l);
      forall i | 0 <= i < |labels + [l]| ensures StepAt(cfg, run + [next], labels + [l], i) {
        assert i < |labels| ==> StepAt(cfg, run, labels, i);
      }
      run' := ContinuesRun(cfg, run + [next], labels + [l], more[1..], s');
      assert labels + [l] + more[1..] == labels + more;
    }
  }

  lemma AliveAt(cfg: Config, run: seq<State>, labels: seq<Label>, i: nat)
    requires IsRun(cfg, run, labels) && i < |run|
    ensures Alive(run[i]) && Conserved(cfg, run[i])
  {
    RunInv(cfg, run, labels, i);
  }

  // ------------------------------------------------------------------------------------------
  // A connection can be had
  // ------------------------------------------------------------------------------------------

  /** A task that has got the live connection has done with it what its goal asks for. */
  predicate There(s: State, pc: Pc, goal: Goal)
  {
    s.live.Some? && s.live.value < |s.logs| &&
    match goal
    case WriteSubscribe(x) => pc == Draining(goal, s.live.value) && Subscribe(x) in s.logs[s.live.value]
    case WriteBegin(x) => pc == Draining(goal, s.live.value) && Begin(x) in s.logs[s.live.value]
    case WriteSend(to, body) => pc == Draining(goal, s.live.value) && Send(to, body) in s.logs[s.live.value]
    case Beat => pc == Idle
    case Listen => pc == Reading(s.live.value, s.count)
  }

  /** With a live connection a task gets it at once. */
  lemma Arrive(cfg: Config, s: State, l: Label, goal: Goal) returns (s': State)
    requires Alive(s) && Enabled(cfg, s, l) && s.live.Some?
    requires (l.Resume? || l.Acquire?) && PcOf(s, l.t).goal == goal
    ensures CanReach(cfg, s, s') && Alive(s') && There(s', PcOf(s', l.t), goal)
  {
    s' := Take(cfg, s, l);
    LogsGrow(cfg, s, l);
  }

  /** An attempt in enter() may lose its connection. */
  lemma BackToHolding(cfg: Config, s: State, u: nat) returns (s': State)
    requires Alive(s) && HoldsLock(PcOf(s, u))
    ensures CanReach(cfg, s, s') && Alive(s') && PcOf(s', u) == Holding(PcOf(s, u).goal)
    ensures s'.lock == Some(u) && s'.live.None? && forall t :: t != u ==> PcOf(s', t) == PcOf(s, t)
  {
    if PcOf(s, u).Holding? {
      s' := s;
      Stay(cfg, s);
    } else {
      s' := Take(cfg, s, EnterFails(u, false));
    }
  }

  /** The lock comes free if another task holds it: its attempt may fail. */
  lemma Release(cfg: Config, s: State, t: nat) returns (s': State)
    requires Alive(s) && s.lock != Some(t)
    ensures CanReach(cfg, s, s') && Alive(s') && s'.lock.None? && PcOf(s', t) == PcOf(s, t)
  {
    if s.lock.None? {
      s' := s;
      Stay(cfg, s);
    } else {
      var u := s.lock.value;
      var s1 := BackToHolding(cfg, s, u);
      s' := Take(cfg, s1, Exhausted(u, false));
      ReachOn(cfg, s, s1, s');
    }
  }

  /** The rest of the resubscription. */
  lemma {:induction false} FinishResubscription(cfg: Config, s: State, t: nat, goal: Goal, c: nat, todo: seq<Subscription>)
    returns (s': State)
    requires Alive(s) && PcOf(s, t) == Entering(goal, c, Resubscribing(todo))
    ensures CanReach(cfg, s, s') && Alive(s') && PcOf(s', t) == Entering(goal, c, Resubscribing([]))
    decreases |todo|
  {
    if todo == [] {
      s' := s;
      Stay(cfg, s);
    } else {
      var s1 := Take(cfg, s, ResubscribeNext(t));
      s' := FinishResubscription(cfg, s1, t, goal, c, todo[1..]);
      ReachOn(cfg, s, s1, s');
    }
  }

  /** The rest of the replay; the registry is left alone meanwhile. */
  lemma {:induction false} FinishReplay(cfg: Config, s: State, t: nat, goal: Goal, c: nat, st: Stage) returns (s': State)
    requires Alive(s) && PcOf(s, t) == Entering(goal, c, st) && st.Replaying? && SetOf(st.order) == s.registry
    requires st.done < |st.order| ==> st.order[st.done] in s.txns && st.sent <= |s.txns[st.order[st.done]].sends|
    requires st.done == |st.order| ==> st.sent == 0
    ensures CanReach(cfg, s, s') && Alive(s') && s'.registry == s.registry
    ensures PcOf(s', t) == Entering(goal, c, Replaying(st.order, |st.order|, 0))
    decreases |st.order| - st.done, if st.done < |st.order| then |s.txns[st.order[st.done]].sends| - st.sent else 0
  {
    if st.done == |st.order| {
      s' := s;
      Stay(cfg, s);
    } else {
      var s1 := ReplayOneFrame(cfg, s, t);
      s' := FinishReplay(cfg, s1, t, goal, c, PcOf(s1, t).stage);
      ReachOn(cfg, s, s1, s');
    }
  }

  lemma ReplayOneFrame(cfg: Config, s: State, t: nat) returns (s': State)
    requires Alive(s) && PcOf(s, t).Entering? && PcOf(s, t).stage.Replaying? && SetOf(PcOf(s, t).stage.order) == s.registry
    requires PcOf(s, t).stage.done < |PcOf(s, t).stage.order|
    ensures CanReach(cfg, s, s') && Alive(s') && s'.registry == s.registry && s'.txns == s.txns
    ensures var st := PcOf(s, t).stage;
            && st.order[st.done] in s.txns
            && PcOf(s', t) == PcOf(s, t).(stage := if st.sent < |s.txns[st.order[st.done]].sends|
                                                  then st.(sent := st.sent + 1) else st.(done := st.done + 1, sent := 0))
  {
    s' := Take(cfg, s, ReplayNext(t));
    ReplayFrame(s, t);
    ReplayMoves(cfg, s, t);
  }

  lemma ReplayMoves(cfg: Config, s: State, t: nat)
    requires Sized(s) && Enabled(cfg, s, ReplayNext(t))
    ensures var st := PcOf(s, t).stage;
            && st.order[st.done] in s.txns
            && PcAfter(cfg, s, ReplayNext(t))
               == PcOf(s, t).(stage := if st.sent < |s.txns[st.order[st.done]].sends|
                                      then st.(sent := st.sent + 1) else st.(done := st.done + 1, sent := 0))
  {
    assert SizedPc(s, PcOf(s, t));
  }

  lemma ReplayFrame(s: State, t: nat)
    requires Sized(s) && PcOf(s, t).Entering? && PcOf(s, t).stage.Replaying?
    requires PcOf(s, t).stage.done < |PcOf(s, t).stage.order|
    ensures NextReplay(s, t).registry == s.registry && NextReplay(s, t).txns == s.txns
  {
    assert SizedPc(s, PcOf(s, t));
  }

  /** Any set can be listed. */
  lemma {:induction false} Listed(xs: set<nat>) returns (order: seq<nat>)
    ensures Distinct(order) && SetOf(order) == xs
    decreases |xs|
  {
    if xs == {} {
      order := [];
    } else {
      var x :| x in xs;
      var rest := Listed(xs - {x});
      order := rest + [x];
      forall y ensures y in SetOf(order) <==> y in xs {
        assert y in SetOf(order) <==> y in SetOf(rest) || y == x;
      }
    }
  }

  /** From the handshake to the installation. */
  lemma EnterAndInstall(cfg: Config, s: State, t: nat, goal: Goal, c: nat) returns (s': State)
    requires Alive(s) && PcOf(s, t) == Entering(goal, c, Handshake)
    ensures CanReach(cfg, s, s') && Alive(s') && s'.live == Some(c) && PcOf(s', t) == Want(goal)
  {
    var s1 := Take(cfg, s, HandshakeDone(t));
    var s2 := FinishResubscription(cfg, s1, t, goal, c, s1.tasks[t].stage.todo);
    ReachOn(cfg, s, s1, s2);
    var order := Listed(s2.registry);
    var s3 := Take(cfg, s2, StartReplay(t, order));
    ReachOn(cfg, s, s2, s3);
    assert SizedPc(s3, PcOf(s3, t));
    var s4 := FinishReplay(cfg, s3, t, goal, c, Replaying(order, 0, 0));
    ReachOn(cfg, s, s3, s4);
    s' := Take(cfg, s4, Install(t));
    assert s' == NextInstall(s4, t);
    ReachOn(cfg, s, s4, s');
  }

  /** A task that wants a connection, with the lock free, can have one. */
  lemma FromWant(cfg: Config, s: State, t: nat, goal: Goal) returns (s': State)
    requires Alive(s) && s.lock.None? && PcOf(s, t) == Want(goal)
    ensures CanReach(cfg, s, s') && Alive(s') && There(s', PcOf(s', t), goal)
  {
    if s.live.Some? {
      s' := Arrive(cfg, s, Resume(t), goal);
    } else {
      var s1 := Take(cfg, s, Resume(t));
      s' := FromWaiting(cfg, s1, t, goal);
      ReachOn(cfg, s, s1, s');
    }
  }

  lemma FromWaiting(cfg: Config, s: State, t: nat, goal: Goal) returns (s': State)
    requires Alive(s) && s.lock.None? && PcOf(s, t) == Waiting(goal)
    ensures CanReach(cfg, s, s') && Alive(s') && There(s', PcOf(s', t), goal)
  {
    if s.live.Some? {
      s' := Arrive(cfg, s, Acquire(t), goal);
    } else {
      var s1 := Take(cfg, s, Acquire(t));
      s' := FromHolding(cfg, s1, t, goal);
      ReachOn(cfg, s, s1, s');
    }
  }

  lemma FromHolding(cfg: Config, s: State, t: nat, goal: Goal) returns (s': State)
    requires Alive(s) && PcOf(s, t) == Holding(goal)
    ensures CanReach(cfg, s, s') && Alive(s') && There(s', PcOf(s', t), goal)
  {
    var s1 := Take(cfg, s, Connected(t));
    var s2 := EnterAndInstall(cfg, s1, t, goal, |s.logs|);
    ReachOn(cfg, s, s1, s2);
    s' := Arrive(cfg, s2, Resume(t), goal);
    ReachOn(cfg, s, s2, s');
  }

  /** Wherever a task is on its way, it can still get there. */
  lemma CanGetThere(cfg: Config, s: State, t: nat) returns (s': State)
    requires Alive(s) && HasGoal(PcOf(s, t))
    ensures CanReach(cfg, s, s') && Alive(s') && There(s', PcOf(s', t), PcOf(s, t).goal)
  {
    var goal := PcOf(s, t).goal;
    if HoldsLock(PcOf(s, t)) {
      var s1 := BackToHolding(cfg, s, t);
      s' := FromHolding(cfg, s1, t, goal);
      ReachOn(cfg, s, s1, s');
    } else {
      var s2 := Ready(cfg, s, t);
      if PcOf(s2, t).Waiting? {
        s' := FromWaiting(cfg, s2, t, goal);
      } else {
        s' := FromWant(cfg, s2, t, goal);
      }
      ReachOn(cfg, s, s2, s');
    }
  }

  /** A task that does not hold the lock may find it free. */
  lemma Ready(cfg: Config, s: State, t: nat) returns (s': State)
    requires Alive(s) && HasGoal(PcOf(s, t)) && !HoldsLock(PcOf(s, t))
    ensures CanReach(cfg, s, s') && Alive(s') && s'.lock.None?
    ensures PcOf(s', t) == Want(PcOf(s, t).goal) || PcOf(s', t) == Waiting(PcOf(s, t).goal)
  {
    var s1 := s;
    Stay(cfg, s);
    if PcOf(s, t).Draining? {
      s1 := Take(cfg, s, DrainLost(t));
    }
    NotHolder(s1, t);
    s' := Release(cfg, s1, t);
    ReachOn(cfg, s, s1, s');
  }

  /** The goal is reached: the frame is on the live connection and the registries know of it. */
  predicate Achieved(s: State, pc: Pc, goal: Goal)
  {
    s.live.Some? && s.live.value < |s.logs| &&
    match goal
    case WriteSubscribe(x) => pc == Idle && Subscribe(x) in s.logs[s.live.value] && x in s.subs
    case WriteBegin(x) => pc == Idle && Begin(x) in s.logs[s.live.value] && x in s.registry && x in s.txns && s.txns[x].phase == Open
    case WriteSend(to, body) => pc == Idle && Send(to, body) in s.logs[s.live.value]
    case Beat => pc == Idle
    case Listen => pc == Reading(s.live.value, s.count)
  }

  /** A task that is there achieves its goal when its drain ends well. */
  lemma Conclude(cfg: Config, s: State, t: nat, goal: Goal) returns (s': State)
    requires Alive(s) && There(s, PcOf(s, t), goal)
    ensures CanReach(cfg, s, s') && Achieved(s', PcOf(s', t), goal)
  {
    if PcOf(s, t).Draining? {
      s' := Take(cfg, s, DrainOk(t));
      LogsGrow(cfg, s, DrainOk(t));
      assert SizedPc(s, PcOf(s, t)) && s' == NextDrainOk(s, t);
    } else {
      s' := s;
      Stay(cfg, s);
    }
  }

  lemma CanAchieve(cfg: Config, s: State, t: nat) returns (s': State)
    requires Alive(s) && HasGoal(PcOf(s, t))
    ensures CanReach(cfg, s, s') && Achieved(s', PcOf(s', t), PcOf(s, t).goal)
  {
    var s1 := CanGetThere(cfg, s, t);
    s' := Conclude(cfg, s1, t, PcOf(s, t).goal);
    ReachOn(cfg, s, s1, s');
  }

  /** In every reachable state, every task on its way to the connection can still achieve what it wants
      it for: whatever failed, whoever holds the lock, however often it was retried. */
  lemma GoalStaysAchievable(cfg: Config, run: seq<State>, labels: seq<Label>, k: nat, t: nat) returns (s': State)
    requires IsRun(cfg, run, labels) && k <= |labels| && HasGoal(PcOf(run[k], t))
    ensures CanReach(cfg, run[k], s') && Achieved(s', PcOf(s', t), PcOf(run[k], t).goal)
  {
    AliveAt(cfg, run, labels, k);
    s' := CanAchieve(cfg, run[k], t);
  }

  // ------------------------------------------------------------------------------------------
  // A message can be handled
  // ------------------------------------------------------------------------------------------

  /** A queued message is held by the reader that waits to dispatch it. */
  predicate Queuer(s: State, t: nat, m: nat) { PcOf(s, t).Dispatching? && PcOf(s, t).msg == m }

  ghost predicate HasQueuer(s: State, m: nat) { exists t :: Queuer(s, t, m) }

  lemma QueuerStays(cfg: Config, s: State, l: Label, t: nat, m: nat)
    requires Sized(s) && Enabled(cfg, s, l) && Queuer(s, t, m)
    requires m < |Next(cfg, s, l).msgs| && Next(cfg, s, l).msgs[m].phase.Queued?
    ensures Queuer(Next(cfg, s, l), t, m)
  {
    OneTaskMoves(cfg, s, l);
    if Mover(l) == Some(t) {
      DispatchRuns(cfg, s, l);
    }
  }

  lemma QueuerStep(cfg: Config, s: State, l: Label, s': State, m: nat)
    requires Alive(s) && QueuesOk(s) && Enabled(cfg, s, l) && s' == Next(cfg, s, l)
    requires m < |s'.msgs| && s'.msgs[m].phase.Queued?
    requires m < |s.msgs| && s.msgs[m].phase.Queued? ==> HasQueuer(s, m)
    ensures HasQueuer(s', m)
  {
    if m < |s.msgs| {
      PhaseChanges(cfg, s, l, m);
      var t :| Queuer(s, t, m);
      QueuerStays(cfg, s, l, t, m);
    } else {
      DeliverQueues(cfg, s, l);
      assert Queuer(s', l.t, m);
    }
  }

  /** A reader stops waiting to dispatch by starting the handler. */
  lemma DispatchRuns(cfg: Config, s: State, l: Label)
    requires Sized(s) && Enabled(cfg, s, l) && Mover(l).Some? && PcOf(s, l.t).Dispatching?
    ensures PcOf(s, l.t).msg < |Next(cfg, s, l).msgs| && Next(cfg, s, l).msgs[PcOf(s, l.t).msg].phase.Running?
  {
    assert SizedPc(s, PcOf(s, l.t));
  }

  lemma DeliverQueues(cfg: Config, s: State, l: Label)
    requires Sized(s) && Enabled(cfg, s, l) && |Next(cfg, s, l).msgs| > |s.msgs|
    ensures l.Deliver? && |Next(cfg, s, l).msgs| == |s.msgs| + 1
    ensures Next(cfg, s, l).msgs[|s.msgs|].phase.Queued? ==> Queuer(Next(cfg, s, l), l.t, |s.msgs|)
  {
    StepKeepsMessages(cfg, s, l);
  }

  lemma QueuesInv(cfg: Config, run: seq<State>, labels: seq<Label>, i: nat)
    requires IsRun(cfg, run, labels) && i < |labels|
    ensures Alive(run[i]) && QueuesOk(run[i]) && Enabled(cfg, run[i], labels[i]) && run[i + 1] == Next(cfg, run[i], labels[i])
  {
    RunInv(cfg, run, labels, i);
    assert StepAt(cfg, run, labels, i);
  }

  lemma {:induction false} QueuedHasQueuer(cfg: Config, run: seq<State>, labels: seq<Label>, k: nat, m: nat)
    requires IsRun(cfg, run, labels) && k <= |labels| && m < |run[k].msgs| && run[k].msgs[m].phase.Queued?
    ensures HasQueuer(run[k], m)
  {
    if k > 0 {
      QueuesInv(cfg, run, labels, k - 1);
      if m < |run[k - 1].msgs| && run[k - 1].msgs[m].phase.Queued? {
        QueuedHasQueuer(cfg, run, labels, k - 1, m);
      }
      QueuerStep(cfg, run[k - 1], labels[k - 1], run[k], m);
    }
  }

  lemma {:induction false} SomeHolder(msgs: seq<Message>) returns (h: nat)
    requires Held(msgs) > 0
    ensures h < |msgs| && HoldsPermit(msgs[h])
  {
    h := |msgs| - 1;
    if !HoldsPermit(msgs[h]) {
      h := SomeHolder(msgs[..h]);
    }
  }

  /** A permit comes free when a handler ends. */
  lemma FreePermit(cfg: Config, s: State) returns (s': State)
    requires Alive(s) && Conserved(cfg, s) && cfg.cap.Some? && cfg.cap.value > 0
    ensures CanReach(cfg, s, s') && Alive(s') && s'.permits > 0 && s'.tasks == s.tasks && |s'.msgs| == |s.msgs|
  {
    if s.permits > 0 {
      s' := s;
      Stay(cfg, s);
    } else {
      var h := SomeHolder(s.msgs);
      var s1 := s;
      Stay(cfg, s);
      if s.msgs[h].phase.Running? {
        s1 := EndHandler(cfg, s, h, Raised);
      }
      s' := Take(cfg, s1, TaskDone(h));
      OneTaskMoves(cfg, s1, TaskDone(h));
      ReachOn(cfg, s, s1, s');
    }
  }

  lemma EndHandler(cfg: Config, s: State, h: nat, outcome: Outcome) returns (s': State)
    requires Alive(s) && h < |s.msgs| && s.msgs[h].phase.Running?
    ensures CanReach(cfg, s, s') && Alive(s') && s'.tasks == s.tasks && s'.permits == s.permits
    ensures |s'.msgs| == |s.msgs| && s'.msgs[h].phase == Settling(outcome)
  {
    s' := Take(cfg, s, HandlerEnds(h, outcome));
    OneTaskMoves(cfg, s, HandlerEnds(h, outcome));
  }

  /** In every reachable state, the handler of every queued message can still be started, unless
      no handler may ever run. */
  lemma QueuedCanRun(cfg: Config, run: seq<State>, labels: seq<Label>, k: nat, m: nat) returns (s': State)
    requires IsRun(cfg, run, labels) && k <= |labels| && m < |run[k].msgs| && run[k].msgs[m].phase.Queued?
    requires cfg.cap != Some(0)
    ensures CanReach(cfg, run[k], s') && m < |s'.msgs| && s'.msgs[m].phase.Running?
  {
    AliveAt(cfg, run, labels, k);
    QueuedHasQueuer(cfg, run, labels, k, m);
    var t :| Queuer(run[k], t, m);
    s' := CanDispatch(cfg, run[k], t);
  }

  lemma CanDispatch(cfg: Config, s: State, t: nat) returns (s': State)
    requires Alive(s) && Conserved(cfg, s) && PcOf(s, t).Dispatching? && cfg.cap != Some(0)
    ensures CanReach(cfg, s, s') && PcOf(s, t).msg < |s'.msgs| && s'.msgs[PcOf(s, t).msg].phase.Running?
  {
    var s1 := s;
    Stay(cfg, s);
    if cfg.cap.Some? {
      s1 := FreePermit(cfg, s);
    }
    s' := Take(cfg, s1, Dispatch(t));
    ReachOn(cfg, s, s1, s');
    DispatchRuns(cfg, s1, Dispatch(t));
  }

  /** With no permits at all, no handler ever runs. */
  lemma NoneRuns(cfg: Config, run: seq<State>, labels: seq<Label>, k: nat, m: nat)
    requires IsRun(cfg, run, labels) && k <= |labels| && m < |run[k].msgs| && cfg.cap == Some(0)
    ensures !run[k].msgs[m].phase.Running?
  {
    HandlerConservation(cfg, run, labels, k);
    if run[k].msgs[m].phase.Running? {
      HolderCounts(run[k].msgs, m);
    }
  }

  lemma {:induction false} HolderCounts(msgs: seq<Message>, m: nat)
    requires m < |msgs| && HoldsPermit(msgs[m])
    ensures Held(msgs) > 0
  {
    if m < |msgs| - 1 {
      HolderCounts(msgs[..|msgs| - 1], m);
    }
  }

  // ------------------------------------------------------------------------------------------
  // What others may do
  // ------------------------------------------------------------------------------------------

  /** A reader may be sent any message at any time. */
  lemma AnyMessageMayCome(cfg: Config, run: seq<State>, labels: seq<Label>, k: nat, t: nat, sub: Subscription, hasAck: bool)
    returns (s': State)
    requires IsRun(cfg, run, labels) && k <= |labels| && PcOf(run[k], t).Reading?
    ensures CanReach(cfg, run[k], s') && |s'.msgs| == |run[k].msgs| + 1
    ensures s'.msgs[|run[k].msgs|] == Message(PcOf(run[k], t).conn, PcOf(run[k], t).epoch, sub, hasAck, run[k].now,
                                              if sub in run[k].subs then Queued else Ignored)
  {
    AliveAt(cfg, run, labels, k);
    s' := Take(cfg, run[k], Deliver(t, sub, hasAck));
  }

  /** A handler may end in any way, and its permit is free again. */
  lemma AnyHandlerMayEnd(cfg: Config, run: seq<State>, labels: seq<Label>, k: nat, m: nat, outcome: Outcome)
    returns (s': State)
    requires IsRun(cfg, run, labels) && k <= |labels| && m < |run[k].msgs| && run[k].msgs[m].phase.Running?
    ensures CanReach(cfg, run[k], s') && s'.permits == run[k].permits + 1
    ensures m < |s'.msgs| && s'.msgs[m].phase == Done(outcome)
  {
    AliveAt(cfg, run, labels, k);
    var s1 := EndHandler(cfg, run[k], m, outcome);
    s' := Take(cfg, s1, TaskDone(m));
    ReachOn(cfg, run[k], s1, s');
  }

  /** A message whose handler was started may be acknowledged by hand, or rejected, at any time, and
      the answer is written if the message can still be answered. */
  lemma MayBeAnswered(cfg: Config, run: seq<State>, labels: seq<Label>, k: nat, m: nat, positive: bool) returns (s': State)
    requires IsRun(cfg, run, labels) && k <= |labels| && m < |run[k].msgs| && !run[k].msgs[m].sub.autoAck
    requires !run[k].msgs[m].phase.Ignored? && !run[k].msgs[m].phase.Queued? && Answerable(run[k], m)
    ensures CanReach(cfg, run[k], s')
    ensures GrowsBy(run[k].logs, s'.logs, run[k].msgs[m].conn, if positive then Ack(m) else Nack(m))
  {
    AliveAt(cfg, run, labels, k);
    EpochTestIsExact(run[k], m);
    s' := Take(cfg, run[k], ManualSettle(m, positive));
    LogsGrow(cfg, run[k], ManualSettle(m, positive));
  }

  /** Any connection that was ever installed may be seen to fail; it is not live afterwards. */
  lemma AnyConnectionMayFail(cfg: Config, run: seq<State>, labels: seq<Label>, k: nat, c: nat) returns (s': State)
    requires IsRun(cfg, run, labels) && k <= |labels| && c in run[k].installed
    ensures CanReach(cfg, run[k], s') && s'.live != Some(c) && (run[k].live != Some(c) ==> s' == run[k])
  {
    AliveAt(cfg, run, labels, k);
    s' := Take(cfg, run[k], Fails(c));
    DiscardKeeps(run[k], c);
  }

  /** A task that reads or waits for a drain may find its connection lost: it wants a new one, or ends if
      it was exiting a transaction, and the connection is not live afterwards. */
  lemma LossMayShow(cfg: Config, run: seq<State>, labels: seq<Label>, k: nat, t: nat) returns (s': State)
    requires IsRun(cfg, run, labels) && k <= |labels|
    requires PcOf(run[k], t).Reading? || PcOf(run[k], t).Draining? || PcOf(run[k], t).Exiting?
    ensures CanReach(cfg, run[k], s') && s'.live != Some(PcOf(run[k], t).conn)
    ensures PcOf(s', t) == if PcOf(run[k], t).Reading? then Want(Listen)
                           else if PcOf(run[k], t).Draining? then Want(PcOf(run[k], t).goal) else Idle
  {
    AliveAt(cfg, run, labels, k);
    s' := Lose(cfg, run[k], t);
  }

  lemma Lose(cfg: Config, s: State, t: nat) returns (s': State)
    requires Alive(s) && (PcOf(s, t).Reading? || PcOf(s, t).Draining? || PcOf(s, t).Exiting?)
    ensures CanReach(cfg, s, s') && s'.live != Some(PcOf(s, t).conn)
    ensures PcOf(s', t) == if PcOf(s, t).Reading? then Want(Listen)
                           else if PcOf(s, t).Draining? then Want(PcOf(s, t).goal) else Idle
  {
    var l := if PcOf(s, t).Reading? then ReaderLost(t) else if PcOf(s, t).Draining? then DrainLost(t) else ExitLost(t);
    s' := Take(cfg, s, l);
    ConnsStep(cfg, s, l);
  }

  /** A task on its way may also end without a connection; what is live and the lock of others are as
      they were. */
  lemma MayEndWithout(cfg: Config, run: seq<State>, labels: seq<Label>, k: nat, t: nat) returns (s': State)
    requires IsRun(cfg, run, labels) && k <= |labels|
    requires PcOf(run[k], t).Want? || PcOf(run[k], t).Holding? || PcOf(run[k], t).Entering?
    ensures CanReach(cfg, run[k], s') && PcOf(s', t) == Idle && s'.live == run[k].live
    ensures s'.lock == if run[k].lock == Some(t) then None else run[k].lock
  {
    AliveAt(cfg, run, labels, k);
    if PcOf(run[k], t).Want? {
      NotHolder(run[k], t);
      s' := Take(cfg, run[k], GiveUp(t));
    } else if PcOf(run[k], t).Holding? {
      s' := Take(cfg, run[k], Exhausted(t, false));
    } else {
      s' := Take(cfg, run[k], EnterFails(t, true));
    }
  }

  /** An idle task may start to subscribe with a new id, to begin a new transaction, or to send outside
      any transaction or in an open one, and can achieve it. */
  lemma AnythingMayStart(cfg: Config, run: seq<State>, labels: seq<Label>, k: nat, t: nat, goal: Goal) returns (s': State)
    requires IsRun(cfg, run, labels) && k <= |labels| && PcOf(run[k], t).Idle?
    requires goal.WriteSubscribe? ==> forall x :: x in run[k].started ==> x.id != goal.sub.id
    requires goal.WriteBegin? ==> goal.txn !in run[k].txns
    requires goal.WriteSend? && goal.to.Some? ==> goal.to.value in run[k].txns && run[k].txns[goal.to.value].phase.Open?
    ensures CanReach(cfg, run[k], s') && Achieved(s', PcOf(s', t), goal)
  {
    AliveAt(cfg, run, labels, k);
    var s1 := Take(cfg, run[k], Spawn(t, goal));
    if run[k].live.None? {
      s' := CanAchieve(cfg, s1, t);
    } else {
      LogsGrow(cfg, run[k], Spawn(t, goal));
      s' := Conclude(cfg, s1, t, goal);
    }
    ReachOn(cfg, run[k], s1, s');
  }

  /** With a live connection an open transaction may be exited either way: its last frame is on that
      connection, and it is over. */
  lemma OpenMayBeExited(cfg: Config, run: seq<State>, labels: seq<Label>, k: nat, t: nat, x: nat, clean: bool)
    returns (s': State)
    requires IsRun(cfg, run, labels) && k <= |labels| && PcOf(run[k], t).Idle? && run[k].live.Some?
    requires x in run[k].txns && run[k].txns[x].phase.Open?
    ensures CanReach(cfg, run[k], s') && s'.live == run[k].live && s'.registry == run[k].registry - {x}
    ensures GrowsBy(run[k].logs, s'.logs, run[k].live.value, if clean then Commit(x) else Abort(x))
    ensures x in s'.txns && s'.txns[x] == Txn(Finished, run[k].txns[x].sends)
  {
    AliveAt(cfg, run, labels, k);
    var s1 := Take(cfg, run[k], ExitTxn(t, x, clean));
    LogsGrow(cfg, run[k], ExitTxn(t, x, clean));
    assert s1 == NextExit(run[k], t, x, clean);
    s' := Take(cfg, s1, ExitOk(t));
    assert s' == NextExitOk(s1, t);
    ReachOn(cfg, run[k], s1, s');
  }

  /** A subscription may be given up at any time; the others stay registered, and the broker is told on
      the live connection. */
  lemma MayBeUnsubscribed(cfg: Config, run: seq<State>, labels: seq<Label>, k: nat, x: Subscription) returns (s': State)
    requires IsRun(cfg, run, labels) && k <= |labels|
    ensures CanReach(cfg, run[k], s') && forall y :: y in s'.subs <==> y in run[k].subs && y != x
    ensures if run[k].live.Some? then GrowsBy(run[k].logs, s'.logs, run[k].live.value, Unsubscribe(x))
            else s'.logs == run[k].logs
  {
    AliveAt(cfg, run, labels, k);
    s' := Take(cfg, run[k], Unsub(x));
    LogsGrow(cfg, run[k], Unsub(x));
    RemoveSubSpec(run[k].subs, x);
  }
}
