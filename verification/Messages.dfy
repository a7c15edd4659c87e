/** Messages: epoch fencing, settlement of auto-acknowledged messages, the handler semaphore, and
    the no-message monitor. */
module Messages {
  import opened Bytes
  import opened Session
  import opened Lifecycle
  import opened Effects

  predicate IsAnswer(w: Written) { w.Ack? || w.Nack? }

  /** Every ACK or NACK on a connection answers a message that was read from that connection. */
  predicate Fenced(s: State)
  {
    forall c, k :: 0 <= c < |s.logs| && 0 <= k < |s.logs[c]| && IsAnswer(s.logs[c][k]) ==>
      s.logs[c][k].msg < |s.msgs| && s.msgs[s.logs[c][k].msg].conn == c
  }

  /** Messages are never forgotten, and only their phase ever changes. */
  predicate MessagesKept(s: State, s': State)
  {
    && |s.msgs| <= |s'.msgs|
    && forall m :: 0 <= m < |s.msgs| ==> s'.msgs[m] == s.msgs[m].(phase := s'.msgs[m].phase)
  }

  lemma StepKeepsMessages(cfg: Config, s: State, l: Label)
    requires Sized(s) && Enabled(cfg, s, l)
    ensures MessagesKept(s, Next(cfg, s, l))
    ensures !l.Deliver? ==> |Next(cfg, s, l).msgs| == |s.msgs|
    ensures !l.Deliver? && !l.Dispatch? && !l.HandlerEnds? && !l.TaskDone? ==> Next(cfg, s, l).msgs == s.msgs
  {
    if Reconnects(l) {
      assert NextReconnect(cfg, s, l).msgs == s.msgs by { if l.ReplayNext? { assert SizedPc(s, PcOf(s, l.t)); } }
    } else if Follows(l) {
      assert NextFollow(cfg, s, l).msgs == s.msgs by {
        if l.ExitOk? || l.ExitLost? || l.DrainOk? { assert SizedPc(s, PcOf(s, l.t)); }
      }
    } else if l.Dispatch? {
      assert SizedPc(s, PcOf(s, l.t));
    }
  }

  /** An answer is written only on the connection that delivered the message. */
  lemma AnswersAreFenced(cfg: Config, s: State, l: Label)
    requires Alive(s) && Enabled(cfg, s, l) && Wrote(cfg, s, l).Some? && IsAnswer(Wrote(cfg, s, l).value.1)
    ensures var (c, w) := Wrote(cfg, s, l).value;
            && w.msg < |s.msgs| && s.msgs[w.msg].conn == c
            && s.msgs[w.msg].sub in s.subs && s.msgs[w.msg].hasAck
            && (l.HandlerEnds? || l.ManualSettle?) && l.m == w.msg
  {
    LiveIsInstalled(s);
  }

  /** With a live connection, the epoch test passes if and only if that connection is the one that
      delivered the message. */
  lemma EpochTestIsExact(s: State, m: nat)
    requires Alive(s) && m < |s.msgs| && s.live.Some?
    ensures s.msgs[m].epoch == s.count <==> s.live == Some(s.msgs[m].conn)
  {
    var e := s.msgs[m].epoch;
    assert s.installed[e] == s.msgs[m].conn && s.installed[s.count] == s.live.value;
    assert e < s.count ==> s.installed[e] != s.installed[s.count];
  }

  lemma FencedStep(cfg: Config, s: State, l: Label)
    requires Alive(s) && Fenced(s) && Enabled(cfg, s, l)
    ensures Fenced(Next(cfg, s, l))
  {
    var s' := Next(cfg, s, l);
    StepKeepsMessages(cfg, s, l);
    forall c, k | 0 <= c < |s'.logs| && 0 <= k < |s'.logs[c]| && IsAnswer(s'.logs[c][k])
      ensures s'.logs[c][k].msg < |s'.msgs| && s'.msgs[s'.logs[c][k].msg].conn == c
    {
      AnswerOrigin(cfg, s, l, c, k);
    }
  }

  /** An answer on a log was there before, or is the one the step writes. */
  lemma AnswerOrigin(cfg: Config, s: State, l: Label, c: nat, k: nat)
    requires Alive(s) && Fenced(s) && Enabled(cfg, s, l)
    requires c < |Next(cfg, s, l).logs| && k < |Next(cfg, s, l).logs[c]| && IsAnswer(Next(cfg, s, l).logs[c][k])
    ensures var m := Next(cfg, s, l).logs[c][k].msg; m < |s.msgs| && s.msgs[m].conn == c
  {
    LogsGrow(cfg, s, l);
    if c < |s.logs| && k < |s.logs[c]| {
      assert Next(cfg, s, l).logs[c][k] == s.logs[c][k];
    } else if !l.Connected? {
      AnswersAreFenced(cfg, s, l);
    }
  }

  // ------------------------------------------------------------------------------------------
  // Settlement
  // ------------------------------------------------------------------------------------------

  function Times(log: seq<Written>, w: Written): nat { multiset(log)[w] }

  lemma TimesAppend(log: seq<Written>, w: Written, x: Written)
    ensures Times(log + [w], x) == Times(log, x) + if w == x then 1 else 0
  {
  }

  predicate Ended(phase: MessagePhase) { phase.Settling? || phase.Done? }

  /** At most one answer, the right one, and only after the handler ended. */
  predicate SettledOnce(log: seq<Written>, m: nat, msg: Message)
  {
    && Times(log, Ack(m)) + Times(log, Nack(m)) <= 1
    && (Times(log, Ack(m)) > 0 ==> msg.sub.settles && Ended(msg.phase) && msg.phase.outcome == Returned)
    && (Times(log, Nack(m)) > 0 ==> msg.sub.settles && Ended(msg.phase) && msg.phase.outcome == Suppressed)
  }

  predicate Settled(s: State)
    requires Sized(s) && MessagesOk(s)
  {
    forall m :: 0 <= m < |s.msgs| && s.msgs[m].sub.autoAck ==>
      SettledOnce(s.logs[s.msgs[m].conn], m, s.msgs[m])
  }

  lemma FreshMessageIsUnanswered(s: State, c: nat)
    requires Fenced(s) && c < |s.logs|
    ensures Times(s.logs[c], Ack(|s.msgs|)) == 0 && Times(s.logs[c], Nack(|s.msgs|)) == 0
  {
    forall k | 0 <= k < |s.logs[c]|
      ensures s.logs[c][k] != Ack(|s.msgs|) && s.logs[c][k] != Nack(|s.msgs|)
    {
      assert IsAnswer(s.logs[c][k]) ==> s.logs[c][k].msg < |s.msgs|;
    }
  }

  /** The life of a message: queued, running, settling, done. */
  predicate PhaseMoves(p: MessagePhase, p': MessagePhase)
  {
    || p' == p
    || (p.Queued? && p' == Running)
    || (p.Running? && p'.Settling?)
    || (p.Settling? && p' == Done(p.outcome))
  }

  /** A step moves a message along its life; only the end of its handler makes it settle. */
  lemma PhaseChanges(cfg: Config, s: State, l: Label, m: nat)
    requires Alive(s) && QueuesOk(s) && Enabled(cfg, s, l) && m < |s.msgs|
    ensures MessagesKept(s, Next(cfg, s, l))
    ensures PhaseMoves(s.msgs[m].phase, Next(cfg, s, l).msgs[m].phase)
    ensures l.HandlerEnds? && l.m == m ==> Next(cfg, s, l).msgs[m].phase == Settling(l.outcome)
  {
    StepKeepsMessages(cfg, s, l);
    if l.Dispatch? {
      assert SizedPc(s, PcOf(s, l.t));
    }
  }

  predicate QueuesOk(s: State)
    requires Sized(s)
  {
    && (forall t :: t in s.tasks && s.tasks[t].Dispatching? ==>
          SizedPc(s, s.tasks[t]) && s.msgs[s.tasks[t].msg].phase.Queued?)
    && (forall t, u :: t in s.tasks && u in s.tasks && t != u && s.tasks[t].Dispatching? && s.tasks[u].Dispatching? ==>
          s.tasks[t].msg != s.tasks[u].msg)
  }

  lemma SettledStep(cfg: Config, s: State, l: Label)
    requires Alive(s) && Fenced(s) && Settled(s) && QueuesOk(s) && Enabled(cfg, s, l)
    requires Alive(Next(cfg, s, l))
    ensures Settled(Next(cfg, s, l))
  {
    var s' := Next(cfg, s, l);
    LogsGrow(cfg, s, l);
    StepKeepsMessages(cfg, s, l);
    forall m | 0 <= m < |s'.msgs| && s'.msgs[m].sub.autoAck
      ensures SettledOnce(s'.logs[s'.msgs[m].conn], m, s'.msgs[m])
    {
      if m < |s.msgs| {
        assert SettledOnce(s.logs[s.msgs[m].conn], m, s.msgs[m]);
        SettledMessageStep(cfg, s, l, m);
      } else {
        assert l.Deliver? && s'.logs == s.logs && m == |s.msgs|;
        FreshMessageIsUnanswered(s, s'.msgs[m].conn);
      }
    }
  }

  lemma SettledMessageStep(cfg: Config, s: State, l: Label, m: nat)
    requires Alive(s) && QueuesOk(s) && Enabled(cfg, s, l) && m < |s.msgs| && s.msgs[m].sub.autoAck
    requires s.msgs[m].conn < |s.logs| && SettledOnce(s.logs[s.msgs[m].conn], m, s.msgs[m])
    ensures var s' := Next(cfg, s, l);
            MessagesKept(s, s') && s.msgs[m].conn < |s'.logs| && SettledOnce(s'.logs[s.msgs[m].conn], m, s'.msgs[m])
  {
    var c, w := s.msgs[m].conn, Wrote(cfg, s, l);
    PhaseChanges(cfg, s, l, m);
    LogGrows(cfg, s, l, c);
    var msg' := Next(cfg, s, l).msgs[m];
    if w.Some? && (w.value.1 == Ack(m) || w.value.1 == Nack(m)) {
      AnswerEndsHandler(cfg, s, l, m);
      AnswerSettles(s.logs[c], m, s.msgs[m], msg', w.value.1);
    } else if w.Some? && w.value.0 == c {
      OtherFrameSettles(s.logs[c], m, s.msgs[m], msg', w.value.1);
    }
  }

  lemma LogGrows(cfg: Config, s: State, l: Label, c: nat)
    requires Sized(s) && Enabled(cfg, s, l) && c < |s.logs|
    ensures c < |Next(cfg, s, l).logs|
    ensures var w := Wrote(cfg, s, l);
            Next(cfg, s, l).logs[c] == if w.Some? && w.value.0 == c then s.logs[c] + [w.value.1] else s.logs[c]
  {
    LogsGrow(cfg, s, l);
  }

  /** An auto-acknowledged message is answered by the end of its handler, according to its outcome. */
  lemma AnswerEndsHandler(cfg: Config, s: State, l: Label, m: nat)
    requires Alive(s) && Enabled(cfg, s, l) && m < |s.msgs| && s.msgs[m].sub.autoAck && Wrote(cfg, s, l).Some?
    requires Wrote(cfg, s, l).value.1 == Ack(m) || Wrote(cfg, s, l).value.1 == Nack(m)
    ensures Wrote(cfg, s, l).value.0 == s.msgs[m].conn
    ensures l.HandlerEnds? && l.m == m && s.msgs[m].phase.Running? && s.msgs[m].sub.settles
    ensures l.outcome == if Wrote(cfg, s, l).value.1.Ack? then Returned else Suppressed
  {
    AnswersAreFenced(cfg, s, l);
  }

  lemma AnswerSettles(log: seq<Written>, m: nat, msg: Message, msg': Message, w: Written)
    requires SettledOnce(log, m, msg) && msg.phase.Running? && (w == Ack(m) || w == Nack(m))
    requires msg' == msg.(phase := Settling(if w.Ack? then Returned else Suppressed)) && msg.sub.settles
    ensures SettledOnce(log + [w], m, msg')
  {
    TimesAppend(log, w, Ack(m));
    TimesAppend(log, w, Nack(m));
  }

  lemma OtherFrameSettles(log: seq<Written>, m: nat, msg: Message, msg': Message, w: Written)
    requires SettledOnce(log, m, msg) && msg' == msg.(phase := msg'.phase) && PhaseMoves(msg.phase, msg'.phase)
    requires w != Ack(m) && w != Nack(m)
    ensures SettledOnce(log + [w], m, msg')
  {
    TimesAppend(log, w, Ack(m));
    TimesAppend(log, w, Nack(m));
  }

  // ------------------------------------------------------------------------------------------
  // The handler semaphore
  // ------------------------------------------------------------------------------------------

  predicate HoldsPermit(m: Message) { m.phase.Running? || m.phase.Settling? }

  /** The number of handler tasks that hold a permit. */
  function Held(msgs: seq<Message>): nat
  {
    if msgs == [] then 0
    else Held(msgs[..|msgs| - 1]) + if HoldsPermit(msgs[|msgs| - 1]) then 1 else 0
  }

  lemma {:induction false} HeldUpdate(msgs: seq<Message>, m: nat, x: Message)
    requires m < |msgs|
    ensures Held(msgs[m := x])
         == Held(msgs) - (if HoldsPermit(msgs[m]) then 1 else 0) + (if HoldsPermit(x) then 1 else 0)
  {
    var n := |msgs| - 1;
    if m == n {
      assert msgs[m := x][..n] == msgs[..n];
    } else {
      HeldUpdate(msgs[..n], m, x);
      assert msgs[m := x][..n] == msgs[..n][m := x];
    }
  }

  predicate Conserved(cfg: Config, s: State)
  {
    && s.permits + Held(s.msgs) == Cap(cfg)
    && (cfg.cap.Some? ==> s.permits >= 0)
  }

  predicate IsDone(s: State, m: nat) { m < |s.msgs| && s.msgs[m].phase.Done? }

  /** A handler's task is done once, and nothing else makes it so. */
  lemma DoneOnce(cfg: Config, s: State, l: Label, m: nat)
    requires Alive(s) && QueuesOk(s) && Enabled(cfg, s, l)
    ensures IsDone(Next(cfg, s, l), m) <==> IsDone(s, m) || l == TaskDone(m)
    ensures l == TaskDone(m) ==> !IsDone(s, m)
  {
    StepKeepsMessages(cfg, s, l);
    if !Reconnects(l) && !Follows(l) {
      ClientDone(cfg, s, l, m);
    }
  }

  lemma ClientDone(cfg: Config, s: State, l: Label, m: nat)
    requires Sized(s) && QueuesOk(s) && Enabled(cfg, s, l) && !Reconnects(l) && !Follows(l)
    ensures IsDone(NextClient(cfg, s, l), m) <==> IsDone(s, m) || l == TaskDone(m)
  {
    if l.Dispatch? {
      assert SizedPc(s, PcOf(s, l.t));
    }
  }

  lemma ReconnectPermits(cfg: Config, s: State, l: Label)
    requires Sized(s) && Enabled(cfg, s, l) && Reconnects(l)
    ensures NextReconnect(cfg, s, l).permits == s.permits
  {
    assert l.ReplayNext? ==> SizedPc(s, PcOf(s, l.t));
  }

  lemma FollowPermits(cfg: Config, s: State, l: Label)
    requires Sized(s) && Enabled(cfg, s, l) && Follows(l)
    ensures NextFollow(cfg, s, l).permits == s.permits
  {
    assert l.ExitOk? || l.ExitLost? || l.DrainOk? ==> SizedPc(s, PcOf(s, l.t));
  }

  lemma ConservedStep(cfg: Config, s: State, l: Label)
    requires Alive(s) && QueuesOk(s) && Conserved(cfg, s) && Enabled(cfg, s, l)
    ensures Conserved(cfg, Next(cfg, s, l))
  {
    if Reconnects(l) {
      StepKeepsMessages(cfg, s, l);
      ReconnectPermits(cfg, s, l);
    } else if Follows(l) {
      StepKeepsMessages(cfg, s, l);
      FollowPermits(cfg, s, l);
    } else {
      ClientConserves(cfg, s, l);
    }
  }

  lemma ClientConserves(cfg: Config, s: State, l: Label)
    requires Sized(s) && QueuesOk(s) && Conserved(cfg, s) && Enabled(cfg, s, l) && !Reconnects(l) && !Follows(l)
    ensures Conserved(cfg, NextClient(cfg, s, l))
  {
    var s' := NextClient(cfg, s, l);
    match l {
      case Deliver(t, sub, hasAck) => assert s'.msgs[..|s'.msgs| - 1] == s.msgs;
      case Dispatch(t) =>
        assert SizedPc(s, PcOf(s, t));
        var m := PcOf(s, t).msg;
        HeldUpdate(s.msgs, m, s.msgs[m].(phase := Running));
      case HandlerEnds(m, outcome) => HeldUpdate(s.msgs, m, s.msgs[m].(phase := Settling(outcome)));
      case TaskDone(m) => HeldUpdate(s.msgs, m, s.msgs[m].(phase := Done(s.msgs[m].phase.outcome)));
      case _ =>
    }
  }

  lemma NewlyDispatching(cfg: Config, s: State, l: Label, t: nat)
    requires Sized(s) && Enabled(cfg, s, l) && t in Next(cfg, s, l).tasks && Next(cfg, s, l).tasks[t].Dispatching?
    ensures (t in s.tasks && s.tasks[t] == Next(cfg, s, l).tasks[t] && l != Dispatch(t))
         || (l.Deliver? && l.t == t && Next(cfg, s, l).tasks[t].msg == |s.msgs|
             && Next(cfg, s, l).msgs[..|s.msgs|] == s.msgs && |Next(cfg, s, l).msgs| == |s.msgs| + 1
             && Next(cfg, s, l).msgs[|s.msgs|].phase.Queued?)
  {
    OneTaskMoves(cfg, s, l);
    if Mover(l) == Some(t) {
      MoverDispatches(cfg, s, l);
      if l.Deliver? {
        assert Next(cfg, s, l) == NextDeliver(s, t, l.sub, l.hasAck);
      }
    }
  }

  /** A task waits for a permit when a message is delivered to it. */
  lemma MoverDispatches(cfg: Config, s: State, l: Label)
    requires Sized(s) && Enabled(cfg, s, l) && Mover(l).Some? && PcAfter(cfg, s, l).Dispatching?
    ensures l.Deliver? && l.sub in s.subs && PcAfter(cfg, s, l).msg == |s.msgs|
  {
  }

  lemma QueuesStep(cfg: Config, s: State, l: Label)
    requires Alive(s) && QueuesOk(s) && Enabled(cfg, s, l) && Alive(Next(cfg, s, l))
    ensures QueuesOk(Next(cfg, s, l))
  {
    var s' := Next(cfg, s, l);
    StepKeepsMessages(cfg, s, l);
    forall t | t in s'.tasks && s'.tasks[t].Dispatching?
      ensures SizedPc(s', s'.tasks[t]) && s'.msgs[s'.tasks[t].msg].phase.Queued?
    {
      NewlyDispatching(cfg, s, l, t);
      if t in s.tasks && s.tasks[t] == s'.tasks[t] {
        StillQueued(cfg, s, l, t);
      }
    }
    forall t, u | t in s'.tasks && u in s'.tasks && t != u && s'.tasks[t].Dispatching? && s'.tasks[u].Dispatching?
      ensures s'.tasks[t].msg != s'.tasks[u].msg
    {
      NewlyDispatching(cfg, s, l, t);
      NewlyDispatching(cfg, s, l, u);
      assert t in s.tasks ==> SizedPc(s, s.tasks[t]);
      assert u in s.tasks ==> SizedPc(s, s.tasks[u]);
    }
  }

  lemma StillQueued(cfg: Config, s: State, l: Label, t: nat)
    requires Alive(s) && QueuesOk(s) && Enabled(cfg, s, l)
    requires t in s.tasks && s.tasks[t].Dispatching? && l != Dispatch(t)
    ensures s.tasks[t].msg < |s.msgs| <= |Next(cfg, s, l).msgs|
    ensures Next(cfg, s, l).msgs[s.tasks[t].msg].phase.Queued?
  {
    StepKeepsMessages(cfg, s, l);
    assert SizedPc(s, s.tasks[t]);
    if l.Dispatch? {
      assert SizedPc(s, PcOf(s, l.t));
      assert PcOf(s, l.t).msg != s.tasks[t].msg;
    }
  }

  // ------------------------------------------------------------------------------------------
  // The clock and the no-message monitor
  // ------------------------------------------------------------------------------------------

  predicate Timed(s: State)
    requires Sized(s)
  {
    && s.lastMessage <= s.now
    && (forall m :: 0 <= m < |s.msgs| ==> s.msgs[m].at <= s.lastMessage)
    && (s.live.Some? ==> s.installedAt[s.live.value] <= s.lastMessage)
  }

  /** When the monitor fires, a full interval has passed since every message ever read and since
      the connection it discards was installed. */
  lemma MonitorIsPatient(cfg: Config, s: State)
    requires Sized(s) && Timed(s) && Enabled(cfg, s, MonitorFires)
    ensures s.live.Some? && s.now - s.installedAt[s.live.value] >= cfg.interval
    ensures forall m :: 0 <= m < |s.msgs| ==> s.now - s.msgs[m].at >= cfg.interval
  {
  }

  lemma TimedStep(cfg: Config, s: State, l: Label)
    requires Alive(s) && Timed(s) && Enabled(cfg, s, l) && Alive(Next(cfg, s, l))
    ensures Timed(Next(cfg, s, l))
  {
    StepKeepsMessages(cfg, s, l);
    if Reconnects(l) {
      ReconnectTimes(cfg, s, l);
    } else if Follows(l) {
      FollowTimes(cfg, s, l);
    } else if l.Dispatch? {
      assert SizedPc(s, PcOf(s, l.t));
    }
  }

  lemma ReconnectTimes(cfg: Config, s: State, l: Label)
    requires Sized(s) && Timed(s) && Enabled(cfg, s, l) && Reconnects(l) && Sized(NextReconnect(cfg, s, l))
    ensures Timed(NextReconnect(cfg, s, l))
  {
    if l.Install? {
      assert SizedPc(s, PcOf(s, l.t));
    } else {
      ReconnectClock(cfg, s, l);
    }
  }

  lemma ReconnectClock(cfg: Config, s: State, l: Label)
    requires Sized(s) && Enabled(cfg, s, l) && Reconnects(l) && !l.Install?
    ensures var s' := NextReconnect(cfg, s, l);
            && s'.now == s.now && s'.lastMessage == s.lastMessage && s'.msgs == s.msgs && s'.live == s.live
            && s'.installedAt == if l.Connected? then s.installedAt + [s.now] else s.installedAt
  {
    assert l.ReplayNext? ==> SizedPc(s, PcOf(s, l.t));
  }

  lemma FollowTimes(cfg: Config, s: State, l: Label)
    requires Sized(s) && Timed(s) && Enabled(cfg, s, l) && Follows(l) && Sized(NextFollow(cfg, s, l))
    ensures Timed(NextFollow(cfg, s, l))
  {
    FollowClock(cfg, s, l);
  }

  lemma FollowClock(cfg: Config, s: State, l: Label)
    requires Sized(s) && Enabled(cfg, s, l) && Follows(l)
    ensures var s' := NextFollow(cfg, s, l);
            && s'.now == s.now && s'.lastMessage == s.lastMessage && s'.msgs == s.msgs
            && s'.installedAt == s.installedAt && (s'.live == s.live || s'.live.None?)
  {
    assert l.ExitOk? || l.ExitLost? || l.DrainOk? ==> SizedPc(s, PcOf(s, l.t));
  }
}
