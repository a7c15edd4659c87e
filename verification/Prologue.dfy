/** The prologue of a connection: CONNECT, the resubscriptions, the replayed transactions, and only
    then anything else. */
module Prologue {
  import opened Bytes
  import opened Session
  import opened Lifecycle
  import opened Effects

  function Subscribes(subs: seq<Subscription>): seq<Written>
  {
    if subs == [] then [] else Subscribes(subs[..|subs| - 1]) + [Subscribe(subs[|subs| - 1])]
  }

  function Sends(x: nat, bodies: seq<nat>): seq<Written>
  {
    if bodies == [] then [] else Sends(x, bodies[..|bodies| - 1]) + [Send(Some(x), bodies[|bodies| - 1])]
  }

  /** Each transaction's sends in order, then its COMMIT. */
  function ReplayLog(rs: seq<Replayed>): seq<Written>
  {
    if rs == [] then []
    else
      var r := rs[|rs| - 1];
      ReplayLog(rs[..|rs| - 1]) + (Sends(r.txn, r.sends) + [Commit(r.txn)])
  }

  function PrologueOf(snapshot: seq<Subscription>, replays: seq<Replayed>): seq<Written>
  {
    [Connect] + Subscribes(snapshot) + ReplayLog(replays)
  }

  /** What enter() has written when it is at `stage`. */
  predicate Progress(log: seq<Written>, snapshot: seq<Subscription>, replays: seq<Replayed>, stage: Stage,
                     txns: map<nat, Txn>)
  {
    match stage
    case Handshake => log == [Connect] && replays == []
    case Resubscribing(todo) =>
      && |todo| <= |snapshot| && todo == snapshot[|snapshot| - |todo|..] && replays == []
      && log == [Connect] + Subscribes(snapshot[..|snapshot| - |todo|])
    case Replaying(order, done, sent) =>
      && Distinct(order) && done == |replays| <= |order|
      && (forall i :: 0 <= i < done ==> replays[i].txn == order[i])
      && (done < |order| ==> order[done] in txns && sent <= |txns[order[done]].sends|)
      && (done == |order| ==> sent == 0)
      && log == PrologueOf(snapshot, replays)
                + (if done < |order| then Sends(order[done], txns[order[done]].sends[..sent]) else [])
  }

  predicate EnterOk(s: State, pc: Pc)
    requires Sized(s)
  {
    pc.Entering? ==>
      pc.conn < |s.logs| && Progress(s.logs[pc.conn], s.snapshots[pc.conn], s.replays[pc.conn], pc.stage, s.txns)
  }

  predicate Prefaced(s: State)
    requires Sized(s)
  {
    && (forall t :: t in s.tasks ==> EnterOk(s, s.tasks[t]))
    && (forall i :: 0 <= i < |s.installed| ==> InstalledOk(s, s.installed[i]))
  }

  predicate DistinctTxns(rs: seq<Replayed>)
  {
    forall i, j :: 0 <= i < j < |rs| ==> rs[i].txn != rs[j].txn
  }

  /** The log starts with the prologue, and the prologue replays no transaction twice. */
  predicate InstalledOk(s: State, c: nat)
    requires Sized(s) && c < |s.logs|
  {
    PrologueOf(s.snapshots[c], s.replays[c]) <= s.logs[c] && DistinctTxns(s.replays[c])
  }

  // ------------------------------------------------------------------------------------------
  // Progress of enter()
  // ------------------------------------------------------------------------------------------

  lemma ResubscribeProgress(log: seq<Written>, snapshot: seq<Subscription>, todo: seq<Subscription>, txns: map<nat, Txn>)
    requires todo != [] && Progress(log, snapshot, [], Resubscribing(todo), txns)
    ensures Progress(log + [Subscribe(todo[0])], snapshot, [], Resubscribing(todo[1..]), txns)
  {
    var k := |snapshot| - |todo|;
    assert snapshot[..k + 1][..k] == snapshot[..k];
    assert snapshot[k] == todo[0];
    assert todo[1..] == snapshot[k + 1..];
  }

  lemma StartReplayProgress(log: seq<Written>, snapshot: seq<Subscription>, order: seq<nat>, txns: map<nat, Txn>)
    requires Progress(log, snapshot, [], Resubscribing([]), txns)
    requires Distinct(order) && forall x :: x in order ==> x in txns
    ensures Progress(log, snapshot, [], Replaying(order, 0, 0), txns)
  {
    assert snapshot[..|snapshot|] == snapshot;
    if order != [] { assert txns[order[0]].sends[..0] == []; }
  }

  lemma SendProgress(log: seq<Written>, snapshot: seq<Subscription>, replays: seq<Replayed>, st: Stage, txns: map<nat, Txn>)
    requires st.Replaying? && Progress(log, snapshot, replays, st, txns) && st.done < |st.order|
    requires st.sent < |txns[st.order[st.done]].sends|
    ensures Progress(log + [Send(Some(st.order[st.done]), txns[st.order[st.done]].sends[st.sent])],
                     snapshot, replays, st.(sent := st.sent + 1), txns)
  {
    var sends := txns[st.order[st.done]].sends;
    assert sends[..st.sent + 1][..st.sent] == sends[..st.sent];
  }

  lemma CommitProgress(log: seq<Written>, snapshot: seq<Subscription>, replays: seq<Replayed>, st: Stage, txns: map<nat, Txn>)
    requires st.Replaying? && Progress(log, snapshot, replays, st, txns) && st.done < |st.order|
    requires st.sent >= |txns[st.order[st.done]].sends|
    requires forall x :: x in st.order ==> x in txns
    ensures Progress(log + [Commit(st.order[st.done])], snapshot,
                     replays + [Replayed(st.order[st.done], txns[st.order[st.done]].sends)],
                     st.(done := st.done + 1, sent := 0), txns)
  {
    var x := st.order[st.done];
    var sends := txns[x].sends;
    var rs := replays + [Replayed(x, sends)];
    assert sends[..st.sent] == sends;
    assert rs[..|rs| - 1] == replays;
    assert log + [Commit(x)] == PrologueOf(snapshot, rs);
    if st.done + 1 < |st.order| {
      assert txns[st.order[st.done + 1]].sends[..0] == [];
    }
  }

  /** Sends recorded meanwhile do not disturb what was already replayed. */
  lemma ProgressGrows(log: seq<Written>, snapshot: seq<Subscription>, replays: seq<Replayed>, stage: Stage,
                      s: State, s': State)
    requires Progress(log, snapshot, replays, stage, s.txns) && TxnsGrow(s, s')
    ensures Progress(log, snapshot, replays, stage, s'.txns)
  {
    if stage.Replaying? && stage.done < |stage.order| {
      var x := stage.order[stage.done];
      assert s'.txns[x].sends[..stage.sent] == s.txns[x].sends[..stage.sent];
    }
  }

  // ------------------------------------------------------------------------------------------
  // Every step
  // ------------------------------------------------------------------------------------------

  /** The lists kept for connection `c` are the same after the step. */
  predicate ConnUntouched(s: State, s': State, c: nat)
    requires Sized(s) && Sized(s') && c < |s.logs|
  {
    c < |s'.logs| && s'.logs[c] == s.logs[c] && s'.snapshots[c] == s.snapshots[c] && s'.replays[c] == s.replays[c]
  }

  /** A connection that is neither live nor the mover's is left alone. */
  lemma Untouched(cfg: Config, s: State, l: Label, c: nat)
    requires Alive(s) && Enabled(cfg, s, l) && Alive(Next(cfg, s, l)) && c < |s.logs| && s.live != Some(c)
    requires Mover(l).Some? && PcOf(s, Mover(l).value).Entering? ==> PcOf(s, Mover(l).value).conn != c
    ensures ConnUntouched(s, Next(cfg, s, l), c)
  {
    LogsGrow(cfg, s, l);
    GhostFrame(cfg, s, l);
    if Wrote(cfg, s, l).Some? {
      WroteWhere(cfg, s, l);
    }
    if Reconnects(l) {
      UntouchedReconnect(cfg, s, l, c);
    }
  }

  lemma UntouchedReconnect(cfg: Config, s: State, l: Label, c: nat)
    requires Sized(s) && Enabled(cfg, s, l) && Reconnects(l) && c < |s.logs|
    requires PcOf(s, l.t).Entering? ==> PcOf(s, l.t).conn != c
    ensures var s' := NextReconnect(cfg, s, l);
            c < |s'.snapshots| && c < |s'.replays| && s'.snapshots[c] == s.snapshots[c] && s'.replays[c] == s.replays[c]
  {
    ReconnectFrame(cfg, s, l);
    if l.ReplayNext? {
      assert SizedPc(s, PcOf(s, l.t)) && NextReconnect(cfg, s, l) == NextReplay(s, l.t);
    }
  }

  /** A task that did not move and is entering keeps its progress. */
  lemma BystanderEnters(cfg: Config, s: State, l: Label, u: nat)
    requires Alive(s) && Prefaced(s) && Enabled(cfg, s, l) && Alive(Next(cfg, s, l))
    requires Mover(l) != Some(u) && u in s.tasks && s.tasks[u].Entering?
    ensures EnterOk(Next(cfg, s, l), s.tasks[u])
  {
    var pc := s.tasks[u];
    assert EnterOk(s, pc);
    EnteringAlone(s, u);
    if Mover(l).Some? {
      EnteringAlone(s, Mover(l).value);
    }
    Untouched(cfg, s, l, pc.conn);
    StepKeepsTxns(cfg, s, l);
    ProgressGrows(s.logs[pc.conn], s.snapshots[pc.conn], s.replays[pc.conn], pc.stage, s, Next(cfg, s, l));
  }

  lemma ConnectedEnters(s: State, t: nat)
    requires Sized(s) && PcOf(s, t).Holding? && Sized(NextConnected(s, t))
    ensures EnterOk(NextConnected(s, t), NextConnected(s, t).tasks[t])
  {
  }

  lemma HandshakeEnters(s: State, t: nat)
    requires Sized(s) && PcOf(s, t).Entering? && PcOf(s, t).stage.Handshake? && EnterOk(s, PcOf(s, t))
    requires Sized(NextHandshake(s, t))
    ensures EnterOk(NextHandshake(s, t), NextHandshake(s, t).tasks[t])
  {
    assert s.subs[..0] == [] && s.subs[0..] == s.subs;
  }

  lemma ResubscribeEnters(s: State, t: nat)
    requires Sized(s) && PcOf(s, t).Entering? && PcOf(s, t).stage.Resubscribing? && PcOf(s, t).stage.todo != []
    requires EnterOk(s, PcOf(s, t)) && Sized(NextResubscribe(s, t))
    ensures EnterOk(NextResubscribe(s, t), NextResubscribe(s, t).tasks[t])
  {
    var pc := PcOf(s, t);
    ResubscribeProgress(s.logs[pc.conn], s.snapshots[pc.conn], pc.stage.todo, s.txns);
  }

  lemma ReplayEnters(s: State, t: nat)
    requires Sized(s) && PcOf(s, t).Entering? && PcOf(s, t).stage.Replaying?
    requires PcOf(s, t).stage.done < |PcOf(s, t).stage.order|
    requires EnterOk(s, PcOf(s, t)) && Sized(NextReplay(s, t))
    ensures EnterOk(NextReplay(s, t), NextReplay(s, t).tasks[t])
  {
    var pc := PcOf(s, t);
    assert SizedPc(s, pc);
    if pc.stage.sent < |s.txns[pc.stage.order[pc.stage.done]].sends| {
      SendProgress(s.logs[pc.conn], s.snapshots[pc.conn], s.replays[pc.conn], pc.stage, s.txns);
    } else {
      CommitEnters(s, t);
    }
  }

  lemma CommitEnters(s: State, t: nat)
    requires Sized(s) && PcOf(s, t).Entering? && PcOf(s, t).stage.Replaying? && SizedPc(s, PcOf(s, t))
    requires PcOf(s, t).stage.done < |PcOf(s, t).stage.order|
    requires PcOf(s, t).stage.sent >= |s.txns[PcOf(s, t).stage.order[PcOf(s, t).stage.done]].sends|
    requires EnterOk(s, PcOf(s, t)) && Sized(NextReplay(s, t))
    ensures EnterOk(NextReplay(s, t), NextReplay(s, t).tasks[t])
  {
    var pc := PcOf(s, t);
    CommitProgress(s.logs[pc.conn], s.snapshots[pc.conn], s.replays[pc.conn], pc.stage, s.txns);
  }

  /** The mover itself, if it is entering afterwards. */
  lemma MoverEnters(cfg: Config, s: State, l: Label)
    requires Alive(s) && Prefaced(s) && Enabled(cfg, s, l) && Reconnects(l) && Alive(NextReconnect(cfg, s, l))
    ensures EnterOk(NextReconnect(cfg, s, l), PcAfter(cfg, s, l))
  {
    ReconnectPc(cfg, s, l);
    if l.Connected? {
      ConnectedEnters(s, l.t);
    } else if l.HandshakeDone? {
      HandshakeEnters(s, l.t);
    } else if l.ResubscribeNext? {
      ResubscribeEnters(s, l.t);
    } else if l.StartReplay? {
      var pc := PcOf(s, l.t);
      assert EnterOk(s, pc) && forall x :: x in l.order ==> x in SetOf(l.order);
      StartReplayProgress(s.logs[pc.conn], s.snapshots[pc.conn], l.order, s.txns);
    } else if l.ReplayNext? {
      ReplayEnters(s, l.t);
    } else {
      LeavesEnter(cfg, s, l);
    }
  }

  lemma LeavesEnter(cfg: Config, s: State, l: Label)
    requires Sized(s) && Enabled(cfg, s, l) && Reconnects(l)
    requires !l.Connected? && !l.HandshakeDone? && !l.ResubscribeNext? && !l.StartReplay? && !l.ReplayNext?
    ensures !PcAfter(cfg, s, l).Entering?
  {
  }

  lemma OnlyReconnectorsEnter(cfg: Config, s: State, l: Label)
    requires Sized(s) && Enabled(cfg, s, l) && !Reconnects(l) && Mover(l).Some?
    ensures !PcAfter(cfg, s, l).Entering?
  {
  }

  lemma EntersStep(cfg: Config, s: State, l: Label)
    requires Alive(s) && Prefaced(s) && Enabled(cfg, s, l) && Alive(Next(cfg, s, l))
    ensures forall u :: u in Next(cfg, s, l).tasks ==> EnterOk(Next(cfg, s, l), Next(cfg, s, l).tasks[u])
  {
    var s' := Next(cfg, s, l);
    OneTaskMoves(cfg, s, l);
    forall u | u in s'.tasks ensures EnterOk(s', s'.tasks[u]) {
      if Mover(l) != Some(u) {
        if s.tasks[u].Entering? { BystanderEnters(cfg, s, l, u); }
      } else if Reconnects(l) {
        MoverEnters(cfg, s, l);
      } else {
        OnlyReconnectorsEnter(cfg, s, l);
      }
    }
  }

  /** An installed connection was installed before, with the same lists, or is installed now. */
  lemma InstalledOrigin(cfg: Config, s: State, l: Label, c: nat)
    requires Alive(s) && Enabled(cfg, s, l) && Alive(Next(cfg, s, l)) && c in Next(cfg, s, l).installed
    ensures c < |s.logs| && c < |Next(cfg, s, l).logs|
    ensures c in s.installed || Installs(s, l, c)
    ensures Next(cfg, s, l).snapshots[c] == s.snapshots[c] && Next(cfg, s, l).replays[c] == s.replays[c]
  {
    GhostFrame(cfg, s, l);
    if l.Install? {
      assert SizedPc(s, PcOf(s, l.t)) && Next(cfg, s, l) == NextInstall(s, l.t);
    } else if s.live == Some(c) {
      LiveGrows(cfg, s, l);
    } else {
      if Mover(l).Some? { EnteringAlone(s, l.t); }
      Untouched(cfg, s, l, c);
    }
  }

  /** A connection is published only when its prologue is complete, and is never rewritten. */
  lemma InstalledStep(cfg: Config, s: State, l: Label, i: nat)
    requires Alive(s) && Prefaced(s) && Enabled(cfg, s, l) && Alive(Next(cfg, s, l))
    requires i < |Next(cfg, s, l).installed|
    ensures InstalledOk(Next(cfg, s, l), Next(cfg, s, l).installed[i])
  {
    var s' := Next(cfg, s, l);
    var c := s'.installed[i];
    LogsGrow(cfg, s, l);
    GhostFrame(cfg, s, l);
    if l.Install? && i == |s.installed| {
      InstallPrefaces(cfg, s, l.t);
    } else {
      assert l.Install? ==> s' == NextInstall(s, l.t);
      assert c == s.installed[i] && InstalledOk(s, c);
      if Mover(l).Some? {
        EnteringAlone(s, Mover(l).value);
      }
      if s.live != Some(c) {
        Untouched(cfg, s, l, c);
      } else {
        LiveGrows(cfg, s, l);
      }
    }
  }

  lemma InstallPrefaces(cfg: Config, s: State, t: nat)
    requires Sized(s) && Prefaced(s) && Enabled(cfg, s, Install(t)) && Sized(NextInstall(s, t))
    ensures PcOf(s, t).conn < |s.logs| && InstalledOk(NextInstall(s, t), PcOf(s, t).conn)
  {
    assert SizedPc(s, PcOf(s, t)) && EnterOk(s, PcOf(s, t));
  }

  lemma LiveGrows(cfg: Config, s: State, l: Label)
    requires Alive(s) && Enabled(cfg, s, l) && Alive(Next(cfg, s, l)) && s.live.Some?
    ensures var s', c := Next(cfg, s, l), s.live.value;
            c < |s'.logs| && s.logs[c] <= s'.logs[c] && s'.snapshots[c] == s.snapshots[c] && s'.replays[c] == s.replays[c]
  {
    var c := s.live.value;
    LogsGrow(cfg, s, l);
    if Mover(l).Some? {
      EnteringAlone(s, Mover(l).value);
    }
    if Wrote(cfg, s, l).Some? {
      WroteWhere(cfg, s, l);
    }
    GhostFrame(cfg, s, l);
    if Reconnects(l) {
      UntouchedReconnect(cfg, s, l, c);
    }
  }

  lemma PrefacedStep(cfg: Config, s: State, l: Label)
    requires Alive(s) && Prefaced(s) && Enabled(cfg, s, l) && Alive(Next(cfg, s, l))
    ensures Prefaced(Next(cfg, s, l))
  {
    EntersStep(cfg, s, l);
    forall i | 0 <= i < |Next(cfg, s, l).installed|
      ensures InstalledOk(Next(cfg, s, l), Next(cfg, s, l).installed[i])
    {
      InstalledStep(cfg, s, l, i);
    }
  }
}
