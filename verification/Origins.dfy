/** Who asked for the frames on a log, and what a task that waits for a drain has written. */
module Origins {
  import opened Bytes
  import opened Session
  import opened Lifecycle
  import opened Effects
  import opened Prologue
  import opened Subscriptions
  import opened Transactions
  import opened Reachability

  // ------------------------------------------------------------------------------------------
  // What was asked for is written
  // ------------------------------------------------------------------------------------------

  /** A task that waits for a drain has handed over the very frame it wants to be drained. */
  predicate HandedOver(s: State, pc: Pc)
  {
    match pc
    case Draining(WriteSubscribe(x), c) => c < |s.logs| && Subscribe(x) in s.logs[c]
    case Draining(WriteBegin(x), c) => c < |s.logs| && Begin(x) in s.logs[c]
    case Draining(WriteSend(to, body), c) => c < |s.logs| && Send(to, body) in s.logs[c]
    case Draining(_, _) => false
    case Exiting(x, c, clean) => c < |s.logs| && (if clean then Commit(x) else Abort(x)) in s.logs[c]
    case _ => true
  }

  /** A task comes to wait for a drain only by handing over the frame. */
  lemma MoverHandsOver(cfg: Config, s: State, l: Label, s': State)
    requires Sized(s) && Enabled(cfg, s, l) && Mover(l).Some? && HandedOver(s, PcOf(s, l.t)) && |s.logs| <= |s'.logs|
    requires forall c, w :: 0 <= c < |s.logs| && w in s.logs[c] ==> w in s'.logs[c]
    requires Wrote(cfg, s, l).Some? ==>
               Wrote(cfg, s, l).value.0 < |s.logs| && Wrote(cfg, s, l).value.1 in s'.logs[Wrote(cfg, s, l).value.0]
    ensures HandedOver(s', PcAfter(cfg, s, l))
  {
  }

  lemma LogsKeep(cfg: Config, s: State, l: Label)
    requires Sized(s) && Enabled(cfg, s, l)
    ensures |s.logs| <= |Next(cfg, s, l).logs|
    ensures forall c, w :: 0 <= c < |s.logs| && w in s.logs[c] ==> w in Next(cfg, s, l).logs[c]
    ensures var w := Wrote(cfg, s, l);
            w.Some? ==> w.value.0 < |s.logs| && w.value.1 in Next(cfg, s, l).logs[w.value.0]
  {
    LogsGrow(cfg, s, l);
    assert Wrote(cfg, s, l).Some? ==> !l.Connected?;
  }

  lemma HandedOverStep(cfg: Config, s: State, l: Label, t: nat)
    requires Sized(s) && Enabled(cfg, s, l) && HandedOver(s, PcOf(s, t))
    ensures HandedOver(Next(cfg, s, l), PcOf(Next(cfg, s, l), t))
  {
    OneTaskMoves(cfg, s, l);
    LogsKeep(cfg, s, l);
    if Mover(l) == Some(t) {
      MoverHandsOver(cfg, s, l, Next(cfg, s, l));
    } else {
      assert PcOf(Next(cfg, s, l), t) == PcOf(s, t);
    }
  }

  /** In every run, what a task waits to be drained is on the connection it waits for. */
  lemma {:induction false} WaitingIsWritten(cfg: Config, run: seq<State>, labels: seq<Label>, k: nat, t: nat)
    requires IsRun(cfg, run, labels) && k <= |labels|
    ensures HandedOver(run[k], PcOf(run[k], t))
  {
    if k > 0 {
      WaitingIsWritten(cfg, run, labels, k - 1, t);
      assert StepAt(cfg, run, labels, k - 1);
      HandedOverStep(cfg, run[k - 1], labels[k - 1], t);
    }
  }

  // ------------------------------------------------------------------------------------------
  // What is written was asked for
  // ------------------------------------------------------------------------------------------

  /** The label asks for frame `w`; a replayed COMMIT is asked for by the transaction itself. */
  predicate Asks(l: Label, w: Written)
  {
    match w
    case Connect => l.Connected?
    case Subscribe(x) => l.Spawn? && l.goal == WriteSubscribe(x)
    case Unsubscribe(x) => l == Unsub(x)
    case Begin(x) => l.Spawn? && l.goal == WriteBegin(x)
    case Send(to, body) => l.Spawn? && l.goal == WriteSend(to, body)
    case Commit(x) => (l.ExitTxn? && l.txn == x && l.clean) || (l.Spawn? && l.goal == WriteBegin(x))
    case Abort(x) => l.ExitTxn? && l.txn == x && !l.clean
    case Ack(m) => l == HandlerEnds(m, Returned) || l == ManualSettle(m, true)
    case Nack(m) => l == HandlerEnds(m, Suppressed) || l == ManualSettle(m, false)
  }

  predicate Asked(labels: seq<Label>, k: nat, w: Written)
    requires k <= |labels|
  {
    exists j :: 0 <= j < k && Asks(labels[j], w)
  }

  /** The frame a goal stands for, if any. */
  function Wanted(goal: Goal): Option<Written>
  {
    match goal
    case WriteSubscribe(x) => Some(Subscribe(x))
    case WriteBegin(x) => Some(Begin(x))
    case WriteSend(to, body) => Some(Send(to, body))
    case _ => None
  }

  /** Everything a step may yet write was asked for: goals, subscriptions, transactions and their sends. */
  ghost predicate AllAsked(s: State, labels: seq<Label>, k: nat)
    requires k <= |labels|
  {
    && (forall t :: t in s.tasks && HasGoal(s.tasks[t]) && Wanted(s.tasks[t].goal).Some? ==>
          Asked(labels, k, Wanted(s.tasks[t].goal).value))
    && (forall x :: x in s.started ==> Asked(labels, k, Subscribe(x)))
    && (forall x :: x in s.txns ==> Asked(labels, k, Begin(x)))
    && (forall x, b :: x in s.txns && b in s.txns[x].sends ==> Asked(labels, k, Send(Some(x), b)))
  }

  lemma AskedStays(labels: seq<Label>, k: nat, w: Written)
    requires k < |labels| && (Asked(labels, k, w) || Asks(labels[k], w))
    ensures Asked(labels, k + 1, w)
  {
  }

  /** A goal is kept from the step that started its task. */
  lemma GoalStays(cfg: Config, s: State, l: Label, t: nat)
    requires Sized(s) && Enabled(cfg, s, l) && t in Next(cfg, s, l).tasks && HasGoal(Next(cfg, s, l).tasks[t])
    requires Wanted(Next(cfg, s, l).tasks[t].goal).Some?
    ensures var goal := Next(cfg, s, l).tasks[t].goal;
            (t in s.tasks && HasGoal(s.tasks[t]) && s.tasks[t].goal == goal) || (l.Spawn? && l.goal == goal)
  {
    OneTaskMoves(cfg, s, l);
    if Mover(l) == Some(t) {
      MoverGoal(cfg, s, l);
    }
  }

  lemma MoverGoal(cfg: Config, s: State, l: Label)
    requires Sized(s) && Enabled(cfg, s, l) && Mover(l).Some?
    ensures var pc, pc' := PcOf(s, l.t), PcAfter(cfg, s, l);
            HasGoal(pc') && pc'.goal != Listen ==> (HasGoal(pc) && pc'.goal == pc.goal) || (l.Spawn? && l.goal == pc'.goal)
  {
    if !l.Spawn? && !l.StartReplay? && !l.ExitTxn? {
      SameGoal(cfg, s, l);
    }
  }

  lemma SendsAsked(cfg: Config, s: State, labels: seq<Label>, k: nat, x: nat, b: nat)
    requires k < |labels| && Sized(s) && Enabled(cfg, s, labels[k]) && AllAsked(s, labels, k)
    requires x in Next(cfg, s, labels[k]).txns && b in Next(cfg, s, labels[k]).txns[x].sends
    ensures Asked(labels, k + 1, Send(Some(x), b))
  {
    if x in s.txns {
      SendsStep(cfg, s, labels[k], x);
      assert b in s.txns[x].sends ==> Asked(labels, k, Send(Some(x), b));
    } else {
      NewTxns(cfg, s, labels[k], x);
    }
    AskedStays(labels, k, Send(Some(x), b));
  }

  lemma TxnAsked(cfg: Config, s: State, labels: seq<Label>, k: nat, x: nat)
    requires k < |labels| && Sized(s) && Enabled(cfg, s, labels[k]) && AllAsked(s, labels, k)
    requires x in Next(cfg, s, labels[k]).txns
    ensures Asked(labels, k + 1, Begin(x))
  {
    if x !in s.txns {
      NewTxns(cfg, s, labels[k], x);
    }
    AskedStays(labels, k, Begin(x));
  }

  lemma StartedAsked(cfg: Config, s: State, labels: seq<Label>, k: nat, x: Subscription)
    requires k < |labels| && Sized(s) && Enabled(cfg, s, labels[k]) && AllAsked(s, labels, k)
    requires x in Next(cfg, s, labels[k]).started
    ensures Asked(labels, k + 1, Subscribe(x))
  {
    StartedFrame(cfg, s, labels[k]);
    AskedStays(labels, k, Subscribe(x));
  }

  lemma GoalAsked(cfg: Config, s: State, labels: seq<Label>, k: nat, t: nat)
    requires k < |labels| && Sized(s) && Enabled(cfg, s, labels[k]) && AllAsked(s, labels, k)
    requires t in Next(cfg, s, labels[k]).tasks && HasGoal(Next(cfg, s, labels[k]).tasks[t])
    requires Wanted(Next(cfg, s, labels[k]).tasks[t].goal).Some?
    ensures Asked(labels, k + 1, Wanted(Next(cfg, s, labels[k]).tasks[t].goal).value)
  {
    GoalStays(cfg, s, labels[k], t);
    AskedStays(labels, k, Wanted(Next(cfg, s, labels[k]).tasks[t].goal).value);
  }

  lemma AllAskedStep(cfg: Config, s: State, labels: seq<Label>, k: nat)
    requires k < |labels| && Sized(s) && Enabled(cfg, s, labels[k]) && AllAsked(s, labels, k)
    ensures AllAsked(Next(cfg, s, labels[k]), labels, k + 1)
  {
    var s' := Next(cfg, s, labels[k]);
    forall t | t in s'.tasks && HasGoal(s'.tasks[t]) && Wanted(s'.tasks[t].goal).Some?
      ensures Asked(labels, k + 1, Wanted(s'.tasks[t].goal).value)
    {
      GoalAsked(cfg, s, labels, k, t);
    }
    forall x | x in s'.started ensures Asked(labels, k + 1, Subscribe(x)) {
      StartedAsked(cfg, s, labels, k, x);
    }
    forall x | x in s'.txns ensures Asked(labels, k + 1, Begin(x)) {
      TxnAsked(cfg, s, labels, k, x);
    }
    forall x, b | x in s'.txns && b in s'.txns[x].sends ensures Asked(labels, k + 1, Send(Some(x), b)) {
      SendsAsked(cfg, s, labels, k, x, b);
    }
  }

  lemma {:induction false} RunAsked(cfg: Config, run: seq<State>, labels: seq<Label>, k: nat)
    requires IsRun(cfg, run, labels) && k <= |labels|
    ensures AllAsked(run[k], labels, k)
  {
    if k > 0 {
      RunAsked(cfg, run, labels, k - 1);
      assert StepAt(cfg, run, labels, k - 1);
      AllAskedStep(cfg, run[k - 1], labels, k - 1);
    }
  }

  /** A frame written now is asked for by the step or was asked for before. */
  lemma WrittenIsAsked(cfg: Config, s: State, labels: seq<Label>, k: nat)
    requires k < |labels| && Alive(s) && Prefaced(s) && SubsOk(s) && Enabled(cfg, s, labels[k]) && AllAsked(s, labels, k)
    requires Wrote(cfg, s, labels[k]).Some?
    ensures Asked(labels, k + 1, Wrote(cfg, s, labels[k]).value.1)
  {
    var l, w := labels[k], Wrote(cfg, s, labels[k]).value.1;
    if l.ResubscribeNext? {
      assert EnterOk(s, PcOf(s, l.t)) && SizedPc(s, PcOf(s, l.t));
      NextResubscriptionIsFresh(s, l.t);
      assert ListOk(s.snapshots[PcOf(s, l.t).conn], s.started);
    } else if l.ReplayNext? {
      ReplayIsAsked(cfg, s, labels, k);
    }
    AskedStays(labels, k, w);
  }

  lemma ReplayIsAsked(cfg: Config, s: State, labels: seq<Label>, k: nat)
    requires k < |labels| && Sized(s) && Enabled(cfg, s, labels[k]) && AllAsked(s, labels, k) && labels[k].ReplayNext?
    ensures Asked(labels, k, Wrote(cfg, s, labels[k]).value.1)
  {
    var st := PcOf(s, labels[k].t).stage;
    assert SizedPc(s, PcOf(s, labels[k].t));
    var x := st.order[st.done];
    if st.sent < |s.txns[x].sends| {
      assert s.txns[x].sends[st.sent] in s.txns[x].sends;
    } else {
      var j :| 0 <= j < k && Asks(labels[j], Begin(x));
      assert Asks(labels[j], Commit(x));
    }
  }

  lemma WrittenStep(cfg: Config, s: State, labels: seq<Label>, k: nat, s': State, c: nat, w: Written)
    requires k < |labels| && Alive(s) && Prefaced(s) && SubsOk(s) && Enabled(cfg, s, labels[k]) && AllAsked(s, labels, k)
    requires s' == Next(cfg, s, labels[k]) && c < |s'.logs| && w in s'.logs[c]
    requires c < |s.logs| && w in s.logs[c] ==> Asked(labels, k, w)
    ensures Asked(labels, k + 1, w)
  {
    LogOrigin(cfg, s, labels[k], c, w);
    if c < |s.logs| && w in s.logs[c] {
      AskedStays(labels, k, w);
    } else if labels[k].Connected? {
      assert Asks(labels[k], w);
    } else {
      WrittenIsAsked(cfg, s, labels, k);
    }
  }

  /** In every run, every frame on every connection was asked for by an earlier step: nothing is made
      up, and nothing is changed on the way. */
  lemma {:induction false} WrittenWasAsked(cfg: Config, run: seq<State>, labels: seq<Label>, k: nat, c: nat, w: Written)
    requires IsRun(cfg, run, labels) && k <= |labels| && c < |run[k].logs| && w in run[k].logs[c]
    ensures Asked(labels, k, w)
  {
    if k > 0 {
      if c < |run[k - 1].logs| && w in run[k - 1].logs[c] {
        WrittenWasAsked(cfg, run, labels, k - 1, c, w);
      }
      WrittenThen(cfg, run, labels, k - 1, c, w);
    }
  }

  lemma WrittenThen(cfg: Config, run: seq<State>, labels: seq<Label>, k: nat, c: nat, w: Written)
    requires IsRun(cfg, run, labels) && k < |labels| && c < |run[k + 1].logs| && w in run[k + 1].logs[c]
    requires c < |run[k].logs| && w in run[k].logs[c] ==> Asked(labels, k, w)
    ensures Asked(labels, k + 1, w)
  {
    StepInv(cfg, run, labels, k);
    RunAsked(cfg, run, labels, k);
    WrittenStep(cfg, run[k], labels, k, run[k + 1], c, w);
  }

  /** A frame on a log was there before, opens a new connection, or is the one the step writes. */
  lemma LogOrigin(cfg: Config, s: State, l: Label, c: nat, w: Written)
    requires Sized(s) && Enabled(cfg, s, l) && c < |Next(cfg, s, l).logs| && w in Next(cfg, s, l).logs[c]
    ensures || (c < |s.logs| && w in s.logs[c])
            || (if l.Connected? then w == Connect else Wrote(cfg, s, l) == Some((c, w)))
  {
    LogsGrow(cfg, s, l);
  }

  /** The replay of a transaction starts only while the registry holds it, and all others that were
      there when the iteration began, and nothing else. */
  lemma ReplayStartsRegistered(cfg: Config, run: seq<State>, labels: seq<Label>, i: nat)
    requires IsRun(cfg, run, labels) && i < |labels| && labels[i].ReplayNext?
    requires PcOf(run[i], labels[i].t).Entering? && PcOf(run[i], labels[i].t).stage.Replaying?
    requires PcOf(run[i], labels[i].t).stage.sent == 0
    ensures var st := PcOf(run[i], labels[i].t).stage;
            && st.done < |st.order| && st.order[st.done] in run[i].registry
            && forall x :: x in run[i].registry <==> x in st.order
  {
    assert StepAt(cfg, run, labels, i);
    var st := PcOf(run[i], labels[i].t).stage;
    assert SetOf(st.order) == run[i].registry;
    forall x ensures x in run[i].registry <==> x in st.order {
      assert x in SetOf(st.order) <==> x in st.order;
    }
  }
}
