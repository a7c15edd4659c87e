/** Whole runs: what holds in every reachable state. */
module Reachability {
  import opened Bytes
  import opened Session
  import opened Lifecycle
  import opened Effects
  import opened Messages
  import opened Prologue
  import opened Subscriptions
  import opened Transactions

  ghost predicate MessageSide(cfg: Config, s: State)
  {
    Alive(s) && Fenced(s) && Settled(s) && QueuesOk(s) && Conserved(cfg, s) && Timed(s)
  }

  ghost predicate RegistrySide(s: State)
  {
    && Alive(s) && Prefaced(s) && SubsOk(s) && IdsOk(s.started)
    && PhasesOk(s) && Unique(s) && BeginsOk(s) && AllTied(s)
    && ReplaysOk(s) && ReplayedOnce(s) && LeftByInstall(s) && StaleWaits(s)
  }

  ghost predicate Inv(cfg: Config, s: State)
  {
    MessageSide(cfg, s) && RegistrySide(s)
  }

  lemma InitialInv(cfg: Config, time: int)
    ensures Inv(cfg, Initial(cfg, time))
  {
  }

  lemma InvStep(cfg: Config, s: State, l: Label)
    requires Inv(cfg, s) && Enabled(cfg, s, l)
    ensures Inv(cfg, Next(cfg, s, l))
  {
    AliveStep(cfg, s, l);
    FencedStep(cfg, s, l);
    SettledStep(cfg, s, l);
    QueuesStep(cfg, s, l);
    ConservedStep(cfg, s, l);
    TimedStep(cfg, s, l);
    PrefacedStep(cfg, s, l);
    SubsOkStep(cfg, s, l);
    IdsOkStep(cfg, s, l);
    PhasesOkStep(cfg, s, l);
    UniqueStep(cfg, s, l);
    BeginsOkStep(cfg, s, l);
    AllTiedStep(cfg, s, l);
    ReplaysOkStep(cfg, s, l);
    ReplayedOnceStep(cfg, s, l);
    LeftByInstallStep(cfg, s, l);
    StaleWaitsStep(cfg, s, l);
  }

  /** Every state of every run. */
  lemma {:induction false} RunInv(cfg: Config, run: seq<State>, labels: seq<Label>, i: nat)
    requires IsRun(cfg, run, labels) && i < |run|
    ensures Inv(cfg, run[i])
  {
    if i == 0 {
      var time :| run[0] == Initial(cfg, time);
      InitialInv(cfg, time);
    } else {
      RunInv(cfg, run, labels, i - 1);
      assert StepAt(cfg, run, labels, i - 1);
      InvStep(cfg, run[i - 1], labels[i - 1]);
    }
  }

  /** One step of a run, with what the registries keep around it. */
  lemma StepInv(cfg: Config, run: seq<State>, labels: seq<Label>, i: nat)
    requires IsRun(cfg, run, labels) && i < |labels|
    ensures Alive(run[i]) && Prefaced(run[i]) && SubsOk(run[i]) && PhasesOk(run[i]) && ReplaysOk(run[i])
    ensures Enabled(cfg, run[i], labels[i]) && run[i + 1] == Next(cfg, run[i], labels[i])
    ensures Alive(run[i + 1]) && Prefaced(run[i + 1]) && SubsOk(run[i + 1])
  {
    RunInv(cfg, run, labels, i);
    RunInv(cfg, run, labels, i + 1);
    assert StepAt(cfg, run, labels, i);
  }

  /** `StepOf` asks for a well-formed state, but no reachable state is anything else: an enabled
      label can always be taken. */
  lemma AlwaysSized(cfg: Config, run: seq<State>, labels: seq<Label>, i: nat, l: Label)
    requires IsRun(cfg, run, labels) && i < |run| && Enabled(cfg, run[i], l)
    ensures Sized(run[i]) && StepOf(cfg, run[i], l, Next(cfg, run[i], l))
  {
    RunInv(cfg, run, labels, i);
  }

  /** A connection is being entered by the lock holder, is the live one, or is closed. */
  predicate Accounted(s: State, c: nat)
    requires c < |s.phases|
  {
    match s.phases[c]
    case Opening => s.lock.Some? && PcOf(s, s.lock.value).Entering? && PcOf(s, s.lock.value).conn == c
    case Active => s.live == Some(c)
    case Closed => s.live != Some(c)
  }

  /** Connection lifecycle: epochs count the installed connections, only one is ever live, every
      connection is being entered by the lock holder, live, or closed, and the next step never
      replaces a live connection by another. */
  lemma ConnectionLifecycle(cfg: Config, run: seq<State>, labels: seq<Label>, i: nat)
    requires IsRun(cfg, run, labels) && i < |run|
    ensures |run[i].installed| == run[i].count + if run[i].live.Some? then 1 else 0
    ensures Distinct(run[i].installed)
    ensures forall c :: 0 <= c < |run[i].phases| ==> Accounted(run[i], c)
    ensures i < |labels| && run[i].live.Some? ==> run[i + 1].live == run[i].live || run[i + 1].live.None?
  {
    RunInv(cfg, run, labels, i);
    if i < |labels| {
      assert StepAt(cfg, run, labels, i);
      if labels[i].Install? {
        EnteringAlone(run[i], labels[i].t);
      } else {
        LiveFrame(cfg, run[i], labels[i]);
      }
    }
  }

  /** Epoch fencing: every ACK or NACK on a connection answers a message read from it. */
  lemma EpochFencing(cfg: Config, run: seq<State>, labels: seq<Label>, i: nat, c: nat, k: nat)
    requires IsRun(cfg, run, labels) && i < |run| && c < |run[i].logs| && k < |run[i].logs[c]|
    requires IsAnswer(run[i].logs[c][k])
    ensures run[i].logs[c][k].msg < |run[i].msgs|
    ensures run[i].msgs[run[i].logs[c][k].msg].conn == c
  {
    RunInv(cfg, run, labels, i);
  }

  /** Auto-acknowledged messages: over all connections at most one answer each, an ACK only after
      the handler returned, a NACK only after a suppressed exception, none in mode "auto". */
  lemma AutoAckSettlement(cfg: Config, run: seq<State>, labels: seq<Label>, i: nat, m: nat)
    requires IsRun(cfg, run, labels) && i < |run| && m < |run[i].msgs| && run[i].msgs[m].sub.autoAck
    ensures run[i].msgs[m].conn < |run[i].logs| && SettledOnce(run[i].logs[run[i].msgs[m].conn], m, run[i].msgs[m])
    ensures forall c :: 0 <= c < |run[i].logs| && c != run[i].msgs[m].conn ==> Ack(m) !in run[i].logs[c] && Nack(m) !in run[i].logs[c]
  {
    RunInv(cfg, run, labels, i);
    forall c | 0 <= c < |run[i].logs| && c != run[i].msgs[m].conn
      ensures Ack(m) !in run[i].logs[c] && Nack(m) !in run[i].logs[c]
    {
      forall k | 0 <= k < |run[i].logs[c]| ensures run[i].logs[c][k] != Ack(m) && run[i].logs[c][k] != Nack(m) {
        assert IsAnswer(run[i].logs[c][k]) ==> run[i].msgs[run[i].logs[c][k].msg].conn == c;
      }
    }
  }

  /** Can message `m` be answered: it has an ack header, its subscription is registered, and the
      connection that delivered it is still the live one. */
  predicate Answerable(s: State, m: nat)
    requires m < |s.msgs|
  {
    s.msgs[m].hasAck && s.msgs[m].sub in s.subs && s.live == Some(s.msgs[m].conn)
  }

  /** Logs that grow by the one frame `w` on connection `c`. */
  predicate GrowsBy(logs: seq<seq<Written>>, logs': seq<seq<Written>>, c: nat, w: Written)
  {
    c < |logs| && logs' == logs[c := logs[c] + [w]]
  }

  /** The end of a handler writes the answer its outcome asks for, on the connection that delivered
      the message, if and only if the subscription acknowledges by itself, its mode wants answers,
      no exception escaped, and the message can be answered. */
  lemma AnswerIffStillLive(cfg: Config, run: seq<State>, labels: seq<Label>, i: nat)
    requires IsRun(cfg, run, labels) && i < |labels| && labels[i].HandlerEnds?
    ensures labels[i].m < |run[i].msgs|
    ensures var (m, outcome) := (labels[i].m, labels[i].outcome);
            var msg := run[i].msgs[m];
            if msg.sub.autoAck && msg.sub.settles && outcome != Raised && Answerable(run[i], m)
            then GrowsBy(run[i].logs, run[i + 1].logs, msg.conn, if outcome == Returned then Ack(m) else Nack(m))
            else run[i + 1].logs == run[i].logs
  {
    RunInv(cfg, run, labels, i);
    assert StepAt(cfg, run, labels, i);
    LogsGrow(cfg, run[i], labels[i]);
    if run[i].live.Some? {
      EpochTestIsExact(run[i], labels[i].m);
    }
  }

  /** `ack()` and `nack()` of a manually acknowledged message write the answer, on the connection that
      delivered the message, if and only if the message can be answered. */
  lemma ManualAnswerIffStillLive(cfg: Config, run: seq<State>, labels: seq<Label>, i: nat)
    requires IsRun(cfg, run, labels) && i < |labels| && labels[i].ManualSettle?
    ensures labels[i].m < |run[i].msgs|
    ensures var m := labels[i].m;
            if Answerable(run[i], m)
            then GrowsBy(run[i].logs, run[i + 1].logs, run[i].msgs[m].conn, if labels[i].positive then Ack(m) else Nack(m))
            else run[i + 1].logs == run[i].logs
  {
    RunInv(cfg, run, labels, i);
    assert StepAt(cfg, run, labels, i);
    LogsGrow(cfg, run[i], labels[i]);
    if run[i].live.Some? {
      EpochTestIsExact(run[i], labels[i].m);
    }
  }

  /** Once a registered subscription is unsubscribed, no message of it is ever answered again. */
  lemma NoAnswerAfterUnsubscribe(cfg: Config, run: seq<State>, labels: seq<Label>, i: nat, j: nat, x: Subscription)
    requires IsRun(cfg, run, labels) && i < j < |labels| && labels[i] == Unsub(x) && x in run[i].subs
    ensures x !in run[j].subs && Sized(run[j]) && Enabled(cfg, run[j], labels[j])
    ensures var w := Wrote(cfg, run[j], labels[j]);
            w.Some? && IsAnswer(w.value.1) ==> w.value.1.msg < |run[j].msgs| && run[j].msgs[w.value.1.msg].sub != x
  {
    GoneAfterUnsubscribe(cfg, run, labels, i, j, x);
    assert StepAt(cfg, run, labels, j);
    if Wrote(cfg, run[j], labels[j]).Some? && IsAnswer(Wrote(cfg, run[j], labels[j]).value.1) {
      NoAnswerOnceUnregistered(cfg, run, labels, j);
    }
  }

  lemma {:induction false} GoneAfterUnsubscribe(cfg: Config, run: seq<State>, labels: seq<Label>, i: nat, j: nat, x: Subscription)
    requires IsRun(cfg, run, labels) && i < j < |run| && labels[i] == Unsub(x) && x in run[i].subs
    ensures Gone(run[j], x)
  {
    assert StepAt(cfg, run, labels, j - 1);
    if j == i + 1 {
      RunInv(cfg, run, labels, i);
      UnsubscribedIsGone(cfg, run[i], x);
    } else {
      GoneAfterUnsubscribe(cfg, run, labels, i, j - 1, x);
      GoneStays(cfg, run[j - 1], labels[j - 1], x);
    }
  }

  /** An unregistered subscription is never answered for. */
  lemma NoAnswerOnceUnregistered(cfg: Config, run: seq<State>, labels: seq<Label>, i: nat)
    requires IsRun(cfg, run, labels) && i < |labels| && Sized(run[i]) && Enabled(cfg, run[i], labels[i])
    requires Wrote(cfg, run[i], labels[i]).Some? && IsAnswer(Wrote(cfg, run[i], labels[i]).value.1)
    ensures var m := Wrote(cfg, run[i], labels[i]).value.1.msg;
            m < |run[i].msgs| && run[i].msgs[m].sub in run[i].subs && run[i].msgs[m].hasAck
  {
    RunInv(cfg, run, labels, i);
    AnswersAreFenced(cfg, run[i], labels[i]);
  }

  /** Free permits and handlers that hold one always add up to the cap. */
  lemma HandlerConservation(cfg: Config, run: seq<State>, labels: seq<Label>, i: nat)
    requires IsRun(cfg, run, labels) && i < |run| && cfg.cap.Some?
    ensures run[i].permits + Held(run[i].msgs) == cfg.cap.value
    ensures Held(run[i].msgs) <= cfg.cap.value
  {
    RunInv(cfg, run, labels, i);
  }

  lemma DoneAt(cfg: Config, run: seq<State>, labels: seq<Label>, i: nat, m: nat)
    requires IsRun(cfg, run, labels) && i < |labels|
    ensures IsDone(run[i + 1], m) <==> IsDone(run[i], m) || labels[i] == TaskDone(m)
    ensures labels[i] == TaskDone(m) ==> !IsDone(run[i], m)
  {
    RunInv(cfg, run, labels, i);
    assert StepAt(cfg, run, labels, i);
    DoneOnce(cfg, run[i], labels[i], m);
  }

  /** Every handler task gives its permit back once: the done-callbacks of message `m` so far number
      one if it is done, whatever its outcome, and none otherwise. */
  lemma {:induction false} PermitReturnedOnce(cfg: Config, run: seq<State>, labels: seq<Label>, i: nat, m: nat)
    requires IsRun(cfg, run, labels) && i < |run|
    ensures multiset(labels[..i])[TaskDone(m)] == if IsDone(run[i], m) then 1 else 0
  {
    if i == 0 {
      assert labels[..0] == [];
    } else {
      PermitReturnedOnce(cfg, run, labels, i - 1, m);
      DoneAt(cfg, run, labels, i - 1, m);
      assert labels[..i] == labels[..i - 1] + [labels[i - 1]];
    }
  }

  /** The monitor discards a connection only a full interval after its installation and after
      every message. */
  lemma MonitorPatience(cfg: Config, run: seq<State>, labels: seq<Label>, i: nat)
    requires IsRun(cfg, run, labels) && i < |labels| && labels[i] == MonitorFires
    ensures run[i].live.Some? && run[i].live.value < |run[i].installedAt|
    ensures run[i].now - run[i].installedAt[run[i].live.value] >= cfg.interval
    ensures forall m :: 0 <= m < |run[i].msgs| ==> run[i].now - run[i].msgs[m].at >= cfg.interval
  {
    RunInv(cfg, run, labels, i);
    assert StepAt(cfg, run, labels, i);
    MonitorIsPatient(cfg, run[i]);
  }

  /** No connection ever carries two SUBSCRIBEs for one id. */
  lemma NoDoubleSubscribe(cfg: Config, run: seq<State>, labels: seq<Label>, i: nat, c: nat, j: nat, k: nat)
    requires IsRun(cfg, run, labels) && i < |run| && c < |run[i].logs| && j < k < |run[i].logs[c]|
    requires run[i].logs[c][j].Subscribe? && run[i].logs[c][k].Subscribe?
    ensures run[i].logs[c][j].sub.id != run[i].logs[c][k].sub.id
  {
    RunInv(cfg, run, labels, i);
    SubscribedIds(run[i].logs[c], run[i].started, j, k);
  }

  /** The registered subscriptions have different ids, so the registry is a dictionary by id. */
  lemma RegistryIsKeyedById(cfg: Config, run: seq<State>, labels: seq<Label>, i: nat)
    requires IsRun(cfg, run, labels) && i < |run|
    ensures DistinctIds(run[i].subs)
  {
    RunInv(cfg, run, labels, i);
    RegisteredIds(run[i]);
  }
}
