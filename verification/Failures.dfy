/** Failing connections and the clock: which steps end a connection, and when the monitor may. */
module Failures {
  import opened Bytes
  import opened Session
  import opened Lifecycle
  import opened Effects
  import opened Messages
  import opened Prologue
  import opened Reachability

  // ------------------------------------------------------------------------------------------
  // Steps
  // ------------------------------------------------------------------------------------------

  /** The connection whose failure a step reports: the one its task was reading from or writing to,
      the one a failure was seen on, or the one the monitor finds silent. */
  function Fault(cfg: Config, s: State, l: Label): Option<nat>
    requires Enabled(cfg, s, l)
  {
    match l
    case ReaderLost(t) => Some(PcOf(s, t).conn)
    case DrainLost(t) => Some(PcOf(s, t).conn)
    case ExitLost(t) => Some(PcOf(s, t).conn)
    case Fails(c) => Some(c)
    case MonitorFires => s.live
    case _ => None
  }

  /** What a step does to the connections. */
  predicate ConnsAfter(cfg: Config, s: State, l: Label, s': State)
    requires Sized(s) && Enabled(cfg, s, l)
  {
    var fault := Fault(cfg, s, l);
    if fault.Some? && s.live == fault then
      s'.live == None && s'.count == s.count + 1
      && |s'.phases| == |s.phases| && forall c :: 0 <= c < |s.phases| ==> s'.phases[c] == if Some(c) == fault then Closed else s.phases[c]
    else if l.Install? then
      s'.live == Some(PcOf(s, l.t).conn) && s'.count == s.count
    else
      s'.live == s.live && s'.count == s.count && (!l.Connected? && !l.EnterFails? ==> s'.phases == s.phases)
  }

  lemma ReconnectConns(cfg: Config, s: State, l: Label)
    requires Sized(s) && Enabled(cfg, s, l) && Reconnects(l)
    ensures ConnsAfter(cfg, s, l, NextReconnect(cfg, s, l))
  {
    assert l.ReplayNext? ==> SizedPc(s, PcOf(s, l.t));
  }

  lemma FollowConns(cfg: Config, s: State, l: Label)
    requires Sized(s) && Enabled(cfg, s, l) && Follows(l)
    ensures ConnsAfter(cfg, s, l, NextFollow(cfg, s, l))
  {
    if l.ExitLost? || l.ExitOk? || l.DrainOk? {
      EndConns(cfg, s, l);
    } else if l.DrainLost? {
      assert SizedPc(s, PcOf(s, l.t));
    }
  }

  lemma EndConns(cfg: Config, s: State, l: Label)
    requires Sized(s) && Enabled(cfg, s, l) && (l.ExitLost? || l.ExitOk? || l.DrainOk?)
    ensures ConnsAfter(cfg, s, l, NextFollow(cfg, s, l))
  {
    assert SizedPc(s, PcOf(s, l.t));
  }

  lemma ClientConns(cfg: Config, s: State, l: Label)
    requires Sized(s) && Enabled(cfg, s, l) && !Reconnects(l) && !Follows(l)
    ensures ConnsAfter(cfg, s, l, NextClient(cfg, s, l))
  {
    if l.ReaderLost? || l.Dispatch? {
      assert SizedPc(s, PcOf(s, l.t));
    }
  }

  lemma ConnsStep(cfg: Config, s: State, l: Label)
    requires Sized(s) && Enabled(cfg, s, l)
    ensures ConnsAfter(cfg, s, l, Next(cfg, s, l))
  {
    if Reconnects(l) {
      ReconnectConns(cfg, s, l);
    } else if Follows(l) {
      FollowConns(cfg, s, l);
    } else {
      ClientConns(cfg, s, l);
    }
  }

  /** What a step does to the clock and the times kept. */
  predicate TimesAfter(s: State, l: Label, s': State)
  {
    && s'.now == s.now + (if l.Tick? then l.elapsed else 0)
    && s'.lastMessage == (if l.Deliver? || l.Install? then s.now else s.lastMessage)
    && (!l.Connected? && !l.Install? ==> s'.installedAt == s.installedAt)
  }

  lemma ClientTimes(cfg: Config, s: State, l: Label)
    requires Sized(s) && Enabled(cfg, s, l) && !Reconnects(l) && !Follows(l)
    ensures TimesAfter(s, l, NextClient(cfg, s, l))
  {
    assert l.Dispatch? ==> SizedPc(s, PcOf(s, l.t));
  }

  lemma TimesStep(cfg: Config, s: State, l: Label)
    requires Sized(s) && Enabled(cfg, s, l)
    ensures TimesAfter(s, l, Next(cfg, s, l))
  {
    if l.Install? {
      assert Next(cfg, s, l) == NextInstall(s, l.t);
    } else if Reconnects(l) {
      ReconnectClock(cfg, s, l);
    } else if Follows(l) {
      FollowClock(cfg, s, l);
    } else {
      ClientTimes(cfg, s, l);
    }
  }

  // ------------------------------------------------------------------------------------------
  // Runs
  // ------------------------------------------------------------------------------------------

  lemma StepAfter(cfg: Config, run: seq<State>, labels: seq<Label>, i: nat)
    requires IsRun(cfg, run, labels) && i < |labels|
    ensures Sized(run[i]) && Enabled(cfg, run[i], labels[i]) && run[i + 1] == Next(cfg, run[i], labels[i])
    ensures ConnsAfter(cfg, run[i], labels[i], run[i + 1]) && TimesAfter(run[i], labels[i], run[i + 1])
  {
    assert StepAt(cfg, run, labels, i);
    ConnsStep(cfg, run[i], labels[i]);
    TimesStep(cfg, run[i], labels[i]);
  }

  predicate SameConns(s: State, s': State)
  {
    s'.live == s.live && s'.count == s.count && s'.phases == s.phases
  }

  /** Connection `c` was live and is closed, nothing is live any more, and an epoch has begun. */
  predicate Discarded(s: State, s': State, c: nat)
  {
    && s.live == Some(c) && s'.live.None? && s'.count == s.count + 1
    && c < |s.phases| == |s'.phases| && s'.phases[c] == Closed
    && forall d :: 0 <= d < |s.phases| && d != c ==> s'.phases[d] == s.phases[d]
  }

  /** A reader that loses its connection, a lost drain of a frame or of a COMMIT or ABORT, and any
      other failure seen on a connection discard that connection if it is the live one, and change
      no connection otherwise. */
  lemma FailureDiscards(cfg: Config, run: seq<State>, labels: seq<Label>, i: nat, c: nat)
    requires IsRun(cfg, run, labels) && i < |labels|
    requires || (labels[i].ReaderLost? && PcOf(run[i], labels[i].t).Reading? && PcOf(run[i], labels[i].t).conn == c)
             || (labels[i].DrainLost? && PcOf(run[i], labels[i].t).Draining? && PcOf(run[i], labels[i].t).conn == c)
             || (labels[i].ExitLost? && PcOf(run[i], labels[i].t).Exiting? && PcOf(run[i], labels[i].t).conn == c)
             || labels[i] == Fails(c)
    ensures if run[i].live == Some(c) then Discarded(run[i], run[i + 1], c) else SameConns(run[i], run[i + 1])
  {
    StepAfter(cfg, run, labels, i);
  }

  /** The monitor discards the connection that is live. */
  lemma MonitorDiscards(cfg: Config, run: seq<State>, labels: seq<Label>, i: nat)
    requires IsRun(cfg, run, labels) && i < |labels| && labels[i] == MonitorFires
    ensures run[i].live.Some? && Discarded(run[i], run[i + 1], run[i].live.value)
  {
    StepAfter(cfg, run, labels, i);
  }

  /** Nothing else ends a live connection, and nothing but an installation makes one live. */
  lemma LiveChangesOnlyBy(cfg: Config, run: seq<State>, labels: seq<Label>, i: nat)
    requires IsRun(cfg, run, labels) && i < |labels| && run[i + 1].live != run[i].live
    ensures if run[i].live.Some?
            then labels[i].ReaderLost? || labels[i].DrainLost? || labels[i].ExitLost? || labels[i].Fails? || labels[i].MonitorFires?
            else labels[i].Install? && PcOf(run[i], labels[i].t).Entering? && run[i + 1].live == Some(PcOf(run[i], labels[i].t).conn)
    ensures run[i].live.Some? ==> run[i + 1].live.None?
  {
    StepInv(cfg, run, labels, i);
    StepAfter(cfg, run, labels, i);
    if labels[i].Install? {
      EnteringAlone(run[i], labels[i].t);
    }
  }

  /** The clock shows the time that has passed, and only that. */
  lemma ClockShows(cfg: Config, run: seq<State>, labels: seq<Label>, i: nat)
    requires IsRun(cfg, run, labels) && i < |labels|
    ensures run[i + 1].now == run[i].now + if labels[i].Tick? then labels[i].elapsed else 0
  {
    StepAfter(cfg, run, labels, i);
  }

  /** Step `j` installs connection `c` at time `at`. */
  predicate InstalledThen(run: seq<State>, labels: seq<Label>, j: nat, c: nat, at: int)
    requires j < |labels| < |run|
  {
    Installs(run[j], labels[j], c) && run[j].now == at
  }

  lemma {:induction false} InstalledWhen(cfg: Config, run: seq<State>, labels: seq<Label>, k: nat, c: nat)
    requires IsRun(cfg, run, labels) && k <= |labels| && c in run[k].installed
    ensures c < |run[k].installedAt| && exists j :: 0 <= j < k && InstalledThen(run, labels, j, c, run[k].installedAt[c])
  {
    if k > 0 {
      InstalledBefore(cfg, run, labels, k - 1, c);
      if c in run[k - 1].installed {
        InstalledWhen(cfg, run, labels, k - 1, c);
      } else {
        assert InstalledThen(run, labels, k - 1, c, run[k].installedAt[c]);
      }
    }
  }

  /** An installed connection was installed before, at the same time, or is installed now. */
  lemma InstalledBefore(cfg: Config, run: seq<State>, labels: seq<Label>, k: nat, c: nat)
    requires IsRun(cfg, run, labels) && k < |labels| && c in run[k + 1].installed
    ensures c < |run[k].installedAt| && c < |run[k + 1].installedAt|
    ensures if c in run[k].installed then run[k + 1].installedAt[c] == run[k].installedAt[c]
            else InstalledThen(run, labels, k, c, run[k + 1].installedAt[c])
  {
    StepInv(cfg, run, labels, k);
    InstalledOrigin(cfg, run[k], labels[k], c);
    if c in run[k].installed {
      InstalledStays(cfg, run[k], labels[k], c);
    } else {
      assert run[k + 1] == NextInstall(run[k], labels[k].t);
    }
  }

  /** The step reads `msg`: its fields are those of the label and of the reader, and the clock's time. */
  predicate Reads(s: State, l: Label, msg: Message)
  {
    && l.Deliver? && msg.sub == l.sub && msg.hasAck == l.hasAck && msg.at == s.now
    && PcOf(s, l.t) == Reading(msg.conn, msg.epoch)
  }

  lemma DeliveredMessage(cfg: Config, s: State, l: Label)
    requires Sized(s) && Enabled(cfg, s, l) && l.Deliver?
    ensures var s' := Next(cfg, s, l);
            && |s'.msgs| == |s.msgs| + 1 && s'.msgs[..|s.msgs|] == s.msgs && Reads(s, l, s'.msgs[|s.msgs|])
            && s'.msgs[|s.msgs|].phase == if l.sub in s.subs then Queued else Ignored
  {
    assert Next(cfg, s, l) == NextDeliver(s, l.t, l.sub, l.hasAck);
  }

  /** Every message was read by one step, the one that appended it, and keeps what was read. */
  lemma {:induction false} MessageOrigin(cfg: Config, run: seq<State>, labels: seq<Label>, k: nat, m: nat)
    requires IsRun(cfg, run, labels) && k <= |labels| && m < |run[k].msgs|
    ensures exists j :: 0 <= j < k && |run[j].msgs| == m && Reads(run[j], labels[j], run[k].msgs[m])
  {
    if k > 0 {
      var s, l := run[k - 1], labels[k - 1];
      StepAfter(cfg, run, labels, k - 1);
      StepKeepsMessages(cfg, s, l);
      if m < |s.msgs| {
        MessageOrigin(cfg, run, labels, k - 1, m);
        var j :| 0 <= j < k - 1 && |run[j].msgs| == m && Reads(run[j], labels[j], s.msgs[m]);
        assert Reads(run[j], labels[j], run[k].msgs[m]);
      } else {
        DeliveredMessage(cfg, s, l);
        assert |run[k - 1].msgs| == m && Reads(run[k - 1], labels[k - 1], run[k].msgs[m]);
      }
    }
  }

  // ------------------------------------------------------------------------------------------
  // The monitor's guard
  // ------------------------------------------------------------------------------------------

  /** `at` is a time the monitor counts from: the start, the reading of a message, or an installation. */
  predicate Counts(run: seq<State>, k: nat, at: int)
    requires k < |run|
  {
    || at == run[0].now
    || (exists m :: 0 <= m < |run[k].msgs| && run[k].msgs[m].at == at)
    || (exists c :: 0 <= c < |run[k].installedAt| && c in run[k].installed && run[k].installedAt[c] == at)
  }

  lemma CountsStays(cfg: Config, run: seq<State>, labels: seq<Label>, k: nat, at: int)
    requires IsRun(cfg, run, labels) && k < |labels| && Counts(run, k, at)
    ensures Counts(run, k + 1, at)
  {
    var s, l, s' := run[k], labels[k], run[k + 1];
    StepInv(cfg, run, labels, k);
    StepAfter(cfg, run, labels, k);
    StepKeepsMessages(cfg, s, l);
    if m :| 0 <= m < |s.msgs| && s.msgs[m].at == at {
      assert s'.msgs[m].at == at;
    } else if c :| 0 <= c < |s.installedAt| && c in s.installed && s.installedAt[c] == at {
      InstalledStays(cfg, s, l, c);
    }
  }

  lemma InstalledStays(cfg: Config, s: State, l: Label, c: nat)
    requires Alive(s) && Enabled(cfg, s, l) && c in s.installed
    ensures var s' := Next(cfg, s, l); c in s'.installed && c < |s'.installedAt| && c < |s.installedAt| && s'.installedAt[c] == s.installedAt[c]
  {
    GhostFrame(cfg, s, l);
    TimesStep(cfg, s, l);
    if l.Install? {
      EnteringAlone(s, l.t);
      assert Next(cfg, s, l) == NextInstall(s, l.t);
    } else if l.Connected? {
      assert Next(cfg, s, l) == NextConnected(s, l.t);
    }
  }

  /** What the step takes for the time of the last message is counted from. */
  lemma NewlyCounts(cfg: Config, run: seq<State>, labels: seq<Label>, k: nat)
    requires IsRun(cfg, run, labels) && k < |labels| && (labels[k].Deliver? || labels[k].Install?)
    ensures Counts(run, k + 1, run[k].now)
  {
    var s, l, s' := run[k], labels[k], run[k + 1];
    StepInv(cfg, run, labels, k);
    if l.Deliver? {
      DeliveredMessage(cfg, s, l);
      assert s'.msgs[|s.msgs|].at == s.now;
    } else {
      var c := PcOf(s, l.t).conn;
      assert SizedPc(s, PcOf(s, l.t)) && s' == NextInstall(s, l.t);
      assert c in s'.installed && s'.installedAt[c] == s.now;
    }
  }

  /** The time kept is the latest of them all. */
  lemma {:induction false} LastMessageIsLatest(cfg: Config, run: seq<State>, labels: seq<Label>, k: nat)
    requires IsRun(cfg, run, labels) && k <= |labels|
    ensures Counts(run, k, run[k].lastMessage) && run[k].lastMessage <= run[k].now
    ensures forall at :: Counts(run, k, at) ==> at <= run[k].lastMessage
  {
    if k > 0 {
      LastMessageIsLatest(cfg, run, labels, k - 1);
      StepAfter(cfg, run, labels, k - 1);
      if labels[k - 1].Deliver? || labels[k - 1].Install? {
        NewlyCounts(cfg, run, labels, k - 1);
      } else {
        CountsStays(cfg, run, labels, k - 1, run[k - 1].lastMessage);
      }
      forall at | Counts(run, k, at) ensures at <= run[k].lastMessage {
        CountsBefore(cfg, run, labels, k - 1, at);
      }
    }
  }

  lemma CountsBefore(cfg: Config, run: seq<State>, labels: seq<Label>, k: nat, at: int)
    requires IsRun(cfg, run, labels) && k < |labels| && Counts(run, k + 1, at)
    ensures Counts(run, k, at) || ((labels[k].Deliver? || labels[k].Install?) && at == run[k].now)
  {
    var s' := run[k + 1];
    if m :| 0 <= m < |s'.msgs| && s'.msgs[m].at == at {
      MessageBefore(cfg, run, labels, k, m);
    } else if c :| 0 <= c < |s'.installedAt| && c in s'.installed && s'.installedAt[c] == at {
      InstalledBefore(cfg, run, labels, k, c);
    }
  }

  lemma MessageBefore(cfg: Config, run: seq<State>, labels: seq<Label>, k: nat, m: nat)
    requires IsRun(cfg, run, labels) && k < |labels| && m < |run[k + 1].msgs|
    ensures if m < |run[k].msgs| then run[k].msgs[m].at == run[k + 1].msgs[m].at
            else labels[k].Deliver? && run[k + 1].msgs[m].at == run[k].now
  {
    StepAfter(cfg, run, labels, k);
    StepKeepsMessages(cfg, run[k], labels[k]);
    if m >= |run[k].msgs| {
      DeliveredMessage(cfg, run[k], labels[k]);
    }
  }

  /** The monitor may fire if and only if a connection is live and a full interval has passed since the
      start, since every message ever read, and since every installation. */
  lemma MonitorGuard(cfg: Config, run: seq<State>, labels: seq<Label>, k: nat)
    requires IsRun(cfg, run, labels) && k <= |labels|
    ensures Enabled(cfg, run[k], MonitorFires)
       <==> run[k].live.Some? && forall at :: Counts(run, k, at) ==> run[k].now - at >= cfg.interval
  {
    LastMessageIsLatest(cfg, run, labels, k);
  }
}
