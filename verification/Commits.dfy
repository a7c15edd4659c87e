/** Transactions over whole runs: exactly when they are whole on the live connection, and exactly
    when a failed commit is dropped. */
module Commits {
  import opened Bytes
  import opened Session
  import opened Lifecycle
  import opened Effects
  import opened Prologue
  import opened Transactions
  import opened Reachability

  // ------------------------------------------------------------------------------------------
  // Whole on the live connection
  // ------------------------------------------------------------------------------------------

  lemma WholeAt(cfg: Config, run: seq<State>, labels: seq<Label>, i: nat, x: nat)
    requires IsRun(cfg, run, labels) && i < |labels| && Sized(run[i]) && Whole(run[i], x)
    ensures Sized(run[i + 1]) && (Whole(run[i + 1], x) <==> TimelyBegin(run[i], labels[i], x))
  {
    RunInv(cfg, run, labels, i);
    StepInv(cfg, run, labels, i);
    WholeIffTimely(cfg, run[i], labels[i], x);
  }

  lemma {:induction false} TimelyIsWhole(cfg: Config, run: seq<State>, labels: seq<Label>, i: nat, x: nat)
    requires IsRun(cfg, run, labels) && i < |run|
    requires forall j :: 0 <= j < i ==> TimelyBegin(run[j], labels[j], x)
    ensures Sized(run[i]) && Whole(run[i], x)
  {
    if i > 0 {
      TimelyIsWhole(cfg, run, labels, i - 1, x);
      WholeAt(cfg, run, labels, i - 1, x);
    }
  }

  /** Throughout a run a transaction is whole on the live connection whenever it is registered, if and
      only if its BEGIN is not confirmed while another connection is live than the one it was written to. */
  lemma TransactionOnLive(cfg: Config, run: seq<State>, labels: seq<Label>, x: nat)
    requires IsRun(cfg, run, labels)
    ensures (forall i :: 0 <= i < |run| ==> Sized(run[i]) && Whole(run[i], x))
       <==> (forall i :: 0 <= i < |labels| ==> TimelyBegin(run[i], labels[i], x))
  {
    if forall i :: 0 <= i < |labels| ==> TimelyBegin(run[i], labels[i], x) {
      forall i | 0 <= i < |run| ensures Sized(run[i]) && Whole(run[i], x) {
        TimelyIsWhole(cfg, run, labels, i, x);
      }
    }
    if forall i :: 0 <= i < |run| ==> Sized(run[i]) && Whole(run[i], x) {
      forall i | 0 <= i < |labels| ensures TimelyBegin(run[i], labels[i], x) {
        WholeAt(cfg, run, labels, i, x);
      }
    }
  }

  /** If its BEGIN was confirmed in time, a clean exit of a registered transaction leaves BEGIN, its
      sends in order and COMMIT on the live connection, and nothing else about it. */
  lemma CleanExitOverRuns(cfg: Config, run: seq<State>, labels: seq<Label>, i: nat)
    requires IsRun(cfg, run, labels) && i < |labels| && labels[i].ExitTxn? && labels[i].clean
    requires forall j :: 0 <= j < i ==> TimelyBegin(run[j], labels[j], labels[i].txn)
    requires run[i].live.Some? && labels[i].txn in run[i].registry
    ensures var x, c := labels[i].txn, run[i].live.value;
            && x in run[i].txns && c < |run[i + 1].logs|
            && Restrict(run[i + 1].logs[c], x) == [Begin(x)] + Sends(x, run[i].txns[x].sends) + [Commit(x)]
  {
    TimelyIsWhole(cfg, run, labels, i, labels[i].txn);
    RunInv(cfg, run, labels, i);
    assert StepAt(cfg, run, labels, i);
    LogsGrow(cfg, run[i], labels[i]);
    CleanExitIsWhole(cfg, run[i], labels[i].t, labels[i].txn);
  }

  // ------------------------------------------------------------------------------------------
  // Commits that are not confirmed
  // ------------------------------------------------------------------------------------------

  /** `x` was exited cleanly, registered or not, its COMMIT is not confirmed, nobody will try again,
      and no installed connection has replayed it in full: the work is lost. */
  predicate Dropped(s: State, x: nat)
  {
    && Sized(s) && Phased(s, x, {CommitFailed, Orphaned}) && x !in s.registry
    && (forall t :: t in s.tasks ==> !ExitsTxn(s.tasks[t], x))
    && forall c :: 0 <= c < |s.logs| ==> !ReplayedInFull(s, c, x)
  }

  /** The step at which a clean exit of `x` ends without a confirmed COMMIT: no connection is live, or
      the drain is lost. */
  predicate GivesUp(s: State, l: Label, x: nat)
  {
    || (l.ExitTxn? && l.clean && l.txn == x && s.live.None?)
    || (l.ExitLost? && ExitsTxn(PcOf(s, l.t), x) && PcOf(s, l.t).clean)
  }

  /** An installed connection has replayed `x` without a send that was recorded since. */
  predicate SentSinceReplay(s: State, x: nat)
  {
    exists c :: 0 <= c < |s.replays| && c in s.installed && StaleOn(s, c, x)
  }

  /** It ends so after an installed replay has removed `x` from the registry and a send followed. */
  predicate GivesUpUnregistered(s: State, l: Label, x: nat)
  {
    GivesUp(s, l, x) && x !in s.registry && SentSinceReplay(s, x)
  }

  /** `x` is exited at step `i` behind the replay of a connection that step `j` installs. */
  predicate InstalledBehind(run: seq<State>, labels: seq<Label>, i: nat, j: nat, x: nat)
    requires i < j < |labels| < |run|
  {
    labels[j].Install? && PcOf(run[j], labels[j].t).Entering?
    && ExitsBehind(run[i], labels[i], PcOf(run[j], labels[j].t).conn, x)
  }

  /** Up to step `k` that does not happen. */
  ghost predicate NoneInstalledBehind(run: seq<State>, labels: seq<Label>, k: nat, x: nat)
    requires k <= |labels| < |run|
  {
    forall i, j :: 0 <= i < j < k ==> !InstalledBehind(run, labels, i, j, x)
  }

  ghost predicate BehindBefore(run: seq<State>, labels: seq<Label>, k: nat, c: nat, x: nat)
    requires k <= |labels| < |run|
  {
    exists i :: 0 <= i < k && ExitsBehind(run[i], labels[i], c, x)
  }

  /** Every stale replay of `x` on a connection being entered is due to an exit behind it. */
  ghost predicate Traced(run: seq<State>, labels: seq<Label>, k: nat, x: nat)
    requires k <= |labels| < |run|
  {
    forall c :: Opens(run[k], c) && StaleOn(run[k], c, x) ==> BehindBefore(run, labels, k, c, x)
  }

  ghost predicate Kept(run: seq<State>, labels: seq<Label>, k: nat, x: nat)
    requires k <= |labels| < |run| && Sized(run[k]) && x in run[k].txns
  {
    (x in run[k].registry && Traced(run, labels, k, x)) || exists c :: 0 <= c < |run[k].replays| && ReplayedOn(run[k], c, x)
  }

  /** An unconfirmed commit is registered or replayed, unless it was exited behind an installed replay. */
  lemma {:induction false} UnconfirmedIsKept(cfg: Config, run: seq<State>, labels: seq<Label>, k: nat, x: nat)
    requires IsRun(cfg, run, labels) && k <= |labels| && Unconfirmed(run[k], x) && NoneInstalledBehind(run, labels, k, x)
    ensures Sized(run[k]) && Kept(run, labels, k, x)
  {
    if k > 0 {
      if Unconfirmed(run[k - 1], x) {
        UnconfirmedIsKept(cfg, run, labels, k - 1, x);
        if x in run[k - 1].registry && Traced(run, labels, k - 1, x) {
          RegisteredIsKept(cfg, run, labels, k, x);
        } else {
          var c :| 0 <= c < |run[k - 1].replays| && ReplayedOn(run[k - 1], c, x);
          ReplayedIsKept(cfg, run, labels, k, c, x);
        }
      } else {
        ExitedIsKept(cfg, run, labels, k, x);
      }
    }
  }

  lemma ExitedIsKept(cfg: Config, run: seq<State>, labels: seq<Label>, k: nat, x: nat)
    requires IsRun(cfg, run, labels) && 0 < k <= |labels| && Unconfirmed(run[k], x) && !Unconfirmed(run[k - 1], x)
    ensures Sized(run[k]) && x in run[k].registry && Traced(run, labels, k, x)
  {
    StepInv(cfg, run, labels, k - 1);
    NewlyUnconfirmed(cfg, run[k - 1], labels[k - 1], x);
    forall c | Opens(run[k], c) && StaleOn(run[k], c, x) ensures BehindBefore(run, labels, k, c, x) {
      assert ExitsBehind(run[k - 1], labels[k - 1], c, x);
    }
  }

  lemma ReplayedIsKept(cfg: Config, run: seq<State>, labels: seq<Label>, k: nat, c: nat, x: nat)
    requires IsRun(cfg, run, labels) && 0 < k <= |labels| && Unconfirmed(run[k], x) && Unconfirmed(run[k - 1], x)
    requires Sized(run[k - 1]) && ReplayedOn(run[k - 1], c, x)
    ensures Sized(run[k]) && ReplayedOn(run[k], c, x)
  {
    StepInv(cfg, run, labels, k - 1);
    SendsStep(cfg, run[k - 1], labels[k - 1], x);
    ReplayedStays(cfg, run[k - 1], labels[k - 1], c, x);
  }

  lemma RegisteredIsKept(cfg: Config, run: seq<State>, labels: seq<Label>, k: nat, x: nat)
    requires IsRun(cfg, run, labels) && 0 < k <= |labels| && Unconfirmed(run[k], x) && Unconfirmed(run[k - 1], x)
    requires NoneInstalledBehind(run, labels, k, x) && x in run[k - 1].registry && Traced(run, labels, k - 1, x)
    ensures Sized(run[k]) && Kept(run, labels, k, x)
  {
    var s, l := run[k - 1], labels[k - 1];
    StepInv(cfg, run, labels, k - 1);
    SendsStep(cfg, s, l, x);
    if l.Install? {
      NotStaleAtInstall(cfg, run, labels, k - 1, x);
      InstallReplays(cfg, s, l.t, x);
    } else {
      StillRegistered(cfg, s, l, x);
      StaysTraced(cfg, run, labels, k, x);
    }
  }

  lemma StaysTraced(cfg: Config, run: seq<State>, labels: seq<Label>, k: nat, x: nat)
    requires IsRun(cfg, run, labels) && 0 < k <= |labels| && Traced(run, labels, k - 1, x)
    requires x in run[k - 1].txns && x in run[k].txns && run[k].txns[x].sends == run[k - 1].txns[x].sends
    ensures Traced(run, labels, k, x)
  {
    forall c | Opens(run[k], c) && StaleOn(run[k], c, x) ensures BehindBefore(run, labels, k, c, x) {
      StaleBefore(cfg, run, labels, k - 1, c, x);
      assert BehindBefore(run, labels, k - 1, c, x);
    }
  }

  lemma StaleBefore(cfg: Config, run: seq<State>, labels: seq<Label>, k: nat, c: nat, x: nat)
    requires IsRun(cfg, run, labels) && k < |labels| && Opens(run[k + 1], c) && StaleOn(run[k + 1], c, x)
    requires x in run[k].txns && run[k + 1].txns[x].sends == run[k].txns[x].sends
    ensures Opens(run[k], c) && StaleOn(run[k], c, x)
  {
    StepInv(cfg, run, labels, k);
    StaleOrigin(cfg, run[k], labels[k], c, x);
  }

  lemma NotStaleAtInstall(cfg: Config, run: seq<State>, labels: seq<Label>, k: nat, x: nat)
    requires IsRun(cfg, run, labels) && k < |labels| && labels[k].Install?
    requires NoneInstalledBehind(run, labels, k + 1, x) && Traced(run, labels, k, x)
    ensures PcOf(run[k], labels[k].t).Entering? && !StaleOn(run[k], PcOf(run[k], labels[k].t).conn, x)
  {
    StepInv(cfg, run, labels, k);
    var c := PcOf(run[k], labels[k].t).conn;
    assert TaskOk(run[k], labels[k].t, PcOf(run[k], labels[k].t));
    forall i | 0 <= i < k ensures !ExitsBehind(run[i], labels[i], c, x) {
      assert !InstalledBehind(run, labels, i, k, x);
    }
    assert !BehindBefore(run, labels, k, c, x);
  }

  lemma {:induction false} FailedForever(cfg: Config, run: seq<State>, labels: seq<Label>, i: nat, j: nat, x: nat)
    requires IsRun(cfg, run, labels) && i <= j < |run| && Phased(run[i], x, {CommitFailed})
    ensures x in run[j].txns && run[j].txns[x] == run[i].txns[x]
  {
    if i < j {
      FailedForever(cfg, run, labels, i, j - 1, x);
      StepInv(cfg, run, labels, j - 1);
      FailedStays(cfg, run[j - 1], labels[j - 1], x);
    }
  }

  lemma {:induction false} ReplayedForever(cfg: Config, run: seq<State>, labels: seq<Label>, i: nat, j: nat, c: nat, r: Replayed)
    requires IsRun(cfg, run, labels) && i <= j < |run| && c < |run[i].replays| && r in run[i].replays[c]
    ensures c < |run[j].replays| && r in run[j].replays[c]
  {
    if i < j {
      ReplayedForever(cfg, run, labels, i, j - 1, c, r);
      StepInv(cfg, run, labels, j - 1);
      ReplaysGrow(cfg, run[j - 1], labels[j - 1], c, r);
    }
  }

  /** An exit behind a replay is a failed commit with a send that the replay lacks. */
  lemma ExitFails(cfg: Config, run: seq<State>, labels: seq<Label>, i: nat, c: nat, x: nat) returns (r: Replayed)
    requires IsRun(cfg, run, labels) && i < |labels| && ExitsBehind(run[i], labels[i], c, x)
    ensures Phased(run[i + 1], x, {CommitFailed})
    ensures c < |run[i].replays| && r in run[i].replays[c] && r.txn == x && r.sends != run[i + 1].txns[x].sends
  {
    var s := run[i];
    r :| r in s.replays[c] && r.txn == x && r.sends != s.txns[x].sends;
    StepInv(cfg, run, labels, i);
    OpensAlone(s, c);
    assert run[i + 1] == NextExit(s, labels[i].t, x, true);
  }

  /** A stale replay on an installed connection is the only one there is. */
  lemma StaleIsNotInFull(s: State, c: nat, x: nat)
    requires Sized(s) && Prefaced(s) && ReplayedOnce(s) && x in s.txns && c in s.installed && StaleOn(s, c, x)
    ensures forall d :: 0 <= d < |s.logs| ==> !ReplayedInFull(s, d, x)
  {
    var r :| r in s.replays[c] && r.txn == x && r.sends != s.txns[x].sends;
    assert InstalledOk(s, c) && ReplaysOn(s, c, x);
    var full := Replayed(x, s.txns[x].sends);
    assert full !in s.replays[c];
    forall d | 0 <= d < |s.logs| ensures !ReplayedInFull(s, d, x) {
      InFullIffReplayed(s, d, x);
      assert full in s.replays[d] ==> ReplaysOn(s, d, x);
    }
  }

  /** Its task has left a failed commit. */
  lemma FailedIsLeft(s: State, x: nat)
    requires PhasesOk(s) && Phased(s, x, {CommitFailed})
    ensures forall t :: t in s.tasks ==> !ExitsTxn(s.tasks[t], x)
  {
    assert forall t :: t in s.tasks ==> PhasedPc(s, s.tasks[t]);
  }

  /** The installation clears the registry, although its replay of `x` is stale. */
  lemma StaleInstallDrops(cfg: Config, s: State, t: nat, r: Replayed)
    requires Sized(s) && Prefaced(s) && Enabled(cfg, s, Install(t)) && PcOf(s, t).conn < |s.replays|
    requires r in s.replays[PcOf(s, t).conn] && Phased(s, r.txn, {CommitFailed}) && r.sends != s.txns[r.txn].sends
    requires var s' := NextInstall(s, t); Sized(s') && Prefaced(s') && PhasesOk(s') && ReplayedOnce(s')
    ensures Dropped(NextInstall(s, t), r.txn)
  {
    var s', x, c := NextInstall(s, t), r.txn, PcOf(s, t).conn;
    assert c in s'.installed && StaleOn(s', c, x);
    StaleIsNotInFull(s', c, x);
    FailedIsLeft(s', x);
  }

  lemma BehindDrops(cfg: Config, run: seq<State>, labels: seq<Label>, i: nat, j: nat, x: nat)
    requires IsRun(cfg, run, labels) && i < j < |labels| && InstalledBehind(run, labels, i, j, x)
    ensures Dropped(run[j + 1], x)
  {
    var c := PcOf(run[j], labels[j].t).conn;
    var r := ExitFails(cfg, run, labels, i, c, x);
    FailedForever(cfg, run, labels, i + 1, j, x);
    ReplayedForever(cfg, run, labels, i, j, c, r);
    InstallDropsAt(cfg, run, labels, j, r);
  }

  lemma InstallDropsAt(cfg: Config, run: seq<State>, labels: seq<Label>, j: nat, r: Replayed)
    requires IsRun(cfg, run, labels) && j < |labels| && labels[j].Install? && PcOf(run[j], labels[j].t).Entering?
    requires var c := PcOf(run[j], labels[j].t).conn; c < |run[j].replays| && r in run[j].replays[c]
    requires Phased(run[j], r.txn, {CommitFailed}) && r.sends != run[j].txns[r.txn].sends
    ensures Dropped(run[j + 1], r.txn)
  {
    StepInv(cfg, run, labels, j);
    RunInv(cfg, run, labels, j + 1);
    assert run[j + 1] == NextInstall(run[j], labels[j].t);
    StaleInstallDrops(cfg, run[j], labels[j].t, r);
  }

  /** What the step that gives up an unregistered transaction leaves behind. */
  lemma GivingUpLeaves(cfg: Config, s: State, l: Label, x: nat)
    requires Alive(s) && PhasesOk(s) && Unique(s) && Enabled(cfg, s, l) && GivesUp(s, l, x) && x !in s.registry
    ensures var s' := Next(cfg, s, l);
            && Phased(s', x, {CommitFailed, Orphaned}) && x !in s'.registry && x in s.txns
            && s'.txns[x].sends == s.txns[x].sends && s'.replays == s.replays && s'.installed == s.installed
            && forall t :: t in s'.tasks ==> !ExitsTxn(s'.tasks[t], x)
  {
    if l.ExitTxn? {
      assert Next(cfg, s, l) == SetTxn(s, x, Orphaned);
      assert forall t :: t in s.tasks ==> PhasedPc(s, s.tasks[t]);
    } else {
      LosingLeaves(s, l.t, x);
    }
  }

  lemma LosingLeaves(s: State, t: nat, x: nat)
    requires Sized(s) && PhasesOk(s) && Unique(s) && ExitsTxn(PcOf(s, t), x) && PcOf(s, t).clean && x !in s.registry
    ensures var s' := NextExitLost(s, t);
            && Phased(s', x, {CommitFailed, Orphaned}) && x !in s'.registry && x in s.txns
            && s'.txns[x].sends == s.txns[x].sends && s'.replays == s.replays && s'.installed == s.installed
            && forall u :: u in s'.tasks ==> !ExitsTxn(s'.tasks[u], x)
  {
    var s' := NextExitLost(s, t);
    assert SizedPc(s, PcOf(s, t)) && PhasedPc(s, PcOf(s, t));
    forall u | u in s'.tasks ensures !ExitsTxn(s'.tasks[u], x) {
      assert u != t ==> s'.tasks[u] == s.tasks[u] && Apart(s.tasks[t], s.tasks[u]);
    }
  }

  lemma GivingUpDrops(cfg: Config, run: seq<State>, labels: seq<Label>, i: nat, x: nat)
    requires IsRun(cfg, run, labels) && i < |labels| && GivesUpUnregistered(run[i], labels[i], x)
    ensures Dropped(run[i + 1], x)
  {
    GivingUpAt(cfg, run, labels, i, x);
    RunInv(cfg, run, labels, i + 1);
    var c :| 0 <= c < |run[i].replays| && c in run[i].installed && StaleOn(run[i], c, x);
    assert StaleOn(run[i + 1], c, x);
    StaleIsNotInFull(run[i + 1], c, x);
  }

  lemma GivingUpAt(cfg: Config, run: seq<State>, labels: seq<Label>, i: nat, x: nat)
    requires IsRun(cfg, run, labels) && i < |labels| && GivesUp(run[i], labels[i], x) && x !in run[i].registry
    ensures var s, s' := run[i], run[i + 1];
            && Phased(s', x, {CommitFailed, Orphaned}) && x !in s'.registry && x in s.txns
            && s'.txns[x].sends == s.txns[x].sends && s'.replays == s.replays && s'.installed == s.installed
            && forall t :: t in s'.tasks ==> !ExitsTxn(s'.tasks[t], x)
  {
    RunInv(cfg, run, labels, i);
    assert StepAt(cfg, run, labels, i);
    GivingUpLeaves(cfg, run[i], labels[i], x);
  }

  lemma KeptIsNotDropped(cfg: Config, run: seq<State>, labels: seq<Label>, k: nat, x: nat)
    requires IsRun(cfg, run, labels) && k <= |labels| && Phased(run[k], x, {CommitFailed})
    requires NoneInstalledBehind(run, labels, k, x)
    ensures Sized(run[k]) && (x in run[k].registry || exists c :: 0 <= c < |run[k].logs| && ReplayedInFull(run[k], c, x))
  {
    UnconfirmedIsKept(cfg, run, labels, k, x);
    RunInv(cfg, run, labels, k);
    if x !in run[k].registry {
      var c :| 0 <= c < |run[k].replays| && ReplayedOn(run[k], c, x);
      InFullIffReplayed(run[k], c, x);
    }
  }

  predicate OrphanLeft(s: State, x: nat)
  {
    Phased(s, x, {Orphaned}) && forall t :: t in s.tasks ==> !ExitsTxn(s.tasks[t], x)
  }

  /** How an orphan is left: by the step that gives it up. */
  lemma OrphanLeftOrigin(cfg: Config, s: State, l: Label, x: nat)
    requires Alive(s) && PhasesOk(s) && Enabled(cfg, s, l) && OrphanLeft(Next(cfg, s, l), x) && !OrphanLeft(s, x)
    ensures GivesUp(s, l, x) && Phased(s, x, {Open, Orphaned}) && x !in s.registry
    ensures Next(cfg, s, l).txns[x].sends == s.txns[x].sends
  {
    if x !in s.txns {
      NewTxns(cfg, s, l, x);
    } else if s.txns[x].phase != Orphaned {
      OrphanOrigin(cfg, s, l, x);
      OrphanedAtOnce(s, l.t, x);
    } else {
      OrphanLost(cfg, s, l, x);
      SendsStep(cfg, s, l, x);
    }
  }

  /** With a live connection a task waits for the drain of its COMMIT. */
  lemma OrphanedAtOnce(s: State, t: nat, x: nat)
    requires Sized(s) && x in s.txns && s.txns[x].phase.Open? && OrphanLeft(NextExit(s, t, x, true), x)
    ensures s.live.None? && NextExit(s, t, x, true).txns[x].sends == s.txns[x].sends
  {
    var s' := NextExit(s, t, x, true);
    assert s.live.Some? ==> t in s'.tasks && ExitsTxn(s'.tasks[t], x);
  }

  lemma OrphanLost(cfg: Config, s: State, l: Label, x: nat)
    requires Alive(s) && PhasesOk(s) && Enabled(cfg, s, l) && OrphanLeft(Next(cfg, s, l), x)
    requires Phased(s, x, {Orphaned}) && !OrphanLeft(s, x)
    ensures GivesUp(s, l, x)
  {
    var t :| t in s.tasks && ExitsTxn(s.tasks[t], x);
    OneTaskMoves(cfg, s, l);
    assert PhasedPc(s, s.tasks[t]);
    assert Mover(l) == Some(t);
    assert l.ExitOk? || l.ExitLost?;
  }

  lemma {:induction false} OrphanWasGivenUp(cfg: Config, run: seq<State>, labels: seq<Label>, k: nat, x: nat) returns (j: nat)
    requires IsRun(cfg, run, labels) && k <= |labels| && OrphanLeft(run[k], x)
    ensures j < k && GivesUp(run[j], labels[j], x) && x !in run[j].registry
    ensures Phased(run[j], x, {Open, Orphaned}) && run[j].txns[x].sends == run[k].txns[x].sends
  {
    j := 0;
    if k > 0 {
      StepInv(cfg, run, labels, k - 1);
      if OrphanLeft(run[k - 1], x) {
        SendsStep(cfg, run[k - 1], labels[k - 1], x);
        j := OrphanWasGivenUp(cfg, run, labels, k - 1, x);
      } else {
        OrphanLeftOrigin(cfg, run[k - 1], labels[k - 1], x);
        j := k - 1;
      }
    }
  }

  /** The replay that removed a dropped orphan from the registry lacks one of its sends. */
  lemma OrphanWasSent(cfg: Config, run: seq<State>, labels: seq<Label>, j: nat, k: nat, x: nat)
    requires IsRun(cfg, run, labels) && j < k <= |labels| && Phased(run[j], x, {Open, Orphaned}) && x !in run[j].registry
    requires Dropped(run[k], x) && run[j].txns[x].sends == run[k].txns[x].sends
    ensures SentSinceReplay(run[j], x)
  {
    RunInv(cfg, run, labels, j);
    assert InstalledReplay(run[j], x);
    var c :| 0 <= c < |run[j].replays| && c in run[j].installed && ReplaysOn(run[j], c, x);
    var r :| r in run[j].replays[c] && r.txn == x;
    ReplayedForever(cfg, run, labels, j, k, c, r);
    InstalledForever(cfg, run, labels, j, k, c);
    DroppedIsStale(cfg, run, labels, k, c, r);
    assert StaleOn(run[j], c, x);
  }

  lemma DroppedIsStale(cfg: Config, run: seq<State>, labels: seq<Label>, k: nat, c: nat, r: Replayed)
    requires IsRun(cfg, run, labels) && k < |run| && Dropped(run[k], r.txn) && c in run[k].installed
    requires c < |run[k].replays| && r in run[k].replays[c]
    ensures r.sends != run[k].txns[r.txn].sends
  {
    RunInv(cfg, run, labels, k);
    InFullIffReplayed(run[k], c, r.txn);
    assert !ReplayedInFull(run[k], c, r.txn);
    assert r == Replayed(r.txn, r.sends);
  }

  lemma {:induction false} InstalledForever(cfg: Config, run: seq<State>, labels: seq<Label>, i: nat, j: nat, c: nat)
    requires IsRun(cfg, run, labels) && i <= j < |run| && c in run[i].installed
    ensures c in run[j].installed
  {
    if i < j {
      InstalledForever(cfg, run, labels, i, j - 1, c);
      StepInv(cfg, run, labels, j - 1);
      InstalledGrows(cfg, run[j - 1], labels[j - 1], c);
    }
  }

  lemma OrphanDropped(cfg: Config, run: seq<State>, labels: seq<Label>, k: nat, x: nat)
    requires IsRun(cfg, run, labels) && k <= |labels| && Dropped(run[k], x) && Phased(run[k], x, {Orphaned})
    ensures exists j :: 0 <= j < k && GivesUpUnregistered(run[j], labels[j], x)
  {
    var j := OrphanWasGivenUp(cfg, run, labels, k, x);
    OrphanWasSent(cfg, run, labels, j, k, x);
    assert GivesUpUnregistered(run[j], labels[j], x);
  }

  /** A run drops the work of a cleanly exited transaction if and only if the transaction is exited
      behind the replay of a connection that is installed later, or its exit is given up when an
      installed replay had already removed it from the registry and a send was recorded since. */
  lemma DroppedIff(cfg: Config, run: seq<State>, labels: seq<Label>, x: nat)
    requires IsRun(cfg, run, labels)
    ensures (exists k :: 0 <= k < |run| && Dropped(run[k], x))
       <==> || (exists i, j :: 0 <= i < j < |labels| && InstalledBehind(run, labels, i, j, x))
            || (exists i :: 0 <= i < |labels| && GivesUpUnregistered(run[i], labels[i], x))
  {
    if exists k :: 0 <= k < |run| && Dropped(run[k], x) {
      var k :| 0 <= k < |run| && Dropped(run[k], x);
      if Phased(run[k], x, {Orphaned}) {
        OrphanDropped(cfg, run, labels, k, x);
      } else if NoneInstalledBehind(run, labels, k, x) {
        KeptIsNotDropped(cfg, run, labels, k, x);
      }
    }
    if exists i, j :: 0 <= i < j < |labels| && InstalledBehind(run, labels, i, j, x) {
      var i, j :| 0 <= i < j < |labels| && InstalledBehind(run, labels, i, j, x);
      BehindDrops(cfg, run, labels, i, j, x);
    }
    if exists i :: 0 <= i < |labels| && GivesUpUnregistered(run[i], labels[i], x) {
      var i :| 0 <= i < |labels| && GivesUpUnregistered(run[i], labels[i], x);
      GivingUpDrops(cfg, run, labels, i, x);
    }
  }

  /** A commit that failed keeps its sends, and stays registered until an installed connection has
      replayed all of them in order with one COMMIT. */
  lemma FailedCommitFate(cfg: Config, run: seq<State>, labels: seq<Label>, i: nat, j: nat, x: nat)
    requires IsRun(cfg, run, labels) && i <= j < |run| && Phased(run[i], x, {CommitFailed})
    requires NoneInstalledBehind(run, labels, j, x)
    ensures Sized(run[j]) && x in run[j].txns && run[j].txns[x] == run[i].txns[x]
    ensures x in run[j].registry || exists c :: 0 <= c < |run[j].logs| && ReplayedInFull(run[j], c, x)
  {
    FailedForever(cfg, run, labels, i, j, x);
    KeptIsNotDropped(cfg, run, labels, j, x);
  }

  /** The next successful enter writes all sends of a failed commit in order and then one COMMIT,
      and only then is the registry empty. */
  lemma NextEnterReplays(cfg: Config, run: seq<State>, labels: seq<Label>, i: nat, x: nat)
    requires IsRun(cfg, run, labels) && i < |labels| && labels[i].Install?
    requires x in run[i].registry && Phased(run[i], x, {CommitFailed}) && NoneInstalledBehind(run, labels, i + 1, x)
    ensures run[i + 1].registry == {} && run[i + 1].live.Some? && run[i + 1].live.value < |run[i + 1].logs|
    ensures Restrict(run[i + 1].logs[run[i + 1].live.value], x) == Sends(x, run[i].txns[x].sends) + [Commit(x)]
  {
    UnconfirmedIsKept(cfg, run, labels, i, x);
    StepInv(cfg, run, labels, i);
    RegisteredIsNotReplayed(run[i], x);
    NotStaleAtInstall(cfg, run, labels, i, x);
    InstallReplaysInFull(cfg, run[i], labels[i].t, x);
  }

  lemma RegisteredIsNotReplayed(s: State, x: nat)
    requires Sized(s) && ReplaysOk(s) && x in s.registry && x in s.txns
    ensures forall c :: 0 <= c < |s.replays| ==> !ReplayedOn(s, c, x)
  {
    forall c | 0 <= c < |s.replays| ensures !ReplayedOn(s, c, x) {
      assert Replayed(x, s.txns[x].sends) in s.replays[c] ==> ReplayOk(s, c, Replayed(x, s.txns[x].sends));
    }
  }

  /** The installation that clears the registry publishes a connection whose whole log replays `x`. */
  lemma InstallReplaysInFull(cfg: Config, s: State, t: nat, x: nat)
    requires Alive(s) && Prefaced(s) && Enabled(cfg, s, Install(t)) && x in s.registry && x in s.txns
    requires !StaleOn(s, PcOf(s, t).conn, x) && Alive(NextInstall(s, t)) && Prefaced(NextInstall(s, t))
    ensures var s', c := NextInstall(s, t), PcOf(s, t).conn;
            && s'.registry == {} && s'.live == Some(c) && c < |s'.logs|
            && Restrict(s'.logs[c], x) == Sends(x, s.txns[x].sends) + [Commit(x)]
  {
    var s', c := NextInstall(s, t), PcOf(s, t).conn;
    assert SizedPc(s, PcOf(s, t)) && EnterOk(s, PcOf(s, t));
    InstallReplays(cfg, s, t, x);
    InFullIffReplayed(s', c, x);
    assert s'.logs[c] == PrologueOf(s'.snapshots[c], s'.replays[c]);
  }

  /** A clean exit with no send of its transaction outstanding is behind no replay. */
  lemma AwaitedExitIsNotBehind(cfg: Config, run: seq<State>, labels: seq<Label>, i: nat, c: nat, x: nat)
    requires IsRun(cfg, run, labels) && i < |labels|
    requires forall u :: u in run[i].tasks ==> !SendsIn(run[i].tasks[u], x)
    ensures !ExitsBehind(run[i], labels[i], c, x)
  {
    RunInv(cfg, run, labels, i);
    QuietExitIsCurrent(run[i], labels[i], c, x);
  }

  /** What a clean exit of a registered transaction leads to. */
  const ExitedRegistered := {Committing, CommitFailed, Finished}

  /** What an exit that was given up leads to. */
  const GivenUp := {CommitFailed, Orphaned, Finished}

  lemma NeverOpenAgain(cfg: Config, s: State, l: Label, x: nat, phases: set<TxnPhase>)
    requires Alive(s) && PhasesOk(s) && Enabled(cfg, s, l) && Phased(s, x, phases)
    requires phases == ExitedRegistered || phases == GivenUp
    ensures Phased(Next(cfg, s, l), x, phases)
  {
    PhaseStep(cfg, s, l, x);
    if l.DrainOk? {
      assert PhasedPc(s, PcOf(s, l.t));
    }
  }

  lemma {:induction false} ForGood(cfg: Config, run: seq<State>, labels: seq<Label>, i: nat, k: nat, x: nat, phases: set<TxnPhase>)
    requires IsRun(cfg, run, labels) && i <= k < |run| && Phased(run[i], x, phases)
    requires phases == ExitedRegistered || phases == GivenUp
    ensures Phased(run[k], x, phases)
  {
    if i < k {
      ForGood(cfg, run, labels, i, k - 1, x, phases);
      StepInv(cfg, run, labels, k - 1);
      NeverOpenAgain(cfg, run[k - 1], labels[k - 1], x, phases);
    }
  }

  lemma ExitedForGood(cfg: Config, run: seq<State>, labels: seq<Label>, i: nat, k: nat, x: nat)
    requires IsRun(cfg, run, labels) && i < k < |run| && x in run[i].registry
    requires labels[i].ExitTxn? && labels[i].clean && labels[i].txn == x
    ensures Phased(run[k], x, ExitedRegistered)
  {
    StepInv(cfg, run, labels, i);
    assert run[i + 1] == NextExit(run[i], labels[i].t, x, true);
    ForGood(cfg, run, labels, i + 1, k, x, ExitedRegistered);
  }

  /** A transaction that is exited cleanly while registered and with no send outstanding, as its
      context manager does when every send is awaited inside it and no replay has removed it, is
      never dropped. */
  lemma AwaitedCommitIsKept(cfg: Config, run: seq<State>, labels: seq<Label>, i: nat, k: nat)
    requires IsRun(cfg, run, labels) && i < |labels| && k < |run|
    requires labels[i].ExitTxn? && labels[i].clean && labels[i].txn in run[i].registry
    requires forall u :: u in run[i].tasks ==> !SendsIn(run[i].tasks[u], labels[i].txn)
    ensures !Dropped(run[k], labels[i].txn)
  {
    var x := labels[i].txn;
    if k <= i {
      StepInv(cfg, run, labels, i);
      if Phased(run[k], x, {CommitFailed, Orphaned}) {
        ForGood(cfg, run, labels, k, i, x, GivenUp);
      }
    } else {
      ExitedForGood(cfg, run, labels, i, k, x);
      OnlyExit(cfg, run, labels, i, x);
      assert NoneInstalledBehind(run, labels, k, x);
      if Phased(run[k], x, {CommitFailed}) {
        KeptIsNotDropped(cfg, run, labels, k, x);
      }
    }
  }

  /** No exit of `x` is behind a replay, because this one is not and there is no other. */
  lemma OnlyExit(cfg: Config, run: seq<State>, labels: seq<Label>, i: nat, x: nat)
    requires IsRun(cfg, run, labels) && i < |labels| && labels[i].ExitTxn? && labels[i].clean && labels[i].txn == x
    requires x in run[i].registry && forall u :: u in run[i].tasks ==> !SendsIn(run[i].tasks[u], x)
    ensures forall j, c :: 0 <= j < |labels| ==> !ExitsBehind(run[j], labels[j], c, x)
  {
    forall j, c | 0 <= j < |labels| ensures !ExitsBehind(run[j], labels[j], c, x) {
      if j == i {
        AwaitedExitIsNotBehind(cfg, run, labels, i, c, x);
      } else if ExitsBehind(run[j], labels[j], c, x) {
        ExitsOnce(cfg, run, labels, if i < j then i else j, if i < j then j else i, x);
      }
    }
  }

  lemma ExitsOnce(cfg: Config, run: seq<State>, labels: seq<Label>, i: nat, j: nat, x: nat)
    requires IsRun(cfg, run, labels) && i < j < |labels| && x in run[i].registry
    requires labels[i].ExitTxn? && labels[i].clean && labels[i].txn == x
    ensures !(labels[j].ExitTxn? && labels[j].txn == x)
  {
    ExitedForGood(cfg, run, labels, i, j, x);
    StepInv(cfg, run, labels, j);
  }
}
