/** When the live connection carries a registered subscription: the exact condition over whole runs. */
module Agreement {
  import opened Bytes
  import opened Session
  import opened Lifecycle
  import opened Effects
  import opened Messages
  import opened Prologue
  import opened Subscriptions
  import opened Reachability

  /** If `x` is registered and a connection is live, that connection carries exactly one SUBSCRIBE for it. */
  predicate Carried(s: State, x: Subscription)
    requires Sized(s)
  {
    s.live.Some? && x in s.subs ==> Times(s.logs[s.live.value], Subscribe(x)) == 1
  }

  /** The step confirms the SUBSCRIBE of `x` and registers it. */
  predicate Registers(s: State, l: Label, x: Subscription)
  {
    l.DrainOk? && PcOf(s, l.t).Draining? && PcOf(s, l.t).goal == WriteSubscribe(x)
  }

  /** It does so while another connection is live than the one it was written to. */
  predicate Late(s: State, l: Label, x: Subscription)
  {
    Registers(s, l, x) && s.live.Some? && s.live != Some(PcOf(s, l.t).conn)
  }

  /** It does so while connection `c` is being entered and has taken its snapshot. */
  predicate Misses(s: State, l: Label, c: nat, x: Subscription)
  {
    Registers(s, l, x) && exists t :: t in s.tasks && PastSnapshot(s.tasks[t]) && s.tasks[t].conn == c
  }

  /** `x` was registered after the snapshot of `c` and has not been unsubscribed since. */
  predicate Missed(run: seq<State>, labels: seq<Label>, k: nat, c: nat, x: Subscription)
    requires k <= |labels| < |run|
  {
    exists i :: 0 <= i < k && Misses(run[i], labels[i], c, x) && forall m :: i < m < k ==> labels[m] != Unsub(x)
  }

  /** Up to step `k`, `x` is never registered while another connection is live, and no connection is
      installed that it missed. */
  ghost predicate Timely(run: seq<State>, labels: seq<Label>, k: nat, x: Subscription)
    requires k <= |labels| < |run|
  {
    && (forall i :: 0 <= i < k ==> !Late(run[i], labels[i], x))
    && (forall j, c :: 0 <= j < k && Installs(run[j], labels[j], c) ==> !Missed(run, labels, j, c, x))
  }

  // ------------------------------------------------------------------------------------------
  // Steps
  // ------------------------------------------------------------------------------------------

  /** Registration changes the registry only; a pending subscription is on no live connection but its
      own, and in no snapshot. */
  lemma RegisterStep(cfg: Config, s: State, l: Label, x: Subscription)
    requires Alive(s) && SubsOk(s) && Enabled(cfg, s, l) && Registers(s, l, x)
    ensures var s' := Next(cfg, s, l);
            && s'.subs == s.subs + [x] && s'.live == s.live && s'.logs == s.logs && s'.snapshots == s.snapshots
            && (s.live.Some? ==> Times(s.logs[s.live.value], Subscribe(x)) == if s.live == Some(PcOf(s, l.t).conn) then 1 else 0)
    ensures forall c :: 0 <= c < |s.snapshots| ==> x !in s.snapshots[c]
    ensures forall t :: t in Next(cfg, s, l).tasks && PastSnapshot(Next(cfg, s, l).tasks[t]) ==>
              t in s.tasks && s.tasks[t] == Next(cfg, s, l).tasks[t]
  {
    assert PendingOk(s, l.t, PcOf(s, l.t));
    assert Next(cfg, s, l) == NextDrainOk(s, l.t);
    if s.live.Some? {
      assert s.phases[s.live.value] == Active;
    }
  }

  lemma NewlyRegistered(cfg: Config, s: State, l: Label, x: Subscription)
    requires Sized(s) && Enabled(cfg, s, l) && x !in s.subs && x in Next(cfg, s, l).subs
    ensures Registers(s, l, x)
  {
    if l.DrainOk? && Pending(PcOf(s, l.t)) {
      assert Next(cfg, s, l) == NextDrainOk(s, l.t);
    } else {
      SubsShrink(cfg, s, l);
    }
  }

  lemma StaysRegistered(cfg: Config, s: State, l: Label, x: Subscription)
    requires Sized(s) && Enabled(cfg, s, l) && x in s.subs
    ensures x in Next(cfg, s, l).subs <==> l != Unsub(x)
  {
    StartedFrame(cfg, s, l);
    if l.Unsub? {
      RemoveSubSpec(s.subs, l.sub);
    } else if l.DrainOk? {
      assert SizedPc(s, PcOf(s, l.t)) && Next(cfg, s, l) == NextDrainOk(s, l.t);
    }
  }

  lemma StaysCarried(cfg: Config, s: State, l: Label, x: Subscription)
    requires Alive(s) && Carried(s, x) && x in s.subs && Enabled(cfg, s, l) && !l.Install?
    requires Alive(Next(cfg, s, l)) && SubsOk(Next(cfg, s, l))
    ensures Carried(Next(cfg, s, l), x)
  {
    var s' := Next(cfg, s, l);
    LiveFrame(cfg, s, l);
    if s'.live.Some? {
      LiveGrows(cfg, s, l);
      TimesGrow(s.logs[s.live.value], s'.logs[s.live.value], Subscribe(x));
      assert AtMostOnce(s'.logs[s'.live.value], s'.started);
    }
  }

  /** A connection is installed with SUBSCRIBEs for exactly its snapshot. */
  lemma InstallCarries(cfg: Config, s: State, t: nat, x: Subscription)
    requires Alive(s) && Prefaced(s) && SubsOk(s) && Enabled(cfg, s, Install(t))
    ensures var s', c := NextInstall(s, t), PcOf(s, t).conn;
            && s'.subs == s.subs && s'.live == Some(c) && c < |s'.logs| && c < |s.snapshots|
            && Times(s'.logs[c], Subscribe(x)) == if x in s.snapshots[c] then 1 else 0
  {
    var c := PcOf(s, t).conn;
    assert SizedPc(s, PcOf(s, t)) && EnterOk(s, PcOf(s, t));
    assert ListOk(s.snapshots[c], s.started);
    TimesInPrologue(s.snapshots[c], s.replays[c], x);
    assert s.logs[c] == PrologueOf(s.snapshots[c], s.replays[c]);
  }

  // ------------------------------------------------------------------------------------------
  // Timely runs agree
  // ------------------------------------------------------------------------------------------

  /** The snapshot of a connection being entered holds `x`, unless `x` missed it. */
  ghost predicate Covered(run: seq<State>, labels: seq<Label>, k: nat, x: Subscription)
    requires k <= |labels| < |run|
  {
    forall t :: t in run[k].tasks && PastSnapshot(run[k].tasks[t]) ==>
      SnapshotHas(run[k], run[k].tasks[t].conn, x) || Missed(run, labels, k, run[k].tasks[t].conn, x)
  }

  predicate SnapshotHas(s: State, c: nat, x: Subscription)
  {
    c < |s.snapshots| && x in s.snapshots[c]
  }

  lemma {:induction false} TimelyCarries(cfg: Config, run: seq<State>, labels: seq<Label>, k: nat, x: Subscription)
    requires IsRun(cfg, run, labels) && k <= |labels| && Timely(run, labels, k, x) && x in run[k].subs
    ensures Sized(run[k]) && Carried(run[k], x) && Covered(run, labels, k, x)
  {
    if k > 0 && x in run[k - 1].subs {
      TimelyCarries(cfg, run, labels, k - 1, x);
      OldCarried(cfg, run, labels, k, x);
      OldCovered(cfg, run, labels, k, x);
    } else if k > 0 {
      NewCarried(cfg, run, labels, k, x);
    }
  }

  lemma NewCarried(cfg: Config, run: seq<State>, labels: seq<Label>, k: nat, x: Subscription)
    requires IsRun(cfg, run, labels) && 0 < k <= |labels| && x !in run[k - 1].subs && x in run[k].subs
    requires !Late(run[k - 1], labels[k - 1], x)
    ensures Sized(run[k]) && Carried(run[k], x) && Covered(run, labels, k, x)
  {
    var s := run[k - 1];
    StepInv(cfg, run, labels, k - 1);
    NewlyRegistered(cfg, s, labels[k - 1], x);
    RegisterStep(cfg, s, labels[k - 1], x);
    forall t | t in run[k].tasks && PastSnapshot(run[k].tasks[t]) ensures Missed(run, labels, k, run[k].tasks[t].conn, x) {
      assert Misses(s, labels[k - 1], run[k].tasks[t].conn, x);
    }
  }

  lemma OldCarried(cfg: Config, run: seq<State>, labels: seq<Label>, k: nat, x: Subscription)
    requires IsRun(cfg, run, labels) && 0 < k <= |labels| && x in run[k - 1].subs && Sized(run[k - 1])
    requires Carried(run[k - 1], x) && Covered(run, labels, k - 1, x) && Timely(run, labels, k, x)
    ensures Sized(run[k]) && Carried(run[k], x)
  {
    var s, l := run[k - 1], labels[k - 1];
    StepInv(cfg, run, labels, k - 1);
    if l.Install? {
      var c := PcOf(s, l.t).conn;
      assert run[k] == NextInstall(s, l.t);
      assert Installs(s, l, c) && PastSnapshot(PcOf(s, l.t));
      InstallCarries(cfg, s, l.t, x);
    } else {
      StaysCarried(cfg, s, l, x);
    }
  }

  lemma OldCovered(cfg: Config, run: seq<State>, labels: seq<Label>, k: nat, x: Subscription)
    requires IsRun(cfg, run, labels) && 0 < k <= |labels| && x in run[k - 1].subs && x in run[k].subs
    requires Covered(run, labels, k - 1, x)
    ensures Covered(run, labels, k, x)
  {
    var s, l := run[k - 1], labels[k - 1];
    StepInv(cfg, run, labels, k - 1);
    StaysRegistered(cfg, s, l, x);
    forall t | t in run[k].tasks && PastSnapshot(run[k].tasks[t])
      ensures SnapshotHas(run[k], run[k].tasks[t].conn, x) || Missed(run, labels, k, run[k].tasks[t].conn, x)
    {
      var c := run[k].tasks[t].conn;
      SnapshotsStay(cfg, s, l, t);
      if !SnapshotHas(run[k], c, x) {
        assert Missed(run, labels, k - 1, c, x);
        StillMissed(run, labels, k, c, x);
      }
    }
  }

  lemma StillMissed(run: seq<State>, labels: seq<Label>, k: nat, c: nat, x: Subscription)
    requires 0 < k <= |labels| < |run| && Missed(run, labels, k - 1, c, x) && labels[k - 1] != Unsub(x)
    ensures Missed(run, labels, k, c, x)
  {
    var i :| 0 <= i < k - 1 && Misses(run[i], labels[i], c, x) && forall m :: i < m < k - 1 ==> labels[m] != Unsub(x);
    assert forall m :: i < m < k ==> labels[m] != Unsub(x);
  }

  // ------------------------------------------------------------------------------------------
  // Other runs do not
  // ------------------------------------------------------------------------------------------

  /** The snapshot of `c` is taken, without `x`. */
  predicate TakenWithout(s: State, c: nat, x: Subscription)
  {
    && c < |s.snapshots| && x !in s.snapshots[c]
    && forall t :: t in s.tasks && s.tasks[t].Entering? && s.tasks[t].conn == c ==> !s.tasks[t].stage.Handshake?
  }

  lemma TakenStays(cfg: Config, s: State, l: Label, c: nat, x: Subscription)
    requires Alive(s) && Enabled(cfg, s, l) && Alive(Next(cfg, s, l)) && TakenWithout(s, c, x)
    ensures TakenWithout(Next(cfg, s, l), c, x)
  {
    var s' := Next(cfg, s, l);
    GhostFrame(cfg, s, l);
    OneTaskMoves(cfg, s, l);
    if l.Connected? {
      assert s' == NextConnected(s, l.t);
    } else if l.HandshakeDone? {
      assert SizedPc(s, PcOf(s, l.t)) && s' == NextHandshake(s, l.t);
    }
    forall t | t in s'.tasks && s'.tasks[t].Entering? && s'.tasks[t].conn == c ensures !s'.tasks[t].stage.Handshake? {
      if Mover(l) == Some(t) && !l.Connected? {
        MoverPastHandshake(cfg, s, l);
      }
    }
  }

  /** Only a new connection is at its handshake. */
  lemma MoverPastHandshake(cfg: Config, s: State, l: Label)
    requires Sized(s) && Enabled(cfg, s, l) && Mover(l).Some? && !l.Connected?
    ensures PcAfter(cfg, s, l).Entering? ==> !PcAfter(cfg, s, l).stage.Handshake?
  {
    if !Reconnects(l) {
      OnlyReconnectorsEnter(cfg, s, l);
    } else if l.HandshakeDone? || l.ResubscribeNext? || l.StartReplay? || l.ReplayNext? {
      assert SizedPc(s, PcOf(s, l.t));
      assert Next(cfg, s, l) == NextReconnect(cfg, s, l);
    } else {
      LeavesEnter(cfg, s, l);
    }
  }

  /** From the registration that missed `c` on, `x` stays registered and out of the snapshot of `c`. */
  lemma {:induction false} MissedStays(cfg: Config, run: seq<State>, labels: seq<Label>, i: nat, j: nat, c: nat, x: Subscription)
    requires IsRun(cfg, run, labels) && i < j <= |labels| && Misses(run[i], labels[i], c, x)
    requires forall m :: i < m < j ==> labels[m] != Unsub(x)
    ensures x in run[j].subs && TakenWithout(run[j], c, x)
  {
    if j == i + 1 {
      MissedFirst(cfg, run, labels, i, c, x);
    } else {
      MissedStays(cfg, run, labels, i, j - 1, c, x);
      MissedNext(cfg, run, labels, j - 1, c, x);
    }
  }

  lemma MissedFirst(cfg: Config, run: seq<State>, labels: seq<Label>, i: nat, c: nat, x: Subscription)
    requires IsRun(cfg, run, labels) && i < |labels| && Misses(run[i], labels[i], c, x)
    ensures x in run[i + 1].subs && TakenWithout(run[i + 1], c, x)
  {
    StepInv(cfg, run, labels, i);
    RegisterStep(cfg, run[i], labels[i], x);
    MissIsTaken(run[i], labels[i], c, x);
    TakenStays(cfg, run[i], labels[i], c, x);
  }

  lemma MissedNext(cfg: Config, run: seq<State>, labels: seq<Label>, i: nat, c: nat, x: Subscription)
    requires IsRun(cfg, run, labels) && i < |labels| && labels[i] != Unsub(x)
    requires x in run[i].subs && TakenWithout(run[i], c, x)
    ensures x in run[i + 1].subs && TakenWithout(run[i + 1], c, x)
  {
    StepInv(cfg, run, labels, i);
    StaysRegistered(cfg, run[i], labels[i], x);
    TakenStays(cfg, run[i], labels[i], c, x);
  }

  lemma MissIsTaken(s: State, l: Label, c: nat, x: Subscription)
    requires Alive(s) && Misses(s, l, c, x) && forall d :: 0 <= d < |s.snapshots| ==> x !in s.snapshots[d]
    ensures TakenWithout(s, c, x)
  {
    var t :| t in s.tasks && PastSnapshot(s.tasks[t]) && s.tasks[t].conn == c;
    EnteringAlone(s, t);
    forall u | u in s.tasks && s.tasks[u].Entering? ensures u == t {
      EnteringAlone(s, u);
    }
  }

  lemma LateDisagrees(cfg: Config, run: seq<State>, labels: seq<Label>, i: nat, x: Subscription)
    requires IsRun(cfg, run, labels) && i < |labels| && Late(run[i], labels[i], x)
    ensures Sized(run[i + 1]) && !Carried(run[i + 1], x)
  {
    StepInv(cfg, run, labels, i);
    RegisterStep(cfg, run[i], labels[i], x);
  }

  lemma MissedDisagrees(cfg: Config, run: seq<State>, labels: seq<Label>, j: nat, c: nat, x: Subscription)
    requires IsRun(cfg, run, labels) && j < |labels| && Installs(run[j], labels[j], c) && Missed(run, labels, j, c, x)
    ensures Sized(run[j + 1]) && !Carried(run[j + 1], x)
  {
    var i :| 0 <= i < j && Misses(run[i], labels[i], c, x) && forall m :: i < m < j ==> labels[m] != Unsub(x);
    MissedStays(cfg, run, labels, i, j, c, x);
    StepInv(cfg, run, labels, j);
    assert run[j + 1] == NextInstall(run[j], labels[j].t);
    InstallCarries(cfg, run[j], labels[j].t, x);
  }

  /** Throughout a run the live connection carries `x` exactly once whenever `x` is registered, if and
      only if `x` is never registered while another connection is live than the one it was written
      to, and no connection is installed after whose snapshot it was registered, unless it was
      unsubscribed in between. */
  lemma SubscriptionAgreement(cfg: Config, run: seq<State>, labels: seq<Label>, x: Subscription)
    requires IsRun(cfg, run, labels)
    ensures (forall k :: 0 <= k < |run| ==> Sized(run[k]) && Carried(run[k], x)) <==> Timely(run, labels, |labels|, x)
  {
    if Timely(run, labels, |labels|, x) {
      forall k | 0 <= k < |run| ensures Sized(run[k]) && Carried(run[k], x) {
        RunInv(cfg, run, labels, k);
        if x in run[k].subs {
          assert Timely(run, labels, k, x);
          TimelyCarries(cfg, run, labels, k, x);
        }
      }
    }
    if forall k :: 0 <= k < |run| ==> Sized(run[k]) && Carried(run[k], x) {
      forall i | 0 <= i < |labels| ensures !Late(run[i], labels[i], x) {
        if Late(run[i], labels[i], x) { LateDisagrees(cfg, run, labels, i, x); }
      }
      forall j, c | 0 <= j < |labels| && Installs(run[j], labels[j], c) ensures !Missed(run, labels, j, c, x) {
        if Missed(run, labels, j, c, x) { MissedDisagrees(cfg, run, labels, j, c, x); }
      }
    }
  }
}
