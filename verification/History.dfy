/** Where the prologue of a connection comes from: the registries, at the steps that read them. */
module History {
  import opened Bytes
  import opened Session
  import opened Effects
  import opened Prologue
  import opened Subscriptions
  import opened Transactions
  import opened Reachability

  // ------------------------------------------------------------------------------------------
  // The snapshot
  // ------------------------------------------------------------------------------------------

  /** The registered subscriptions, in registration order, when the handshake of `c` was done. */
  predicate SnapshotTaken(run: seq<State>, labels: seq<Label>, k: nat, c: nat, snapshot: seq<Subscription>)
    requires k <= |labels| < |run|
  {
    exists j :: 0 <= j < k && Handshakes(run[j], labels[j], c) && run[j].subs == snapshot
  }

  predicate Handshakes(s: State, l: Label, c: nat)
  {
    l.HandshakeDone? && PcOf(s, l.t).Entering? && PcOf(s, l.t).conn == c
  }

  lemma {:induction false} EnteringSnapshot(cfg: Config, run: seq<State>, labels: seq<Label>, k: nat, t: nat)
    requires IsRun(cfg, run, labels) && k <= |labels| && PastSnapshot(PcOf(run[k], t))
    ensures var c := PcOf(run[k], t).conn;
            c < |run[k].snapshots| && SnapshotTaken(run, labels, k, c, run[k].snapshots[c])
  {
    if k > 0 {
      var s, l, c := run[k - 1], labels[k - 1], PcOf(run[k], t).conn;
      StepInv(cfg, run, labels, k - 1);
      SnapshotsStay(cfg, s, l, t);
      if l == HandshakeDone(t) {
        assert run[k] == NextHandshake(s, t);
        assert Handshakes(s, l, c) && run[k - 1].subs == run[k].snapshots[c];
      } else {
        EnteringSnapshot(cfg, run, labels, k - 1, t);
      }
    }
  }

  lemma {:induction false} InstalledSnapshot(cfg: Config, run: seq<State>, labels: seq<Label>, k: nat, c: nat)
    requires IsRun(cfg, run, labels) && k <= |labels| && c in run[k].installed
    ensures c < |run[k].snapshots| && SnapshotTaken(run, labels, k, c, run[k].snapshots[c])
  {
    if k > 0 {
      StepInv(cfg, run, labels, k - 1);
      InstalledOrigin(cfg, run[k - 1], labels[k - 1], c);
      if c in run[k - 1].installed {
        InstalledSnapshot(cfg, run, labels, k - 1, c);
      } else {
        EnteringSnapshot(cfg, run, labels, k - 1, labels[k - 1].t);
      }
    }
  }

  // ------------------------------------------------------------------------------------------
  // The replays
  // ------------------------------------------------------------------------------------------

  /** The step writes to `c` the COMMIT of `r`, whose sends are those recorded at that moment. */
  predicate WritesCommit(cfg: Config, s: State, l: Label, c: nat, r: Replayed)
  {
    Sized(s) && Enabled(cfg, s, l) && Replays(s, l, c, r) && Wrote(cfg, s, l) == Some((c, Commit(r.txn)))
  }

  predicate CommitWritten(cfg: Config, run: seq<State>, labels: seq<Label>, k: nat, c: nat, r: Replayed)
    requires k <= |labels| < |run|
  {
    exists j :: 0 <= j < k && WritesCommit(cfg, run[j], labels[j], c, r)
  }

  lemma {:induction false} ReplayWritten(cfg: Config, run: seq<State>, labels: seq<Label>, k: nat, c: nat, r: Replayed)
    requires IsRun(cfg, run, labels) && k <= |labels| && c < |run[k].replays| && r in run[k].replays[c]
    ensures CommitWritten(cfg, run, labels, k, c, r)
  {
    if k > 0 {
      StepInv(cfg, run, labels, k - 1);
      ReplayOrigin(cfg, run[k - 1], labels[k - 1], c, r);
      if r in run[k - 1].replays[c] {
        ReplayWritten(cfg, run, labels, k - 1, c, r);
      } else {
        assert WritesCommit(cfg, run[k - 1], labels[k - 1], c, r);
      }
    }
  }

  function TxnsOf(rs: seq<Replayed>): set<nat>
  {
    set r | r in rs :: r.txn
  }

  /** At its installation the registry held exactly the transactions in `rs`. */
  predicate InstalledWith(run: seq<State>, labels: seq<Label>, k: nat, c: nat, rs: seq<Replayed>)
    requires k <= |labels| < |run|
  {
    exists j :: 0 <= j < k && Installs(run[j], labels[j], c) && run[j].registry == TxnsOf(rs)
  }

  lemma InstallReplaysRegistry(cfg: Config, s: State, t: nat)
    requires Sized(s) && Prefaced(s) && Enabled(cfg, s, Install(t))
    ensures PcOf(s, t).conn < |s.replays| && s.registry == TxnsOf(s.replays[PcOf(s, t).conn])
  {
    var pc := PcOf(s, t);
    assert SizedPc(s, pc) && EnterOk(s, pc);
    var rs := s.replays[pc.conn];
    assert forall i :: 0 <= i < |rs| ==> rs[i].txn == pc.stage.order[i];
    forall x ensures x in TxnsOf(rs) <==> x in SetOf(pc.stage.order) {
      if x in SetOf(pc.stage.order) {
        var i :| 0 <= i < |pc.stage.order| && pc.stage.order[i] == x;
        assert rs[i] in rs && rs[i].txn == x;
      }
    }
  }

  lemma {:induction false} InstalledRegistry(cfg: Config, run: seq<State>, labels: seq<Label>, k: nat, c: nat)
    requires IsRun(cfg, run, labels) && k <= |labels| && c in run[k].installed
    ensures c < |run[k].replays| && InstalledWith(run, labels, k, c, run[k].replays[c])
  {
    if k > 0 {
      StepInv(cfg, run, labels, k - 1);
      InstalledOrigin(cfg, run[k - 1], labels[k - 1], c);
      if c in run[k - 1].installed {
        InstalledRegistry(cfg, run, labels, k - 1, c);
      } else {
        InstallReplaysRegistry(cfg, run[k - 1], labels[k - 1].t);
      }
    }
  }

  /** Every installed connection's log starts with CONNECT, one SUBSCRIBE for each subscription that
      was registered when its handshake was done, in registration order, and the replays, before
      anything else. The replays are, each once, of exactly the transactions that were registered
      when it was installed, each with the sends recorded when its COMMIT was written. */
  lemma PrologueOrder(cfg: Config, run: seq<State>, labels: seq<Label>, k: nat, c: nat)
    requires IsRun(cfg, run, labels) && k < |run| && c in run[k].installed
    ensures c < |run[k].logs| && exists snapshot, rs ::
              && PrologueOf(snapshot, rs) <= run[k].logs[c]
              && SnapshotTaken(run, labels, k, c, snapshot)
              && InstalledWith(run, labels, k, c, rs) && DistinctTxns(rs)
              && forall r :: r in rs ==> CommitWritten(cfg, run, labels, k, c, r)
  {
    RunInv(cfg, run, labels, k);
    assert InstalledOk(run[k], c);
    var snapshot, rs := run[k].snapshots[c], run[k].replays[c];
    InstalledSnapshot(cfg, run, labels, k, c);
    InstalledRegistry(cfg, run, labels, k, c);
    forall r | r in rs ensures CommitWritten(cfg, run, labels, k, c, r) {
      ReplayWritten(cfg, run, labels, k, c, r);
    }
    assert PrologueOf(snapshot, rs) <= run[k].logs[c];
  }
}
