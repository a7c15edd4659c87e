/** The connection manager and the acknowledging half of a subscription as objects. Run without
    interference, each method takes the session to the state its steps lead to. */
module Manager {
  import opened Bytes
  import opened Session
  import opened Effects

  class ConnectionManager {
    var logs: seq<seq<Written>>
    var phases: seq<Phase>
    var active: Option<nat>
    var count: nat

    constructor ()
      ensures Valid() && logs == [] && active.None? && count == 0
    {
      logs, phases, active, count := [], [], None, 0;
    }

    predicate Valid()
      reads this
    {
      |logs| == |phases| && (active.Some? ==> active.value < |logs|)
    }

    /** The object holds the session's connections as they are in `s`. */
    predicate Shows(s: State)
      reads this
    {
      Valid() && logs == s.logs && phases == s.phases && active == s.live && count == s.count
    }

    /** `_discard_failed_connection_state`: by identity, so that a stale failure changes nothing. */
    method DiscardFailed(c: nat, ghost s: State)
      requires Shows(s) && c < |phases|
      modifies this
      ensures Shows(Discard(s, c))
      ensures if old(active) == Some(c)
              then active.None? && count == old(count) + 1 && phases == old(phases)[c := Closed] && logs == old(logs)
              else active == old(active) && count == old(count) && phases == old(phases) && logs == old(logs)
      ensures old(active) != Some(c) ==> Shows(s)
    {
      if active != Some(c) {
        return;
      }
      active := None;
      count := count + 1;
      phases := phases[c := Closed];
    }

    /** `maybe_write_frame`: one attempt on the active connection, none without one. */
    method MaybeWriteFrame(w: Written, drains: bool, ghost s: State) returns (ok: bool)
      requires Shows(s)
      modifies this
      ensures ok <==> s.live.Some? && drains
      ensures logs == if old(active).Some?
                      then old(logs)[old(active).value := old(logs)[old(active).value] + [w]] else old(logs)
      ensures if old(active).Some? && !drains then active.None? && count == old(count) + 1
              else active == old(active) && count == old(count)
      ensures Shows(AfterWrite(s, if s.live.Some? then Some((s.live.value, w)) else None, drains))
    {
      if active.None? {
        return false;
      }
      var c := active.value;
      logs := logs[c := logs[c] + [w]];
      if !drains {
        DiscardFailed(c, Write(s, c, w));
        return false;
      }
      ok := true;
    }

    /** `_ack` and `_nack`: only for a registered subscription, with an ack header, in the epoch of
        the message. */
    method AckOrNack(m: nat, msg: Message, subs: seq<Subscription>, positive: bool, drains: bool, ghost s: State)
      requires Shows(s) && m < |s.msgs| && s.msgs[m] == msg && s.subs == subs
      modifies this
      ensures logs == if msg.sub in subs && msg.hasAck && msg.epoch == old(count) && old(active).Some?
                      then old(logs)[old(active).value := old(logs)[old(active).value] + [if positive then Ack(m) else Nack(m)]]
                      else old(logs)
      ensures Shows(AfterWrite(s, SettledBy(s, m, positive), drains))
    {
      if msg.sub !in subs {
        return;
      }
      if !msg.hasAck {
        return;
      }
      if msg.epoch != count {
        return;
      }
      var _ := MaybeWriteFrame(if positive then Ack(m) else Nack(m), drains, s);
    }

    /** `AutoAckSubscription._run_handler` once the handler has ended with `outcome`. */
    method RunHandler(m: nat, msg: Message, subs: seq<Subscription>, outcome: Outcome, drains: bool, ghost s: State)
      requires Shows(s) && m < |s.msgs| && s.msgs[m] == msg && s.subs == subs && msg.sub.autoAck
      modifies this
      ensures logs == if msg.sub.settles && outcome != Raised
                         && msg.sub in subs && msg.hasAck && msg.epoch == old(count) && old(active).Some?
                      then old(logs)[old(active).value := old(logs)[old(active).value] + [if outcome == Returned then Ack(m) else Nack(m)]]
                      else old(logs)
      ensures Shows(AfterWrite(s, if Settles(s, m, outcome) then SettledBy(s, m, outcome.Returned?) else None, drains))
    {
      match outcome
      case Suppressed =>
        if msg.sub.settles {
          AckOrNack(m, msg, subs, false, drains, s);
        }
      case Returned =>
        if msg.sub.settles {
          AckOrNack(m, msg, subs, true, drains, s);
        }
      case Raised =>
    }
  }

  /** What a write and the completion of its drain do to the connections. */
  ghost function AfterWrite(s: State, w: Option<(nat, Written)>, drains: bool): State
    requires |s.logs| == |s.phases| && (w.Some? ==> w.value.0 < |s.logs|)
  {
    if w.None? then s
    else
      var written := Write(s, w.value.0, w.value.1);
      if drains then written else Discard(written, w.value.0)
  }

  /** The end of a handler, and the failure of its connection if the drain is lost, are steps of the
      session that lead to the state `RunHandler` leaves behind. */
  lemma HandlerStepsMatch(cfg: Config, s: State, m: nat, outcome: Outcome, drains: bool)
    requires Sized(s) && Enabled(cfg, s, HandlerEnds(m, outcome))
    ensures var s' := Next(cfg, s, HandlerEnds(m, outcome));
            var w := if Settles(s, m, outcome) then SettledBy(s, m, outcome.Returned?) else None;
            var t := AfterWrite(s, w, drains);
            var t' := if w.Some? && !drains then Discard(s', w.value.0) else s';
            t'.logs == t.logs && t'.phases == t.phases && t'.live == t.live && t'.count == t.count
  {
    assert MaySettle(SetMessage(s, m, Settling(outcome)), m) == MaySettle(s, m);
  }
}
