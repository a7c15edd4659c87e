/** The registries as objects, and the sequential code that enters a connection: what it writes
    when every write goes through, and what it leaves behind when one does not. */
module Lifespan {
  import opened Bytes
  import opened Session
  import opened Prologue

  // ------------------------------------------------------------------------------------------
  // ActiveSubscriptions
  // ------------------------------------------------------------------------------------------

  predicate HasId(xs: seq<Subscription>, id: nat)
  {
    exists i :: 0 <= i < |xs| && xs[i].id == id
  }

  /** Deleting a key of an insertion-ordered dictionary. */
  function WithoutId(xs: seq<Subscription>, id: nat): seq<Subscription>
  {
    if xs == [] then []
    else if xs[0].id == id then WithoutId(xs[1..], id)
    else [xs[0]] + WithoutId(xs[1..], id)
  }

  function Lookup(xs: seq<Subscription>, id: nat): (r: Option<Subscription>)
    ensures r.Some? ==> r.value in xs && r.value.id == id
    ensures r.None? <==> !HasId(xs, id)
  {
    if xs == [] then None
    else if xs[0].id == id then Some(xs[0])
    else
      assert HasId(xs[1..], id) <==> HasId(xs, id) by {
        if HasId(xs, id) {
          var i :| 0 <= i < |xs| && xs[i].id == id;
          assert xs[1..][i - 1].id == id;
        }
        if HasId(xs[1..], id) {
          var i :| 0 <= i < |xs[1..]| && xs[1..][i].id == id;
          assert xs[i + 1].id == id;
        }
      }
      Lookup(xs[1..], id)
  }

  /** Setting a key of an insertion-ordered dictionary. */
  function Put(xs: seq<Subscription>, x: Subscription): seq<Subscription>
  {
    if xs == [] then [x]
    else if xs[0].id == x.id then [x] + xs[1..]
    else [xs[0]] + Put(xs[1..], x)
  }

  lemma {:induction false} PutSpec(xs: seq<Subscription>, x: Subscription)
    requires DistinctIds(xs)
    ensures !HasId(xs, x.id) ==> Put(xs, x) == xs + [x]
    ensures HasId(xs, x.id) ==> exists i :: 0 <= i < |xs| && xs[i].id == x.id && Put(xs, x) == xs[i := x]
    ensures DistinctIds(Put(xs, x)) && Put(xs, x) != []
  {
    if xs != [] && xs[0].id == x.id {
      assert Put(xs, x) == xs[0 := x];
    } else if xs != [] {
      PutSpec(xs[1..], x);
      if HasId(xs, x.id) {
        var j :| 0 <= j < |xs| && xs[j].id == x.id;
        assert xs[1..][j - 1].id == x.id;
        var i :| 0 <= i < |xs[1..]| && xs[1..][i].id == x.id && Put(xs[1..], x) == xs[1..][i := x];
        assert Put(xs, x) == xs[i + 1 := x];
      } else {
        assert !HasId(xs[1..], x.id);
        assert Put(xs, x) == xs + [x];
      }
    }
  }

  lemma {:induction false} WithoutIdSpec(xs: seq<Subscription>, id: nat)
    ensures forall x :: x in WithoutId(xs, id) <==> x in xs && x.id != id
    ensures DistinctIds(xs) ==> DistinctIds(WithoutId(xs, id))
    ensures !HasId(xs, id) ==> WithoutId(xs, id) == xs
  {
    if xs != [] {
      WithoutIdSpec(xs[1..], id);
      assert forall x :: x in xs <==> x == xs[0] || x in xs[1..];
      if DistinctIds(xs) {
        assert forall x :: x in xs[1..] ==> x.id != xs[0].id;
      }
      if !HasId(xs, id) {
        assert !HasId(xs[1..], id);
      }
    }
  }

  /** Deleting by id is the session's removal of the subscription with that id. */
  lemma {:induction false} DeletionIsRemoval(xs: seq<Subscription>, x: Subscription)
    requires DistinctIds(xs) && x in xs
    ensures WithoutId(xs, x.id) == RemoveSub(xs, x)
  {
    if xs[0] == x {
      assert !HasId(xs[1..], x.id);
      WithoutIdSpec(xs[1..], x.id);
      RemoveOther(xs[1..], x);
    } else {
      assert x in xs[1..] && xs[0].id != x.id;
      DeletionIsRemoval(xs[1..], x);
    }
  }

  lemma {:induction false} RemoveOther(xs: seq<Subscription>, x: Subscription)
    requires x !in xs
    ensures RemoveSub(xs, x) == xs
  {
    if xs != [] {
      RemoveOther(xs[1..], x);
    }
  }

  class ActiveSubscriptions {
    var subscriptions: seq<Subscription>   // the dictionary's values in insertion order
    var event: bool

    /** Ids are keys, and the event that `wait_until_empty` awaits is set exactly while empty. */
    predicate Valid()
      reads this
    {
      DistinctIds(subscriptions) && (event <==> subscriptions == [])
    }

    constructor ()
      ensures Valid() && subscriptions == []
    {
      subscriptions, event := [], true;
    }

    method GetById(id: nat) returns (r: Option<Subscription>)
      requires Valid()
      ensures r.Some? ==> r.value in subscriptions && r.value.id == id
      ensures r.None? <==> !HasId(subscriptions, id)
    {
      r := Lookup(subscriptions, id);
    }

    /** A new id goes to the end; a known one keeps its place. */
    method Add(x: Subscription)
      requires Valid()
      modifies this
      ensures Valid()
      ensures !HasId(old(subscriptions), x.id) ==> subscriptions == old(subscriptions) + [x]
      ensures HasId(old(subscriptions), x.id) ==>
                exists i :: 0 <= i < |old(subscriptions)| && old(subscriptions)[i].id == x.id
                            && subscriptions == old(subscriptions)[i := x]
    {
      PutSpec(subscriptions, x);
      subscriptions := Put(subscriptions, x);
      event := false;
    }

    /** An unknown id changes nothing; a known subscription is removed as the session removes it. */
    method DeleteById(id: nat)
      requires Valid()
      modifies this
      ensures Valid()
      ensures !HasId(old(subscriptions), id) ==> subscriptions == old(subscriptions) && event == old(event)
      ensures forall x :: x in old(subscriptions) && x.id == id ==> subscriptions == RemoveSub(old(subscriptions), x)
    {
      WithoutIdSpec(subscriptions, id);
      forall x | x in subscriptions && x.id == id ensures WithoutId(subscriptions, id) == RemoveSub(subscriptions, x) {
        DeletionIsRemoval(subscriptions, x);
      }
      subscriptions := WithoutId(subscriptions, id);
      if subscriptions == [] {
        event := true;
      }
    }
  }

  // ------------------------------------------------------------------------------------------
  // Entering a connection
  // ------------------------------------------------------------------------------------------

  /** A connection as the lifespan sees it: frames are handed to the writer in order, and the
      surroundings decide which drain fails. */
  class Connection {
    var log: seq<Written>
    const drains: nat -> bool

    constructor (drains: nat -> bool)
      ensures log == [] && this.drains == drains
    {
      log := [];
      this.drains := drains;
    }

    method WriteFrame(w: Written) returns (ok: bool)
      modifies this
      ensures log == old(log) + [w] && ok == drains(|old(log)|)
    {
      log := log + [w];
      ok := drains(|log| - 1);
    }
  }

  /** Every drain among the frames from `i` up to `j` went through. */
  ghost predicate AllDrained(c: Connection, i: nat, j: nat)
  {
    forall k :: i <= k < j ==> c.drains(k)
  }

  /** What a sequence of awaited writes does: all of `frames`, or all up to the first failed drain. */
  ghost predicate Appended(c: Connection, before: seq<Written>, after: seq<Written>, frames: seq<Written>, ok: bool)
  {
    && (ok ==> after == before + frames && AllDrained(c, |before|, |after|))
    && (!ok ==> before < after && after <= before + frames
                && !c.drains(|after| - 1) && AllDrained(c, |before|, |after| - 1))
  }

  lemma AppendOne(c: Connection, before: seq<Written>, frames: seq<Written>, w: Written, all: seq<Written>, ok: bool)
    requires Appended(c, before, before + frames, frames, true) && frames + [w] <= all
    requires ok == c.drains(|before + frames|)
    ensures ok ==> Appended(c, before, before + frames + [w], frames + [w], true)
    ensures !ok ==> Appended(c, before, before + frames + [w], all, false)
  {
    assert before + frames + [w] == before + (frames + [w]);
    assert before + (frames + [w]) <= before + all;
  }

  lemma {:induction false} SubscribesPrefix(subs: seq<Subscription>, i: nat)
    requires i <= |subs|
    ensures Subscribes(subs[..i]) <= Subscribes(subs)
  {
    if i < |subs| {
      SubscribesPrefix(subs[..|subs| - 1], i);
      assert subs[..|subs| - 1][..i] == subs[..i];
    } else {
      assert subs[..i] == subs;
    }
  }

  lemma SubscribesStep(subs: seq<Subscription>, i: nat)
    requires i < |subs|
    ensures Subscribes(subs[..i + 1]) == Subscribes(subs[..i]) + [Subscribe(subs[i])]
  {
    assert subs[..i + 1][..i] == subs[..i];
  }

  /** `resubscribe_to_active_subscriptions`. */
  method Resubscribe(c: Connection, active: ActiveSubscriptions) returns (ok: bool)
    requires active.Valid()
    modifies c
    ensures Appended(c, old(c.log), c.log, Subscribes(active.subscriptions), ok)
  {
    var subs := active.subscriptions;
    assert subs[..0] == [] && subs[..|subs|] == subs;
    for i := 0 to |subs|
      invariant c.log == old(c.log) + Subscribes(subs[..i])
      invariant AllDrained(c, |old(c.log)|, |c.log|)
    {
      SubscribesStep(subs, i);
      SubscribesPrefix(subs, i + 1);
      ok := c.WriteFrame(Subscribe(subs[i]));
      AppendOne(c, old(c.log), Subscribes(subs[..i]), Subscribe(subs[i]), Subscribes(subs), ok);
      if !ok {
        return;
      }
    }
    ok := true;
  }

  lemma {:induction false} SendsPrefix(x: nat, bodies: seq<nat>, i: nat)
    requires i <= |bodies|
    ensures Sends(x, bodies[..i]) <= Sends(x, bodies)
  {
    if i < |bodies| {
      SendsPrefix(x, bodies[..|bodies| - 1], i);
      assert bodies[..|bodies| - 1][..i] == bodies[..i];
    } else {
      assert bodies[..i] == bodies;
    }
  }

  lemma SendsStep(x: nat, bodies: seq<nat>, i: nat)
    requires i < |bodies|
    ensures Sends(x, bodies[..i + 1]) == Sends(x, bodies[..i]) + [Send(Some(x), bodies[i])]
  {
    assert bodies[..i + 1][..i] == bodies[..i];
  }

  lemma {:induction false} ReplayPrefix(rs: seq<Replayed>, i: nat)
    requires i <= |rs|
    ensures ReplayLog(rs[..i]) <= ReplayLog(rs)
  {
    if i < |rs| {
      ReplayPrefix(rs[..|rs| - 1], i);
      assert rs[..|rs| - 1][..i] == rs[..i];
    } else {
      assert rs[..i] == rs;
    }
  }

  /** Up to send `k` of transaction `i`, the frames are a prefix of the whole replay. */
  lemma PartialReplay(rs: seq<Replayed>, i: nat, k: nat)
    requires i < |rs| && k <= |rs[i].sends|
    ensures ReplayLog(rs[..i]) + Sends(rs[i].txn, rs[i].sends[..k]) <= ReplayLog(rs)
    ensures ReplayLog(rs[..i + 1]) == ReplayLog(rs[..i]) + Sends(rs[i].txn, rs[i].sends) + [Commit(rs[i].txn)]
  {
    var r := rs[i];
    assert rs[..i + 1][..i] == rs[..i] && rs[..i + 1][i] == r;
    SendsPrefix(r.txn, r.sends, k);
    ReplayPrefix(rs, i + 1);
  }

  /** The body of one transaction's replay: its sends, then its COMMIT. */
  method ReplayOne(c: Connection, ghost before: seq<Written>, ghost rs: seq<Replayed>, ghost i: nat, r: Replayed) returns (ok: bool)
    requires i < |rs| && rs[i] == r
    requires Appended(c, before, c.log, ReplayLog(rs[..i]), true)
    modifies c
    ensures ok ==> Appended(c, before, c.log, ReplayLog(rs[..i + 1]), true)
    ensures !ok ==> Appended(c, before, c.log, ReplayLog(rs), false)
  {
    ghost var head := ReplayLog(rs[..i]);
    assert r.sends[..0] == [] && r.sends[..|r.sends|] == r.sends;
    for k := 0 to |r.sends|
      invariant c.log == before + (head + Sends(r.txn, r.sends[..k])) && AllDrained(c, |before|, |c.log|)
    {
      SendsStep(r.txn, r.sends, k);
      PartialReplay(rs, i, k + 1);
      ghost var frames := head + Sends(r.txn, r.sends[..k]);
      assert frames + [Send(Some(r.txn), r.sends[k])] == head + Sends(r.txn, r.sends[..k + 1]);
      ok := c.WriteFrame(Send(Some(r.txn), r.sends[k]));
      AppendOne(c, before, frames, Send(Some(r.txn), r.sends[k]), ReplayLog(rs), ok);
      if !ok {
        return;
      }
    }
    PartialReplay(rs, i, 0);
    ReplayPrefix(rs, i + 1);
    ok := c.WriteFrame(Commit(r.txn));
    AppendOne(c, before, head + Sends(r.txn, r.sends), Commit(r.txn), ReplayLog(rs), ok);
  }

  /** The set of active transactions, in the order one iteration of it takes. */
  class ActiveTransactions {
    var members: seq<Replayed>

    constructor ()
      ensures members == []
    {
      members := [];
    }

    method Clear()
      modifies this
      ensures members == []
    {
      members := [];
    }
  }

  /** `commit_pending_transactions`: the registry is emptied only after the last COMMIT went through. */
  method CommitPending(c: Connection, active: ActiveTransactions) returns (ok: bool)
    modifies c, active
    ensures Appended(c, old(c.log), c.log, ReplayLog(old(active.members)), ok)
    ensures active.members == if ok then [] else old(active.members)
  {
    var rs := active.members;
    assert rs[..0] == [] && rs[..|rs|] == rs;
    for i := 0 to |rs|
      invariant active.members == rs
      invariant Appended(c, old(c.log), c.log, ReplayLog(rs[..i]), true)
    {
      ok := ReplayOne(c, old(c.log), rs, i, rs[i]);
      if !ok {
        return;
      }
    }
    active.Clear();
    ok := true;
  }

  /** `ConnectionLifespan.enter` on a new connection; `connected` is whether the broker confirmed the
      handshake in time with a supported version. On success the log is the whole prologue; on
      failure it is a prefix of it, and the registered transactions are all still there. */
  method Enter(c: Connection, connected: bool, subs: ActiveSubscriptions, txns: ActiveTransactions) returns (ok: bool)
    requires c.log == [] && subs.Valid()
    modifies c, txns
    ensures ok ==> c.log == PrologueOf(subs.subscriptions, old(txns.members)) && txns.members == []
    ensures !ok ==> c.log <= PrologueOf(subs.subscriptions, old(txns.members)) && txns.members == old(txns.members)
    ensures ok <==> connected && AllDrained(c, 0, |PrologueOf(subs.subscriptions, old(txns.members))|)
    ensures subs.Valid() && subs.subscriptions == old(subs.subscriptions)
  {
    ghost var whole := PrologueOf(subs.subscriptions, txns.members);
    ok := c.WriteFrame(Connect);
    if !ok || !connected {
      return false;
    }
    ok := Resubscribe(c, subs);
    if !ok {
      assert !c.drains(|c.log| - 1) && |c.log| <= |whole|;
      return;
    }
    ok := CommitPending(c, txns);
    if !ok {
      assert !c.drains(|c.log| - 1) && |c.log| <= |whole|;
    }
  }
}
