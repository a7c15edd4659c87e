/** One reconnecting write: how often it connects, writes and sleeps, and what its return means. */
module Retry {
  /** `interval` seconds of sleep follow the first failed connection attempt, twice that the second. */
  datatype Policy = Policy(writes: nat, connects: nat, interval: nat)

  /** What the surroundings answer: whether an active connection is found on the k-th round (by
      either check), whether the a-th connection attempt of round k succeeds, and whether the k-th
      write does. */
  datatype World = World(active: nat -> bool, connects: (nat, nat) -> bool, writes: nat -> bool)

  datatype Outcome = Written | FailedAllConnectAttempts | FailedAllWriteAttempts

  /** What one call did: the results of its writes in order, its connection attempts, its sleep. */
  datatype Tally = Tally(outcome: Outcome, writes: seq<bool>, connects: nat, slept: nat)

  /** The first successful attempt of round `k` at or after `a`, or the number of attempts. */
  function FirstUp(p: Policy, w: World, k: nat, a: nat): (r: nat)
    requires a <= p.connects
    ensures a <= r <= p.connects
    ensures r < p.connects ==> w.connects(k, r)
    ensures forall b :: a <= b < r ==> !w.connects(k, b)
    decreases p.connects - a
  {
    if a == p.connects || w.connects(k, a) then a else FirstUp(p, w, k, a + 1)
  }

  /** Does round `k` get hold of a connection? */
  predicate Available(p: Policy, w: World, k: nat)
  {
    w.active(k) || exists a :: 0 <= a < p.connects && w.connects(k, a)
  }

  /** The sleep after `n` failed connection attempts in a row. */
  function Slept(interval: nat, n: nat): nat
  {
    if n == 0 then 0 else Slept(interval, n - 1) + interval * n
  }

  function RoundConnects(p: Policy, w: World, k: nat): nat
  {
    if w.active(k) then 0 else if FirstUp(p, w, k, 0) < p.connects then FirstUp(p, w, k, 0) + 1 else p.connects
  }

  function RoundSleep(p: Policy, w: World, k: nat): nat
  {
    if w.active(k) then 0 else Slept(p.interval, FirstUp(p, w, k, 0))
  }

  /** Rounds `k` and later. */
  function From(p: Policy, w: World, k: nat): Tally
    requires k <= p.writes
    decreases p.writes - k
  {
    if k == p.writes then Tally(FailedAllWriteAttempts, [], 0, 0)
    else if !Available(p, w, k) then
      Tally(FailedAllConnectAttempts, [], RoundConnects(p, w, k), RoundSleep(p, w, k))
    else if w.writes(k) then
      Tally(Written, [true], RoundConnects(p, w, k), RoundSleep(p, w, k))
    else
      var rest := From(p, w, k + 1);
      Tally(rest.outcome, [false] + rest.writes, RoundConnects(p, w, k) + rest.connects, RoundSleep(p, w, k) + rest.slept)
  }

  // ------------------------------------------------------------------------------------------
  // The loops
  // ------------------------------------------------------------------------------------------

  /** `_get_active_connection_state`. */
  method GetActiveConnection(p: Policy, w: World, k: nat) returns (ok: bool, connects: nat, slept: nat)
    ensures ok <==> Available(p, w, k)
    ensures connects == RoundConnects(p, w, k) && slept == RoundSleep(p, w, k)
  {
    connects, slept := 0, 0;
    if w.active(k) {
      return true, 0, 0;
    }
    for attempt := 0 to p.connects
      invariant connects == attempt && slept == Slept(p.interval, attempt)
      invariant FirstUp(p, w, k, 0) == FirstUp(p, w, k, attempt)
    {
      connects := connects + 1;
      if w.connects(k, attempt) {
        return true, connects, slept;
      }
      slept := slept + p.interval * (attempt + 1);
    }
    ok := false;
  }

  /** `write_frame_reconnecting`. */
  method WriteFrameReconnecting(p: Policy, w: World) returns (r: Tally)
    ensures r == From(p, w, 0)
  {
    var writes, connects: nat, slept: nat := [], 0, 0;
    for k := 0 to p.writes
      invariant From(p, w, 0) == Tally(From(p, w, k).outcome, writes + From(p, w, k).writes,
                                       connects + From(p, w, k).connects, slept + From(p, w, k).slept)
    {
      var ok, n, t := GetActiveConnection(p, w, k);
      connects, slept := connects + n, slept + t;
      if !ok {
        return Tally(FailedAllConnectAttempts, writes, connects, slept);
      }
      if w.writes(k) {
        return Tally(Written, writes + [true], connects, slept);
      }
      assert writes + ([false] + From(p, w, k + 1).writes) == writes + [false] + From(p, w, k + 1).writes;
      writes := writes + [false];
    }
    r := Tally(FailedAllWriteAttempts, writes, connects, slept);
  }

  // ------------------------------------------------------------------------------------------
  // What a call can do at most
  // ------------------------------------------------------------------------------------------

  lemma {:induction false} SleptClosedForm(interval: nat, n: nat)
    ensures 2 * Slept(interval, n) == interval * n * (n + 1)
  {
    if n > 0 {
      SleptClosedForm(interval, n - 1);
      assert interval * (n - 1) * n + 2 * interval * n == interval * n * (n + 1);
    }
  }

  lemma {:induction false} SleptMonotone(interval: nat, m: nat, n: nat)
    requires m <= n
    ensures Slept(interval, m) <= Slept(interval, n)
  {
    if m < n {
      SleptMonotone(interval, m, n - 1);
    }
  }

  /** A round that gets a connection sleeps at most between its attempts; one that does not, after
      each of them. */
  lemma RoundBound(p: Policy, w: World, k: nat)
    requires p.connects >= 1
    ensures RoundConnects(p, w, k) <= p.connects
    ensures RoundSleep(p, w, k) <= Slept(p.interval, if Available(p, w, k) then p.connects - 1 else p.connects)
  {
    var up := FirstUp(p, w, k, 0);
    if !w.active(k) {
      assert up < p.connects ==> w.connects(k, up);
      if Available(p, w, k) {
        var a :| 0 <= a < p.connects && w.connects(k, a);
        assert up <= a;
        SleptMonotone(p.interval, up, p.connects - 1);
      } else {
        SleptMonotone(p.interval, up, p.connects);
      }
    }
  }

  /** `n` rounds of `a` each. */
  function Repeat(n: nat, a: nat): nat
  {
    if n == 0 then 0 else a + Repeat(n - 1, a)
  }

  lemma {:induction false} RepeatIsProduct(n: nat, a: nat)
    ensures Repeat(n, a) == n * a
  {
    if n > 0 { RepeatIsProduct(n - 1, a); }
  }

  /** The most one call may sleep: all rounds but the last get a connection at the last attempt. */
  function SleepBound(p: Policy, rounds: nat): nat
    requires rounds >= 1 && p.connects >= 1
  {
    Repeat(rounds - 1, Slept(p.interval, p.connects - 1)) + Slept(p.interval, p.connects)
  }

  lemma {:induction false} FromBounds(p: Policy, w: World, k: nat)
    requires k < p.writes && p.connects >= 1
    ensures |From(p, w, k).writes| <= p.writes - k
    ensures From(p, w, k).connects <= Repeat(p.writes - k, p.connects)
    ensures From(p, w, k).slept <= SleepBound(p, p.writes - k)
    decreases p.writes - k
  {
    RoundBound(p, w, k);
    SleptMonotone(p.interval, p.connects - 1, p.connects);
    if k + 1 < p.writes {
      FromBounds(p, w, k + 1);
    }
  }

  /** Twice (W - 1) * I * n(n-1)/2 + I * n(n+1)/2. */
  function TwiceBound(writes: int, connects: int, interval: int): int
  {
    (writes - 1) * (interval * (connects - 1) * connects) + interval * connects * (connects + 1)
  }

  lemma SleepBoundClosedForm(p: Policy)
    requires p.writes >= 1 && p.connects >= 1
    ensures 2 * SleepBound(p, p.writes) == TwiceBound(p.writes, p.connects, p.interval)
  {
    var a := Slept(p.interval, p.connects - 1);
    SleptClosedForm(p.interval, p.connects - 1);
    SleptClosedForm(p.interval, p.connects);
    RepeatIsProduct(p.writes - 1, a);
    Doubles(p.writes - 1, a, p.interval * (p.connects - 1) * p.connects);
  }

  lemma Doubles(n: int, a: int, b: int)
    requires 2 * a == b
    ensures 2 * (n * a) == n * b
  {
  }

  /** One call writes at most W times, connects at most W * n times, and sleeps at most
      (W - 1) * I * n(n-1)/2 + I * n(n+1)/2. */
  lemma RetryBounds(p: Policy, w: World)
    requires p.writes >= 1 && p.connects >= 1
    ensures var r := From(p, w, 0);
            && |r.writes| <= p.writes
            && r.connects <= p.writes * p.connects
            && 2 * r.slept <= TwiceBound(p.writes, p.connects, p.interval)
  {
    FromBounds(p, w, 0);
    RepeatIsProduct(p.writes, p.connects);
    SleepBoundClosedForm(p);
  }

  /** The world in which the bounds are met: every round but the last connects at the last attempt
      and loses its write; the last never connects. */
  function WorstWorld(p: Policy): World
  {
    World(k => false, (k, a) => k + 1 < p.writes && a + 1 == p.connects, k => false)
  }

  lemma {:induction false} WorstFrom(p: Policy, k: nat)
    requires k < p.writes && p.connects >= 1
    ensures var r := From(p, WorstWorld(p), k);
            r.connects == Repeat(p.writes - k, p.connects) && r.slept == SleepBound(p, p.writes - k)
    decreases p.writes - k
  {
    WorstRound(p, k);
    if k + 1 < p.writes {
      WorstFrom(p, k + 1);
    }
  }

  lemma WorstRound(p: Policy, k: nat)
    requires k < p.writes && p.connects >= 1
    ensures var w := WorstWorld(p);
            && !w.writes(k) && (Available(p, w, k) <==> k + 1 < p.writes)
            && RoundConnects(p, w, k) == p.connects
            && RoundSleep(p, w, k) == Slept(p.interval, if k + 1 < p.writes then p.connects - 1 else p.connects)
  {
    var w := WorstWorld(p);
    if k + 1 < p.writes {
      assert w.connects(k, p.connects - 1);
      assert FirstUp(p, w, k, 0) == p.connects - 1;
    } else {
      assert FirstUp(p, w, k, 0) == p.connects;
    }
  }

  /** The bounds on connections and sleep cannot be improved. */
  lemma BoundsAreReached(p: Policy)
    requires p.writes >= 1 && p.connects >= 1
    ensures var r := From(p, WorstWorld(p), 0);
            && r.connects == p.writes * p.connects
            && 2 * r.slept == TwiceBound(p.writes, p.connects, p.interval)
  {
    WorstFrom(p, 0);
    RepeatIsProduct(p.writes, p.connects);
    SleepBoundClosedForm(p);
  }

  // ------------------------------------------------------------------------------------------
  // What a return means
  // ------------------------------------------------------------------------------------------

  /** Rounds `k` to `j - 1` got a connection and lost their write. */
  predicate Lost(p: Policy, w: World, k: nat, j: nat)
  {
    forall i :: k <= i < j ==> Available(p, w, i) && !w.writes(i)
  }

  /** The round that decides the call: the first that has no connection or whose write succeeds. */
  lemma {:induction false} Decided(p: Policy, w: World, k: nat) returns (j: nat)
    requires k <= p.writes
    ensures k <= j <= p.writes && Lost(p, w, k, j)
    ensures j < p.writes ==> !Available(p, w, j) || w.writes(j)
    ensures From(p, w, k).outcome
         == if j == p.writes then FailedAllWriteAttempts
            else if Available(p, w, j) then Written else FailedAllConnectAttempts
    ensures From(p, w, k).writes
         == seq(j - k, _ => false) + if From(p, w, k).outcome.Written? then [true] else []
    decreases p.writes - k
  {
    if k == p.writes || !Available(p, w, k) || w.writes(k) {
      j := k;
    } else {
      j := Decided(p, w, k + 1);
      assert seq(j - k, _ => false) == [false] + seq(j - (k + 1), _ => false);
    }
  }

  predicate OnlyLastSucceeded(writes: seq<bool>)
  {
    writes != [] && writes[|writes| - 1] && forall i :: 0 <= i < |writes| - 1 ==> !writes[i]
  }

  /** A normal return means that the last write, and no other, succeeded; it happens exactly when
      some round has a connection and a good write after rounds that only lost their write. */
  lemma NormalReturn(p: Policy, w: World)
    ensures From(p, w, 0).outcome.Written?
       <==> exists j :: 0 <= j < p.writes && Lost(p, w, 0, j) && Available(p, w, j) && w.writes(j)
    ensures From(p, w, 0).outcome.Written?
       <==> OnlyLastSucceeded(From(p, w, 0).writes)
    ensures !From(p, w, 0).outcome.Written? ==> true !in From(p, w, 0).writes
  {
    var j := Decided(p, w, 0);
  }

  /** Without write attempts nothing is tried; without connect attempts only an active connection helps. */
  lemma NoAttempts(p: Policy, w: World)
    ensures p.writes == 0 ==> From(p, w, 0) == Tally(FailedAllWriteAttempts, [], 0, 0)
    ensures p.writes > 0 && p.connects == 0 && !w.active(0) ==> From(p, w, 0) == Tally(FailedAllConnectAttempts, [], 0, 0)
  {
  }
}
