/** The per-CPU token bucket in front of ICMP errors: 100 a second, 20 at once. */
module TokenBucket {
  import opened Powers

  const INTERVAL := 10_000_000
  const BURST := 20

  datatype Bucket = Bucket(last: nat, tokens: nat)

  /** As the kernel creates it. */
  const ZEROED := Bucket(0, 0)

  /** The tokens of whole intervals gone by; the rest of an interval is kept for later. */
  function Refill(b: Bucket, now: nat): Bucket
    requires b.last <= now
  {
    var refill := (now - b.last) / INTERVAL;
    if refill > 0 then
      Bucket(b.last + refill * INTERVAL, if b.tokens + refill > BURST then BURST else b.tokens + refill)
    else b
  }

  /** icmp_error_allowed */
  function Allow(b: Bucket, now: nat): (Bucket, bool)
    requires b.last <= now
  {
    var r := Refill(b, now);
    if r.tokens == 0 then (r, false) else (r.(tokens := r.tokens - 1), true)
  }

  class RateBucket {
    var lastRefill: nat
    var tokens: nat

    constructor ()
      ensures Bucket(lastRefill, tokens) == ZEROED
    {
      lastRefill, tokens := 0, 0;
    }

    /** icmp_error_allowed */
    method Allowed(now: nat) returns (ok: bool)
      requires lastRefill <= now
      modifies this
      ensures (Bucket(lastRefill, tokens), ok) == Allow(old(Bucket(lastRefill, tokens)), now)
    {
      var refill := (now - lastRefill) / INTERVAL;
      if refill > 0 {
        var t := tokens + refill;
        tokens := if t > BURST then BURST else t;
        lastRefill := lastRefill + refill * INTERVAL;
      }
      if tokens == 0 {
        return false;
      }
      tokens := tokens - 1;
      return true;
    }
  }

  /** What every call keeps. */
  ghost predicate Sane(b: Bucket, now: nat) {
    b.last <= now && b.tokens <= BURST
  }

  /** A refill stops less than an interval short of `now`, and makes no more tokens than intervals. */
  lemma RefillBounds(b: Bucket, now: nat)
    requires Sane(b, now)
    ensures var r := Refill(b, now);
            && Sane(r, now) && now < r.last + INTERVAL && b.last <= r.last
            && (r.tokens - b.tokens) * INTERVAL <= r.last - b.last
            && (now - b.last >= INTERVAL ==> r.tokens >= 1)
            && Refill(r, now) == r
  {
    var d := now - b.last;
    var q := d / INTERVAL;
    Quotient(d, INTERVAL, q);
    Quotient(now - (b.last + q * INTERVAL), INTERVAL, 0);
    if d >= INTERVAL {
      Quotient(d, INTERVAL, 0);
    }
  }

  lemma AllowKeeps(b: Bucket, now: nat)
    requires Sane(b, now)
    ensures Sane(Allow(b, now).0, now)
  {
    RefillBounds(b, now);
  }

  // ---------------------------------------------------------------- runs

  ghost predicate Sorted(ts: seq<nat>) {
    forall i, j :: 0 <= i <= j < |ts| ==> ts[i] <= ts[j]
  }

  /** The clock starts no earlier than the bucket and does not run backwards. */
  ghost predicate Calls(b: Bucket, ts: seq<nat>) {
    Sorted(ts) && b.tokens <= BURST && (ts != [] ==> b.last <= ts[0])
  }

  lemma CallsTail(b: Bucket, ts: seq<nat>)
    requires Calls(b, ts) && ts != []
    ensures Calls(Allow(b, ts[0]).0, ts[1..])
  {
    AllowKeeps(b, ts[0]);
  }

  /** How many of the calls at `ts` are allowed at times from `lo` to `hi`. */
  ghost function Granted(b: Bucket, ts: seq<nat>, lo: nat, hi: nat): nat
    requires Calls(b, ts)
    decreases |ts|
  {
    if ts == [] then 0
    else
      CallsTail(b, ts);
      var (b', ok) := Allow(b, ts[0]);
      (if ok && lo <= ts[0] <= hi then 1 else 0) + Granted(b', ts[1..], lo, hi)
  }

  lemma {:induction false} NoneAfter(b: Bucket, ts: seq<nat>, lo: nat, hi: nat)
    requires Calls(b, ts) && (ts != [] ==> ts[0] > hi)
    ensures Granted(b, ts, lo, hi) == 0
    decreases |ts|
  {
    if ts != [] {
      CallsTail(b, ts);
      NoneAfter(Allow(b, ts[0]).0, ts[1..], lo, hi);
    }
  }

  /** What is granted until `hi` is paid for by the tokens there are and the intervals to come. */
  lemma {:induction false} PaidFor(b: Bucket, ts: seq<nat>, lo: nat, hi: nat)
    requires Calls(b, ts) && b.last <= hi
    ensures (Granted(b, ts, lo, hi) - b.tokens) * INTERVAL <= hi - b.last
    decreases |ts|
  {
    if ts != [] {
      if ts[0] > hi {
        NoneAfter(b, ts, lo, hi);
      } else {
        CallsTail(b, ts);
        RefillBounds(b, ts[0]);
        PaidFor(Allow(b, ts[0]).0, ts[1..], lo, hi);
      }
    }
  }

  function Ceil(n: nat): nat {
    (n + INTERVAL - 1) / INTERVAL
  }

  lemma CeilBound(g: int, n: nat)
    requires (g - BURST) * INTERVAL < n + INTERVAL
    ensures g <= BURST + Ceil(n)
  {
    var q := Ceil(n);
    Quotient(n + INTERVAL - 1, INTERVAL, q);
  }

  /** The first call of a window finds at most a full bucket, less than an interval behind the clock. */
  lemma FirstInWindow(b: Bucket, ts: seq<nat>, lo: nat, hi: nat)
    requires Calls(b, ts) && ts != [] && lo <= ts[0] <= hi
    ensures Granted(b, ts, lo, hi) <= BURST + Ceil(hi - lo)
  {
    var r := Refill(b, ts[0]);
    RefillBounds(b, ts[0]);
    assert Allow(r, ts[0]) == Allow(b, ts[0]);
    assert Granted(r, ts, lo, hi) == Granted(b, ts, lo, hi);
    PaidFor(r, ts, lo, hi);
    CeilBound(Granted(b, ts, lo, hi), hi - lo);
  }

  /** In any window of time, at most a burst and one more for each interval begun. */
  lemma {:induction false} AtMost(b: Bucket, ts: seq<nat>, lo: nat, hi: nat)
    requires Calls(b, ts) && lo <= hi
    ensures Granted(b, ts, lo, hi) <= BURST + Ceil(hi - lo)
    decreases |ts|
  {
    if ts != [] {
      if ts[0] > hi {
        NoneAfter(b, ts, lo, hi);
      } else if lo <= ts[0] {
        FirstInWindow(b, ts, lo, hi);
      } else {
        CallsTail(b, ts);
        AtMost(Allow(b, ts[0]).0, ts[1..], lo, hi);
      }
    }
  }

  ghost predicate Spaced(ts: seq<nat>) {
    forall i :: 0 < i < |ts| ==> ts[i - 1] + INTERVAL <= ts[i]
  }

  /** All calls are allowed. */
  ghost predicate NoneRefused(b: Bucket, ts: seq<nat>)
    requires Calls(b, ts)
    decreases |ts|
  {
    ts == [] || (CallsTail(b, ts); Allow(b, ts[0]).1 && NoneRefused(Allow(b, ts[0]).0, ts[1..]))
  }

  /** Calls at least an interval apart are never refused, exactly when the first is not: when there is a
      token, or an interval has gone by. For a new bucket that is any time from 10 ms on. */
  lemma {:induction false} SpacedNeverRefused(b: Bucket, ts: seq<nat>)
    requires Calls(b, ts) && Spaced(ts) && ts != []
    ensures NoneRefused(b, ts) <==> b.tokens > 0 || ts[0] - b.last >= INTERVAL
    decreases |ts|
  {
    CallsTail(b, ts);
    RefillBounds(b, ts[0]);
    Quotient(ts[0] - b.last, INTERVAL, 0);
    var b' := Allow(b, ts[0]).0;
    if |ts| > 1 {
      assert ts[1..][0] == ts[1] && ts[0] + INTERVAL <= ts[1];
      assert forall i :: 0 < i < |ts[1..]| ==> ts[1..][i - 1] == ts[i] && ts[1..][i] == ts[i + 1];
      SpacedNeverRefused(b', ts[1..]);
    }
  }
}
