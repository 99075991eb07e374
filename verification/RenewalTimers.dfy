/** The renewal timers of a delegated prefix (sections 14.2 and 21.21 of RFC 9915), in nanoseconds as a
    64-bit duration holds them. */
module RenewalTimers {
  import opened Wrappers
  import opened Powers

  const SECOND := 1_000_000_000
  const MINUTE := 60 * SECOND
  const INFINITE := 0xffff_ffff * SECOND
  const MAX_INT64 := 0x7fff_ffff_ffff_ffff

  /** A duration within 64 bits. */
  type Duration = d: int | 0 <= d <= MAX_INT64

  datatype IAPrefix = IAPrefix(preferred: Duration, valid: Duration)

  datatype IAPD = IAPD(t1: Duration, t2: Duration, success: bool, prefixes: seq<IAPrefix>)

  /** What a field of 32 bits of seconds decodes to. */
  predicate OnWire(d: Duration) {
    d % SECOND == 0 && d <= INFINITE
  }

  predicate Decoded(ia: IAPD) {
    OnWire(ia.t1) && OnWire(ia.t2)
    && forall i :: 0 <= i < |ia.prefixes| ==> OnWire(ia.prefixes[i].preferred) && OnWire(ia.prefixes[i].valid)
  }

  // ---------------------------------------------------------------- what is accepted

  function Sensible(ps: seq<IAPrefix>): (r: seq<IAPrefix>)
    ensures forall i :: 0 <= i < |r| ==> r[i] in ps && r[i].preferred <= r[i].valid
    ensures forall p :: p in ps && p.preferred <= p.valid ==> p in r
  {
    if ps == [] then []
    else
      var last := ps[|ps| - 1];
      var before := Sensible(ps[..|ps| - 1]);
      if last.preferred > last.valid then before else before + [last]
  }

  /** slices.DeleteFunc of the prefixes preferred for longer than they are valid. */
  method KeepSensible(ps: seq<IAPrefix>) returns (r: seq<IAPrefix>)
    ensures r == Sensible(ps)
  {
    r := [];
    for i := 0 to |ps|
      invariant r == Sensible(ps[..i])
    {
      assert ps[..i + 1][..i] == ps[..i];
      if !(ps[i].preferred > ps[i].valid) {
        r := r + [ps[i]];
      }
    }
    assert ps[..|ps|] == ps;
  }

  /** usableIAPD, on the option it finds. */
  function Usable(ia: IAPD): (r: Option<IAPD>)
    ensures r.Some? ==> Accepted(r.value) && r.value.t1 == ia.t1 && r.value.t2 == ia.t2
    ensures r.Some? && Decoded(ia) ==> Decoded(r.value)
    ensures r.Some? <==>
              && ia.success && !(ia.t2 > 0 && ia.t1 > ia.t2)
              && exists p :: p in ia.prefixes && p.preferred <= p.valid
    ensures r.Some? ==> forall p :: p in r.value.prefixes <==> p in ia.prefixes && p.preferred <= p.valid
  {
    var ps := Sensible(ia.prefixes);
    assert ps != [] ==> ps[0] in ia.prefixes;
    if !ia.success || ps == [] || (ia.t2 > 0 && ia.t1 > ia.t2) then None else Some(ia.(prefixes := ps))
  }

  predicate Accepted(ia: IAPD) {
    && ia.prefixes != [] && (forall i :: 0 <= i < |ia.prefixes| ==> ia.prefixes[i].preferred <= ia.prefixes[i].valid)
    && !(ia.t2 > 0 && ia.t1 > ia.t2)
  }

  // ---------------------------------------------------------------- the shortest lifetimes

  predicate IsLeast(d: Duration, ds: seq<Duration>) {
    d in ds && forall e :: e in ds ==> d <= e
  }

  function Preferreds(ps: seq<IAPrefix>): seq<Duration> {
    seq(|ps|, i requires 0 <= i < |ps| => ps[i].preferred)
  }

  function Valids(ps: seq<IAPrefix>): seq<Duration> {
    seq(|ps|, i requires 0 <= i < |ps| => ps[i].valid)
  }

  /** Zero for an empty list. */
  function Shortest(ds: seq<Duration>): (r: Duration)
    ensures ds == [] ==> r == 0
    ensures ds != [] ==> IsLeast(r, ds)
  {
    if ds == [] then 0
    else if |ds| == 1 then ds[0]
    else
      var r := Shortest(ds[..|ds| - 1]);
      assert ds == ds[..|ds| - 1] + [ds[|ds| - 1]];
      if ds[|ds| - 1] < r then ds[|ds| - 1] else r
  }

  /** shortestPreferredLifetime and shortestValidLifetime */
  method ShortestOf(ds: seq<Duration>) returns (r: Duration)
    ensures r == Shortest(ds)
  {
    if |ds| == 0 {
      return 0;
    }
    r := ds[0];
    for i := 1 to |ds|
      invariant r == Shortest(ds[..i])
    {
      assert ds[..i + 1][..i] == ds[..i];
      if ds[i] < r {
        r := ds[i];
      }
    }
    assert ds[..|ds|] == ds;
  }

  // ---------------------------------------------------------------- the timers

  /** earlier: zero is no deadline. */
  function Earlier(a: Duration, b: Duration): Duration {
    if a == 0 || (b > 0 && b < a) then b else a
  }

  function Recommended(preferred: Duration): (Duration, Duration) {
    if preferred == INFINITE then (INFINITE, INFINITE) else (preferred / 2, preferred / 5 * 4)
  }

  /** A T1 left to the client, against the T2 of the server (or zero). */
  function DeriveT1(t2: Duration, preferred: Duration, valid: Duration): Duration {
    var rec := Recommended(preferred).0;
    var floored := if rec < MINUTE then MINUTE else rec;
    var limit := Earlier(t2, valid);
    if limit > 0 && limit != INFINITE && floored >= limit then limit / 2 else floored
  }

  /** A T2 left to the client. */
  function DeriveT2(t1: Duration, preferred: Duration, valid: Duration): Duration
    requires t1 <= INFINITE
  {
    var rec := Recommended(preferred).1;
    var t2 := if t1 == INFINITE then INFINITE else if rec > t1 then rec else t1 + t1 / 2;
    if valid > t1 && t2 > valid then valid else t2
  }

  /** effectiveTimers; every sum and product stays within 64 bits, which the types of its values say. */
  method EffectiveTimers(ia: IAPD) returns (t1: Duration, t2: Duration)
    requires Decoded(ia)
    ensures (t1, t2) == Timers(ia)
  {
    t1, t2 := ia.t1, ia.t2;
    if t1 > 0 && t2 > 0 {
      return;
    }
    var preferred := ShortestOf(Preferreds(ia.prefixes));
    var (recT1, recT2) := Recommended(preferred);
    var valid := ShortestOf(Valids(ia.prefixes));
    ShortestOnWire(ia);
    if t1 == 0 {
      t1 := ChooseT1(t2, recT1, valid);
    }
    if t2 == 0 {
      t2 := ChooseT2(t1, recT2, valid);
    }
  }

  method ChooseT1(t2: Duration, recT1: Duration, valid: Duration) returns (t1: Duration)
    ensures forall preferred :: Recommended(preferred).0 == recT1 ==> t1 == DeriveT1(t2, preferred, valid)
  {
    t1 := recT1;
    if t1 < MINUTE {
      t1 := MINUTE;
    }
    var limit := Earlier(t2, valid);
    if limit > 0 && limit != INFINITE && t1 >= limit {
      t1 := limit / 2;
    }
  }

  method ChooseT2(t1: Duration, recT2: Duration, valid: Duration) returns (t2: Duration)
    requires t1 <= INFINITE
    ensures forall preferred :: Recommended(preferred).1 == recT2 ==> t2 == DeriveT2(t1, preferred, valid)
  {
    if t1 == INFINITE {
      t2 := INFINITE;
    } else if recT2 > t1 {
      t2 := recT2;
    } else {
      t2 := t1 + t1 / 2;
    }
    if valid > t1 && t2 > valid {
      t2 := valid;
    }
  }

  lemma ShortestOnWire(ia: IAPD)
    requires Decoded(ia)
    ensures OnWire(Shortest(Preferreds(ia.prefixes))) && OnWire(Shortest(Valids(ia.prefixes)))
    ensures (forall i :: 0 <= i < |ia.prefixes| ==> ia.prefixes[i].preferred <= ia.prefixes[i].valid) ==>
              Shortest(Preferreds(ia.prefixes)) <= Shortest(Valids(ia.prefixes))
  {
    var ps := Preferreds(ia.prefixes);
    var vs := Valids(ia.prefixes);
    if ia.prefixes != [] {
      var i :| 0 <= i < |ps| && ps[i] == Shortest(ps);
      var j :| 0 <= j < |vs| && vs[j] == Shortest(vs);
      assert ps[j] in ps;
    }
  }

  function Timers(ia: IAPD): (Duration, Duration)
    requires Decoded(ia)
  {
    var preferred, valid := Shortest(Preferreds(ia.prefixes)), Shortest(Valids(ia.prefixes));
    ShortestOnWire(ia);
    var t1 := if ia.t1 > 0 then ia.t1 else DeriveT1(ia.t2, preferred, valid);
    var t2 := if ia.t2 > 0 then ia.t2 else DeriveT2(t1, preferred, valid);
    (t1, t2)
  }

  /** Lifetimes on the wire are whole seconds. */
  lemma WholeSeconds(d: Duration)
    requires OnWire(d)
    ensures d == 0 || d >= SECOND
    ensures d != INFINITE ==> 5 * (d / 5 * 4) == 4 * d
  {
    Quotient(d, SECOND, 0);
    var q := d / SECOND;
    Quotient(d, SECOND, q);
    Quotient(d, 5, q * (SECOND / 5));
  }

  /** T1: positive; below a minute only as half of the earlier deadline; before a finite valid lifetime,
      and no later than the server's T2. */
  lemma DerivedT1(t2: Duration, preferred: Duration, valid: Duration)
    requires OnWire(t2) && OnWire(preferred) && OnWire(valid)
    ensures var t1 := DeriveT1(t2, preferred, valid);
            && 0 < t1 <= INFINITE
            && (t1 < MINUTE ==> t1 == Earlier(t2, valid) / 2)
            && (0 < valid < INFINITE ==> t1 < valid)
            && (t2 > 0 ==> t1 <= t2)
  {
    WholeSeconds(Earlier(t2, valid));
  }

  /** T2: no earlier than T1, and within the valid lifetime exactly when T1 is before its end (or neither
      ever comes). */
  lemma DerivedT2(t1: Duration, preferred: Duration, valid: Duration)
    requires 2 <= t1 <= INFINITE && OnWire(preferred) && OnWire(valid)
    ensures var t2 := DeriveT2(t1, preferred, valid);
            && t1 <= t2
            && (t2 <= valid <==> t1 < valid || (t1 == INFINITE && valid == INFINITE))
  {
  }

  /** The timers of every IA_PD accepted: ordered, positive, the server's own where it gave them. */
  lemma TimersAreSafe(ia: IAPD)
    requires Accepted(ia) && Decoded(ia)
    ensures var (t1, t2) := Timers(ia); var valid := Shortest(Valids(ia.prefixes));
            && 0 < t1 <= t2
            && (ia.t1 > 0 ==> t1 == ia.t1) && (ia.t2 > 0 ==> t2 == ia.t2)
            && (ia.t1 == 0 && t1 < MINUTE ==> t1 == Earlier(ia.t2, valid) / 2)
            && (ia.t1 == 0 && 0 < valid < INFINITE ==> t1 < valid)
            && (ia.t2 == 0 ==> (t2 <= valid <==> t1 < valid || (t1 == INFINITE && valid == INFINITE)))
  {
    var preferred, valid := Shortest(Preferreds(ia.prefixes)), Shortest(Valids(ia.prefixes));
    ShortestOnWire(ia);
    WholeSeconds(ia.t1);
    DerivedT1(ia.t2, preferred, valid);
    WholeSeconds(Earlier(ia.t2, valid));
    var t1 := Timers(ia).0;
    assert t1 >= 2;
    DerivedT2(t1, preferred, valid);
  }

  /** With no word from the server and a lease of ordinary length, the recommended half and four fifths
      of the shortest preferred lifetime. */
  lemma TimersRecommended(ia: IAPD)
    requires Accepted(ia) && Decoded(ia) && ia.t1 == 0 && ia.t2 == 0
    requires var preferred := Shortest(Preferreds(ia.prefixes)); 2 * MINUTE <= preferred < INFINITE
    ensures var (t1, t2) := Timers(ia); var preferred := Shortest(Preferreds(ia.prefixes));
            2 * t1 <= preferred < 2 * t1 + 2 && 5 * t2 == 4 * preferred
  {
    var preferred, valid := Shortest(Preferreds(ia.prefixes)), Shortest(Valids(ia.prefixes));
    ShortestOnWire(ia);
    WholeSeconds(preferred);
    assert preferred <= valid;
  }

  // ---------------------------------------------------------------- a lifetime of zero

  /** The T1 derived when one of the prefixes is valid for no time at all. */
  function Unbounded(t2: Duration): Duration {
    if 0 < t2 <= MINUTE then t2 / 2 else MINUTE
  }

  /** A derived T1 is before the end of every prefix with a finite lifetime left, exactly when no prefix
      has a valid lifetime of zero, which stands for no deadline, or all of them last past the T1 chosen
      without one. */
  lemma BeforeEveryEnd(ia: IAPD)
    requires Accepted(ia) && Decoded(ia) && ia.t1 == 0
    ensures (forall i :: 0 <= i < |ia.prefixes| && 0 < ia.prefixes[i].valid < INFINITE ==> Timers(ia).0 < ia.prefixes[i].valid)
            <==> || Shortest(Valids(ia.prefixes)) > 0
                 || forall i :: 0 <= i < |ia.prefixes| && 0 < ia.prefixes[i].valid < INFINITE ==>
                      Unbounded(ia.t2) < ia.prefixes[i].valid
  {
    var preferred, valid := Shortest(Preferreds(ia.prefixes)), Shortest(Valids(ia.prefixes));
    ShortestOnWire(ia);
    DerivedT1(ia.t2, preferred, valid);
    forall i | 0 <= i < |ia.prefixes|
      ensures valid <= ia.prefixes[i].valid
    {
      assert Valids(ia.prefixes)[i] in Valids(ia.prefixes);
    }
    if valid == 0 {
      assert Timers(ia).0 == Unbounded(ia.t2);
    }
  }

  /** Such an IA_PD: one prefix already over, one with ten seconds left, and a T1 of a minute. */
  lemma ZeroHidesDeadline()
    ensures var ia := IAPD(0, 0, true, [IAPrefix(0, 0), IAPrefix(10 * SECOND, 10 * SECOND)]);
            Accepted(ia) && Decoded(ia) && Timers(ia).0 == MINUTE > ia.prefixes[1].valid
  {
    var ia := IAPD(0, 0, true, [IAPrefix(0, 0), IAPrefix(10 * SECOND, 10 * SECOND)]);
    assert Valids(ia.prefixes)[0] in Valids(ia.prefixes) && Preferreds(ia.prefixes)[0] in Preferreds(ia.prefixes);
    assert Shortest(Valids(ia.prefixes)) == 0 && Shortest(Preferreds(ia.prefixes)) == 0;
  }
}
