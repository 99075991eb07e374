/** The Internet checksum (RFC 1071): one's complement sums of 16-bit words, folded, replaced in place
    (RFC 1624) and read in either byte order. */
module Checksum {
  import opened Addresses
  import opened ByteFields
  import opened Powers

  const ONES := 0xffff

  /** Equal as one's complement sums, zero and all ones apart. */
  predicate Congruent(a: int, b: int) {
    a % ONES == b % ONES
  }

  lemma Shift(a: int, b: int, k: int)
    requires a == b + k * ONES
    ensures Congruent(a, b)
  {
    Quotient(b, ONES, b / ONES);
    Quotient(a, ONES, b / ONES + k);
  }

  lemma SmallMod(a: int)
    requires 0 <= a <= ONES
    ensures a % ONES == if a == ONES then 0 else a
  {
    Quotient(a, ONES, if a == ONES then 1 else 0);
  }

  // ---------------------------------------------------------------- sums of words

  /** What a change `d` of the byte at index `i` makes in little-endian words. */
  function Change(i: nat, d: int): int {
    if i % 2 == 0 then d else 0x100 * d
  }

  /** The sum of the words of `b`, as a little-endian machine reads them; an odd last byte counts as a
      word filled up with zero. */
  function Sum(b: Bytes): (r: nat)
    ensures r <= ONES * ((|b| + 1) / 2)
  {
    if b == [] then 0 else if |b| == 1 then b[0] else (b[0] as int) + 0x100 * (b[1] as int) + Sum(b[2..])
  }

  /** The same in network byte order. */
  function NetSum(b: Bytes): (r: nat)
    ensures r <= ONES * ((|b| + 1) / 2)
  {
    if b == [] then 0 else if |b| == 1 then 0x100 * (b[0] as int) else 0x100 * (b[0] as int) + (b[1] as int) + NetSum(b[2..])
  }

  /** A sum is accepted when it folds to all ones. */
  predicate Accepted(sum: nat) {
    sum > 0 && sum % ONES == 0
  }

  function OddBytes(b: Bytes): nat {
    if |b| < 2 then 0 else (b[1] as int) + OddBytes(b[2..])
  }

  lemma {:induction false} Swapped(b: Bytes)
    ensures NetSum(b) == 0x100 * Sum(b) - ONES * OddBytes(b)
    ensures NetSum(b) == 0 <==> Sum(b) == 0
  {
    if |b| >= 2 {
      Swapped(b[2..]);
    }
  }

  /** The two agree up to a swap of the bytes, so a sum is accepted in both or in neither. */
  lemma ByteOrder(b: Bytes)
    ensures Accepted(NetSum(b)) <==> Accepted(Sum(b))
  {
    Swapped(b);
    var n, s, o := NetSum(b), Sum(b), OddBytes(b);
    SmallMod(0);
    if s % ONES == 0 {
      Shift(n, 0, 0x100 * (s / ONES) - o);
    }
    if n % ONES == 0 {
      Shift(s, 0, 0x100 * (n / ONES) - s + 0x100 * o);
    }
  }

  lemma {:induction false} SumUpdate(b: Bytes, i: nat, v: Byte)
    requires i < |b|
    ensures Sum(b[i := v]) == Sum(b) + Change(i, (v as int) - b[i])
  {
    if i >= 2 {
      assert b[i := v][2..] == b[2..][i - 2 := v];
      SumUpdate(b[2..], i - 2, v);
    } else if |b| >= 2 {
      assert b[i := v][2..] == b[2..];
    }
  }

  /** Two neighbouring bytes replaced. */
  lemma SumUpdateTwo(b: Bytes, i: nat, x: Byte, y: Byte)
    requires i + 1 < |b|
    ensures Sum(b[i := x][i + 1 := y])
            == Sum(b) + Change(i, (x as int) - b[i]) + Change(i + 1, (y as int) - b[i + 1])
  {
    SumUpdate(b, i, x);
    SumUpdate(b[i := x], i + 1, y);
  }

  lemma {:induction false} SumAppend(a: Bytes, b: Bytes)
    requires |a| % 2 == 0
    ensures Sum(a + b) == Sum(a) + Sum(b) && NetSum(a + b) == NetSum(a) + NetSum(b)
  {
    if a == [] {
      assert a + b == b;
    } else {
      assert (a + b)[0] == a[0] && (a + b)[1] == a[1] && (a + b)[2..] == a[2..] + b;
      SumAppend(a[2..], b);
    }
  }

  // ---------------------------------------------------------------- folding

  function FoldOnce(csum: int): int {
    csum % 0x1_0000 + csum / 0x1_0000
  }

  function Complement(w: U16): U16 {
    ONES - w
  }

  /** checksum_fold32 */
  function Fold(csum: U32): U16 {
    FoldsTwice(csum);
    Complement(FoldOnce(FoldOnce(csum)))
  }

  /** What the two folds take off, in units of 65535. */
  function Carries(csum: U32): int {
    csum / 0x1_0000 + FoldOnce(csum) / 0x1_0000
  }

  /** Two folds bring any 32-bit sum to 16 bits, the same modulo 65535, and to zero only from zero. */
  lemma FoldsTwice(csum: U32)
    ensures var f := FoldOnce(FoldOnce(csum));
            0 <= f <= ONES && Congruent(f, csum) && (f == 0 <==> csum == 0) && csum == f + ONES * Carries(csum)
  {
    var one := FoldOnce(csum);
    assert 0 <= one <= 2 * ONES && one == csum - ONES * (csum / 0x1_0000);
    assert FoldOnce(one) == one - ONES * (one / 0x1_0000);
    Shift(FoldOnce(one), csum, -Carries(csum));
  }

  /** The 16-bit value congruent to a sum is unique, but for the two forms of zero. */
  lemma SameWord(a: U16, b: U16)
    requires Congruent(a, b)
    ensures a == b || (a == 0 && b == ONES) || (a == ONES && b == 0)
  {
    SmallMod(a);
    SmallMod(b);
  }

  /** ... and an accepted sum is one that folds to all ones. */
  lemma AcceptedFolds(sum: U32)
    ensures Accepted(sum) <==> FoldOnce(FoldOnce(sum)) == ONES
  {
    FoldsTwice(sum);
    SmallMod(FoldOnce(FoldOnce(sum)));
  }

  /** csum_replace16: equation 3 of RFC 1624. */
  function Replaced(csum: U16, was: U16, now: U16): U16 {
    Fold(Complement(csum) + Complement(was) + now)
  }

  /** What the checksum gains is what the word loses, modulo 65535. */
  lemma ReplacedKeeps(csum: U16, was: U16, now: U16) returns (k: int)
    ensures (Replaced(csum, was, now) as int) + now == (csum as int) + was + k * ONES
  {
    var sum := Complement(csum) + Complement(was) + now;
    FoldsTwice(sum);
    k := Carries(sum) - 1;
  }

  // ---------------------------------------------------------------- the IPv4 header

  const IPV4_LEN := 20
  const TTL := 8
  const CHECK := 10

  function WordAt(b: Bytes, i: nat): U16
    requires i + 1 < |b|
  {
    (b[i] as int) + 0x100 * (b[i + 1] as int)
  }

  function PutWord(b: Bytes, i: nat, w: U16): (r: Bytes)
    requires i + 1 < |b|
    ensures |r| == |b| && WordAt(r, i) == w
    ensures forall j :: 0 <= j < |b| && j != i && j != i + 1 ==> r[j] == b[j]
  {
    b[i := w % 0x100][i + 1 := w / 0x100]
  }

  /** Two bytes at an even index are one word. */
  lemma SumTwoAligned(b: Bytes, i: nat, x: Byte, y: Byte)
    requires i + 1 < |b| && i % 2 == 0
    ensures Sum(b[i := x][i + 1 := y]) == Sum(b) - (b[i] as int) - 0x100 * (b[i + 1] as int) + x + 0x100 * (y as int)
  {
    SumUpdateTwo(b, i, x, y);
    assert (i + 1) % 2 == 1;
  }

  lemma SumPutWord(b: Bytes, i: nat, w: U16)
    requires i + 1 < |b| && i % 2 == 0
    ensures Sum(PutWord(b, i, w)) == Sum(b) - WordAt(b, i) + w
  {
    var x: Byte, y: Byte := w % 0x100, w / 0x100;
    SumTwoAligned(b, i, x, y);
    assert w == x + 0x100 * (y as int);
  }

  /** decrease_ipv4_ttl on a header, or on a packet that begins with one. */
  function DecreaseTtl(b: Bytes): (r: Bytes)
    requires |b| >= IPV4_LEN && b[TTL] >= 1
    ensures |r| == |b|
  {
    var w := FoldOnce((WordAt(b, CHECK) as int) + 1);
    PutWord(b, CHECK, w)[TTL := b[TTL] - 1]
  }

  /** A header verifies after its TTL is decreased exactly when it did before. */
  lemma TtlKeepsChecksum(b: Bytes)
    requires |b| >= IPV4_LEN && b[TTL] >= 1
    ensures Accepted(Sum(DecreaseTtl(b)[..IPV4_LEN])) <==> Accepted(Sum(b[..IPV4_LEN]))
    ensures DecreaseTtl(b)[IPV4_LEN..] == b[IPV4_LEN..]
  {
    var h := b[..IPV4_LEN];
    var w := WordAt(h, CHECK);
    var w' := FoldOnce((w as int) + 1);
    assert w' == if w == ONES then 1 else (w as int) + 1;
    var h1 := PutWord(h, CHECK, w');
    assert DecreaseTtl(b)[..IPV4_LEN] == h1[TTL := h[TTL] - 1];
    SumPutWord(h, CHECK, w');
    SumUpdate(h1, TTL, h[TTL] - 1);
    SumAtLeast(h, TTL);
    SumAtLeast(h1[TTL := h[TTL] - 1], CHECK);
    SumAtLeast(h1[TTL := h[TTL] - 1], CHECK + 1);
    var s, s' := Sum(h), Sum(h1[TTL := h[TTL] - 1]);
    assert s' == s - w + w' - 1;
    Shift(s', s, if w == ONES then -1 else 0);
  }

  lemma {:induction false} SumAtLeast(b: Bytes, i: nat)
    requires i < |b|
    ensures Sum(b) >= b[i]
  {
    if i >= 2 {
      SumAtLeast(b[2..], i - 2);
    }
  }

  /** ipv4_checksum, on the words with the checksum taken as zero. */
  function Computed(h: Bytes): U16
    requires |h| == IPV4_LEN
  {
    Fold(Sum(PutWord(h, CHECK, 0)))
  }

  /** A recomputed header verifies. */
  lemma ComputedVerifies(h: Bytes)
    requires |h| == IPV4_LEN
    ensures Accepted(Sum(PutWord(h, CHECK, Computed(h))))
  {
    SumPutWord(h, CHECK, 0);
    SumPutWord(h, CHECK, Computed(h));
    FoldCompletes(Sum(PutWord(h, CHECK, 0)));
  }

  /** The word that completes a sum is its folded complement, or all ones where that is zero. */
  lemma Completes(z: int, w: U16)
    requires 0 < z && z + w < 0x1_0000_0000 && Accepted(z + w)
    ensures Fold(z) != ONES
    ensures w == Fold(z) || (w == ONES && Fold(z) == 0)
  {
    FoldsTwice(z);
    Shift(w, Fold(z), (z + w) / ONES - Carries(z) - 1);
    SameWord(w, Fold(z));
  }

  /** Adding it makes the sum accepted. */
  lemma FoldCompletes(z: int)
    requires 0 <= z < 0x1_0000_0000 - ONES
    ensures Accepted(z + Fold(z))
  {
    FoldsTwice(z);
    SmallMod(0);
    Shift(z + Fold(z), 0, Carries(z) + 1);
  }

  /** What a verifying header's checksum is, against a recomputed one. */
  lemma AcceptedIsComputed(h: Bytes)
    requires |h| == IPV4_LEN && h[0] != 0 && Accepted(Sum(h))
    ensures WordAt(h, CHECK) == Computed(h) || (WordAt(h, CHECK) == ONES && Computed(h) == 0)
    ensures Computed(h) != ONES
  {
    var z := PutWord(h, CHECK, 0);
    SumPutWord(h, CHECK, 0);
    SumAtLeast(z, 0);
    Completes(Sum(z), WordAt(h, CHECK));
  }

  lemma TtlCheckWord(h: Bytes)
    requires |h| == IPV4_LEN && h[TTL] >= 1
    ensures DecreaseTtl(h)[0] == h[0]
    ensures WordAt(DecreaseTtl(h), CHECK) == if WordAt(h, CHECK) == ONES then 1 else (WordAt(h, CHECK) as int) + 1
  {
    var w := FoldOnce((WordAt(h, CHECK) as int) + 1);
    assert WordAt(PutWord(h, CHECK, w), CHECK) == w;
  }

  lemma TtlAccepted(h: Bytes)
    requires |h| == IPV4_LEN && h[TTL] >= 1 && Accepted(Sum(h))
    ensures Accepted(Sum(DecreaseTtl(h)))
  {
    TtlKeepsChecksum(h);
    assert h[..IPV4_LEN] == h && DecreaseTtl(h)[..IPV4_LEN] == DecreaseTtl(h);
  }

  lemma RecomputedAfter(h': Bytes, w: U16)
    requires |h'| == IPV4_LEN && h'[0] != 0 && Accepted(Sum(h'))
    requires WordAt(h', CHECK) == if w == ONES then 1 else (w as int) + 1
    ensures WordAt(h', CHECK) == Computed(h') <==> w != 0xfffe
  {
    AcceptedIsComputed(h');
  }

  /** The incremental update differs from a recomputed checksum for exactly one old value. */
  lemma TtlRecomputed(h: Bytes)
    requires |h| == IPV4_LEN && h[TTL] >= 1 && h[0] != 0 && Accepted(Sum(h))
    ensures WordAt(DecreaseTtl(h), CHECK) == Computed(DecreaseTtl(h)) <==> WordAt(h, CHECK) != 0xfffe
  {
    TtlAccepted(h);
    TtlCheckWord(h);
    RecomputedAfter(DecreaseTtl(h), WordAt(h, CHECK));
  }

  // ---------------------------------------------------------------- in place

  /** decrease_ipv4_ttl */
  method DecreaseIpv4Ttl(b: array<Byte>)
    requires b.Length >= IPV4_LEN && b[TTL] >= 1
    modifies b
    ensures b[..] == DecreaseTtl(old(b[..]))
  {
    var csum := (WordAt(b[..], CHECK) as int) + 1;
    csum := csum % 0x1_0000 + csum / 0x1_0000;
    b[CHECK], b[CHECK + 1] := csum % 0x100, csum / 0x100;
    b[TTL] := b[TTL] - 1;
  }

  /** ipv4_checksum */
  method Ipv4Checksum(b: array<Byte>)
    requires b.Length == IPV4_LEN
    modifies b
    ensures b[..] == PutWord(old(b[..]), CHECK, Computed(old(b[..])))
  {
    b[CHECK], b[CHECK + 1] := 0, 0;
    ghost var z := b[..];
    assert z == PutWord(old(b[..]), CHECK, 0);
    var acc: int := 0;
    var i := 0;
    assert z[0..] == z;
    while i < IPV4_LEN / 2
      invariant 0 <= i <= IPV4_LEN / 2 && b[..] == z
      invariant acc + Sum(z[2 * i..]) == Sum(z)
    {
      assert z[2 * i..][2..] == z[2 * (i + 1)..];
      acc := acc + WordAt(b[..], 2 * i);
      i := i + 1;
    }
    var check := Fold(acc);
    b[CHECK], b[CHECK + 1] := check % 0x100, check / 0x100;
  }
}
