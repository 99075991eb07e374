/** Clamping the MSS a TCP SYN announces, in place, with its checksum brought up to date. */
module MssClamp {
  import opened Wrappers
  import opened ByteFields
  import opened Powers
  import opened Checksum

  const TCP := 20         // where the TCP header begins behind an IPv4 header without options
  const TCP_LEN := 20
  const TCP_CHECK := 36
  const TCP_FLAGS := 33
  const MAX_TCP_OPTIONS := 10
  const OPT_EOL := 0
  const OPT_NOP := 1
  const OPT_MSS := 2
  const OPT_MSS_LEN := 4

  predicate Syn(flags: Byte) { flags / 2 % 2 == 1 }

  predicate Rst(flags: Byte) { flags / 4 % 2 == 1 }

  predicate WithoutOptions(first: Byte) { first % 16 == 5 }

  predicate FirstFragment(hi: Byte, lo: Byte) { hi % 32 == 0 && lo == 0 }

  /** An IPv4 packet without options, first or only fragment, whose TCP header is a SYN and not a RST. */
  predicate IsSyn(b: Bytes) {
    && |b| >= TCP + TCP_LEN
    && b[9] == 6 && WithoutOptions(b[0])
    && FirstFragment(b[6], b[7])
    && Syn(b[TCP_FLAGS]) && !Rst(b[TCP_FLAGS])
  }

  /** The length of the TCP header in bytes. */
  function HeaderLen(b: Bytes): int
    requires |b| >= TCP + TCP_LEN
  {
    b[TCP + 12] / 16 * 4
  }

  /** What the walk makes of one option: stop, take it as the MSS, or skip it. */
  datatype Look = Stop | Found | Skip(len: nat)

  function LookAt(b: Bytes, doff: int, off: nat): (r: Look)
    ensures r.Found? ==>
              && off + OPT_MSS_LEN <= doff && TCP + off + OPT_MSS_LEN <= |b|
              && b[TCP + off] == OPT_MSS && b[TCP + off + 1] == OPT_MSS_LEN
  {
    var at := TCP + off;
    if off >= doff || at + 1 > |b| || b[at] == OPT_EOL then Stop
    else if b[at] == OPT_NOP then Skip(1)
    else if off + 2 > doff || at + 2 > |b| || b[at + 1] < 2 || off + b[at + 1] > doff then Stop
    else if b[at] == OPT_MSS && b[at + 1] == OPT_MSS_LEN then
      if at + OPT_MSS_LEN > |b| then Stop else Found
    else Skip(b[at + 1])
  }

  /** Where, behind the start of the TCP header, the walk finds an MSS option in `n` more options. */
  function FindMss(b: Bytes, doff: int, off: nat, n: nat): (r: Option<nat>)
    ensures r.Some? ==>
              && off <= r.value && r.value + OPT_MSS_LEN <= doff && TCP + r.value + OPT_MSS_LEN <= |b|
              && b[TCP + r.value] == OPT_MSS && b[TCP + r.value + 1] == OPT_MSS_LEN
    decreases n
  {
    if n == 0 then None
    else
      match LookAt(b, doff, off)
      case Stop => None
      case Found => Some(off)
      case Skip(len) => FindMss(b, doff, off + len, n - 1)
  }

  /** The MSS option of a SYN that announces more than `clamp`. */
  function Excessive(b: Bytes, clamp: U16): (r: Option<nat>)
    ensures r.Some? ==>
              && IsSyn(b) && TCP_LEN <= r.value && r.value + OPT_MSS_LEN <= HeaderLen(b)
              && TCP + r.value + OPT_MSS_LEN <= |b| && Mss(b, r.value) > clamp
  {
    if !IsSyn(b) || HeaderLen(b) <= TCP_LEN || HeaderLen(b) > 60 then None
    else
      var off := FindMss(b, HeaderLen(b), TCP_LEN, MAX_TCP_OPTIONS);
      if off.Some? && Mss(b, off.value) > clamp then off else None
  }

  /** The MSS that the option at `off` announces. */
  function Mss(b: Bytes, off: nat): U16
    requires TCP + off + OPT_MSS_LEN <= |b|
  {
    GetU16(b[TCP + off + 2..])
  }

  /** The MSS replaced, and the checksum with it. */
  function Rewritten(b: Bytes, off: nat, clamp: U16): (r: Bytes)
    requires TCP_LEN <= off && TCP + off + OPT_MSS_LEN <= |b|
    ensures |r| == |b|
  {
    var at := TCP + off + 2;
    var now := clamp / 0x100 + clamp % 0x100 * 0x100;
    PutWord(b, TCP_CHECK, Replaced(WordAt(b, TCP_CHECK), WordAt(b, at), now))
    [at := clamp / 0x100][at + 1 := clamp % 0x100]
  }

  /** clamp_tcp_mss */
  function Clamped(b: Bytes, clamp: U16): Bytes {
    var off := Excessive(b, clamp);
    if off.Some? then Rewritten(b, off.value, clamp) else b
  }

  /** The MSS is only ever lowered, to the clamp, and nothing changes but it and the checksum. */
  lemma ClampLowers(b: Bytes, clamp: U16)
    ensures |Clamped(b, clamp)| == |b|
    ensures var off := Excessive(b, clamp);
            if off.None? then Clamped(b, clamp) == b
            else
              && Mss(Clamped(b, clamp), off.value) == clamp < Mss(b, off.value)
              && forall i :: 0 <= i < |b| && i !in {TCP_CHECK, TCP_CHECK + 1, TCP + off.value + 2, TCP + off.value + 3}
                             ==> Clamped(b, clamp)[i] == b[i]
  {
  }

  /** The IPv4 header is left alone. */
  lemma ClampKeepsHeader(b: Bytes, clamp: U16)
    requires |b| >= IPV4_LEN
    ensures |Clamped(b, clamp)| == |b| && Clamped(b, clamp)[..IPV4_LEN] == b[..IPV4_LEN]
  {
    ClampLowers(b, clamp);
    var r := Clamped(b, clamp);
    forall i | 0 <= i < IPV4_LEN
      ensures r[i] == b[i]
    {
    }
  }

  // ---------------------------------------------------------------- the checksum

  const CHECK_AT := 16  // within the segment

  /** The segment with its checksum word and two more bytes replaced. */
  lemma SegmentSum(s: Bytes, q: nat, c: U16, x: Byte, y: Byte)
    requires CHECK_AT + 2 <= q && q + 1 < |s|
    ensures Sum(PutWord(s, CHECK_AT, c)[q := x][q + 1 := y])
            == Sum(s) - WordAt(s, CHECK_AT) + c + Change(q, (x as int) - s[q]) + Change(q + 1, (y as int) - s[q + 1])
  {
    SumPutWord(s, CHECK_AT, c);
    SumUpdateTwo(PutWord(s, CHECK_AT, c), q, x, y);
  }

  function NewCheck(s: Bytes, q: nat, x: Byte, y: Byte): U16
    requires CHECK_AT + 2 <= q && q + 1 < |s|
  {
    Replaced(WordAt(s, CHECK_AT), WordAt(s, q), (x as int) + 0x100 * (y as int))
  }

  /** How far off the sum ends up, beyond whole multiples of 65535. */
  function Skew(s: Bytes, q: nat, x: Byte, y: Byte): int
    requires q + 1 < |s|
  {
    if q % 2 == 0 then 0 else ((x as int) - s[q]) - ((y as int) - s[q + 1])
  }

  lemma RewriteShift(s: Bytes, q: nat, x: Byte, y: Byte) returns (k: int)
    requires CHECK_AT + 2 <= q && q + 1 < |s|
    ensures Sum(PutWord(s, CHECK_AT, NewCheck(s, q, x, y))[q := x][q + 1 := y]) == Sum(s) + k * ONES + 255 * Skew(s, q, x, y)
  {
    var c := NewCheck(s, q, x, y);
    k := ReplacedKeeps(WordAt(s, CHECK_AT), WordAt(s, q), (x as int) + 0x100 * (y as int));
    SegmentSum(s, q, c, x, y);
    Skewed(s, q, x, y);
  }

  lemma Skewed(s: Bytes, q: nat, x: Byte, y: Byte)
    requires q + 1 < |s|
    ensures Change(q, (x as int) - s[q]) + Change(q + 1, (y as int) - s[q + 1])
            == (x as int) + 0x100 * (y as int) - WordAt(s, q) + 255 * Skew(s, q, x, y)
  {
    assert (q + 1) % 2 == 1 - q % 2;
  }

  /** The segment, rewritten. */
  function NewSegment(s: Bytes, q: nat, x: Byte, y: Byte): (r: Bytes)
    requires CHECK_AT + 2 <= q && q + 1 < |s|
    ensures |r| == |s| && r[TCP_FLAGS - TCP] == s[TCP_FLAGS - TCP]
  {
    PutWord(s, CHECK_AT, NewCheck(s, q, x, y))[q := x][q + 1 := y]
  }

  lemma SliceUpdate(b: Bytes, i: nat, v: Byte, lo: nat, hi: nat)
    requires lo <= i < hi <= |b|
    ensures b[i := v][lo..hi] == b[lo..hi][i - lo := v]
  {
  }

  lemma SliceBefore(b: Bytes, i: nat, v: Byte, lo: nat, hi: nat)
    requires lo <= hi <= i < |b|
    ensures b[i := v][lo..hi] == b[lo..hi]
  {
  }

  /** The segment of a rewritten packet is the rewritten segment. */
  lemma RewrittenSegment(b: Bytes, off: nat, clamp: U16, end: nat)
    requires TCP_LEN <= off && TCP + off + OPT_MSS_LEN <= end <= |b|
    ensures Rewritten(b, off, clamp)[TCP..end] == NewSegment(b[TCP..end], off + 2, clamp / 0x100, clamp % 0x100)
  {
    var s := b[TCP..end];
    var x: Byte, y: Byte := clamp / 0x100, clamp % 0x100;
    var q := off + 2;
    assert WordAt(s, CHECK_AT) == WordAt(b, TCP_CHECK) && WordAt(s, q) == WordAt(b, TCP + q);
    var c := NewCheck(s, q, x, y);
    var b1 := b[TCP_CHECK := c % 0x100];
    var b2 := b1[TCP_CHECK + 1 := c / 0x100];
    var b3 := b2[TCP + q := x];
    SliceUpdate(b, TCP_CHECK, c % 0x100, TCP, end);
    SliceUpdate(b1, TCP_CHECK + 1, c / 0x100, TCP, end);
    SliceUpdate(b2, TCP + q, x, TCP, end);
    SliceUpdate(b3, TCP + q + 1, y, TCP, end);
  }

  lemma SegmentKeepsChecksum(s: Bytes, q: nat, x: Byte, y: Byte, pseudo: nat)
    requires CHECK_AT + 2 <= q && q + 1 < |s| && s[TCP_FLAGS - TCP] > 0
    ensures var now, was := pseudo + Sum(NewSegment(s, q, x, y)), pseudo + Sum(s);
            && (Skew(s, q, x, y) == 0 ==> (Accepted(now) <==> Accepted(was)))
            && (Accepted(was) ==> (Accepted(now) <==> Skew(s, q, x, y) % 257 == 0))
  {
    var r := NewSegment(s, q, x, y);
    var k := RewriteShift(s, q, x, y);
    SumAtLeast(s, TCP_FLAGS - TCP);
    SumAtLeast(r, TCP_FLAGS - TCP);
    SumStays(pseudo + Sum(s), pseudo + Sum(r), k, Skew(s, q, x, y));
  }

  /** By how much the first byte of the MSS changes more than the second. */
  function MssSkew(b: Bytes, off: nat, clamp: U16): int
    requires TCP + off + OPT_MSS_LEN <= |b|
  {
    (clamp / 0x100 - b[TCP + off + 2]) - (clamp % 0x100 - b[TCP + off + 3])
  }

  lemma SegmentSkew(b: Bytes, off: nat, clamp: U16, end: nat)
    requires TCP + off + OPT_MSS_LEN <= end <= |b|
    ensures Skew(b[TCP..end], off + 2, clamp / 0x100, clamp % 0x100) == if off % 2 == 0 then 0 else MssSkew(b, off, clamp)
  {
    var s := b[TCP..end];
    assert s[off + 2] == b[TCP + off + 2] && s[off + 3] == b[TCP + off + 3];
    assert (off + 2) % 2 == off % 2;
  }

  lemma RewriteKeepsChecksum(b: Bytes, off: nat, clamp: U16, end: nat, was: nat, now: nat, pseudo: nat)
    requires TCP_LEN <= off && TCP + off + OPT_MSS_LEN <= end <= |b| && b[TCP_FLAGS] > 0
    requires was == pseudo + Sum(b[TCP..end]) && now == pseudo + Sum(Rewritten(b, off, clamp)[TCP..end])
    ensures off % 2 == 0 ==> (Accepted(now) <==> Accepted(was))
    ensures off % 2 == 1 && Accepted(was) ==> (Accepted(now) <==> MssSkew(b, off, clamp) % 257 == 0)
  {
    RewrittenSegment(b, off, clamp, end);
    SegmentSkew(b, off, clamp, end);
    assert b[TCP..end][TCP_FLAGS - TCP] == b[TCP_FLAGS];
    SegmentKeepsChecksum(b[TCP..end], off + 2, clamp / 0x100, clamp % 0x100, pseudo);
  }

  lemma SynFlag(b: Bytes)
    requires IsSyn(b)
    ensures b[TCP_FLAGS] > 0
  {
  }

  /** With the option at an even offset a valid TCP checksum stays valid and an invalid one invalid. At
      an odd one it stays valid exactly when the two bytes of the MSS change by the same amount modulo
      257. `pseudo` is the sum of the pseudo-header, which the rewrite does not touch. */
  lemma ClampKeepsChecksum(b: Bytes, clamp: U16, end: nat, was: nat, now: nat, pseudo: nat, off: nat)
    requires Excessive(b, clamp) == Some(off) && TCP + off + OPT_MSS_LEN <= end <= |b|
    requires was == pseudo + Sum(b[TCP..end]) && now == pseudo + Sum(Clamped(b, clamp)[TCP..end])
    ensures off % 2 == 0 ==> (Accepted(now) <==> Accepted(was))
    ensures off % 2 == 1 && Accepted(was) ==> (Accepted(now) <==> MssSkew(b, off, clamp) % 257 == 0)
  {
    SynFlag(b);
    RewriteKeepsChecksum(b, off, clamp, end, was, now, pseudo);
  }

  /** Where the IPv4 length ends before the option, which then lies in the frame's padding, the checksum is
      changed for bytes it does not cover. */
  lemma ClampOutside(b: Bytes, clamp: U16, end: nat, was: nat, now: nat, pseudo: nat, off: nat)
    requires Excessive(b, clamp) == Some(off) && TCP + TCP_LEN <= end <= TCP + off + 2
    requires was == pseudo + Sum(b[TCP..end]) && now == pseudo + Sum(Clamped(b, clamp)[TCP..end])
    ensures Accepted(was) ==> (Accepted(now) <==> Mss(b, off) == 0xffff && clamp == 0)
  {
    SynFlag(b);
    RewriteOutside(b, off, clamp, end, was, now, pseudo);
  }

  lemma OutsideSegment(b: Bytes, c: U16, at: nat, x: Byte, y: Byte, end: nat)
    requires TCP + TCP_LEN <= end <= at && at + 1 < |b|
    ensures PutWord(b, TCP_CHECK, c)[at := x][at + 1 := y][TCP..end] == PutWord(b[TCP..end], CHECK_AT, c)
  {
    var lo: Byte, hi: Byte := c % 0x100, c / 0x100;
    var b1 := b[TCP_CHECK := lo];
    var b2 := b1[TCP_CHECK + 1 := hi];
    SliceUpdate(b, TCP_CHECK, lo, TCP, end);
    SliceUpdate(b1, TCP_CHECK + 1, hi, TCP, end);
    SliceBefore(b2, at, x, TCP, end);
    SliceBefore(b2[at := x], at + 1, y, TCP, end);
  }

  lemma RewriteOutside(b: Bytes, off: nat, clamp: U16, end: nat, was: nat, now: nat, pseudo: nat)
    requires TCP_LEN <= off && TCP + off + OPT_MSS_LEN <= |b| && TCP + TCP_LEN <= end <= TCP + off + 2
    requires b[TCP_FLAGS] > 0 && Mss(b, off) > clamp
    requires was == pseudo + Sum(b[TCP..end]) && now == pseudo + Sum(Rewritten(b, off, clamp)[TCP..end])
    ensures Accepted(was) ==> (Accepted(now) <==> Mss(b, off) == 0xffff && clamp == 0)
  {
    var s := b[TCP..end];
    var x: Byte, y: Byte := clamp / 0x100, clamp % 0x100;
    var w: U16 := WordAt(b, TCP + off + 2);
    var w': U16 := (x as int) + 0x100 * (y as int);
    var c := Replaced(WordAt(b, TCP_CHECK), w, w');
    OutsideSegment(b, c, TCP + off + 2, x, y, end);
    SumPutWord(s, CHECK_AT, c);
    assert WordAt(s, CHECK_AT) == WordAt(b, TCP_CHECK);
    var k := ReplacedKeeps(WordAt(b, TCP_CHECK), w, w');
    assert now == was + (w as int) - w' + k * ONES;
    var r := PutWord(s, CHECK_AT, c);
    assert r[TCP_FLAGS - TCP] == s[TCP_FLAGS - TCP] == b[TCP_FLAGS];
    SumAtLeast(r, TCP_FLAGS - TCP);
    Words(b, off, clamp);
    SumDiffers(was, now, k, w, w');
  }

  /** Where the segment ends between the two bytes of the MSS, only the first of them is covered. At an even
      offset a valid checksum stays valid exactly when the second byte does not change; at an odd one
      exactly when the MSS is lowered by one across a multiple of 256. */
  lemma ClampSplit(b: Bytes, clamp: U16, end: nat, was: nat, now: nat, pseudo: nat, off: nat)
    requires Excessive(b, clamp) == Some(off) && end == TCP + off + 3
    requires was == pseudo + Sum(b[TCP..end]) && now == pseudo + Sum(Clamped(b, clamp)[TCP..end])
    ensures Accepted(was) ==>
              (Accepted(now) <==>
                 if off % 2 == 0 then clamp % 0x100 == Mss(b, off) % 0x100
                 else clamp + 1 == Mss(b, off) && Mss(b, off) % 0x100 == 0)
  {
    SynFlag(b);
    var at := TCP + off + 2;
    var k := RewriteSplit(b, off, clamp, end);
    MssBytes(b, off, clamp);
    SplitDiffers(was, now, k, off, clamp / 0x100 - b[at], clamp % 0x100 - b[at + 1]);
  }

  lemma RewriteSplit(b: Bytes, off: nat, clamp: U16, end: nat) returns (k: int)
    requires TCP_LEN <= off && TCP + off + OPT_MSS_LEN <= |b| && end == TCP + off + 3 && b[TCP_FLAGS] > 0
    ensures var w, w' := WordAt(b, TCP + off + 2), clamp / 0x100 + clamp % 0x100 * 0x100;
            var s := Sum(Rewritten(b, off, clamp)[TCP..end]);
            && s > 0
            && s == Sum(b[TCP..end]) + (w as int) - w' + Change(off + 2, clamp / 0x100 - b[TCP + off + 2]) + k * ONES
  {
    var w: U16, w': U16 := WordAt(b, TCP + off + 2), clamp / 0x100 + clamp % 0x100 * 0x100;
    SegmentWords(b, off, end);
    RewrittenSplit(b, off, clamp, end, w, w');
    k := SplitSums(b[TCP..end], Rewritten(b, off, clamp)[TCP..end], off + 2, w, w', clamp / 0x100);
  }

  lemma RewrittenSplit(b: Bytes, off: nat, clamp: U16, end: nat, w: U16, w': U16)
    requires TCP_LEN <= off && TCP + off + OPT_MSS_LEN <= |b| && end == TCP + off + 3
    requires w == WordAt(b, TCP + off + 2) && w' == clamp / 0x100 + clamp % 0x100 * 0x100
    ensures Rewritten(b, off, clamp)[TCP..end]
            == PutWord(b[TCP..end], CHECK_AT, Replaced(WordAt(b, TCP_CHECK), w, w'))[off + 2 := clamp / 0x100]
  {
    SplitSegment(b, Replaced(WordAt(b, TCP_CHECK), w, w'), TCP + off + 2, clamp / 0x100, clamp % 0x100, end);
  }

  lemma SegmentWords(b: Bytes, off: nat, end: nat)
    requires TCP_LEN <= off && end == TCP + off + 3 <= |b|
    ensures var s := b[TCP..end];
            && WordAt(s, CHECK_AT) == WordAt(b, TCP_CHECK) && s[off + 2] == b[TCP + off + 2]
            && s[TCP_FLAGS - TCP] == b[TCP_FLAGS]
  {
  }

  lemma MssBytes(b: Bytes, off: nat, clamp: U16)
    requires TCP + off + OPT_MSS_LEN <= |b| && Mss(b, off) > clamp
    ensures var at := TCP + off + 2; var dx, dy := clamp / 0x100 - b[at], clamp % 0x100 - b[at + 1];
            && -256 < dx <= 0 && -256 < dy < 256 && (dx == 0 ==> dy < 0)
            && (dy == 0 <==> clamp % 0x100 == Mss(b, off) % 0x100)
            && (dx == -1 && dy == 255 <==> clamp + 1 == Mss(b, off) && Mss(b, off) % 0x100 == 0)
  {
    var at := TCP + off + 2;
    var mss := Mss(b, off);
    assert mss == (b[at] as int) * 0x100 + b[at + 1];
    Quotient(mss, 0x100, b[at]);
    Quotient(clamp, 0x100, clamp / 0x100);
  }

  lemma SplitSegment(b: Bytes, c: U16, at: nat, x: Byte, y: Byte, end: nat)
    requires TCP + TCP_LEN <= at && end == at + 1 < |b|
    ensures PutWord(b, TCP_CHECK, c)[at := x][at + 1 := y][TCP..end]
            == PutWord(b[TCP..end], CHECK_AT, c)[at - TCP := x]
  {
    var lo: Byte, hi: Byte := c % 0x100, c / 0x100;
    var b1 := b[TCP_CHECK := lo];
    var b2 := b1[TCP_CHECK + 1 := hi];
    SliceUpdate(b, TCP_CHECK, lo, TCP, end);
    SliceUpdate(b1, TCP_CHECK + 1, hi, TCP, end);
    SliceUpdate(b2, at, x, TCP, end);
    SliceBefore(b2[at := x], at + 1, y, TCP, end);
  }

  /** The sum of a segment whose checksum word and last byte are replaced. */
  lemma SplitSums(s: Bytes, r: Bytes, q: nat, w: U16, w': U16, x: Byte) returns (k: int)
    requires CHECK_AT + 2 <= q && q + 1 == |s|
    requires r == PutWord(s, CHECK_AT, Replaced(WordAt(s, CHECK_AT), w, w'))[q := x]
    ensures Sum(r) == Sum(s) + (w as int) - w' + Change(q, (x as int) - s[q]) + k * ONES
    ensures Sum(r) >= s[TCP_FLAGS - TCP]
  {
    var c := Replaced(WordAt(s, CHECK_AT), w, w');
    k := ReplacedKeeps(WordAt(s, CHECK_AT), w, w');
    LastReplaced(s, q, c, x);
  }

  lemma LastReplaced(s: Bytes, q: nat, c: U16, x: Byte)
    requires CHECK_AT + 2 <= q && q + 1 == |s|
    ensures var r := PutWord(s, CHECK_AT, c)[q := x];
            && Sum(r) == Sum(s) - WordAt(s, CHECK_AT) + c + Change(q, (x as int) - s[q])
            && Sum(r) >= s[TCP_FLAGS - TCP]
  {
    var p := PutWord(s, CHECK_AT, c);
    assert p[q] == s[q] && p[q := x][TCP_FLAGS - TCP] == s[TCP_FLAGS - TCP];
    SumPutWord(s, CHECK_AT, c);
    SumUpdate(p, q, x);
    SumAtLeast(p[q := x], TCP_FLAGS - TCP);
  }

  lemma SplitDiffers(was: nat, now: nat, k: int, off: nat, dx: int, dy: int)
    requires now > 0 && -256 < dx <= 0 && -256 < dy < 256 && (dx == 0 ==> dy < 0)
    requires now == was - dx - 0x100 * dy + Change(off + 2, dx) + k * ONES
    ensures Accepted(was) ==> (Accepted(now) <==> if off % 2 == 0 then dy == 0 else dx == -1 && dy == 255)
  {
    assert (off + 2) % 2 == off % 2;
    if Accepted(was) {
      Quotient(was, ONES, was / ONES);
      SmallMod(0);
      if off % 2 == 0 && dy == 0 {
        Shift(now, 0, was / ONES + k);
      }
      if off % 2 == 1 && dx == -1 && dy == 255 {
        Shift(now, 0, was / ONES + k - 1);
      }
      if Accepted(now) {
        Quotient(now, ONES, now / ONES);
        var m := now / ONES - was / ONES - k;
        if off % 2 == 0 {
          Multiple(m, ONES);
        } else {
          assert 255 * dx - 0x100 * dy == m * ONES;
          OddSplit(dx, dy, m);
        }
      }
    }
  }

  lemma OddSplit(dx: int, dy: int, m: int)
    requires -256 < dx <= 0 && -256 < dy < 256 && (dx == 0 ==> dy < 0) && 255 * dx - 0x100 * dy == m * ONES
    ensures dx == -1 && dy == 255
  {
    assert -2 < m < 2;
    assert dy == 255 * (dx - dy - 257 * m);
  }

  /** The words, against what they announce. */
  lemma Words(b: Bytes, off: nat, clamp: U16)
    requires TCP + off + OPT_MSS_LEN <= |b| && Mss(b, off) > clamp
    ensures var w, w' := WordAt(b, TCP + off + 2), clamp / 0x100 + 0x100 * (clamp % 0x100);
            w != w' && w != 0 && (w == ONES <==> Mss(b, off) == 0xffff) && (w' == 0 <==> clamp == 0)
  {
    var at := TCP + off + 2;
    assert Mss(b, off) == (b[at] as int) * 0x100 + b[at + 1];
    assert clamp == clamp / 0x100 * 0x100 + clamp % 0x100;
  }

  lemma SumDiffers(was: nat, now: nat, k: int, w: U16, w': U16)
    requires now > 0 && now == was + (w as int) - w' + k * ONES && w != w' && w != 0
    ensures Accepted(was) ==> (Accepted(now) <==> w == ONES && w' == 0)
  {
    if Accepted(was) {
      Quotient(was, ONES, was / ONES);
      SmallMod(0);
      if w == ONES && w' == 0 {
        Shift(now, 0, was / ONES + k + 1);
      }
      if Accepted(now) {
        Quotient(now, ONES, now / ONES);
        var m := now / ONES - was / ONES - k;
        Multiple(m, ONES);
      }
    }
  }

  lemma SumStays(was: nat, now: nat, k: int, d: int)
    requires was > 0 && now > 0 && now == was + k * ONES + 255 * d
    ensures d == 0 ==> (Accepted(now) <==> Accepted(was))
    ensures Accepted(was) ==> (Accepted(now) <==> d % 257 == 0)
  {
    if d == 0 {
      Shift(now, was, k);
    }
    if Accepted(was) {
      Quotient(was, ONES, was / ONES);
      Quotient(d, 257, d / 257);
      SmallMod(0);
      if d % 257 == 0 {
        Shift(now, 0, was / ONES + k + d / 257);
      }
      if Accepted(now) {
        Quotient(now, ONES, now / ONES);
        var m := now / ONES - was / ONES - k;
        assert 255 * d == m * ONES == 255 * (257 * m);
        Quotient(d, 257, m);
      }
    }
  }

  // ---------------------------------------------------------------- in place

  /** One turn of the option walk. */
  method ReadOption(b: array<Byte>, doff: int, off: nat) returns (look: Look)
    ensures look == LookAt(b[..], doff, off)
  {
    if off >= doff {
      return Stop;
    }
    var at := TCP + off;
    if at + 1 > b.Length {
      return Stop;
    }
    var kind := b[at];
    if kind == OPT_EOL {
      return Stop;
    }
    if kind == OPT_NOP {
      return Skip(1);
    }
    if off + 2 > doff || at + 2 > b.Length {
      return Stop;
    }
    var optlen := b[at + 1];
    if optlen < 2 || off + optlen > doff {
      return Stop;
    }
    if kind == OPT_MSS && optlen == OPT_MSS_LEN {
      return if at + OPT_MSS_LEN > b.Length then Stop else Found;
    }
    return Skip(optlen);
  }

  /** The option walk of clamp_tcp_mss. */
  method Walk(b: array<Byte>, doff: int) returns (r: Option<nat>)
    ensures r == FindMss(b[..], doff, TCP_LEN, MAX_TCP_OPTIONS)
  {
    var off: nat := TCP_LEN;
    ghost var found := FindMss(b[..], doff, TCP_LEN, MAX_TCP_OPTIONS);
    for i := 0 to MAX_TCP_OPTIONS
      invariant found == FindMss(b[..], doff, off, MAX_TCP_OPTIONS - i)
    {
      var look := ReadOption(b, doff, off);
      match look {
        case Stop => return None;
        case Found => return Some(off);
        case Skip(len) => off := off + len;
      }
    }
    return None;
  }

  /** clamp_tcp_mss: true when a value was rewritten. */
  method ClampTcpMss(b: array<Byte>, clamp: U16) returns (done: bool)
    requires b.Length >= IPV4_LEN
    modifies b
    ensures b[..] == Clamped(old(b[..]), clamp)
    ensures done == Excessive(old(b[..]), clamp).Some?
  {
    if b[9] != 6 || !WithoutOptions(b[0]) {
      return false;
    }
    if !FirstFragment(b[6], b[7]) {
      return false;
    }
    if b.Length < TCP + TCP_LEN {
      return false;
    }
    if !Syn(b[TCP_FLAGS]) || Rst(b[TCP_FLAGS]) {
      return false;
    }
    var doff := HeaderLen(b[..]);
    if doff <= TCP_LEN || doff > 60 {
      return false;
    }
    var off := Walk(b, doff);
    if off.None? {
      return false;
    }
    if Mss(b[..], off.value) <= clamp {
      return false;
    }
    RewriteInPlace(b, off.value, clamp);
    return true;
  }

  method PutTwo(b: array<Byte>, i: nat, x: Byte, y: Byte)
    requires i + 1 < b.Length
    modifies b
    ensures b[..] == old(b[..])[i := x][i + 1 := y]
  {
    b[i], b[i + 1] := x, y;
  }

  method RewriteInPlace(b: array<Byte>, off: nat, clamp: U16)
    requires TCP_LEN <= off && TCP + off + OPT_MSS_LEN <= b.Length
    modifies b
    ensures b[..] == Rewritten(old(b[..]), off, clamp)
  {
    var at := TCP + off + 2;
    var check := Replaced(WordAt(b[..], TCP_CHECK), WordAt(b[..], at), clamp / 0x100 + clamp % 0x100 * 0x100);
    PutTwo(b, TCP_CHECK, check % 0x100, check / 0x100);
    PutTwo(b, at, clamp / 0x100, clamp % 0x100);
  }
}
