/** Version 7 UUIDs: a 48-bit timestamp and a 32-bit counter packed into 16 bytes (sections 5.7
    and 6.2 of RFC 9562). Over any clock, later UUIDs sort after earlier ones as text. */
module Uuids {
  import opened Options

  const TWO_32: nat := 0x1_0000_0000
  const TWO_48: nat := 0x1_0000_0000_0000

  // ---------------------------------------------------------------------------
  // Lexicographic order and digits

  /** `a` comes before `b`: they first differ at `k`. */
  ghost predicate DiffersAt(a: seq<nat>, b: seq<nat>, k: nat) {
    k < |a| && k < |b| && a[..k] == b[..k] && a[k] < b[k]
  }

  ghost predicate TextDiffersAt(a: string, b: string, k: nat) {
    k < |a| && k < |b| && a[..k] == b[..k] && a[k] < b[k]
  }

  /** The order in which texts sort. */
  ghost predicate SortsBefore(a: string, b: string) {
    exists k: nat :: TextDiffersAt(a, b, k)
  }

  predicate Positive(radix: seq<nat>) {
    forall i | 0 <= i < |radix| :: radix[i] > 0
  }

  /** Mixed-radix digits, most significant first. */
  function Digits(n: nat, radix: seq<nat>): (d: seq<nat>)
    requires Positive(radix)
    ensures |d| == |radix|
    decreases |radix|
  {
    if radix == [] then []
    else
      var last := |radix| - 1;
      Digits(n / radix[last], radix[..last]) + [n % radix[last]]
  }

  /** What the digits do not hold. */
  function Overflow(n: nat, radix: seq<nat>): nat
    requires Positive(radix)
    decreases |radix|
  {
    if radix == [] then n else Overflow(n / radix[|radix| - 1], radix[..|radix| - 1])
  }

  lemma {:induction false} DigitsOrder(n: nat, m: nat, radix: seq<nat>) returns (k: nat)
    requires Positive(radix)
    requires n < m && Overflow(n, radix) == Overflow(m, radix)
    ensures DiffersAt(Digits(n, radix), Digits(m, radix), k)
    decreases |radix|
  {
    if radix == [] {
      assert false;
    } else {
      var last := |radix| - 1;
      var r := radix[last];
      Divide(n, m, r);
      if n / r < m / r {
        k := DigitsOrder(n / r, m / r, radix[..last]);
        assert Digits(n, radix)[..k] == Digits(n / r, radix[..last])[..k];
        assert Digits(m, radix)[..k] == Digits(m / r, radix[..last])[..k];
      } else {
        k := last;
        assert Digits(n, radix)[..k] == Digits(n / r, radix[..last]);
        assert Digits(m, radix)[..k] == Digits(m / r, radix[..last]);
      }
    }
  }

  lemma Divide(n: nat, m: nat, r: nat)
    requires 0 < r && n < m
    ensures n / r <= m / r && (n / r == m / r ==> n % r < m % r)
  {
    Compare(n / r, n % r, m / r, m % r, r);
  }

  lemma Compare(q: nat, s: nat, q': nat, s': nat, r: nat)
    requires s < r && s' < r && q * r + s < q' * r + s'
    ensures q <= q' && (q == q' ==> s < s')
  {
    Larger(q, q', r);
  }

  lemma Larger(q: nat, q': nat, r: nat)
    ensures q > q' ==> q * r >= q' * r + r
  {
    if q > q' {
      assert q * r == (q' + 1) * r + (q - q' - 1) * r;
    }
  }

  lemma DigitsStep(n: nat, before: seq<nat>, unit: nat)
    requires Positive(before) && unit > 0
    ensures Positive(before + [unit])
    ensures Digits(n, before + [unit]) == Digits(n / unit, before) + [n % unit]
    ensures Overflow(n, before + [unit]) == Overflow(n / unit, before)
  {
    assert (before + [unit])[..|before|] == before;
  }

  lemma NoDigits(n: nat)
    ensures Positive([]) && Digits(n, []) == [] && Overflow(n, []) == n
  {
  }

  const TIMESTAMP_RADIX: seq<nat> := [256, 256, 256, 256, 256, 256]
  const COUNTER_RADIX: seq<nat> := [16, 256, 64, 256, 64]

  /** Some bits of a number: those from `unit` up, as many as `radix` has room for. */
  function Part(n: nat, unit: nat, radix: nat): (part: nat)
    requires unit > 0 && radix > 0
    ensures part < radix
  {
    n / unit % radix
  }

  function TimestampFields(ts: nat): seq<nat> {
    [Part(ts, 0x100_0000_0000, 256), Part(ts, 0x1_0000_0000, 256), Part(ts, 0x100_0000, 256),
     Part(ts, 0x1_0000, 256), Part(ts, 0x100, 256), Part(ts, 1, 256)]
  }

  function CounterFields(counter: nat): seq<nat> {
    [Part(counter, 0x1000_0000, 16), Part(counter, 0x10_0000, 256), Part(counter, 0x4000, 64), Part(counter, 0x40, 256), Part(counter, 1, 64)]
  }

  lemma TimestampDigits(ts: nat)
    ensures TimestampFields(ts) == Digits(ts, TIMESTAMP_RADIX)
    ensures Overflow(ts, TIMESTAMP_RADIX) == ts / TWO_48
  {
    hide Digits, Overflow, Positive;
    NestedShifts(ts);
    NoDigits(ts / TWO_48);
    DigitsStep(ts / 0x100_0000_0000, [], 256);
    DigitsStep(ts / 0x1_0000_0000, [] + [256], 256);
    DigitsStep(ts / 0x100_0000, [] + [256] + [256], 256);
    DigitsStep(ts / 0x1_0000, [] + [256] + [256] + [256], 256);
    DigitsStep(ts / 0x100, [] + [256] + [256] + [256] + [256], 256);
    DigitsStep(ts, [] + [256] + [256] + [256] + [256] + [256], 256);
    assert TIMESTAMP_RADIX == [] + [256] + [256] + [256] + [256] + [256] + [256];
  }

  lemma NestedShifts(n: nat)
    ensures n / 0x100 / 256 == n / 0x1_0000
    ensures n / 0x1_0000 / 256 == n / 0x100_0000
    ensures n / 0x100_0000 / 256 == n / 0x1_0000_0000
    ensures n / 0x1_0000_0000 / 256 == n / 0x100_0000_0000
    ensures n / 0x100_0000_0000 / 256 == n / TWO_48
  {
  }

  lemma CounterDigits(counter: nat)
    ensures CounterFields(counter) == Digits(counter, COUNTER_RADIX)
    ensures Overflow(counter, COUNTER_RADIX) == counter / TWO_32
  {
    hide Digits, Overflow, Positive;
    NestedCounterShifts(counter);
    NoDigits(counter / TWO_32);
    DigitsStep(counter / 0x1000_0000, [], 16);
    DigitsStep(counter / 0x10_0000, [] + [16], 256);
    DigitsStep(counter / 0x4000, [] + [16] + [256], 64);
    DigitsStep(counter / 0x40, [] + [16] + [256] + [64], 256);
    DigitsStep(counter, [] + [16] + [256] + [64] + [256], 64);
    assert COUNTER_RADIX == [] + [16] + [256] + [64] + [256] + [64];
  }

  lemma NestedCounterShifts(n: nat)
    ensures n / 0x40 / 256 == n / 0x4000
    ensures n / 0x4000 / 64 == n / 0x10_0000
    ensures n / 0x10_0000 / 256 == n / 0x1000_0000
    ensures n / 0x1000_0000 / 16 == n / TWO_32
  {
  }

  function Fields(ts: nat, counter: nat): seq<nat> {
    TimestampFields(ts) + CounterFields(counter)
  }

  /** Sixteen bytes. */
  predicate Bytes16(b: seq<nat>) {
    |b| == 16 && forall k | 0 <= k < 16 :: b[k] < 256
  }

  /** The bytes of a UUID: fields from the top, version and variant marks, and random bits below. */
  function Packed(ts: nat, counter: nat, random: seq<nat>): (b: seq<nat>)
    requires Bytes16(random)
    ensures Bytes16(b)
  {
    var t, c := TimestampFields(ts), CounterFields(counter);
    [t[0], t[1], t[2], t[3], t[4], t[5], 0x70 + c[0], c[1], 0x80 + c[2], c[3], c[4] * 4 + random[10] % 4,
     random[11], random[12], random[13], random[14], random[15]]
  }

  lemma FieldsDiffer(ts: nat, counter: nat, ts': nat, counter': nat) returns (k: nat)
    requires ts < TWO_48 && ts' < TWO_48 && counter < TWO_32 && counter' < TWO_32
    requires ts < ts' || (ts == ts' && counter < counter')
    ensures DiffersAt(Fields(ts, counter), Fields(ts', counter'), k)
  {
    TimestampDigits(ts);
    TimestampDigits(ts');
    CounterDigits(counter);
    CounterDigits(counter');
    var t, t', c, c' := TimestampFields(ts), TimestampFields(ts'), CounterFields(counter), CounterFields(counter');
    hide Digits, Overflow, TimestampFields, CounterFields;
    if ts < ts' {
      k := DigitsOrder(ts, ts', TIMESTAMP_RADIX);
      assert (t + c)[..k] == t[..k] && (t' + c')[..k] == t'[..k];
    } else {
      var j := DigitsOrder(counter, counter', COUNTER_RADIX);
      k := |t| + j;
      assert (t + c)[..k] == t + c[..j] && (t' + c')[..k] == t' + c'[..j];
    }
  }

  /** Timestamp first, counter second: that is how the bytes compare, whatever the random bits. */
  lemma PackedOrder(ts: nat, counter: nat, random: seq<nat>, ts': nat, counter': nat, random': seq<nat>) returns (k: nat)
    requires Bytes16(random) && Bytes16(random')
    requires ts < TWO_48 && ts' < TWO_48 && counter < TWO_32 && counter' < TWO_32
    requires ts < ts' || (ts == ts' && counter < counter')
    ensures DiffersAt(Packed(ts, counter, random), Packed(ts', counter', random'), k)
  {
    k := FieldsDiffer(ts, counter, ts', counter');
    var f, f' := Fields(ts, counter), Fields(ts', counter');
    var b, b' := Packed(ts, counter, random), Packed(ts', counter', random');
    PackedAt(ts, counter, random);
    PackedAt(ts', counter', random');
    hide Fields, Packed;
    forall j | 0 <= j < k
      ensures b[j] == b'[j]
    {
      assert f[..k][j] == f'[..k][j];
    }
  }

  /** The byte that carries a field. */
  function Marked(j: nat, field: nat, low: nat): nat {
    if j == 6 then 0x70 + field else if j == 8 then 0x80 + field else if j == 10 then field * 4 + low % 4 else field
  }

  lemma PackedAt(ts: nat, counter: nat, random: seq<nat>)
    requires Bytes16(random)
    ensures |Fields(ts, counter)| == 11
    ensures forall j | 0 <= j < 11 :: Packed(ts, counter, random)[j] == Marked(j, Fields(ts, counter)[j], random[10])
  {
  }

  // ---------------------------------------------------------------------------
  // Text

  function HexDigit(n: nat): (c: char)
    requires n < 16
    ensures HexValue(c) == n && c != '-'
  {
    if n < 10 then ('0' as int + n) as char else ('a' as int + n - 10) as char
  }

  function HexValue(c: char): nat {
    if '0' <= c <= '9' then c as int - '0' as int else if 'a' <= c <= 'f' then c as int - 'a' as int + 10 else 0
  }

  function Hex(b: seq<nat>): (s: string)
    requires forall k | 0 <= k < |b| :: b[k] < 256
    ensures |s| == 2 * |b|
  {
    if b == [] then "" else [HexDigit(b[0] / 16), HexDigit(b[0] % 16)] + Hex(b[1..])
  }

  /** Groups of bytes of the given sizes, and the rest, separated by dashes. */
  function Dashed(b: seq<nat>, sizes: seq<nat>): string
    requires forall k | 0 <= k < |b| :: b[k] < 256
    decreases |sizes|
  {
    if sizes == [] || |b| < sizes[0] then Hex(b) else Hex(b[..sizes[0]]) + "-" + Dashed(b[sizes[0]..], sizes[1..])
  }

  function FormatUuid(b: seq<nat>): string
    requires Bytes16(b)
  {
    Hex(b[0..4]) + "-" + Hex(b[4..6]) + "-" + Hex(b[6..8]) + "-" + Hex(b[8..10]) + "-" + Hex(b[10..16])
  }

  lemma FormatIsDashed(b: seq<nat>)
    requires Bytes16(b)
    ensures FormatUuid(b) == Dashed(b, [4, 2, 2, 2])
  {
    hide Hex;
    var b4, b6, b8, b10 := b[4..], b[6..], b[8..], b[10..];
    assert b4[..2] == b[4..6] && b4[2..] == b6 && b6[..2] == b[6..8] && b6[2..] == b8 && b8[..2] == b[8..10] && b8[2..] == b10 == b[10..16];
    assert b[..4] == b[0..4];
    assert Dashed(b10, []) == Hex(b10);
    assert Dashed(b8, [2]) == Hex(b[8..10]) + "-" + Hex(b10);
    assert Dashed(b6, [2, 2]) == Hex(b[6..8]) + "-" + Dashed(b8, [2]);
    assert Dashed(b4, [2, 2, 2]) == Hex(b[4..6]) + "-" + Dashed(b6, [2, 2]);
    assert Dashed(b, [4, 2, 2, 2]) == Hex(b[0..4]) + "-" + Dashed(b4, [2, 2, 2]);
  }

  lemma FirstDiffers(a: string, b: string, x: string, y: string)
    requires SortsBefore(a, b)
    ensures SortsBefore(a + x, b + y)
  {
    var k: nat :| TextDiffersAt(a, b, k);
    assert (a + x)[..k] == a[..k] && (b + y)[..k] == b[..k];
    assert TextDiffersAt(a + x, b + y, k);
  }

  lemma RestDiffers(a: string, x: string, y: string)
    requires SortsBefore(x, y)
    ensures SortsBefore(a + x, a + y)
  {
    var k: nat :| TextDiffersAt(x, y, k);
    assert (a + x)[..|a| + k] == a + x[..k] && (a + y)[..|a| + k] == a + y[..k];
    assert TextDiffersAt(a + x, a + y, |a| + k);
  }

  lemma {:induction false} HexOrder(a: seq<nat>, b: seq<nat>, k: nat)
    requires forall j | 0 <= j < |a| :: a[j] < 256
    requires forall j | 0 <= j < |b| :: b[j] < 256
    requires DiffersAt(a, b, k)
    ensures SortsBefore(Hex(a), Hex(b))
    decreases k
  {
    var p, q := [HexDigit(a[0] / 16), HexDigit(a[0] % 16)], [HexDigit(b[0] / 16), HexDigit(b[0] % 16)];
    if k == 0 {
      assert TextDiffersAt(p, q, if a[0] / 16 < b[0] / 16 then 0 else 1);
      FirstDiffers(p, q, Hex(a[1..]), Hex(b[1..]));
    } else {
      assert a[0] == a[..k][0] == b[..k][0] == b[0];
      assert a[1..][..k - 1] == a[..k][1..] && b[1..][..k - 1] == b[..k][1..];
      HexOrder(a[1..], b[1..], k - 1);
      RestDiffers(p, Hex(a[1..]), Hex(b[1..]));
    }
  }

  lemma {:induction false} DashedOrder(a: seq<nat>, b: seq<nat>, sizes: seq<nat>, k: nat)
    requires |a| == |b| && forall j | 0 <= j < |a| :: a[j] < 256 && b[j] < 256
    requires DiffersAt(a, b, k)
    ensures SortsBefore(Dashed(a, sizes), Dashed(b, sizes))
    decreases |sizes|
  {
    hide Hex, SortsBefore;
    if sizes == [] || |b| < sizes[0] {
      HexOrder(a, b, k);
    } else {
      var n := sizes[0];
      if k < n {
        FirstPart(a, b, n, k);
        HexOrder(a[..n], b[..n], k);
        hide DiffersAt;
        FirstGroupDiffers(Hex(a[..n]), Hex(b[..n]), Dashed(a[n..], sizes[1..]), Dashed(b[n..], sizes[1..]));
      } else {
        LaterPart(a, b, n, k);
        DashedOrder(a[n..], b[n..], sizes[1..], k - n);
        hide DiffersAt;
        RestDiffers(Hex(a[..n]) + "-", Dashed(a[n..], sizes[1..]), Dashed(b[n..], sizes[1..]));
      }
    }
  }

  lemma FirstGroupDiffers(a: string, b: string, x: string, y: string)
    requires SortsBefore(a, b)
    ensures SortsBefore(a + "-" + x, b + "-" + y)
  {
    hide SortsBefore;
    FirstDiffers(a, b, "-", "-");
    FirstDiffers(a + "-", b + "-", x, y);
  }

  lemma FirstPart(a: seq<nat>, b: seq<nat>, n: nat, k: nat)
    requires DiffersAt(a, b, k) && k < n <= |a| && n <= |b|
    ensures DiffersAt(a[..n], b[..n], k)
  {
    assert a[..n][..k] == a[..k] && b[..n][..k] == b[..k];
  }

  lemma LaterPart(a: seq<nat>, b: seq<nat>, n: nat, k: nat)
    requires DiffersAt(a, b, k) && n <= k
    ensures a[..n] == b[..n] && DiffersAt(a[n..], b[n..], k - n)
  {
    assert a[..n] == a[..k][..n] && b[..n] == b[..k][..n];
    assert a[n..][..k - n] == a[..k][n..] && b[n..][..k - n] == b[..k][n..];
  }

  /** The text of a UUID sorts as its timestamp and counter do. */
  lemma TextOrder(ts: nat, counter: nat, random: seq<nat>, ts': nat, counter': nat, random': seq<nat>)
    requires Bytes16(random) && Bytes16(random')
    requires ts < TWO_48 && ts' < TWO_48 && counter < TWO_32 && counter' < TWO_32
    requires ts < ts' || (ts == ts' && counter < counter')
    ensures SortsBefore(FormatUuid(Packed(ts, counter, random)), FormatUuid(Packed(ts', counter', random')))
  {
    var k := PackedOrder(ts, counter, random, ts', counter', random');
    var b, b' := Packed(ts, counter, random), Packed(ts', counter', random');
    FormatIsDashed(b);
    FormatIsDashed(b');
    hide FormatUuid, Packed, Dashed;
    DashedOrder(b, b', [4, 2, 2, 2], k);
  }

  // ---------------------------------------------------------------------------
  // Reading a UUID back

  function Unhex(s: string): seq<nat> {
    if |s| < 2 then [] else if s[0] == '-' then Unhex(s[1..]) else [16 * HexValue(s[0]) + HexValue(s[1])] + Unhex(s[2..])
  }

  lemma UnhexPair(n: nat, rest: string)
    requires n < 256
    ensures Unhex([HexDigit(n / 16), HexDigit(n % 16)] + rest) == [n] + Unhex(rest)
  {
    var s := [HexDigit(n / 16), HexDigit(n % 16)] + rest;
    assert s[2..] == rest;
  }

  lemma {:induction false} UnhexHex(b: seq<nat>, rest: string)
    requires forall k | 0 <= k < |b| :: b[k] < 256
    ensures Unhex(Hex(b) + rest) == b + Unhex(rest)
  {
    if b == [] {
      assert Hex(b) + rest == rest;
    } else {
      var pair := [HexDigit(b[0] / 16), HexDigit(b[0] % 16)];
      assert Hex(b) + rest == pair + (Hex(b[1..]) + rest);
      UnhexPair(b[0], Hex(b[1..]) + rest);
      UnhexHex(b[1..], rest);
      hide Unhex, Hex, HexDigit;
      assert b == [b[0]] + b[1..];
    }
  }

  lemma {:induction false} UnhexDashed(b: seq<nat>, sizes: seq<nat>)
    requires forall k | 0 <= k < |b| :: b[k] < 256
    ensures Unhex(Dashed(b, sizes)) == b
    decreases |sizes|
  {
    hide Hex;
    if sizes == [] || |b| < sizes[0] {
      UnhexHex(b, "");
      assert Hex(b) + "" == Hex(b);
    } else {
      var n := sizes[0];
      var rest := Dashed(b[n..], sizes[1..]);
      UnhexHex(b[..n], "-" + rest);
      assert Dashed(b, sizes) == Hex(b[..n]) + ("-" + rest);
      UnhexDashed(b[n..], sizes[1..]);
      AfterDash(rest);
      assert b == b[..n] + b[n..];
    }
  }

  lemma AfterDash(rest: string)
    ensures Unhex("-" + rest) == Unhex(rest)
  {
    assert ("-" + rest)[1..] == rest;
  }

  function TimestampOf(b: seq<nat>): nat
    requires |b| == 16
  {
    b[0] * 0x100_0000_0000 + b[1] * 0x1_0000_0000 + b[2] * 0x100_0000 + b[3] * 0x1_0000 + b[4] * 0x100 + b[5]
  }

  function CounterOf(b: seq<nat>): nat
    requires |b| == 16
  {
    b[6] % 16 * 0x1000_0000 + b[7] * 0x10_0000 + b[8] % 64 * 0x4000 + b[9] * 0x40 + b[10] / 4
  }

  lemma TimestampSum(n: nat)
    requires n < TWO_48
    ensures n == Part(n, 0x100_0000_0000, 256) * 0x100_0000_0000 + Part(n, 0x1_0000_0000, 256) * 0x1_0000_0000
      + Part(n, 0x100_0000, 256) * 0x100_0000 + Part(n, 0x1_0000, 256) * 0x1_0000 + Part(n, 0x100, 256) * 0x100 + Part(n, 1, 256)
  {
    NestedShifts(n);
  }

  lemma CounterSum(n: nat)
    requires n < TWO_32
    ensures n == Part(n, 0x1000_0000, 16) * 0x1000_0000 + Part(n, 0x10_0000, 256) * 0x10_0000
      + Part(n, 0x4000, 64) * 0x4000 + Part(n, 0x40, 256) * 0x40 + Part(n, 1, 64)
  {
    assert n / 0x40 / 256 == n / 0x4000;
    assert n / 0x4000 / 64 == n / 0x10_0000;
    assert n / 0x10_0000 / 256 == n / 0x1000_0000;
  }

  lemma Unmark(c: nat, d: nat, e: nat, low: nat)
    requires c < 16 && d < 64
    ensures (0x70 + c) % 16 == c && (0x80 + d) % 64 == d && (e * 4 + low % 4) / 4 == e
  {
  }

  /** The text gives back its bytes, and the bytes their timestamp and counter. */
  lemma RoundTrip(ts: nat, counter: nat, random: seq<nat>)
    requires Bytes16(random) && ts < TWO_48 && counter < TWO_32
    ensures var b := Packed(ts, counter, random);
      Unhex(FormatUuid(b)) == b && TimestampOf(b) == ts && CounterOf(b) == counter
  {
    hide FormatUuid, Unhex, Dashed, Part;
    var b := Packed(ts, counter, random);
    FormatIsDashed(b);
    UnhexDashed(b, [4, 2, 2, 2]);
    TimestampSum(ts);
    CounterSum(counter);
    Unmark(Part(counter, 0x1000_0000, 16), Part(counter, 0x4000, 64), Part(counter, 1, 64), random[10]);
  }

  lemma {:induction false} HexAt(b: seq<nat>, i: nat)
    requires forall k | 0 <= k < |b| :: b[k] < 256
    requires i < |b|
    ensures Hex(b)[2 * i] == HexDigit(b[i] / 16)
  {
    if i > 0 {
      HexAt(b[1..], i - 1);
    }
  }

  /** Thirty-six characters, dashes in place, version 7 and the variant of RFC 9562. */
  lemma Shape(ts: nat, counter: nat, random: seq<nat>)
    requires Bytes16(random)
    ensures var text := FormatUuid(Packed(ts, counter, random));
      && |text| == 36 && text[8] == text[13] == text[18] == text[23] == '-'
      && text[14] == '7' && (text[19] == '8' || text[19] == '9' || text[19] == 'a' || text[19] == 'b')
  {
    var b := Packed(ts, counter, random);
    hide Part;
    HexAt(b[6..8], 0);
    HexAt(b[8..10], 0);
    hide Hex;
    var text := FormatUuid(b);
    assert text[14] == Hex(b[6..8])[0] && text[19] == Hex(b[8..10])[0];
  }

  // ---------------------------------------------------------------------------
  // The generator

  /** Four random bytes start the counter at a new timestamp. */
  function Seed(random: seq<nat>): (n: nat)
    requires Bytes16(random)
    ensures n < TWO_32
  {
    random[6] * 0x100_0000 + random[7] * 0x1_0000 + random[8] * 0x100 + random[9]
  }

  /** The module's variables: the last timestamp used, if any, and the counter. */
  class Generator {
    var lastTimestamp: Option<nat>
    var sequence: nat

    ghost predicate Valid()
      reads this
    {
      sequence < TWO_32
    }

    constructor ()
      ensures Valid() && lastTimestamp == None
    {
      lastTimestamp, sequence := None, 0;
    }

    /** The clock moves the timestamp forward, never back; otherwise the counter advances, and
        its rollover moves the timestamp. */
    method Uuidv7(random: seq<nat>, timestamp: nat) returns (text: string)
      requires Valid() && Bytes16(random)
      modifies this
      ensures Valid() && lastTimestamp.Some?
      ensures if old(lastTimestamp).None? || timestamp > old(lastTimestamp).value then lastTimestamp.value == timestamp && sequence == Seed(random)
        else if old(sequence) + 1 < TWO_32 then lastTimestamp == old(lastTimestamp) && sequence == old(sequence) + 1
        else lastTimestamp.value == old(lastTimestamp).value + 1 && sequence == 0
      ensures text == FormatUuid(Packed(lastTimestamp.value, sequence, random))
    {
      hide FormatUuid, Packed, Seed;
      if lastTimestamp.None? || timestamp > lastTimestamp.value {
        sequence := Seed(random);
        lastTimestamp := Some(timestamp);
      } else {
        sequence := (sequence + 1) % TWO_32;
        if sequence == 0 {
          lastTimestamp := Some(lastTimestamp.value + 1);
        }
      }
      var bytes := FillBytes(lastTimestamp.value, sequence, random);
      text := FormatUuid(bytes[..]);
    }
  }

  method FillBytes(ts: nat, sequence: nat, random: seq<nat>) returns (bytes: array<nat>)
    requires Bytes16(random)
    ensures fresh(bytes) && bytes[..] == Packed(ts, sequence, random)
  {
    hide Part;
    bytes := new nat[16];
    bytes[0] := Part(ts, 0x100_0000_0000, 256);
    bytes[1] := Part(ts, 0x1_0000_0000, 256);
    bytes[2] := Part(ts, 0x100_0000, 256);
    bytes[3] := Part(ts, 0x1_0000, 256);
    bytes[4] := Part(ts, 0x100, 256);
    bytes[5] := Part(ts, 1, 256);
    bytes[6] := 0x70 + Part(sequence, 0x1000_0000, 16);
    bytes[7] := Part(sequence, 0x10_0000, 256);
    bytes[8] := 0x80 + Part(sequence, 0x4000, 64);
    bytes[9] := Part(sequence, 0x40, 256);
    bytes[10] := Part(sequence, 1, 64) * 4 + random[10] % 4;
    bytes[11], bytes[12], bytes[13], bytes[14], bytes[15] := random[11], random[12], random[13], random[14], random[15];
  }

  datatype Call = Call(clock: nat, random: seq<nat>)

  ghost predicate AllSorted(texts: seq<string>) {
    forall i, j | 0 <= i < j < |texts| :: SortsBefore(texts[i], texts[j])
  }

  /** What a UUID was made from. */
  datatype Stamp = Stamp(ts: nat, counter: nat, random: seq<nat>) {
    ghost predicate Made(text: string) {
      Bytes16(random) && counter < TWO_32 && text == FormatUuid(Packed(ts, counter, random))
    }

    predicate Before(later: Stamp) {
      ts < later.ts || (ts == later.ts && counter < later.counter)
    }
  }

  lemma SortedByStamps(texts: seq<string>, stamps: seq<Stamp>)
    requires |stamps| == |texts| && forall i | 0 <= i < |texts| :: stamps[i].Made(texts[i]) && stamps[i].ts < TWO_48
    requires forall i, j | 0 <= i < j < |stamps| :: stamps[i].Before(stamps[j])
    ensures AllSorted(texts)
  {
    hide FormatUuid, Packed, SortsBefore;
    forall i, j | 0 <= i < j < |texts|
      ensures SortsBefore(texts[i], texts[j])
    {
      var a, b := stamps[i], stamps[j];
      assert a.Made(texts[i]) && b.Made(texts[j]) && a.Before(b);
      TextOrder(a.ts, a.counter, a.random, b.ts, b.counter, b.random);
    }
  }

  /** The timestamps and counters of a run: the clock decides when it moves forward, else the
      counter advances, and its rollover moves the timestamp. */
  function Stamps(calls: seq<Call>): (stamps: seq<Stamp>)
    requires forall i | 0 <= i < |calls| :: Bytes16(calls[i].random)
    ensures |stamps| == |calls|
  {
    if calls == [] then []
    else
      var before, c := Stamps(calls[..|calls| - 1]), calls[|calls| - 1];
      before + [
        if before == [] || c.clock > before[|before| - 1].ts then Stamp(c.clock, Seed(c.random), c.random)
        else
          var last := before[|before| - 1];
          if last.counter + 1 < TWO_32 then Stamp(last.ts, last.counter + 1, c.random) else Stamp(last.ts + 1, 0, c.random)
      ]
  }

  /** On any clock, stalled or going back, later stamps are larger. */
  lemma {:induction false} StampsIncrease(calls: seq<Call>)
    requires forall i | 0 <= i < |calls| :: Bytes16(calls[i].random)
    ensures forall i, j | 0 <= i < j < |calls| :: Stamps(calls)[i].Before(Stamps(calls)[j])
  {
    if calls != [] {
      StampsIncrease(calls[..|calls| - 1]);
    }
  }

  /** A timestamp runs ahead of every clock reading by less than the number of calls. */
  lemma {:induction false} StampsFollowClock(calls: seq<Call>, limit: nat)
    requires forall i | 0 <= i < |calls| :: Bytes16(calls[i].random) && calls[i].clock + |calls| <= limit
    ensures forall i | 0 <= i < |calls| :: Stamps(calls)[i].ts < limit
  {
    StampsAhead(calls, limit - |calls|);
  }

  lemma {:induction false} StampsAhead(calls: seq<Call>, latest: int)
    requires forall i | 0 <= i < |calls| :: Bytes16(calls[i].random) && calls[i].clock <= latest
    ensures forall i | 0 <= i < |calls| :: Stamps(calls)[i].ts <= latest + i
  {
    if calls != [] {
      StampsAhead(calls[..|calls| - 1], latest);
    }
  }

  /** Every run, on any clock: as long as the timestamps stay below 2^48, each UUID sorts after all
      earlier ones. */
  method Generate(calls: seq<Call>) returns (texts: seq<string>)
    requires forall i | 0 <= i < |calls| :: Bytes16(calls[i].random)
    ensures |texts| == |calls| && forall i | 0 <= i < |calls| :: Stamps(calls)[i].Made(texts[i])
    ensures (forall i | 0 <= i < |calls| :: Stamps(calls)[i].ts < TWO_48) ==> AllSorted(texts)
  {
    hide FormatUuid, Packed, SortsBefore;
    var generator := new Generator();
    ghost var stamps := Stamps(calls);
    texts := [];
    for i := 0 to |calls|
      invariant fresh(generator) && generator.Valid() && |texts| == i
      invariant if i == 0 then generator.lastTimestamp == None else
        generator.lastTimestamp == Some(stamps[i - 1].ts) && generator.sequence == stamps[i - 1].counter
      invariant forall j | 0 <= j < i :: stamps[j].Made(texts[j])
    {
      StampAt(calls, i);
      var text := generator.Uuidv7(calls[i].random, calls[i].clock);
      texts := texts + [text];
    }
    StampsIncrease(calls);
    if forall i | 0 <= i < |calls| :: stamps[i].ts < TWO_48 {
      SortedByStamps(texts, stamps);
    }
  }

  lemma {:induction false} StampsPrefix(calls: seq<Call>, n: nat)
    requires n <= |calls| && forall i | 0 <= i < |calls| :: Bytes16(calls[i].random)
    ensures Stamps(calls[..n]) == Stamps(calls)[..n]
  {
    if n < |calls| {
      assert calls[..|calls| - 1][..n] == calls[..n];
      StampsPrefix(calls[..|calls| - 1], n);
    } else {
      assert calls[..n] == calls;
    }
  }

  lemma {:induction false} StampAt(calls: seq<Call>, i: nat)
    requires i < |calls| && forall k | 0 <= k < |calls| :: Bytes16(calls[k].random)
    ensures var c, s := calls[i], Stamps(calls)[i];
      if i == 0 || c.clock > Stamps(calls)[i - 1].ts then s == Stamp(c.clock, Seed(c.random), c.random)
      else
        var last := Stamps(calls)[i - 1];
        s == if last.counter + 1 < TWO_32 then Stamp(last.ts, last.counter + 1, c.random) else Stamp(last.ts + 1, 0, c.random)
  {
    StampsPrefix(calls, i + 1);
    StampsPrefix(calls, i);
    assert calls[..i + 1][..i] == calls[..i];
  }
}
