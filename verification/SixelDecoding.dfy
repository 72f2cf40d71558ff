/** A reader of sixel data, after the VT330/VT340 Programmer Reference Manual, Volume 2,
    Chapter 14. It is the independent meaning of what the encoder writes. */
module SixelDecoding {
  import opened Options

  const BAND_HEIGHT: nat := 6

  /** Reading a control function's numeric parameters, or not. */
  datatype Mode = Ground | Parameters(command: char, nums: seq<nat>)

  datatype Decoder = Decoder(
    mode: Mode,
    color: nat,
    x: nat,
    band: nat,
    repeat: nat,
    /** What each pixel was set to; pixels never set keep the terminal's background. */
    pixels: (int, int) -> Option<nat>,
    palette: map<nat, (nat, nat, nat)>,
    /** Raster attributes: the pixel aspect ratio and the size. */
    raster: Option<(nat, nat, nat, nat)>)

  const Blank := Decoder(Ground, 0, 0, 0, 1, (px, py) => None, map[], None)

  predicate IsDigit(c: char) {
    '0' <= c <= '9'
  }

  function Pow2(k: nat): nat {
    if k == 0 then 1 else 2 * Pow2(k - 1)
  }

  predicate BinaryDigit(n: nat, k: nat) {
    if k == 0 then n % 2 == 1 else BinaryDigit(n / 2, k - 1)
  }

  /** Bit `k` of a sixel: the pixel `k` rows below the top of the band. */
  predicate Bit(bits: nat, k: int) {
    0 <= k < BAND_HEIGHT && BinaryDigit(bits, k)
  }

  lemma {:induction false} NoHighDigit(n: nat, high: nat, k: nat)
    requires n < Pow2(high) && k >= high
    ensures !BinaryDigit(n, k)
  {
    if high > 0 {
      NoHighDigit(n / 2, high - 1, k - 1);
    } else if k > 0 {
      NoHighDigit(n / 2, 0, k - 1);
    }
  }

  /** Adding a power of two above a number sets exactly that digit. */
  lemma {:induction false} AddHighDigit(n: nat, high: nat, k: nat)
    requires n < Pow2(high)
    ensures BinaryDigit(n + Pow2(high), k) <==> BinaryDigit(n, k) || k == high
  {
    if high == 0 {
      assert n == 0;
      if k > 0 {
        assert (n + 1) / 2 == 0;
        NoHighDigit(0, 0, k - 1);
        NoHighDigit(0, 0, k);
      }
    } else if k > 0 {
      assert (n + Pow2(high)) / 2 == n / 2 + Pow2(high - 1);
      AddHighDigit(n / 2, high - 1, k - 1);
    } else {
      assert (n + 2 * Pow2(high - 1)) % 2 == n % 2;
    }
  }

  function Paint(d: Decoder, bits: nat): Decoder {
    d.(pixels := (px, py) =>
      if d.x <= px < d.x + d.repeat && Bit(bits, py - d.band * BAND_HEIGHT) then Some(d.color) else d.pixels(px, py),
      x := d.x + d.repeat,
      repeat := 1)
  }

  /** The parameters are complete: the control function takes effect. */
  function Finish(d: Decoder): Decoder {
    match d.mode
    case Ground => d
    case Parameters(command, nums) =>
      var g := d.(mode := Ground);
      if command == '#' && |nums| == 1 then g.(color := nums[0])
      else if command == '#' && |nums| == 5 && nums[1] == 2 then g.(palette := g.palette[nums[0] := (nums[2], nums[3], nums[4])])
      else if command == '!' && |nums| == 1 then g.(repeat := nums[0])
      else if command == '"' && |nums| == 4 then g.(raster := Some((nums[0], nums[1], nums[2], nums[3])))
      else g
  }

  function StepGround(d: Decoder, c: char): Decoder {
    if c == '#' || c == '!' || c == '"' then d.(mode := Parameters(c, [0]))
    else if c == '$' then d.(x := 0)
    else if c == '-' then d.(x := 0, band := d.band + 1)
    else if '?' <= c <= '~' then Paint(d, c as int - 63)
    else d
  }

  function Step(d: Decoder, c: char): Decoder {
    if d.mode.Parameters? && d.mode.nums != [] && (IsDigit(c) || c == ';') then
      var nums := d.mode.nums;
      var last := |nums| - 1;
      d.(mode := Parameters(d.mode.command,
        if c == ';' then nums + [0] else nums[last := nums[last] * 10 + (c as int - '0' as int)]))
    else StepGround(Finish(d), c)
  }

  function Read(d: Decoder, text: string): Decoder {
    if text == "" then d else Step(Read(d, text[..|text| - 1]), text[|text| - 1])
  }

  lemma {:induction false} ReadAppend(d: Decoder, a: string, b: string)
    ensures Read(d, a + b) == Read(Read(d, a), b)
    decreases |b|
  {
    if b == "" {
      assert a + b == a;
    } else {
      assert (a + b)[..|a + b| - 1] == a + b[..|b| - 1];
      ReadAppend(d, a, b[..|b| - 1]);
    }
  }

  lemma ReadOne(d: Decoder, c: char)
    ensures Read(d, [c]) == Step(d, c)
  {
    assert [c][..0] == "";
    assert Read(d, "") == d;
  }

  /** A text that starts with a control function or data finishes pending parameters first. */
  lemma {:induction false} ReadFinished(d: Decoder, text: string)
    requires text != "" && !IsDigit(text[0]) && text[0] != ';'
    ensures Read(d, text) == Read(Finish(d), text)
    decreases |text|
  {
    if |text| == 1 {
      assert text == [text[0]];
      ReadOne(d, text[0]);
      ReadOne(Finish(d), text[0]);
      assert Finish(Finish(d)) == Finish(d);
    } else {
      ReadFinished(d, text[..|text| - 1]);
    }
  }

  // ---------------------------------------------------------------------------
  // Numbers

  function Digit(k: nat): (c: char)
    requires k < 10
    ensures IsDigit(c) && c as int - '0' as int == k
  {
    ('0' as int + k) as char
  }

  function Dec(n: nat): (s: string)
    ensures s != "" && forall i | 0 <= i < |s| :: IsDigit(s[i])
  {
    if n < 10 then [Digit(n)] else Dec(n / 10) + [Digit(n % 10)]
  }

  lemma DigitStep(d: Decoder, command: char, nums: seq<nat>, v: nat, k: nat)
    requires k < 10 && d.mode == Parameters(command, nums + [v])
    ensures Step(d, Digit(k)) == d.(mode := Parameters(command, nums + [v * 10 + k]))
  {
    assert (nums + [v])[|nums| := v * 10 + k] == nums + [v * 10 + k];
  }

  lemma {:induction false} ReadNumber(d: Decoder, command: char, nums: seq<nat>, n: nat)
    requires d.mode == Parameters(command, nums + [0])
    ensures Read(d, Dec(n)) == d.(mode := Parameters(command, nums + [n]))
    decreases n
  {
    hide Step;
    if n < 10 {
      ReadOne(d, Digit(n));
      DigitStep(d, command, nums, 0, n);
    } else {
      var tens := d.(mode := Parameters(command, nums + [n / 10]));
      ReadNumber(d, command, nums, n / 10);
      ReadAppend(d, Dec(n / 10), [Digit(n % 10)]);
      ReadOne(tens, Digit(n % 10));
      DigitStep(tens, command, nums, n / 10, n % 10);
      hide Read;
      assert n / 10 * 10 + n % 10 == n;
    }
  }

  lemma ReadSemicolon(d: Decoder, command: char, nums: seq<nat>)
    requires d.mode == Parameters(command, nums) && nums != []
    ensures Read(d, ";") == d.(mode := Parameters(command, nums + [0]))
  {
    ReadOne(d, ';');
  }

  /** A control function with one parameter. */
  lemma ReadOneParameter(d: Decoder, command: char, n: nat)
    requires d.mode.Ground? && (command == '#' || command == '!' || command == '"')
    ensures Read(d, [command] + Dec(n)) == d.(mode := Parameters(command, [n]))
  {
    ReadAppend(d, [command], Dec(n));
    ReadOne(d, command);
    var e := d.(mode := Parameters(command, [0]));
    assert [] + [0] == [0];
    ReadNumber(e, command, [], n);
    assert [] + [n] == [n];
  }

  lemma ReadAnotherParameter(d: Decoder, command: char, nums: seq<nat>, n: nat)
    requires d.mode == Parameters(command, nums) && nums != []
    ensures Read(d, ";" + Dec(n)) == d.(mode := Parameters(command, nums + [n]))
  {
    ReadAppend(d, ";", Dec(n));
    ReadSemicolon(d, command, nums);
    ReadNumber(d.(mode := Parameters(command, nums + [0])), command, nums, n);
  }

  // ---------------------------------------------------------------------------
  // Separators

  function Dashes(text: string): nat {
    if text == "" then 0 else Dashes(text[..|text| - 1]) + if text[|text| - 1] == '-' then 1 else 0
  }

  lemma StepBand(d: Decoder, c: char)
    ensures Step(d, c).band == d.band + if c == '-' then 1 else 0
  {
  }

  /** The band reached is the number of separators read. */
  lemma {:induction false} BandsAreDashes(d: Decoder, text: string)
    ensures Read(d, text).band == d.band + Dashes(text)
    decreases |text|
  {
    hide Step;
    if text != "" {
      BandsAreDashes(d, text[..|text| - 1]);
      StepBand(Read(d, text[..|text| - 1]), text[|text| - 1]);
    }
  }

  function Repeat(c: char, n: nat): (s: string)
    ensures |s| == n && forall i | 0 <= i < n :: s[i] == c
  {
    if n == 0 then "" else Repeat(c, n - 1) + [c]
  }

  lemma {:induction false} ReadSeparators(d: Decoder, n: nat)
    requires d.mode.Ground?
    ensures Read(d, Repeat('-', n)) == if n == 0 then d else d.(x := 0, band := d.band + n)
  {
    hide Step;
    if n > 0 {
      ReadSeparators(d, n - 1);
      ReadAppend(d, Repeat('-', n - 1), "-");
      var e := Read(d, Repeat('-', n - 1));
      ReadOne(e, '-');
      StepDash(e);
    }
  }

  lemma StepDash(d: Decoder)
    requires d.mode.Ground?
    ensures Step(d, '-') == d.(x := 0, band := d.band + 1)
  {
  }

  // ---------------------------------------------------------------------------
  // Runs

  /** `e` is `d` after `count` columns of the same sixel. */
  ghost predicate Painted(d: Decoder, e: Decoder, bits: nat, count: nat) {
    && e == d.(pixels := e.pixels, x := d.x + count)
    && (forall px, py :: e.pixels(px, py) == PaintedAt(d, bits, count, px, py))
  }

  function PaintedAt(d: Decoder, bits: nat, count: nat, px: int, py: int): Option<nat> {
    if d.x <= px < d.x + count && Bit(bits, py - d.band * BAND_HEIGHT) then Some(d.color) else d.pixels(px, py)
  }

  lemma {:induction false} ReadRepeated(d: Decoder, bits: nat, count: nat)
    requires d.mode.Ground? && d.repeat == 1 && bits < 64
    ensures Painted(d, Read(d, Repeat((63 + bits) as char, count)), bits, count)
    decreases count
  {
    var c := (63 + bits) as char;
    hide Step;
    if count > 0 {
      ReadRepeated(d, bits, count - 1);
      var e := Read(d, Repeat(c, count - 1));
      ReadAppend(d, Repeat(c, count - 1), [c]);
      ReadOne(e, c);
      StepSixel(e, bits);
      PaintedOneMore(d, e, Step(e, c), bits, count - 1);
    }
  }

  lemma StepSixel(d: Decoder, bits: nat)
    requires d.mode.Ground? && d.repeat == 1 && bits < 64
    ensures Painted(d, Step(d, (63 + bits) as char), bits, 1)
  {
    assert Step(d, (63 + bits) as char) == Paint(d, bits);
  }

  lemma PaintedOneMore(d: Decoder, e: Decoder, f: Decoder, bits: nat, count: nat)
    requires Painted(d, e, bits, count) && Painted(e, f, bits, 1)
    ensures Painted(d, f, bits, count + 1)
  {
    forall px, py
      ensures f.pixels(px, py) == PaintedAt(d, bits, count + 1, px, py)
    {
      assert e.pixels(px, py) == PaintedAt(d, bits, count, px, py);
    }
  }

  lemma ReadRunLength(d: Decoder, bits: nat, count: nat)
    requires d.mode.Ground? && d.repeat == 1 && bits < 64
    ensures Painted(d, Read(d, ['!'] + Dec(count) + [(63 + bits) as char]), bits, count)
  {
    var c := (63 + bits) as char;
    var e := d.(mode := Parameters('!', [count]));
    hide Step;
    ReadAppend(d, ['!'] + Dec(count), [c]);
    ReadOneParameter(d, '!', count);
    ReadOne(e, c);
    StepCounted(d, bits, count);
  }

  lemma StepCounted(d: Decoder, bits: nat, count: nat)
    requires d.mode.Ground? && d.repeat == 1 && bits < 64
    ensures Painted(d, Step(d.(mode := Parameters('!', [count])), (63 + bits) as char), bits, count)
  {
    var e := d.(mode := Parameters('!', [count]));
    assert Finish(e) == d.(repeat := count);
    assert Step(e, (63 + bits) as char) == Paint(d.(repeat := count), bits);
  }

  // ---------------------------------------------------------------------------
  // Control functions

  /** A control function's text: its parameters in decimal, separated by semicolons. */
  function Command(command: char, nums: seq<nat>): (text: string)
    requires nums != []
    ensures text != "" && text[0] == command
    ensures forall i | 0 < i < |text| :: IsDigit(text[i]) || text[i] == ';'
  {
    var last := |nums| - 1;
    if last == 0 then [command] + Dec(nums[0]) else Command(command, nums[..last]) + (";" + Dec(nums[last]))
  }

  predicate IsCommand(c: char) {
    c == '#' || c == '!' || c == '"'
  }

  /** Reading a printed control function gives its parameters back. */
  lemma {:induction false} ReadCommand(d: Decoder, command: char, nums: seq<nat>)
    requires d.mode.Ground? && IsCommand(command) && nums != []
    ensures Read(d, Command(command, nums)) == d.(mode := Parameters(command, nums))
    decreases |nums|
  {
    hide Step, Read, Dec;
    var last := |nums| - 1;
    if last == 0 {
      ReadOneParameter(d, command, nums[0]);
      assert nums == [nums[0]];
    } else {
      ReadCommand(d, command, nums[..last]);
      ReadAppend(d, Command(command, nums[..last]), ";" + Dec(nums[last]));
      ReadAnotherParameter(d.(mode := Parameters(command, nums[..last])), command, nums[..last], nums[last]);
      assert nums == nums[..last] + [nums[last]];
    }
  }
}
