/** The sixel encoder, proved against the reader: every visible pixel comes back with its
    palette index, nothing else is set, and no separator trails. */
module Sixels {
  import opened Integers
  import opened Options
  import opened SixelDecoding

  const ESC: char := '\U{1b}'
  /** DCS with background select 1: pixels not set stay as they are. */
  const INTRO: string := [ESC] + "P0;1;0q"
  const ST: string := [ESC, '\\']

  /** The index buffer may be longer than the image. */
  datatype Image = Image(width: nat, height: nat, indices: seq<nat>) {
    ghost predicate Valid() {
      width * height <= |indices|
    }

    function At(x: nat, y: nat): nat
      requires Valid() && x < width && y < height
    {
      IndexInRange(width, height, x, y);
      indices[y * width + x]
    }

    predicate Within(x: int, y: int) {
      0 <= x < width && 0 <= y < height
    }
  }

  lemma IndexInRange(width: nat, height: nat, x: nat, y: nat)
    requires x < width && y < height
    ensures y * width + x < width * height
  {
    assert (y + 1) * width <= height * width;
  }

  /** A color channel as a percentage: clamped, and the nearest one, half up. */
  function ChannelToPct(v: real): (pct: nat)
    ensures pct <= 100
    ensures v <= 0.0 ==> pct == 0
    ensures v >= 255.0 ==> pct == 100
    ensures 0.0 <= v <= 255.0 ==> (pct as real - 0.5) * 255.0 <= v * 100.0 < (pct as real + 0.5) * 255.0
  {
    var clamped := if v < 0.0 then 0.0 else if v > 255.0 then 255.0 else v;
    (clamped / 255.0 * 100.0 + 0.5).Floor
  }

  datatype Rgb = Rgb(r: real, g: real, b: real)

  function Percentages(c: Rgb): (nat, nat, nat) {
    (ChannelToPct(c.r), ChannelToPct(c.g), ChannelToPct(c.b))
  }

  // ---------------------------------------------------------------------------
  // What the reader must find

  /** Row `y` belongs to band `y / 6`. */
  function BandOf(y: int): int {
    y / BAND_HEIGHT
  }

  predicate Visible(img: Image, transparent: set<nat>, x: int, y: int)
    requires img.Valid()
  {
    img.Within(x, y) && img.At(x, y) !in transparent
  }

  /** The pixel at x, y once all bands before `band` are drawn and, of that band, the colors
      in `done` entirely and `color` in its first `columns` columns. */
  function Drawn(img: Image, transparent: set<nat>, band: nat, done: set<nat>, color: nat, columns: nat, x: int, y: int): Option<nat>
    requires img.Valid()
  {
    if !Visible(img, transparent, x, y) then None
    else
      var v := img.At(x, y);
      if BandOf(y) < band then Some(v)
      else if BandOf(y) == band && (v in done || (v == color && x < columns)) then Some(v)
      else None
  }

  ghost predicate Shows(d: Decoder, img: Image, transparent: set<nat>, band: nat, done: set<nat>, color: nat, columns: nat)
    requires img.Valid()
  {
    forall x, y :: d.pixels(x, y) == Drawn(img, transparent, band, done, color, columns, x, y)
  }

  /** The six bits of one column of a band for one color. */
  function ColumnBits(img: Image, y0: nat, color: nat, x: nat, rows: nat): (bits: nat)
    requires img.Valid() && x < img.width && rows <= 6
    ensures bits < Pow2(rows)
  {
    if rows == 0 then 0
    else
      var j := y0 + rows - 1;
      ColumnBits(img, y0, color, x, rows - 1) + if j < img.height && img.At(x, j) == color then Pow2(rows - 1) else 0
  }

  lemma {:induction false} BitsOfColumn(img: Image, y0: nat, color: nat, x: nat, rows: nat, k: nat)
    requires img.Valid() && x < img.width && rows <= 6
    ensures BinaryDigit(ColumnBits(img, y0, color, x, rows), k) <==>
      k < rows && y0 + k < img.height && img.At(x, y0 + k) == color
  {
    if rows == 0 {
      NoHighDigit(0, 0, k);
    } else {
      var low := ColumnBits(img, y0, color, x, rows - 1);
      BitsOfColumn(img, y0, color, x, rows - 1, k);
      AddHighDigit(low, rows - 1, k);
    }
  }

  // ---------------------------------------------------------------------------
  // One color of one band

  /** A text that cannot be taken for more digits of the parameters before it. */
  predicate IsPiece(text: string) {
    text != "" && !IsDigit(text[0]) && text[0] != ';'
  }

  /** The characters of `count` equal columns: run-length coded when that is shorter. */
  function RunText(bits: nat, count: nat): (text: string)
    requires bits < 64
    ensures if count == 0 then text == "" else IsPiece(text)
    ensures ESC !in text
  {
    var c := (63 + bits) as char;
    if count > 3 then ['!'] + Dec(count) + [c] else Repeat(c, count)
  }

  lemma RunTextPaints(d: Decoder, bits: nat, count: nat)
    requires d.mode.Ground? && d.repeat == 1 && bits < 64
    ensures Painted(d, Read(d, RunText(bits, count)), bits, count)
  {
    if count > 3 {
      ReadRunLength(d, bits, count);
    } else {
      ReadRepeated(d, bits, count);
    }
  }

  ghost predicate SameColumns(img: Image, band: nat, color: nat, bits: nat, from: nat, to: nat)
    requires img.Valid()
  {
    from <= to <= img.width &&
    forall x | from <= x < to :: ColumnBits(img, band * BAND_HEIGHT, color, x, 6) == bits
  }

  /** Painting a run of equal columns extends what is drawn by those columns. */
  lemma RunShows(d: Decoder, e: Decoder, img: Image, transparent: set<nat>, band: nat, done: set<nat>, color: nat, bits: nat, count: nat)
    requires img.Valid() && color !in transparent
    requires Painted(d, e, bits, count) && d.band == band && d.color == color
    requires SameColumns(img, band, color, bits, d.x, d.x + count)
    requires Shows(d, img, transparent, band, done, color, d.x)
    ensures Shows(e, img, transparent, band, done, color, d.x + count)
  {
    forall x, y
      ensures e.pixels(x, y) == Drawn(img, transparent, band, done, color, d.x + count, x, y)
    {
      assert e.pixels(x, y) == PaintedAt(d, bits, count, x, y);
      assert d.pixels(x, y) == Drawn(img, transparent, band, done, color, d.x, x, y);
      if d.x <= x < d.x + count {
        ColumnShows(img, band, color, bits, x, y);
      }
    }
  }

  lemma ColumnShows(img: Image, band: nat, color: nat, bits: nat, x: nat, y: int)
    requires img.Valid() && x < img.width && bits == ColumnBits(img, band * BAND_HEIGHT, color, x, 6)
    ensures Bit(bits, y - band * BAND_HEIGHT) <==> 0 <= y < img.height && BandOf(y) == band && img.At(x, y) == color
  {
    var k := y - band * BAND_HEIGHT;
    if 0 <= k < BAND_HEIGHT {
      BitsOfColumn(img, band * BAND_HEIGHT, color, x, 6, k);
    }
  }

  /** One column: a bit per row of the band that holds the color. */
  method ColumnOf(img: Image, band: nat, color: nat, x: nat) returns (bits: nat)
    requires img.Valid() && x < img.width
    ensures bits == ColumnBits(img, band * BAND_HEIGHT, color, x, 6) && bits < 64
  {
    bits := 0;
    for dy := 0 to BAND_HEIGHT
      invariant bits == ColumnBits(img, band * BAND_HEIGHT, color, x, dy)
    {
      var j := band * BAND_HEIGHT + dy;
      if j < img.height && img.At(x, j) == color {
        bits := bits + Pow2(dy);
      }
    }
    assert Pow2(6) == 64;
  }

  /** The run-length loop over the columns of one color. */
  method EncodeColor(img: Image, transparent: set<nat>, band: nat, color: nat, ghost done: set<nat>, ghost d: Decoder)
    returns (run: string)
    requires img.Valid() && color !in transparent
    requires d.mode.Ground? && d.repeat == 1 && d.x == 0 && d.band == band && d.color == color
    requires Shows(d, img, transparent, band, done, color, 0)
    ensures var e := Read(d, run);
      e == d.(pixels := e.pixels, x := img.width) && Shows(e, img, transparent, band, done, color, img.width)
    ensures img.width > 0 ==> IsPiece(run)
    ensures ESC !in run
  {
    hide Shows, Painted, SameColumns, RunText;
    run := "";
    var bits, prev, count := 0, 0, 0;
    ghost var e := d;
    var i := 0;
    NoColumns(img, band, color, prev, 0);
    while i < img.width
      invariant 0 <= i <= img.width && count <= i && (i > 0 ==> count > 0) && prev < 64
      invariant e == Read(d, run) && e == d.(pixels := e.pixels, x := i - count)
      invariant Shows(e, img, transparent, band, done, color, i - count)
      invariant SameColumns(img, band, color, prev, i - count, i)
      invariant (run == "" || IsPiece(run)) && ESC !in run
    {
      bits := ColumnOf(img, band, color, i);
      if count > 0 && bits == prev {
        count := count + 1;
      } else {
        e := Flushed(d, e, run, prev, count, img, transparent, band, done, color);
        run := run + RunText(prev, count);
        prev := bits;
        count := 1;
        NoColumns(img, band, color, prev, i);
      }
      OneMoreColumn(img, band, color, prev, i + 1 - count, i);
      i := i + 1;
    }
    e := Flushed(d, e, run, prev, count, img, transparent, band, done, color);
    run := run + RunText(prev, count);
  }

  lemma NoColumns(img: Image, band: nat, color: nat, bits: nat, i: nat)
    requires img.Valid() && i <= img.width
    ensures SameColumns(img, band, color, bits, i, i)
  {
  }

  lemma OneMoreColumn(img: Image, band: nat, color: nat, bits: nat, from: nat, i: nat)
    requires img.Valid() && i < img.width && SameColumns(img, band, color, bits, from, i)
    requires bits == ColumnBits(img, band * BAND_HEIGHT, color, i, 6)
    ensures SameColumns(img, band, color, bits, from, i + 1)
  {
  }

  /** Flushing the held run. */
  lemma Flushed(d: Decoder, e: Decoder, run: string, bits: nat, count: nat, img: Image, transparent: set<nat>, band: nat,
      done: set<nat>, color: nat)
    returns (f: Decoder)
    requires img.Valid() && color !in transparent && bits < 64
    requires d.mode.Ground? && d.repeat == 1 && d.band == band && d.color == color
    requires e == Read(d, run) && e == d.(pixels := e.pixels, x := e.x)
    requires Shows(e, img, transparent, band, done, color, e.x) && SameColumns(img, band, color, bits, e.x, e.x + count)
    ensures f == Read(d, run + RunText(bits, count))
    ensures f == d.(pixels := f.pixels, x := e.x + count)
    ensures Shows(f, img, transparent, band, done, color, e.x + count)
  {
    f := Read(e, RunText(bits, count));
    ReadAppend(d, run, RunText(bits, count));
    RunTextPaints(e, bits, count);
    hide RunText;
    RunShows(e, f, img, transparent, band, done, color, bits, count);
  }

  // ---------------------------------------------------------------------------
  // One band

  /** Distinct values in order of first occurrence. */
  function Distinct(s: seq<nat>): (d: seq<nat>)
    ensures forall c :: c in d <==> c in s
    ensures forall i, j | 0 <= i < j < |d| :: d[i] != d[j]
  {
    if s == [] then []
    else
      var last := |s| - 1;
      assert s == s[..last] + [s[last]];
      var d := Distinct(s[..last]);
      if s[last] in d then d else d + [s[last]]
  }

  /** The indices of a band's rows: consecutive, since rows are. */
  function BandIndices(img: Image, band: nat): seq<nat>
    requires img.Valid() && band * BAND_HEIGHT < img.height
  {
    var end := Min((band + 1) * BAND_HEIGHT, img.height);
    RowsInRange(img, band * BAND_HEIGHT, end);
    img.indices[band * BAND_HEIGHT * img.width..end * img.width]
  }

  lemma RowsInRange(img: Image, from: nat, to: nat)
    requires img.Valid() && from <= to <= img.height
    ensures 0 <= from * img.width <= to * img.width <= |img.indices|
  {
    assert from * img.width <= to * img.width;
    assert to * img.width <= img.height * img.width;
  }

  ghost predicate BandVisible(img: Image, transparent: set<nat>, band: nat)
    requires img.Valid()
  {
    exists x, y :: Visible(img, transparent, x, y) && BandOf(y) == band
  }

  lemma PixelInBand(img: Image, band: nat, x: nat, y: nat)
    requires img.Valid() && img.Within(x, y) && BandOf(y) == band
    ensures img.At(x, y) in BandIndices(img, band)
  {
    var y0, end := band * BAND_HEIGHT, Min((band + 1) * BAND_HEIGHT, img.height);
    RowsInRange(img, y0, y);
    RowsInRange(img, y, y + 1);
    RowsInRange(img, y + 1, end);
    NextRow(y, img.width);
    InSlice(img.indices, y0 * img.width, end * img.width, y * img.width + x);
  }

  lemma NextRow(y: nat, w: nat)
    ensures (y + 1) * w == y * w + w
  {
  }

  lemma InSlice(s: seq<nat>, from: nat, to: nat, k: nat)
    requires from <= k < to <= |s|
    ensures s[k] in s[from..to]
  {
    assert s[from..to][k - from] == s[k];
  }

  lemma IndexIsPixel(img: Image, band: nat, k: nat) returns (x: nat, y: nat)
    requires img.Valid() && band * BAND_HEIGHT < img.height && k < |BandIndices(img, band)|
    ensures img.Within(x, y) && BandOf(y) == band && img.At(x, y) == BandIndices(img, band)[k]
  {
    var y0, end := band * BAND_HEIGHT, Min((band + 1) * BAND_HEIGHT, img.height);
    RowsInRange(img, y0, end);
    var row := Quotient(k, img.width, y0, end);
    x, y := k - row * img.width, y0 + row;
    assert img.At(x, y) == img.indices[y0 * img.width + k];
  }

  lemma Quotient(k: nat, w: nat, y0: nat, end: nat) returns (row: nat)
    requires y0 <= end && k < end * w - y0 * w
    ensures y0 + row < end && row * w <= k < row * w + w && (y0 + row) * w == y0 * w + row * w
  {
    row := 0;
    while row * w + w <= k
      invariant row * w <= k && y0 + row < end
      decreases k - row * w, if w == 0 then end - y0 - row else 0
    {
      assert (row + 1) * w == row * w + w;
      Below(row + 1, w, y0, end);
      row := row + 1;
    }
  }

  lemma Ordered(a: nat, b: nat, w: nat)
    ensures a >= b ==> a * w >= b * w
  {
  }

  lemma Below(row: nat, w: nat, y0: nat, end: nat)
    requires y0 <= end && row * w < end * w - y0 * w
    ensures y0 + row < end
  {
    Ordered(y0 + row, end, w);
    assert (y0 + row) * w == y0 * w + row * w;
  }

  lemma NothingUsed(s: seq<nat>, from: nat)
    requires from <= |s|
    ensures Distinct(s[from..from]) == []
  {
  }

  lemma OneMoreIndex(s: seq<nat>, from: nat, to: nat)
    requires from <= to < |s|
    ensures Distinct(s[from..to + 1]) ==
      if s[to] in Distinct(s[from..to]) then Distinct(s[from..to]) else Distinct(s[from..to]) + [s[to]]
  {
    assert s[from..to + 1] == s[from..to] + [s[to]];
    assert (s[from..to] + [s[to]])[..to - from] == s[from..to];
  }

  /** The colors of a band in the order its rows first use them. */
  method CollectUsed(img: Image, band: nat) returns (used: seq<nat>)
    requires img.Valid() && band * BAND_HEIGHT < img.height
    ensures used == Distinct(BandIndices(img, band))
  {
    hide Distinct;
    var y0, end := band * BAND_HEIGHT, Min((band + 1) * BAND_HEIGHT, img.height);
    ghost var from := y0 * img.width;
    RowsInRange(img, y0, end);
    used := [];
    NothingUsed(img.indices, from);
    for j := y0 to end
      invariant from <= j * img.width <= |img.indices|
      invariant used == Distinct(img.indices[from..j * img.width])
    {
      used := CollectRow(img, j, from, used);
    }
  }

  method CollectRow(img: Image, j: nat, ghost from: nat, before: seq<nat>) returns (used: seq<nat>)
    requires img.Valid() && j < img.height && from <= j * img.width <= |img.indices|
    requires before == Distinct(img.indices[from..j * img.width])
    ensures (j + 1) * img.width <= |img.indices| && j * img.width <= (j + 1) * img.width
    ensures used == Distinct(img.indices[from..(j + 1) * img.width])
  {
    hide Distinct;
    used := before;
    ghost var base := j * img.width;
    RowsInRange(img, j, j + 1);
    assert (j + 1) * img.width == base + img.width;
    for i := 0 to img.width
      invariant base == j * img.width && base + img.width <= |img.indices|
      invariant used == Distinct(img.indices[from..base + i])
    {
      var color := img.At(i, j);
      OneMoreIndex(img.indices, from, base + i);
      if color !in used {
        used := used + [color];
      }
    }
  }

  lemma ColorDone(d: Decoder, img: Image, transparent: set<nat>, band: nat, done: set<nat>, color: nat)
    requires img.Valid() && Shows(d, img, transparent, band, done, color, img.width)
    ensures Shows(d, img, transparent, band, done + {color}, 0, 0)
  {
  }

  lemma ColorStarts(d: Decoder, e: Decoder, img: Image, transparent: set<nat>, band: nat, done: set<nat>, color: nat)
    requires img.Valid() && Shows(d, img, transparent, band, done, 0, 0) && e.pixels == d.pixels
    ensures Shows(e, img, transparent, band, done, color, 0)
  {
  }

  /** A band is complete once every color it uses is. */
  lemma BandShows(d: Decoder, img: Image, transparent: set<nat>, band: nat, done: set<nat>)
    requires img.Valid() && band * BAND_HEIGHT < img.height
    requires forall c | c in BandIndices(img, band) && c !in transparent :: c in done
    requires Shows(d, img, transparent, band, done, 0, 0)
    ensures Shows(d, img, transparent, band + 1, {}, 0, 0)
  {
    forall x, y
      ensures d.pixels(x, y) == Drawn(img, transparent, band + 1, {}, 0, 0, x, y)
    {
      if img.Within(x, y) && BandOf(y) == band {
        PixelInBand(img, band, x, y);
      }
      assert d.pixels(x, y) == Drawn(img, transparent, band, done, 0, 0, x, y);
    }
  }

  lemma BandIsVisible(img: Image, transparent: set<nat>, band: nat)
    requires img.Valid() && band * BAND_HEIGHT < img.height
    ensures BandVisible(img, transparent, band) <==> exists c :: c in BandIndices(img, band) && c !in transparent
  {
    if c :| c in BandIndices(img, band) && c !in transparent {
      var k :| 0 <= k < |BandIndices(img, band)| && BandIndices(img, band)[k] == c;
      var x, y := IndexIsPixel(img, band, k);
      assert Visible(img, transparent, x, y) && BandOf(y) == band;
    }
    if x, y :| Visible(img, transparent, x, y) && BandOf(y) == band {
      PixelInBand(img, band, x, y);
    }
  }

  lemma NoSixels(img: Image, transparent: set<nat>, d: Decoder)
    requires img.Valid() && d.pixels == Blank.pixels
    ensures Shows(d, img, transparent, 0, {}, 0, 0)
  {
  }

  /** What one color of a band adds, after a carriage return unless it is the first. */
  method EncodeBandColor(img: Image, transparent: set<nat>, band: nat, color: nat, first: bool, ghost done: set<nat>, ghost d: Decoder)
    returns (out: string)
    requires img.Valid() && color !in transparent && img.width > 0
    requires d.mode.Ground? && d.repeat == 1 && d.band == band && (first ==> d.x == 0)
    requires Shows(d, img, transparent, band, done, 0, 0)
    ensures var e := Read(d, out);
      e == d.(pixels := e.pixels, x := e.x, color := e.color) && Shows(e, img, transparent, band, done + {color}, 0, 0)
    ensures IsPiece(out) && ESC !in out
  {
    hide Shows, Command, Step, Drawn;
    var start := Command('#', [color]);
    ghost var home := d.(x := 0);
    ghost var open := home.(mode := Parameters('#', [color]));
    ghost var selected := home.(color := color);
    ReadCommand(home, '#', [color]);
    if !first {
      ReadAppend(d, "$", start);
      ReadReturn(d);
      start := "$" + start;
    }
    assert Read(d, start) == open && Finish(open) == selected;
    ColorStarts(d, selected, img, transparent, band, done, color);
    var run := EncodeColor(img, transparent, band, color, done, selected);
    ReadFinished(open, run);
    ReadAppend(d, start, run);
    ColorDone(Read(selected, run), img, transparent, band, done, color);
    out := start + run;
  }

  lemma ReadReturn(d: Decoder)
    requires d.mode.Ground?
    ensures Read(d, "$") == d.(x := 0)
  {
    ReadOne(d, '$');
  }

  /** All colors of one band. */
  method EncodeBand(img: Image, transparent: set<nat>, band: nat, ghost d: Decoder) returns (out: string)
    requires img.Valid() && band * BAND_HEIGHT < img.height
    requires d.mode.Ground? && d.repeat == 1 && d.x == 0 && d.band == band
    requires Shows(d, img, transparent, band, {}, 0, 0)
    ensures var e := Read(d, out);
      e == d.(pixels := e.pixels, x := e.x, color := e.color) && Shows(e, img, transparent, band + 1, {}, 0, 0)
    ensures out == "" <==> !BandVisible(img, transparent, band)
    ensures (out == "" || IsPiece(out)) && ESC !in out
  {
    hide Shows, Read, Distinct, Drawn, BandIndices;
    var used := CollectUsed(img, band);
    ghost var inBand := BandIndices(img, band);
    ghost var done: set<nat> := {};
    ghost var e := d;
    NothingRead(d);
    out := "";
    for k := 0 to |used|
      invariant e == Read(d, out) && e == d.(pixels := e.pixels, x := e.x, color := e.color)
      invariant Shows(e, img, transparent, band, done, 0, 0)
      invariant if out == "" then e.x == 0 else IsPiece(out)
      invariant out == "" <==> done == {}
      invariant ESC !in out
      invariant forall c :: c in done <==> c in used[..k] && c !in transparent
    {
      var color := used[k];
      if color in transparent {
        continue;
      }
      WidthIsPositive(img, band, color);
      var more := EncodeBandColor(img, transparent, band, color, out == "", done, e);
      ReadAppend(d, out, more);
      e := Read(e, more);
      out := out + more;
      done := done + {color};
    }
    assert used[..|used|] == used;
    BandShows(e, img, transparent, band, done);
    BandIsVisible(img, transparent, band);
  }

  lemma NothingRead(d: Decoder)
    ensures Read(d, "") == d
  {
  }

  lemma WidthIsPositive(img: Image, band: nat, color: nat)
    requires img.Valid() && band * BAND_HEIGHT < img.height && color in BandIndices(img, band)
    ensures img.width > 0
  {
    var k :| 0 <= k < |BandIndices(img, band)| && BandIndices(img, band)[k] == color;
    var x, y := IndexIsPixel(img, band, k);
  }

  // ---------------------------------------------------------------------------
  // The whole image

  /** What a reader has understood once pending parameters take effect. */
  function Understood(text: string): Decoder {
    Finish(Read(Blank, text))
  }

  lemma Continue(text: string, piece: string)
    requires IsPiece(piece)
    ensures Read(Blank, text + piece) == Read(Understood(text), piece)
  {
    ReadAppend(Blank, text, piece);
    ReadFinished(Read(Blank, text), piece);
  }

  function PaletteMap(palette: seq<Rgb>, n: nat): map<nat, (nat, nat, nat)>
    requires n <= |palette|
  {
    map i: nat | i < n :: Percentages(palette[i])
  }

  function Entry(i: nat, c: Rgb): string {
    var pct := Percentages(c);
    Command('#', [i, 2, pct.0, pct.1, pct.2])
  }

  lemma ReadEntry(text: string, i: nat, c: Rgb)
    ensures var d := Understood(text);
      Understood(text + Entry(i, c)) == d.(mode := Ground, palette := d.palette[i := Percentages(c)])
  {
    hide Read, Command;
    var pct := Percentages(c);
    var nums := [i, 2, pct.0, pct.1, pct.2];
    var d := Understood(text);
    Continue(text, Command('#', nums));
    ReadCommand(d, '#', nums);
  }

  lemma ReadHeader(width: nat, height: nat)
    ensures Understood(Command('"', [1, 1, width, height])) == Blank.(raster := Some((1, 1, width, height)))
  {
    hide Read, Command;
    ReadCommand(Blank, '"', [1, 1, width, height]);
  }

  /** Raster attributes and the palette. */
  method EncodeHead(width: nat, height: nat, palette: seq<Rgb>) returns (out: string)
    ensures Understood(out) == Blank.(raster := Some((1, 1, width, height)), palette := PaletteMap(palette, |palette|))
    ensures ESC !in out
  {
    hide Understood, Percentages, Command;
    out := Command('"', [1, 1, width, height]);
    ReadHeader(width, height);
    for i := 0 to |palette|
      invariant Understood(out) == Blank.(raster := Some((1, 1, width, height)), palette := PaletteMap(palette, i))
      invariant ESC !in out
    {
      ReadEntry(out, i, palette[i]);
      assert PaletteMap(palette, i)[i := Percentages(palette[i])] == PaletteMap(palette, i + 1);
      out := out + Entry(i, palette[i]);
    }
  }

  function Bands(height: nat): (n: nat)
    ensures forall y | 0 <= y < height :: BandOf(y) < n
    ensures n > 0 ==> (n - 1) * BAND_HEIGHT < height
  {
    (height + BAND_HEIGHT - 1) / BAND_HEIGHT
  }

  /** The reader stands on the last visible band so far; the separators still owed reach the next band. */
  ghost predicate Placed(d: Decoder, img: Image, transparent: set<nat>, band: nat, pending: nat)
    requires img.Valid()
  {
    && d.mode.Ground? && d.repeat == 1
    && d.band + pending == (if band < Bands(img.height) || band == 0 then band else band - 1)
    && (pending == 0 && band < Bands(img.height) ==> d.x == 0)
    && (forall b: nat | BandVisible(img, transparent, b) && b < band :: b <= d.band)
    && (d.band > 0 ==> BandVisible(img, transparent, d.band))
  }

  /** The bands, with separators written only once a later band has something to draw. */
  method EncodeBands(img: Image, transparent: set<nat>, head: string) returns (out: string)
    requires img.Valid() && ESC !in head
    requires var d := Understood(head); d.mode.Ground? && d.x == 0 && d.band == 0 && d.repeat == 1 && d.pixels == Blank.pixels
    ensures var d, h := Understood(out), Understood(head);
      && d.raster == h.raster && d.palette == h.palette
      && Shows(d, img, transparent, Bands(img.height), {}, 0, 0)
      && (forall b: nat | BandVisible(img, transparent, b) && b < Bands(img.height) :: b <= d.band)
      && (d.band > 0 ==> BandVisible(img, transparent, d.band))
    ensures ESC !in out
  {
    hide Understood, Shows, BandVisible;
    out := head;
    var pending := 0;
    ghost var h := Understood(head);
    NoSixels(img, transparent, h);
    for band := 0 to Bands(img.height)
      invariant ESC !in out
      invariant Understood(out).raster == h.raster && Understood(out).palette == h.palette
      invariant Shows(Understood(out), img, transparent, band, {}, 0, 0)
      invariant Placed(Understood(out), img, transparent, band, pending)
    {
      out, pending := AppendBand(img, transparent, band, out, pending);
    }
  }

  method AppendBand(img: Image, transparent: set<nat>, band: nat, before: string, owed: nat) returns (out: string, pending: nat)
    requires img.Valid() && band < Bands(img.height) && ESC !in before
    requires Shows(Understood(before), img, transparent, band, {}, 0, 0)
    requires Placed(Understood(before), img, transparent, band, owed)
    ensures ESC !in out
    ensures Understood(out).raster == Understood(before).raster && Understood(out).palette == Understood(before).palette
    ensures Shows(Understood(out), img, transparent, band + 1, {}, 0, 0)
    ensures Placed(Understood(out), img, transparent, band + 1, pending)
  {
    hide Shows, BandVisible, Read;
    out, pending := before, owed;
    ghost var d := Understood(before);
    ghost var home := d.(x := 0, band := band);
    SamePixels(d, home, img, transparent, band);
    var bandOut := EncodeBand(img, transparent, band, home);
    ghost var e := Read(home, bandOut);
    if bandOut != "" {
      Positioned(before, owed, bandOut, home);
      if pending > 0 {
        out := out + Repeat('-', pending);
        pending := 0;
      }
      out := out + bandOut;
    } else {
      NothingRead(home);
      SamePixels(home, d, img, transparent, band + 1);
    }
    if band + 1 < Bands(img.height) {
      pending := pending + 1;
    }
  }

  lemma SamePixels(d: Decoder, e: Decoder, img: Image, transparent: set<nat>, band: nat)
    requires img.Valid() && d.pixels == e.pixels && Shows(d, img, transparent, band, {}, 0, 0)
    ensures Shows(e, img, transparent, band, {}, 0, 0)
  {
  }

  /** The owed separators bring the reader to the start of the band. */
  lemma Positioned(before: string, owed: nat, bandOut: string, home: Decoder)
    requires IsPiece(bandOut) && Understood(before).mode.Ground?
    requires home == Understood(before).(x := 0, band := Understood(before).band + owed)
    requires owed == 0 ==> Understood(before).x == 0
    ensures var placed := if owed > 0 then before + Repeat('-', owed) else before;
      Understood(placed + bandOut) == Finish(Read(home, bandOut))
  {
    var d := Understood(before);
    hide Read, Repeat;
    if owed > 0 {
      var gap := Repeat('-', owed);
      ReadSeparators(d, owed);
      Continue(before, gap);
      assert Understood(before + gap) == home;
      Continue(before + gap, bandOut);
    } else {
      Continue(before, bandOut);
    }
  }

  /** A terminal's reading of a sixel string: what stands between its introducer and terminator. */
  /** A sixel string starts with DCS, three parameters and `q`, of which the second, 1, leaves pixels as
      they are that are not set; it ends with ST. */
  predicate IsSixelString(text: string) {
    && 10 <= |text| && text[..2] == [ESC, 'P'] && text[2..8] == "0;1;0q" && text[|text| - 2..] == [ESC, '\\']
  }

  function Body(text: string): string
    requires IsSixelString(text)
  {
    text[8..|text| - 2]
  }

  /** Reading the encoder's text sets each pixel that is not transparent to its index and leaves
      every other pixel unset; the separators written lead exactly to the last band with a visible pixel. */
  method EncodeSixel(img: Image, palette: seq<Rgb>, transparent: set<nat>) returns (text: string)
    requires img.Valid()
    ensures IsSixelString(text) && ESC !in Body(text)
    ensures var d := Understood(Body(text));
      && (forall x, y :: d.pixels(x, y) == if Visible(img, transparent, x, y) then Some(img.At(x, y)) else None)
      && d.raster == Some((1, 1, img.width, img.height))
      && d.palette == map i: nat | i < |palette| :: (ChannelToPct(palette[i].r), ChannelToPct(palette[i].g), ChannelToPct(palette[i].b))
    ensures var last := Dashes(Body(text));
      && (forall x, y | Visible(img, transparent, x, y) :: BandOf(y) <= last)
      && (last > 0 ==> exists x, y :: Visible(img, transparent, x, y) && BandOf(y) == last)
  {
    hide Read, Finish, Dashes;
    var body := EncodeHead(img.width, img.height, palette);
    body := EncodeBands(img, transparent, body);
    text := INTRO + body + ST;
    Framed(body);
    Separators(body);
    ghost var d := Understood(body);
    forall x, y
      ensures d.pixels(x, y) == if Visible(img, transparent, x, y) then Some(img.At(x, y)) else None
    {
      assert d.pixels(x, y) == Drawn(img, transparent, Bands(img.height), {}, 0, 0, x, y);
    }
    forall x, y | Visible(img, transparent, x, y)
      ensures BandOf(y) <= d.band
    {
      var band: nat := BandOf(y);
      assert BandVisible(img, transparent, band);
    }
  }

  lemma Framed(body: string)
    ensures var text := INTRO + body + ST;
      IsSixelString(text) && Body(text) == body
  {
    hide Understood;
    var text := INTRO + body + ST;
    assert text[..2] == [ESC, 'P'] && text[2..8] == "0;1;0q" && text[|text| - 2..] == ST;
    assert Body(text) == body;
  }

  lemma Separators(body: string)
    ensures Understood(body).band == Dashes(body)
  {
    BandsAreDashes(Blank, body);
  }
}
