/** The pixel size of the mascot's sixel: capped on both axes and a whole number of bands, so
    that terminals that count bands and terminals that read the raster attributes agree. */
module PetSizes {
  import opened Integers

  const BAND_HEIGHT: int := 6
  const MAX_WIDTH: int := 128
  const MAX_HEIGHT: int := 64

  /** Rounding half up. */
  function Round(x: real): (r: int)
    ensures r as real - 0.5 <= x < r as real + 0.5
  {
    (x + 0.5).Floor
  }

  /** The largest whole number of bands that fits, but at least one band. */
  function FitSixelHeightPx(availablePx: real): (h: int)
    ensures h >= BAND_HEIGHT && h % BAND_HEIGHT == 0
    ensures h as real <= availablePx || h == BAND_HEIGHT
    ensures availablePx < h as real + 6.0
  {
    var bands := (availablePx / 6.0).Floor;
    Max(1, bands) * BAND_HEIGHT
  }

  function Scaled(n: int, factor: real): (r: int)
    requires n >= 1
    ensures 0.0 < factor < 1.0 ==> r <= n
  {
    if 0.0 < factor < 1.0 then assert n as real * factor <= n as real; Round(n as real * factor) else Round(n as real * factor)
  }

  lemma FitsHeight(h0: int, byWidth: real, byHeight: real, scale: real)
    requires h0 >= 1 && byHeight == MAX_HEIGHT as real / h0 as real && scale == (if byWidth < byHeight then byWidth else byHeight) && 0.0 < scale
    ensures scale == byHeight ==> Scaled(h0, scale) == MAX_HEIGHT
    ensures scale == byWidth ==> h0 as real * byWidth - 0.5 <= Scaled(h0, scale) as real
  {
  }

  /** The whole bands in a height under the cap, but at least one. */
  function FullBands(height: int): (h: int)
    requires height >= 1
    ensures BAND_HEIGHT <= h <= 60 && h % BAND_HEIGHT == 0 && (h <= height || h == BAND_HEIGHT)
    ensures h == 60 || height < h + BAND_HEIGHT
  {
    Max(BAND_HEIGHT, Min(height, MAX_HEIGHT) / BAND_HEIGHT * BAND_HEIGHT)
  }

  /** Both axes shrunk by one factor, the height floored to whole bands, the width taken anew from
      the original aspect. */
  method Capped(w0: int, h0: int) returns (w: int, h: int)
    requires w0 >= 1 && h0 >= 1 && (w0 > MAX_WIDTH || h0 > MAX_HEIGHT)
    ensures 1 <= w <= MAX_WIDTH && BAND_HEIGHT <= h <= 60 && h % BAND_HEIGHT == 0
    ensures h <= h0 || h == BAND_HEIGHT
    ensures h == 60 || h0 as real * (MAX_WIDTH as real / w0 as real) < h as real + 6.5
    ensures w == Max(1, Min(MAX_WIDTH, Scaled(h, w0 as real / h0 as real)))
  {
    var aspect := w0 as real / h0 as real;
    var byWidth, byHeight := MAX_WIDTH as real / w0 as real, MAX_HEIGHT as real / h0 as real;
    var scale := if byWidth < byHeight then byWidth else byHeight;
    assert 0.0 < scale < 1.0;
    var fitting := Max(1, Scaled(h0, scale));
    FitsHeight(h0, byWidth, byHeight, scale);
    assert fitting <= h0;
    hide Scaled;
    h := FullBands(fitting);
    w := Max(1, Min(MAX_WIDTH, Scaled(h, aspect)));
  }

  /** Whatever is asked for, the drawing stays under both caps and has no partial band; it is
      never taller than asked for unless less than one band was. */
  method PetSize(widthPx: real, heightPx: real) returns (w: int, h: int)
    ensures 1 <= w <= MAX_WIDTH && BAND_HEIGHT <= h <= 60 && h % BAND_HEIGHT == 0
    ensures h <= Round(heightPx) || h == BAND_HEIGHT
    ensures var w0, h0 := Max(1, Round(widthPx)), Max(1, Round(heightPx));
      w0 > MAX_WIDTH || h0 > MAX_HEIGHT ==>
        && (h == 60 || h0 as real * (MAX_WIDTH as real / w0 as real) < h as real + 6.5)
        && w == Max(1, Min(MAX_WIDTH, Scaled(h, w0 as real / h0 as real)))
    ensures Round(widthPx) <= MAX_WIDTH && Round(heightPx) <= MAX_HEIGHT ==> w == Max(1, Round(widthPx)) && Round(heightPx) < h + BAND_HEIGHT
  {
    w, h := Max(1, Round(widthPx)), Max(1, Round(heightPx));
    hide Round;
    if w > MAX_WIDTH || h > MAX_HEIGHT {
      w, h := Capped(w, h);
    } else if h % BAND_HEIGHT != 0 {
      h := FitSixelHeightPx(h as real);
    }
  }
}
