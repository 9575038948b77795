/** A push button whose font size follows its size: after every change of
    size it scans the font sizes upward from the smallest, and keeps the
    last one at which the text still fits inside the button less its
    padding. How large a text is at a font size is Qt's to say, so the
    measurement is a parameter. */
module TextResize {
  import opened Wrappers

  /** The bounding box of a text, as width and height, for a font name, a
      point size and the text. */
  type Measure = (string, int, string) -> (real, real)

  /** The text fits at `size`: its box is no wider than `aw` and no taller
      than `ah`. */
  predicate Fits(measure: Measure, fontName: string, text: string, size: int, aw: int, ah: int) {
    var box := measure(fontName, size, text);
    !(box.0 > aw as real || box.1 > ah as real)
  }

  /** The value the scan variable holds when the loop over `size..hi`
      ends: one below the first size that does not fit, or `hi` when
      every size fits. */
  function LastFit(measure: Measure, fontName: string, text: string, aw: int, ah: int,
                   size: int, hi: int): int
    requires size <= hi
    decreases hi - size
  {
    if !Fits(measure, fontName, text, size, aw, ah) then size - 1
    else if size == hi then hi
    else LastFit(measure, fontName, text, aw, ah, size + 1, hi)
  }

  /** `max(lo, min(hi, x))`. */
  function Clamp(lo: int, hi: int, x: int): (r: int)
    requires lo <= hi
    ensures lo <= r <= hi
    ensures lo <= x <= hi ==> r == x
    ensures x < lo ==> r == lo
    ensures hi < x ==> r == hi
  {
    var m := if x < hi then x else hi;
    if lo > m then lo else m
  }

  /** The size `CalcFontSz` sets, for the available width `aw` and height
      `ah`. With `lo > hi` the loop never runs and the clamp reads a
      variable that was never bound, so there is no size. */
  function FontSizeFor(measure: Measure, fontName: string, text: string, aw: int, ah: int,
                       lo: int, hi: int): (r: Option<int>)
    ensures r.Some? <==> lo <= hi
  {
    if lo <= hi then Some(Clamp(lo, hi, LastFit(measure, fontName, text, aw, ah, lo, hi)))
    else None
  }

  /** The scan stops one below the first misfit at or after `size`, or at
      `hi`: every size from `size` up to the result fits, and the one
      after it, if it is still in range, does not. */
  lemma {:induction false} LastFitRun(measure: Measure, fontName: string, text: string, aw: int, ah: int,
                                      size: int, hi: int)
    requires size <= hi
    ensures size - 1 <= LastFit(measure, fontName, text, aw, ah, size, hi) <= hi
    ensures forall s :: size <= s <= LastFit(measure, fontName, text, aw, ah, size, hi) ==>
      Fits(measure, fontName, text, s, aw, ah)
    ensures LastFit(measure, fontName, text, aw, ah, size, hi) < hi ==>
      !Fits(measure, fontName, text, LastFit(measure, fontName, text, aw, ah, size, hi) + 1, aw, ah)
    decreases hi - size
  {
    if Fits(measure, fontName, text, size, aw, ah) && size < hi {
      LastFitRun(measure, fontName, text, aw, ah, size + 1, hi);
    }
  }

  /** A run of fitting sizes from `size` that ends in a misfit at `stop`
      makes the scan stop at `stop - 1`. */
  lemma {:induction false} LastFitAtMisfit(measure: Measure, fontName: string, text: string, aw: int, ah: int,
                                           size: int, hi: int, stop: int)
    requires size <= stop <= hi
    requires forall s :: size <= s < stop ==> Fits(measure, fontName, text, s, aw, ah)
    requires !Fits(measure, fontName, text, stop, aw, ah)
    ensures LastFit(measure, fontName, text, aw, ah, size, hi) == stop - 1
    decreases stop - size
  {
    if size < stop {
      LastFitAtMisfit(measure, fontName, text, aw, ah, size + 1, hi, stop);
    }
  }

  /** When every size from `size` to `hi` fits, the scan ends at `hi`. */
  lemma {:induction false} LastFitAllFit(measure: Measure, fontName: string, text: string, aw: int, ah: int,
                                         size: int, hi: int)
    requires size <= hi
    requires forall s :: size <= s <= hi ==> Fits(measure, fontName, text, s, aw, ah)
    ensures LastFit(measure, fontName, text, aw, ah, size, hi) == hi
    decreases hi - size
  {
    if size < hi {
      LastFitAllFit(measure, fontName, text, aw, ah, size + 1, hi);
    }
  }

  /** What `CalcFontSz` chooses, stated without the scan: a size in
      `[lo, hi]`; `lo` when the text does not fit even at `lo`; otherwise
      the end of the run of fitting sizes that starts at `lo`, so every
      size from `lo` to it fits and the next one, below `hi`, does not. */
  lemma FontSizeSpec(measure: Measure, fontName: string, text: string, aw: int, ah: int, lo: int, hi: int)
    requires lo <= hi
    ensures var r := FontSizeFor(measure, fontName, text, aw, ah, lo, hi).value;
      && lo <= r <= hi
      && (!Fits(measure, fontName, text, lo, aw, ah) ==> r == lo)
      && (Fits(measure, fontName, text, lo, aw, ah) ==>
            && (forall s :: lo <= s <= r ==> Fits(measure, fontName, text, s, aw, ah))
            && (r < hi ==> !Fits(measure, fontName, text, r + 1, aw, ah)))
  {
    LastFitRun(measure, fontName, text, aw, ah, lo, hi);
  }

  /** If every size in range fits, the largest is chosen. */
  lemma AllFitGivesMax(measure: Measure, fontName: string, text: string, aw: int, ah: int, lo: int, hi: int)
    requires lo <= hi
    requires forall s :: lo <= s <= hi ==> Fits(measure, fontName, text, s, aw, ah)
    ensures FontSizeFor(measure, fontName, text, aw, ah, lo, hi) == Some(hi)
  {
    LastFitAllFit(measure, fontName, text, aw, ah, lo, hi);
  }

  /** Otherwise the size chosen is one less than the smallest misfit, or
      `lo` when that misfit is `lo` itself. */
  lemma FirstMisfitGivesPredecessor(measure: Measure, fontName: string, text: string, aw: int, ah: int,
                                    lo: int, hi: int, stop: int)
    requires lo <= stop <= hi
    requires forall s :: lo <= s < stop ==> Fits(measure, fontName, text, s, aw, ah)
    requires !Fits(measure, fontName, text, stop, aw, ah)
    ensures FontSizeFor(measure, fontName, text, aw, ah, lo, hi) == Some(if stop == lo then lo else stop - 1)
  {
    LastFitAtMisfit(measure, fontName, text, aw, ah, lo, hi, stop);
  }

  /** The scan and clamp of `CalcFontSz`: sizes are measured in increasing
      order from `lo`, and the first that does not fit ends the scan one
      size back. `probed` lists the sizes measured: no more than
      `hi - lo + 1`, each but the last fitting, the last either a misfit
      or `hi`. */
  method FitFontSize(measure: Measure, fontName: string, text: string, aw: int, ah: int, lo: int, hi: int)
    returns (size: Option<int>, probed: seq<int>)
    ensures size == FontSizeFor(measure, fontName, text, aw, ah, lo, hi)
    ensures |probed| <= (if lo <= hi then hi - lo + 1 else 0)
    ensures forall i :: 0 <= i < |probed| ==> probed[i] == lo + i
    ensures forall i :: 0 <= i < |probed| - 1 ==> Fits(measure, fontName, text, probed[i], aw, ah)
    ensures lo <= hi ==> |probed| > 0
    ensures |probed| > 0 && Fits(measure, fontName, text, probed[|probed| - 1], aw, ah) ==>
      probed[|probed| - 1] == hi
  {
    probed := [];
    if lo > hi {
      return None, probed;
    }
    // the loop variable is left at `hi` when no size fails
    var fontSize := hi;
    for fs := lo to hi + 1
      invariant |probed| == fs - lo
      invariant forall i :: 0 <= i < |probed| ==> probed[i] == lo + i
      invariant forall s :: lo <= s < fs ==> Fits(measure, fontName, text, s, aw, ah)
      invariant fontSize == hi
      invariant fs == hi + 1 ==> LastFit(measure, fontName, text, aw, ah, lo, hi) == hi
    {
      probed := probed + [fs];
      var box := measure(fontName, fs, text);
      if box.0 > aw as real || box.1 > ah as real {
        fontSize := fs - 1;
        LastFitAtMisfit(measure, fontName, text, aw, ah, lo, hi, fs);
        break;
      }
      if fs == hi {
        LastFitAllFit(measure, fontName, text, aw, ah, lo, hi);
      }
    }
    size := Some(Clamp(lo, hi, fontSize));
  }

  /** `tTxtReSzBtn`. */
  class TxtReSzBtn {
    const MIN_FONT_SZ: int
    const MAX_FONT_SZ: int
    const FONT_NAME: string
    const PADDING: int
    /** Qt's measurement of a text in a font. */
    const measure: Measure
    var text: string
    /** The widget's current size. */
    var width: int
    var height: int
    /** The point size of the widget's font. */
    var fontSize: int

    /** The size range is not empty, which `CalcFontSz` needs. */
    predicate Valid() {
      MIN_FONT_SZ <= MAX_FONT_SZ
    }

    /** The size `CalcFontSz` picks for the current text and widget size. */
    function FittedSize(): int
      reads this
      requires Valid()
    {
      FontSizeFor(measure, FONT_NAME, text, width - PADDING, height - PADDING, MIN_FONT_SZ, MAX_FONT_SZ).value
    }

    /** `__init__`: sets the text and fits the font to the widget's size,
        which Qt gives the widget and is a parameter here. A range with
        `min_font_size > max_font_size` makes `CalcFontSz` fail, so it is
        excluded. */
    constructor(Txt: string, measure: Measure, width: int, height: int,
                min_font_size: int := 4, max_font_size: int := 50,
                font_name: string := "Arial", padding: int := 10)
      requires min_font_size <= max_font_size
      ensures MIN_FONT_SZ == min_font_size && MAX_FONT_SZ == max_font_size
      ensures FONT_NAME == font_name && PADDING == padding && this.measure == measure
      ensures text == Txt && this.width == width && this.height == height
      ensures Valid() && fontSize == FittedSize()
    {
      MIN_FONT_SZ := min_font_size;
      MAX_FONT_SZ := max_font_size;
      FONT_NAME := font_name;
      PADDING := padding;
      this.measure := measure;
      this.width := width;
      this.height := height;
      new;
      UpdateText(Txt);
      fontSize := MIN_FONT_SZ;
      CalcFontSz();
    }

    /** `UpdateText`: the text changes; the font and the size do not. */
    method UpdateText(Txt: string)
      modifies this
      ensures text == Txt
      ensures fontSize == old(fontSize) && width == old(width) && height == old(height)
    {
      text := Txt;
    }

    /** `CalcFontSz`: the font becomes the fitted size for the current text,
        inside the widget less its padding. */
    method CalcFontSz()
      requires Valid()
      modifies this
      ensures fontSize == FittedSize()
      ensures MIN_FONT_SZ <= fontSize <= MAX_FONT_SZ
      ensures text == old(text) && width == old(width) && height == old(height)
    {
      var availableWidth := width - PADDING;
      var availableHeight := height - PADDING;
      var size, _ := FitFontSize(measure, FONT_NAME, text, availableWidth, availableHeight, MIN_FONT_SZ, MAX_FONT_SZ);
      fontSize := size.value;
    }

    /** `resizeEvent`: the widget takes its new size and fits its font to
        it; the text stays. */
    method ResizeEvent(newWidth: int, newHeight: int)
      requires Valid()
      modifies this
      ensures width == newWidth && height == newHeight && text == old(text)
      ensures fontSize == FittedSize()
    {
      width, height := newWidth, newHeight;
      CalcFontSz();
    }
  }
}
