/** `AdvancedImageBuilder.kt`: the per-offset `calculateSelectionArea`, the frame sizes
    and sub-regions of `takeScreenshot`, the `padding` guard, and the screenshot's use of
    `StateSnapshot` (the same class as in `EditorUtils.kt`, whose model is reused). */
module AdvancedImageBuilder {
  import opened Wrappers
  import opened Platform
  import opened Host
  import opened SelectionGeometry
  import EditorUtils
  import KotlinOptions

  // ================================================================ calculateSelectionArea

  /** What the per-offset `calculateSelectionArea` returns: for an empty selection the
      frame of lines 0 .. lineCount (one past the last line included); otherwise the frame
      of the edges the walk over every offset of [s, e], both ends included, leaves. */
  function PerOffsetArea(v: View, s: int, e: int, chop: bool): Rect
    requires 0 <= s <= e <= |v.text|
  {
    if s == e then Frame(v, Extent(v, v.LineCount() + 1))
    else Frame(v, Run(Walk(v, s, e, chop, true), Start(chop), Range(s, e + 1)))
  }

  /** The loop body at offset i: the character is read at every interior offset, and the
      left edge follows the first non-whitespace character after a line break only when
      chopping. */
  method VisitOffset(w: Walk, st: Edges, i: int, selectedText: string) returns (r: Edges)
    requires w.Valid() && w.s <= i <= w.e && w.alwaysTrack && selectedText == w.v.text[w.s..w.e]
    ensures r == Step(w, st, i)
  {
    var left, upper, right, bottom, indentRegion := st.left, st.upper, st.right, st.bottom, st.indent;
    var v := w.v;
    var upperLeft := v.xy(i);
    if i == w.s {
      upper := upperLeft.y;
    } else if i == w.e {
      bottom := upperLeft.y;
    } else {
      right := Max(right, upperLeft.x);
      var current := selectedText[i - w.s];
      if current == '\n' {
        indentRegion := true;
      } else if indentRegion && !IsJavaWhitespace(current) {
        indentRegion := false;
        if w.chop {
          left := Min(left, upperLeft.x);
        }
      }
      if v.softWrapping {
        if v.softWrapAt(i) {
          left := Min(left, Wrap32(upperLeft.x - v.symbolWidth2));
        }
        if v.softWrapAt(i + 1) {
          right := Max(right, Wrap32(upperLeft.x + v.wsCharWidth + v.symbolWidth1));
        }
      }
    }
    r := Edges(left, upper, right, bottom, indentRegion);
  }

  /** The offset loop `for (i in selectionStart..selectionEnd)`. */
  method WalkAll(w: Walk, selectedText: string) returns (st: Edges)
    requires w.Valid() && w.s < w.e && w.alwaysTrack && selectedText == w.v.text[w.s..w.e]
    ensures st == Run(w, Start(w.chop), Range(w.s, w.e + 1))
  {
    st := Start(w.chop);
    var i := w.s;
    while i <= w.e
      invariant w.s <= i <= w.e + 1
      invariant st == RunFrom(w, Start(w.chop), w.s, i)
    {
      st := VisitOffset(w, st, i, selectedText);
      i := i + 1;
    }
    assert i == w.e + 1;
    RunFromIsRun(w, Start(w.chop), w.s, w.e + 1);
  }

  /** `calculateSelectionArea(editor, selectionStart, selectionEnd)`; `chop` is the
      builder's `chopIndentation` option. */
  method CalculateSelectionArea(v: View, s: int, e: int, chop: bool) returns (r: Rect)
    requires 0 <= s <= e <= |v.text|
    ensures r == PerOffsetArea(v, s, e, chop)
  {
    var selectedText := v.text[s..e];
    var st: Edges;
    if |selectedText| == 0 {
      st := EditorUtils.LineEdges(v, v.LineCount() + 1);
    } else {
      st := WalkAll(Walk(v, s, e, chop, true), selectedText);
    }
    r := EditorUtils.FrameEdges(v, st);
  }

  /** The walk's top edge is the selection start's y and its bottom edge the selection
      end's y. */
  lemma PerOffsetUpperBottom(v: View, s: int, e: int, chop: bool)
    requires 0 <= s < e <= |v.text|
    ensures var st := Run(Walk(v, s, e, chop, true), Start(chop), Range(s, e + 1));
            st.upper == v.xy(s).y && st.bottom == v.xy(e).y
  {
    var a := Range(s, e + 1);
    assert a[0] == s && a[e - s] == e;
    UpperBottomOnlyAtEnds(Walk(v, s, e, chop, true), Start(chop), a);
  }

  /** A line break inside the selection re-opens the indentation: when chopping, the
      first character after it that is not whitespace lowers the left edge to its x. */
  lemma PerOffsetLeftAfterBreak(v: View, s: int, e: int, i: int)
    requires 0 <= s < i - 1 && i < e <= |v.text|
    requires v.text[i - 1] == '\n' && !IsJavaWhitespace(v.text[i])
    ensures Run(Walk(v, s, e, true, true), Start(true), Range(s, e + 1)).left <= v.xy(i).x
  {
    var w := Walk(v, s, e, true, true);
    var a := Range(s, e + 1);
    var k := i - s;
    assert a[k] == i && a[k - 1] == i - 1;
    var before := a[..k];
    assert before[..k - 1] == a[..k - 1];
    IndentAfterSnoc(w, before);
    assert Lead(w, a, k);
    assert LeftCandidate(w, a, k, v.xy(i).x);
    LeftBound(w, Start(true), a);
  }

  /** Every offset of the selection is walked, line breaks included, so with chopping
      `indentRegion` after the walk is exactly "only whitespace since the last line
      break". */
  lemma PerOffsetIndent(v: View, s: int, e: int, chop: bool)
    requires 0 <= s < e <= |v.text|
    ensures Run(Walk(v, s, e, chop, true), Start(chop), Range(s, e + 1)).indent
            == IndentAfter(Walk(v, s, e, chop, true), Range(s, e + 1))
  {
    IndentRegionMeaning(Walk(v, s, e, chop, true), Start(chop), Range(s, e + 1));
  }

  // ================================================================ takeScreenshot

  /** The sizes `takeScreenshot` computes: the inner frame holds the gutter and the
      selection scaled, the frame adds the scaled padding on both sides. */
  datatype FrameSize = FrameSize(innerWidth: int, innerHeight: int, width: int, height: int)

  /** `innerFrameWidth = ((gutterCompWidth + bounds.width) * scaleRatio).toInt()`,
      `innerFrameHeight = (bounds.height * scaleRatio).toInt()` and each frame side
      `(inner + 2 * padding * scaleRatio).toInt()`, the sums and products of `Int`s in
      32-bit arithmetic. */
  function FrameSizes(gutterWidth: int, bounds: Rect, scale: real, padding: int): FrameSize
  {
    var innerWidth := Trunc(Wrap32(gutterWidth + bounds.width) as real * scale);
    var innerHeight := Trunc(bounds.height as real * scale);
    FrameSize(innerWidth, innerHeight, PaddedSide(innerWidth, padding, scale), PaddedSide(innerHeight, padding, scale))
  }

  /** `(inner + 2 * padding * scaleRatio).toInt()`. */
  function PaddedSide(inner: int, padding: int, scale: real): int
  {
    Trunc(inner as real + Wrap32(2 * padding) as real * scale)
  }

  /** Padding a whole number of pixels adds exactly the truncated scaled padding. */
  lemma PaddedSideIsSum(inner: int, padding: int, scale: real)
    requires 0 <= inner && scale > 0.0 && 0 <= padding && 2 * padding <= INT_MAX
    ensures PaddedSide(inner, padding, scale) == inner + Trunc((2 * padding) as real * scale)
  {
    var pad := (2 * padding) as real * scale;
    Scaled(2 * padding, scale);
    TruncAddWhole(pad, inner);
    assert inner as real + pad == pad + inner as real;
  }

  /** With a positive scale, a non-negative padding and sizes that fit an `Int`, the
      inner frame has no negative side and the frame is the inner frame plus exactly the
      truncated scaled double padding on each axis. */
  lemma FramePadded(gutterWidth: int, bounds: Rect, scale: real, padding: int)
    requires scale > 0.0 && 0 <= padding && 2 * padding <= INT_MAX
    requires 0 <= gutterWidth + bounds.width <= INT_MAX && 0 <= bounds.height
    ensures var f := FrameSizes(gutterWidth, bounds, scale, padding);
            var pad := Trunc((2 * padding) as real * scale);
            && f.innerWidth >= 0 && f.innerHeight >= 0
            && f.width == f.innerWidth + pad && f.height == f.innerHeight + pad
  {
    var n := gutterWidth + bounds.width;
    assert Wrap32(n) == n;
    Scaled(bounds.height, scale);
    Scaled(n, scale);
    var f := FrameSizes(gutterWidth, bounds, scale, padding);
    PaddedSideIsSum(f.innerWidth, padding, scale);
    PaddedSideIsSum(f.innerHeight, padding, scale);
  }

  /** A non-negative whole size scaled by a positive factor is not negative. */
  lemma Scaled(n: int, scale: real)
    requires 0 <= n && scale > 0.0
    ensures n as real * scale >= 0.0
  {
  }

  /** What `padding(palette, editor, divider)` fills on a palette whose clip bounds are
      `width` x `height`: nothing unless the padding is positive; otherwise the gutter
      background from the left edge to the divider, the editor background over the
      folding area at the gutter's separator, and the editor background from the divider
      to the right. `separatorX` and `foldingWidth` are the gutter's
      `whitespaceSeparatorOffset` and folding-area width. */
  function PaddingBands(padding: int, divider: int, separatorX: int, foldingWidth: int, width: int, height: int)
    : seq<Rect>
  {
    if padding <= 0 then []
    else
      [Rect(0, 0, Wrap32(padding + divider), height),
       Rect(Wrap32(padding + separatorX), 0, foldingWidth, height),
       Rect(Wrap32(padding + divider), 0, Wrap32(Wrap32(width - divider) + padding), height)]
  }

  /** Bands are drawn exactly when the padding is positive; then each spans the whole
      height, and (without overflow) the gutter band ends where the editor band starts and
      the editor band reaches the palette's width plus twice the padding. */
  lemma PaddingGuard(padding: int, divider: int, separatorX: int, foldingWidth: int, width: int, height: int)
    requires INT_MIN <= padding + divider <= INT_MAX && INT_MIN <= width - divider <= INT_MAX
    requires INT_MIN <= width - divider + padding <= INT_MAX
    ensures var b := PaddingBands(padding, divider, separatorX, foldingWidth, width, height);
            && (b == [] <==> padding <= 0)
            && (forall k :: 0 <= k < |b| ==> b[k].y == 0 && b[k].height == height)
            && (b != [] ==>
                  b[0].x == 0 && b[0].MaxX() == b[2].x == padding + divider && b[2].MaxX() == width + 2 * padding)
  {
  }

  /** The regions `content(palette, editor, bounds)` paints into: the gutter at the left
      and the editor content beside it, both shifted up by `bounds.y`, and the shift of the
      content by `-bounds.x`. */
  datatype Regions = Regions(gutter: Rect, content: Rect, shiftX: int)

  function ContentRegions(gutterWidth: int, bounds: Rect): Regions
  {
    var height := Wrap32(bounds.height + bounds.y);
    Regions(Rect(0, Wrap32(-bounds.y), gutterWidth, height),
            Rect(gutterWidth, Wrap32(-bounds.y), bounds.width, height),
            Wrap32(-bounds.x))
  }

  /** Without overflow, the gutter region ends where the content region starts, both end
      at `bounds.height` on the inner palette, the selection's top lands at y = 0, and the
      selection's left edge lands at the content region's left edge. */
  lemma ContentAligned(gutterWidth: int, bounds: Rect)
    requires INT_MIN < bounds.x && INT_MIN < bounds.y <= INT_MAX && bounds.x <= INT_MAX
    requires INT_MIN <= bounds.height + bounds.y <= INT_MAX
    ensures var r := ContentRegions(gutterWidth, bounds);
            && r.gutter.MaxX() == r.content.x == gutterWidth
            && r.content.width == bounds.width
            && r.gutter.y == r.content.y && r.gutter.y + bounds.y == 0
            && r.gutter.MaxY() == r.content.MaxY() == bounds.height
            && r.content.x + bounds.x + r.shiftX == gutterWidth
  {
  }

  /** What a finished screenshot is made of: the selection bounds, the sizes, the padding
      bands and the content regions. */
  datatype Screenshot = Screenshot(bounds: Rect, size: FrameSize, bands: seq<Rect>, regions: Regions)

  /** `AdvancedImageBuilder(options)` with its `snapshot` field. */
  class Builder {
    const options: KotlinOptions.State
    var snapshot: EditorUtils.StateSnapshot?

    constructor (options: KotlinOptions.State)
      ensures this.options == options && snapshot == null
    {
      this.options := options;
      snapshot := null;
    }

    /** `isCapable(editor)`: the editor is an `EditorEx`. */
    static predicate IsCapable(editor: Editor?)
    {
      editor != null && editor.isEx
    }

    /** `takeScreenshot(editor)`. `v` is the layout of the tweaked editor; `gutterWidth`,
        `separatorX` and `foldingWidth` are its gutter's sizes; `paintFailure` is what the
        painting threw, if it threw. The cast to `EditorEx` throws a `NullPointerException`
        for a null editor and a `ClassCastException` for any other editor that is not one;
        `BufferedImage` refuses a side that is not positive. The snapshot is restored only
        when painting succeeds: on a failure the editor stays tweaked. */
    method TakeScreenshot(editor: Editor?, v: View, gutterWidth: int, separatorX: int, foldingWidth: int,
                          paintFailure: Option<Thrown>)
      returns (r: Result<Screenshot, Thrown>)
      requires editor != null ==> 0 <= editor.selectionStart <= editor.selectionEnd <= |v.text|
      requires editor != null ==> editor.State().Coherent()
      modifies this, editor
      ensures editor == null ==> r == Failure(NullPointerException) && snapshot == old(snapshot)
      ensures editor != null && !editor.isEx ==> r == Failure(ClassCastException) && snapshot == old(snapshot)
      ensures IsCapable(editor) ==>
        var bounds := PerOffsetArea(v, old(editor.selectionStart), old(editor.selectionEnd), options.chopIndentation);
        var size := FrameSizes(gutterWidth, bounds, options.scale, options.padding);
        && fresh(snapshot) && snapshot.editor == editor
        && (if size.width <= 0 || size.height <= 0 then
              r == Failure(RuntimeFailure)
              && editor.State() == EditorUtils.Tweaked(old(editor.State()), editor.lastLineEnd, options)
            else if paintFailure.Some? then
              r == Failure(paintFailure.value)
              && editor.State() == EditorUtils.Tweaked(old(editor.State()), editor.lastLineEnd, options)
            else
              r == Success(Screenshot(bounds, size,
                                      PaddingBands(options.padding, gutterWidth, separatorX, foldingWidth, size.width, size.height),
                                      ContentRegions(gutterWidth, bounds)))
              && editor.State() == old(editor.State()).(caretEnabled := true))
    {
      if editor == null {
        return Failure(NullPointerException);
      }
      if !editor.isEx {
        return Failure(ClassCastException);
      }
      var snap := new EditorUtils.StateSnapshot(editor);
      snapshot := snap;
      snap.TweakEditor(options);
      var bounds := CalculateSelectionArea(v, snap.selectionStart, snap.selectionEnd, options.chopIndentation);
      var size := FrameSizes(gutterWidth, bounds, options.scale, options.padding);
      if size.width <= 0 || size.height <= 0 {
        return Failure(RuntimeFailure);
      }
      var bands := PaddingBands(options.padding, gutterWidth, separatorX, foldingWidth, size.width, size.height);
      var regions := ContentRegions(gutterWidth, bounds);
      if paintFailure.Some? {
        return Failure(paintFailure.value);
      }
      snap.Restore();
      r := Success(Screenshot(bounds, size, bands, regions));
    }
  }

  // ---------------------------------------------------------------- a two-line sample

  /** A view of the document " a\nb" whose first line is drawn at y = 0 and second at
      y = 20, in a font 10 pixels wide, without soft wraps: the ' ' at x = 0, the 'a' at
      x = 10, the line break at x = 20, the 'b' at x = 0 and the end at x = 10. */
  predicate IsSample(v: View)
  {
    && v.text == " a\nb" && v.lineStarts == [0, 3] && !v.softWrapping
    && v.lineHeight == 20 && v.scaledPixel == 1
    && v.xy(0) == Point(0, 0) && v.xy(1) == Point(10, 0) && v.xy(2) == Point(20, 0)
    && v.xy(3) == Point(0, 20) && v.xy(4) == Point(10, 20)
  }

  /** One such view, laid out in a monospace font with no inlays. */
  function SampleView(): (v: View)
    ensures IsSample(v)
  {
    View(" a\nb", [0, 3],
         o => if o < 3 then Point(10 * o, 0) else Point(10 * (o - 3), 20),
         k => if k == 0 then 2 else 4,
         k => [], o => false, false, 20, 10, 0, 0, 1, [], 0)
  }

  lemma SampleValid(v: View)
    requires IsSample(v)
    ensures v.Valid() && |v.text| == 4
  {
    assert v.LineEnd(0) == 2 && v.LineEnd(1) == 4;
  }

  /** The line-bounded loop visits the ' ', the 'a' and the 'b', not the line break. */
  lemma SampleLineVisits(v: View)
    requires IsSample(v)
    ensures v.Valid() && EditorUtils.LineVisits(v, 0, 4) == [0, 1, 3]
  {
    SampleValid(v);
    EditorUtils.LineVisitsAreNonBreaks(v, 0, 4);
    assert EditorUtils.NonBreaks(v.text, 0, 1) == [0];
    assert EditorUtils.NonBreaks(v.text, 0, 2) == [0, 1];
    assert EditorUtils.NonBreaks(v.text, 0, 3) == [0, 1];
  }

  /** On the sample, the line-bounded area of the whole text, chopping, misses the second
      line and the 'b' at its start: it is one pixel wide at x = 10 and one line high. */
  lemma LineBoundedSample(v: View)
    requires IsSample(v)
    ensures v.Valid() && |v.text| == 4
    ensures EditorUtils.LineBoundedArea(v, 0, 4, true, true) == Rect(10, 0, 1, 20)
  {
    SampleLineVisits(v);
    var w := Walk(v, 0, 4, true, false);
    var a := [0, 1, 3];
    assert a[..2] == [0, 1] && a[..2][..1] == [0] && a[..2][..1][..0] == [];
    assert !IsJavaWhitespace('a');
    assert Run(w, Start(true), [0]) == Edges(INT_MAX, 0, 0, 0, true);
    assert Run(w, Start(true), [0, 1]) == Edges(10, 0, 10, 0, false);
    assert Run(w, Start(true), a) == Edges(10, 0, 10, 0, false);
  }

  /** On the sample, the per-offset area of the whole text, chopping, holds both lines
      and starts at the 'b' in column 0. */
  lemma PerOffsetSample(v: View)
    requires IsSample(v)
    ensures |v.text| == 4
    ensures PerOffsetArea(v, 0, 4, true) == Rect(0, 0, 21, 40)
  {
    var w := Walk(v, 0, 4, true, true);
    var a := Range(0, 5);
    assert a == [0, 1, 2, 3, 4];
    assert a[..4] == [0, 1, 2, 3] && a[..4][..3] == [0, 1, 2] && a[..4][..3][..2] == [0, 1];
    assert a[..4][..3][..2][..1] == [0] && a[..4][..3][..2][..1][..0] == [];
    assert !IsJavaWhitespace('a') && !IsJavaWhitespace('b');
    assert Run(w, Start(true), [0]) == Edges(INT_MAX, 0, 0, 0, true);
    assert Run(w, Start(true), [0, 1]) == Edges(10, 0, 10, 0, false);
    assert Run(w, Start(true), [0, 1, 2]) == Edges(10, 0, 20, 0, true);
    assert Run(w, Start(true), [0, 1, 2, 3]) == Edges(0, 0, 20, 0, false);
    assert Run(w, Start(true), a) == Edges(0, 0, 20, 20, false);
  }
}
