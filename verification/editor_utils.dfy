/** `EditorUtils.kt`: the line-bounded `calculateSelectionArea`, `includePoint`, the
    line-bounded `getSelectionRectangle`, `StateSnapshot`, `resetEditor` and `EditorState`. */
module EditorUtils {
  import opened Wrappers
  import opened Platform
  import opened Host
  import opened Constants
  import opened SelectionGeometry
  import KotlinOptions

  // ================================================================ lines

  /** The offsets the loop visits on one line: `actualStart until actualEnd`. */
  function Segment(v: View, s: int, e: int, line: int): (r: seq<int>)
    requires 0 <= line < v.LineCount()
    ensures forall k :: 0 <= k < |r| ==> s <= r[k] < e
  {
    Range(Max(v.lineStarts[line], s), Min(v.LineEnd(line), e))
  }

  /** The offsets visited on lines lo .. hi - 1, in order. */
  function Segments(v: View, s: int, e: int, lo: int, hi: int): (r: seq<int>)
    requires 0 <= lo && hi <= v.LineCount()
    decreases hi
  {
    if hi <= lo then [] else Segments(v, s, e, lo, hi - 1) + Segment(v, s, e, hi - 1)
  }

  /** Every visited offset lies in the selection [s, e). */
  lemma {:induction false} SegmentsWithin(v: View, s: int, e: int, lo: int, hi: int)
    requires 0 <= lo && hi <= v.LineCount()
    decreases hi
    ensures forall k :: 0 <= k < |Segments(v, s, e, lo, hi)| ==> s <= Segments(v, s, e, lo, hi)[k] < e
  {
    if lo < hi {
      SegmentsWithin(v, s, e, lo, hi - 1);
    }
  }

  /** The offsets the line-bounded loop visits for the selection [s, e): the segments of
      the lines from the one holding s to the one holding e. */
  function LineVisits(v: View, s: int, e: int): (r: seq<int>)
    requires v.Valid() && 0 <= s <= e
    ensures forall k :: 0 <= k < |r| ==> s <= r[k] < e
  {
    SegmentsWithin(v, s, e, LineOf(v, s), LineOf(v, e) + 1);
    Segments(v, s, e, LineOf(v, s), LineOf(v, e) + 1)
  }

  /** Reference: the offsets in [lo, hi) that do not hold a line break, in order. */
  function NonBreaks(text: string, lo: int, hi: int): seq<int>
    requires 0 <= lo && hi <= |text|
    decreases hi
  {
    if hi <= lo then []
    else NonBreaks(text, lo, hi - 1) + (if text[hi - 1] == '\n' then [] else [hi - 1])
  }

  /** Every offset `NonBreaks` lists lies in [lo, hi) and holds no line break. */
  lemma {:induction false} NonBreaksSound(text: string, lo: int, hi: int)
    requires 0 <= lo && hi <= |text|
    decreases hi
    ensures forall k :: 0 <= k < |NonBreaks(text, lo, hi)| ==>
              lo <= NonBreaks(text, lo, hi)[k] < hi && text[NonBreaks(text, lo, hi)[k]] != '\n'
  {
    if lo < hi {
      NonBreaksSound(text, lo, hi - 1);
    }
  }

  /** `NonBreaks` lists its offsets in increasing order. */
  lemma {:induction false} NonBreaksIncreasing(text: string, lo: int, hi: int)
    requires 0 <= lo && hi <= |text|
    decreases hi
    ensures forall j, k :: 0 <= j < k < |NonBreaks(text, lo, hi)| ==> NonBreaks(text, lo, hi)[j] < NonBreaks(text, lo, hi)[k]
  {
    if lo < hi {
      NonBreaksIncreasing(text, lo, hi - 1);
      NonBreaksSound(text, lo, hi - 1);
    }
  }

  /** Every offset of [lo, hi) without a line break is listed by `NonBreaks`. */
  lemma {:induction false} NonBreaksComplete(text: string, lo: int, hi: int, i: int)
    requires 0 <= lo <= i < hi <= |text| && text[i] != '\n'
    decreases hi
    ensures i in NonBreaks(text, lo, hi)
  {
    if i < hi - 1 {
      NonBreaksComplete(text, lo, hi - 1, i);
    }
  }

  /** `NonBreaks` holds exactly the offsets of [lo, hi) without a line break, increasing. */
  lemma NonBreaksMeaning(text: string, lo: int, hi: int)
    requires 0 <= lo && hi <= |text|
    ensures forall i :: i in NonBreaks(text, lo, hi) <==> lo <= i < hi && text[i] != '\n'
    ensures forall j, k :: 0 <= j < k < |NonBreaks(text, lo, hi)| ==> NonBreaks(text, lo, hi)[j] < NonBreaks(text, lo, hi)[k]
  {
    NonBreaksSound(text, lo, hi);
    NonBreaksIncreasing(text, lo, hi);
    forall i | lo <= i < hi && text[i] != '\n'
      ensures i in NonBreaks(text, lo, hi)
    {
      NonBreaksComplete(text, lo, hi, i);
    }
  }

  lemma {:induction false} NonBreaksSplit(text: string, lo: int, mid: int, hi: int)
    requires 0 <= lo <= mid <= hi <= |text|
    ensures NonBreaks(text, lo, hi) == NonBreaks(text, lo, mid) + NonBreaks(text, mid, hi)
    decreases hi
  {
    if mid < hi {
      NonBreaksSplit(text, lo, mid, hi - 1);
      var x := if text[hi - 1] == '\n' then [] else [hi - 1];
      calc {
        NonBreaks(text, lo, hi);
        NonBreaks(text, lo, hi - 1) + x;
        (NonBreaks(text, lo, mid) + NonBreaks(text, mid, hi - 1)) + x;
        NonBreaks(text, lo, mid) + (NonBreaks(text, mid, hi - 1) + x);
        NonBreaks(text, lo, mid) + NonBreaks(text, mid, hi);
      }
    } else {
      assert NonBreaks(text, mid, hi) == [];
      assert NonBreaks(text, lo, mid) + [] == NonBreaks(text, lo, mid);
    }
  }

  lemma {:induction false} NonBreaksPlain(text: string, lo: int, hi: int)
    requires 0 <= lo && hi <= |text|
    requires forall j :: lo <= j < hi ==> text[j] != '\n'
    ensures NonBreaks(text, lo, hi) == Range(lo, hi)
    decreases hi
  {
    if lo < hi {
      NonBreaksPlain(text, lo, hi - 1);
    }
  }

  /** Line starts are ordered like their indices. */
  lemma StartsOrdered(v: View, j: int, k: int)
    requires v.Valid() && 0 <= j && k < v.LineCount()
    ensures j <= k ==> v.lineStarts[j] <= v.lineStarts[k]
    ensures j < k ==> v.lineStarts[j] < v.lineStarts[k]
  {
  }

  lemma LineOfMonotone(v: View, a: int, b: int)
    requires v.Valid() && 0 <= a <= b
    ensures LineOf(v, a) <= LineOf(v, b)
  {
    var la, lb := LineOf(v, a), LineOf(v, b);
    if lb < la {
      StartsOrdered(v, lb + 1, la);
    }
  }

  /** On the line holding s, the loop visits the offsets from s to the end of the line's
      text (or the selection end), none of which holds a line break. */
  lemma FirstSegment(v: View, s: int, e: int)
    requires v.Valid() && 0 <= s <= e <= |v.text|
    ensures Segment(v, s, e, LineOf(v, s)) == NonBreaks(v.text, s, Min(v.LineEnd(LineOf(v, s)), e))
  {
    var f := LineOf(v, s);
    var hi := Min(v.LineEnd(f), e);
    assert forall j :: s <= j < hi ==> v.text[j] != '\n';
    NonBreaksPlain(v.text, s, hi);
  }

  /** Past a line break at m - 1, a run of offsets without breaks extends the breaks-free
      offsets found before it. */
  lemma AfterBreak(text: string, s: int, m: int, hi: int)
    requires 0 <= s < m <= hi <= |text| && text[m - 1] == '\n'
    requires forall j :: m <= j < hi ==> text[j] != '\n'
    ensures NonBreaks(text, s, m - 1) + Range(m, hi) == NonBreaks(text, s, hi)
  {
    NonBreaksSplit(text, s, m - 1, hi);
    NonBreaksSplit(text, m - 1, m, hi);
    assert NonBreaks(text, m - 1, m) == NonBreaks(text, m - 1, m - 1) + [];
    NonBreaksPlain(text, m, hi);
  }

  /** On a later line L, the loop visits the line's text up to the selection end: what
      the selection adds past the line break that ends line L - 1. */
  lemma LaterSegment(v: View, s: int, e: int, L: int)
    requires v.Valid() && 0 <= s <= e <= |v.text| && LineOf(v, s) < L < v.LineCount()
    ensures NonBreaks(v.text, s, Min(v.LineEnd(L - 1), e)) + Segment(v, s, e, L)
         == NonBreaks(v.text, s, Min(v.LineEnd(L), e))
  {
    var f := LineOf(v, s);
    var m := v.lineStarts[L];
    var hi := Min(v.LineEnd(L), e);
    StartsOrdered(v, f + 1, L);
    assert s < m <= v.LineEnd(L) && v.LineEnd(L - 1) == m - 1;
    if e <= m - 1 {
      assert Segment(v, s, e, L) == [];
      assert hi == e && Min(v.LineEnd(L - 1), e) == e;
      assert NonBreaks(v.text, s, e) + [] == NonBreaks(v.text, s, e);
    } else {
      assert Segment(v, s, e, L) == Range(m, hi);
      AfterBreak(v.text, s, m, hi);
    }
  }

  /** Chaining the segments of lines f .. L: when the first one and every later one
      extend the breaks-free offsets found so far, so do all of them together. */
  lemma {:induction false} ChainSegments(v: View, s: int, e: int, f: int, L: int)
    requires 0 <= s <= e <= |v.text| && 0 <= f <= L < v.LineCount()
    requires Segment(v, s, e, f) == NonBreaks(v.text, s, Min(v.LineEnd(f), e))
    requires forall l :: f < l <= L ==>
               NonBreaks(v.text, s, Min(v.LineEnd(l - 1), e)) + Segment(v, s, e, l)
               == NonBreaks(v.text, s, Min(v.LineEnd(l), e))
    ensures Segments(v, s, e, f, L + 1) == NonBreaks(v.text, s, Min(v.LineEnd(L), e))
    decreases L
  {
    if L == f {
      assert Segments(v, s, e, f, f + 1) == [] + Segment(v, s, e, f);
    } else {
      ChainSegments(v, s, e, f, L - 1);
      assert Segments(v, s, e, f, L + 1) == Segments(v, s, e, f, L) + Segment(v, s, e, L);
    }
  }

  /** The segments of the lines from the one holding s up to line L are the offsets of
      [s, end of line L) that hold no line break. */
  lemma SegmentsAreNonBreaks(v: View, s: int, e: int, L: int)
    requires v.Valid() && 0 <= s <= e <= |v.text| && LineOf(v, s) <= L < v.LineCount()
    ensures Segments(v, s, e, LineOf(v, s), L + 1) == NonBreaks(v.text, s, Min(v.LineEnd(L), e))
  {
    var f := LineOf(v, s);
    FirstSegment(v, s, e);
    forall l | f < l <= L
      ensures NonBreaks(v.text, s, Min(v.LineEnd(l - 1), e)) + Segment(v, s, e, l)
              == NonBreaks(v.text, s, Min(v.LineEnd(l), e))
    {
      LaterSegment(v, s, e, l);
    }
    ChainSegments(v, s, e, f, L);
  }

  /** The line-bounded loop visits, in increasing order, exactly the offsets of the
      selection [s, e) that do not hold a line break. */
  lemma LineVisitsAreNonBreaks(v: View, s: int, e: int)
    requires v.Valid() && 0 <= s <= e <= |v.text|
    ensures LineVisits(v, s, e) == NonBreaks(v.text, s, e)
  {
    LineOfMonotone(v, s, e);
    var L := LineOf(v, e);
    SegmentsAreNonBreaks(v, s, e, L);
    assert Min(v.LineEnd(L), e) == e;
  }

  // ================================================================ calculateSelectionArea

  /** What the line-bounded `calculateSelectionArea` returns: for an empty selection the
      frame of the whole document's lines; without a project `Rectangle()`; otherwise the
      frame of the edges the walk over the line segments leaves. */
  function LineBoundedArea(v: View, s: int, e: int, chop: bool, hasProject: bool): Rect
    requires v.Valid() && 0 <= s <= e <= |v.text|
  {
    if s == e then Frame(v, Extent(v, v.LineCount()))
    else if !hasProject then EmptyRect
    else Frame(v, Run(Walk(v, s, e, chop, false), Start(chop), LineVisits(v, s, e)))
  }

  /** The empty-selection loop over lines 0 .. lineCount - 1: raise the right edge to each
      soft-wrap stop and to the line end, and take the bottom from the line end. */
  method LineEdges(v: View, lineCount: nat) returns (st: Edges)
    ensures st == Extent(v, lineCount)
  {
    var right, bottom := 0, 0;
    var i := 0;
    while i < lineCount
      invariant 0 <= i <= lineCount
      invariant Edges(0, 0, right, bottom, true) == Extent(v, i)
    {
      var stops := v.wrapStops(i);
      var k := 0;
      while k < |stops|
        invariant 0 <= k <= |stops|
        invariant right == StopsRight(v, stops[..k], Extent(v, i).right)
      {
        assert stops[..k + 1][..k] == stops[..k];
        var point := v.xy(stops[k] - 1);
        right := Max(right, Wrap32(point.x + v.wsCharWidth + v.symbolWidth1));
        k := k + 1;
      }
      assert stops[..|stops|] == stops;
      var point := v.xy(v.lineEndAt(i));
      right := Max(right, point.x);
      bottom := point.y;
      i := i + 1;
    }
    st := Edges(0, 0, right, bottom, true);
  }

  /** The loop body at offset i of a non-empty selection; `selectedText` is the text of
      [s, e). */
  method VisitOffset(w: Walk, st: Edges, i: int, selectedText: string) returns (r: Edges)
    requires w.Valid() && w.s <= i < w.e && !w.alwaysTrack && selectedText == w.v.text[w.s..w.e]
    ensures r == Step(w, st, i)
  {
    var left, upper, right, bottom, indentRegion := st.left, st.upper, st.right, st.bottom, st.indent;
    var v := w.v;
    var upperLeft := v.xy(i);
    if i == w.s {
      upper := upperLeft.y;
    } else if i == w.e {
      bottom := upperLeft.y;
    } else {
      right := Max(right, upperLeft.x);
      if w.chop {
        var current := selectedText[i - w.s];
        if current == '\n' {
          indentRegion := true;
        } else if indentRegion && !IsJavaWhitespace(current) {
          indentRegion := false;
          left := Min(left, upperLeft.x);
        }
      }
      if v.softWrapping {
        if v.softWrapAt(i) {
          left := Min(left, Wrap32(upperLeft.x - v.symbolWidth2));
        }
        if v.softWrapAt(i + 1) {
          right := Max(right, Wrap32(upperLeft.x + v.wsCharWidth + v.symbolWidth1));
        }
      }
    }
    r := Edges(left, upper, right, bottom, indentRegion);
  }

  /** The offset loop on one line: `for (i in actualStart until actualEnd)`. */
  method WalkSegment(w: Walk, st: Edges, actualStart: int, actualEnd: int, selectedText: string)
    returns (r: Edges)
    requires w.Valid() && !w.alwaysTrack && selectedText == w.v.text[w.s..w.e]
    requires w.s <= actualStart < actualEnd <= w.e
    ensures r == RunFrom(w, st, actualStart, actualEnd)
  {
    r := st;
    var i := actualStart;
    while i < actualEnd
      invariant actualStart <= i <= actualEnd
      invariant r == RunFrom(w, st, actualStart, i)
    {
      r := VisitOffset(w, r, i, selectedText);
      i := i + 1;
    }
    assert i == actualEnd;
  }

  /** One round of the line loop: clip the line to the selection and walk the part. */
  method WalkLine(w: Walk, st: Edges, startLine: int, line: int, selectedText: string) returns (r: Edges)
    requires w.Valid() && !w.alwaysTrack && selectedText == w.v.text[w.s..w.e]
    requires 0 <= startLine <= line < w.v.LineCount()
    requires InWalk(w, Segments(w.v, w.s, w.e, startLine, line))
    requires st == Run(w, Start(w.chop), Segments(w.v, w.s, w.e, startLine, line))
    ensures InWalk(w, Segments(w.v, w.s, w.e, startLine, line + 1))
    ensures r == Run(w, Start(w.chop), Segments(w.v, w.s, w.e, startLine, line + 1))
  {
    var actualStart := Max(w.v.lineStarts[line], w.s);
    var actualEnd := Min(w.v.LineEnd(line), w.e);
    r := st;
    if actualStart < actualEnd {
      r := WalkSegment(w, st, actualStart, actualEnd, selectedText);
    }
    RunFromAfter(w, Start(w.chop), Segments(w.v, w.s, w.e, startLine, line), actualStart, actualEnd);
  }

  /** The line loop of a non-empty selection: `for (line in startLine..endLine)`. */
  method WalkLines(w: Walk, startLine: int, endLine: int, selectedText: string) returns (st: Edges)
    requires w.Valid() && !w.alwaysTrack && selectedText == w.v.text[w.s..w.e]
    requires 0 <= startLine <= endLine < w.v.LineCount()
    ensures InWalk(w, Segments(w.v, w.s, w.e, startLine, endLine + 1))
    ensures st == Run(w, Start(w.chop), Segments(w.v, w.s, w.e, startLine, endLine + 1))
  {
    st := Start(w.chop);
    var line := startLine;
    while line <= endLine
      invariant startLine <= line <= endLine + 1
      invariant InWalk(w, Segments(w.v, w.s, w.e, startLine, line))
      invariant st == Run(w, Start(w.chop), Segments(w.v, w.s, w.e, startLine, line))
    {
      st := WalkLine(w, st, startLine, line, selectedText);
      line := line + 1;
    }
    assert line == endLine + 1;
  }

  /** The code after the loops: grow the bottom by a line and the width by one scaled
      pixel, set the frame of a `Rectangle2D.Double` and take its integer bounds. */
  method FrameEdges(v: View, st: Edges) returns (r: Rect)
    ensures r == Frame(v, st)
  {
    var bottom := Wrap32(st.bottom + v.lineHeight);
    var contentSize := Dimension(Wrap32(st.right - st.left + v.scaledPixel), Wrap32(bottom - st.upper));
    var selectedView := new Rectangle2D();
    selectedView.SetFrame(Rect(st.left, st.upper, contentSize.width, contentSize.height));
    r := Bounds(selectedView.Value());
  }

  /** `offsetToLogicalPosition(start).line` and `offsetToLogicalPosition(end).line`. */
  method SelectionLines(v: View, start: int, end: int) returns (startLine: int, endLine: int)
    requires v.Valid() && 0 <= start <= end
    ensures startLine == LineOf(v, start) && endLine == LineOf(v, end)
    ensures 0 <= startLine <= endLine < v.LineCount()
  {
    startLine := LineOf(v, start);
    endLine := LineOf(v, end);
    LineOfMonotone(v, start, end);
  }

  /** `calculateSelectionArea(editor, selectionStart, selectionEnd)` in its line-bounded
      form; `options` is the project's `CopyImageOptionsProvider` state. */
  method CalculateSelectionArea(v: View, s: int, e: int, options: KotlinOptions.State, hasProject: bool)
    returns (r: Rect)
    requires v.Valid() && 0 <= s <= e <= |v.text|
    ensures r == LineBoundedArea(v, s, e, options.chopIndentation, hasProject)
  {
    var selectedText := v.text[s..e];
    var st: Edges;
    if |selectedText| == 0 {
      st := LineEdges(v, v.LineCount());
    } else {
      if !hasProject {
        return EmptyRect;
      }
      var startLine, endLine := SelectionLines(v, s, e);
      st := WalkLines(Walk(v, s, e, options.chopIndentation, false), startLine, endLine, selectedText);
    }
    r := FrameEdges(v, st);
  }

  // ================================================================ includePoint, getSelectionRectangle

  /** `includePoint(r, p)`: a null point changes nothing; otherwise an empty rectangle
      becomes the 1 x 1 square at p and any other one grows to take p in. */
  method IncludePoint(r: Rectangle2D, p: Option<Point>)
    modifies r
    ensures r.Value() == if p.None? then old(r.Value()) else Include(old(r.Value()), p.value)
  {
    if p.None? {
      return;
    }
    if r.IsEmpty() {
      r.SetFrame(Rect(p.value.x, p.value.y, 1, 1));
    } else {
      r.Add(p.value);
    }
  }

  /** `getRange(editor)`: the current selection, which for an editor with no selection
      is the empty range at the caret. */
  function GetRange(editor: Editor): (r: TextRange)
    reads editor
    ensures r.startOffset == editor.State().selStart && r.endOffset == editor.State().selEnd
    ensures editor.State().Coherent() && r.startOffset == r.endOffset ==> r.startOffset == editor.caretOffset
  {
    TextRange(editor.selectionStart, editor.selectionEnd)
  }

  /** What the line-bounded `getSelectionRectangle` returns: `Rectangle2D.Double()` for
      empty text; otherwise the marks of the offsets the line loop visits, then the bounds
      of the inlays of the range. */
  function LineBoundedRect(v: View, text: string, start: int, end: int, chop: bool): Rect
    requires v.Valid() && 0 <= start <= end <= |v.text|
  {
    if |text| == 0 then EmptyRect else SelectionRect(v, text, start, end, chop, LineVisits(v, start, end))
  }

  /** The loop body at offset i: skip it when chopping and the text prefix through it
      ends in an empty suffix, otherwise include its point and the point a line below.
      `r0` is the rectangle before offset lo. */
  method MarkOffset(v: View, text: string, start: int, chop: bool, r: Rectangle2D, ghost r0: Rect, lo: int, i: int)
    requires start <= lo <= i && r.Value() == MarkFrom(v, text, start, chop, r0, lo, i)
    modifies r
    ensures r.Value() == MarkFrom(v, text, start, chop, r0, lo, i + 1)
  {
    HasEmptySuffixIff(text[..Min(i - start + 1, |text|)]);
    if chop && FindsEmptySuffix(text[..Min(i - start + 1, |text|)]) {
      return;
    }
    var point := v.xy(i);
    IncludePoint(r, Some(point));
    IncludePoint(r, Some(Point(point.x, point.y + v.lineHeight)));
  }

  /** The offset loop of one line: `for (i in actualStart until actualEnd)`. */
  method MarkSegment(v: View, text: string, start: int, chop: bool, r: Rectangle2D, actualStart: int, actualEnd: int)
    requires start <= actualStart < actualEnd
    modifies r
    ensures r.Value() == MarkFrom(v, text, start, chop, old(r.Value()), actualStart, actualEnd)
  {
    ghost var r0 := r.Value();
    var i := actualStart;
    while i < actualEnd
      invariant actualStart <= i <= actualEnd
      invariant r.Value() == MarkFrom(v, text, start, chop, r0, actualStart, i)
    {
      MarkOffset(v, text, start, chop, r, r0, actualStart, i);
      i := i + 1;
    }
    assert i == actualEnd;
  }

  /** The line loop of `getSelectionRectangle` on the rectangle's value: lines lo .. hi - 1,
      each clipped to the selection. */
  function MarkLinesFrom(v: View, text: string, start: int, end: int, chop: bool, r: Rect, lo: int, hi: int): Rect
    requires 0 <= start && 0 <= lo && hi <= v.LineCount()
    decreases hi
  {
    if hi <= lo then r
    else
      MarkFrom(v, text, start, chop, MarkLinesFrom(v, text, start, end, chop, r, lo, hi - 1),
               Max(v.lineStarts[hi - 1], start), Min(v.LineEnd(hi - 1), end))
  }

  /** The line loop walks the segments of its lines in order. */
  lemma {:induction false} MarkLinesIsMarkRun(v: View, text: string, start: int, end: int, chop: bool, r: Rect, lo: int, hi: int)
    requires 0 <= start && 0 <= lo && hi <= v.LineCount()
    decreases hi
    ensures From(start, Segments(v, start, end, lo, hi))
    ensures MarkLinesFrom(v, text, start, end, chop, r, lo, hi) == MarkRun(v, text, start, chop, r, Segments(v, start, end, lo, hi))
  {
    if lo < hi {
      var done := Segments(v, start, end, lo, hi - 1);
      var a, b := Max(v.lineStarts[hi - 1], start), Min(v.LineEnd(hi - 1), end);
      assert Segments(v, start, end, lo, hi) == done + Range(a, b);
      MarkLinesIsMarkRun(v, text, start, end, chop, r, lo, hi - 1);
      MarkFromAfter(v, text, start, chop, r, done, a, b);
    }
  }

  /** One round of the line loop of `getSelectionRectangle`; `r0` is the rectangle
      before the loop. */
  method MarkLine(v: View, text: string, start: int, end: int, chop: bool, r: Rectangle2D, ghost r0: Rect,
                  startLine: int, line: int)
    requires 0 <= start && 0 <= startLine <= line < v.LineCount()
    requires r.Value() == MarkLinesFrom(v, text, start, end, chop, r0, startLine, line)
    modifies r
    ensures r.Value() == MarkLinesFrom(v, text, start, end, chop, r0, startLine, line + 1)
  {
    var actualStart := Max(v.lineStarts[line], start);
    var actualEnd := Min(v.LineEnd(line), end);
    if actualStart < actualEnd {
      MarkSegment(v, text, start, chop, r, actualStart, actualEnd);
    }
  }

  /** The line loop of `getSelectionRectangle`: `for (line in startLine..endLine)`. */
  method MarkLines(v: View, text: string, start: int, end: int, chop: bool, r: Rectangle2D, startLine: int, endLine: int)
    requires 0 <= start && 0 <= startLine <= endLine < v.LineCount()
    modifies r
    ensures r.Value() == MarkLinesFrom(v, text, start, end, chop, old(r.Value()), startLine, endLine + 1)
  {
    ghost var r0 := r.Value();
    var line := startLine;
    while line <= endLine
      invariant startLine <= line <= endLine + 1
      invariant r.Value() == MarkLinesFrom(v, text, start, end, chop, r0, startLine, line)
    {
      MarkLine(v, text, start, end, chop, r, r0, startLine, line);
      line := line + 1;
    }
    assert line == endLine + 1;
  }

  /** The inlay loop: `r.add(bounds)` for every inlay that has bounds. */
  method AddInlayBounds(r: Rectangle2D, inlays: seq<Inlay>)
    modifies r
    ensures r.Value() == AddInlays(old(r.Value()), inlays)
  {
    var k := 0;
    while k < |inlays|
      invariant 0 <= k <= |inlays|
      invariant r.Value() == AddInlays(old(r.Value()), inlays[..k])
    {
      assert inlays[..k + 1][..k] == inlays[..k];
      var bounds := inlays[k].bounds;
      if bounds.Some? {
        r.AddRectangle(bounds.value);
      }
      k := k + 1;
    }
    assert inlays[..|inlays|] == inlays;
  }

  /** The line-bounded rectangle is the line loop's rectangle with the inlays added. */
  lemma LineBoundedRectIsLoop(v: View, text: string, start: int, end: int, chop: bool)
    requires v.Valid() && 0 <= start <= end <= |v.text| && |text| > 0
    ensures LineOf(v, start) <= LineOf(v, end)
    ensures LineBoundedRect(v, text, start, end, chop)
         == AddInlays(MarkLinesFrom(v, text, start, end, chop, EmptyRect, LineOf(v, start), LineOf(v, end) + 1),
                      InlaysIn(v, start, end))
  {
    LineOfMonotone(v, start, end);
    MarkLinesIsMarkRun(v, text, start, end, chop, EmptyRect, LineOf(v, start), LineOf(v, end) + 1);
    MarkRunIsIncludeAll(v, text, start, chop, EmptyRect, LineVisits(v, start, end));
  }

  /** `getSelectionRectangle(editor, range, text, options)` in its line-bounded form;
      `text` is the document text of the range. */
  method GetSelectionRectangle(v: View, range: TextRange, text: string, options: KotlinOptions.State)
    returns (r: Rectangle2D)
    requires v.Valid() && 0 <= range.startOffset <= range.endOffset <= |v.text|
    ensures fresh(r)
    ensures r.Value() == LineBoundedRect(v, text, range.startOffset, range.endOffset, options.chopIndentation)
  {
    var start, end := range.startOffset, range.endOffset;
    r := new Rectangle2D();
    if |text| == 0 {
      return;
    }
    LineBoundedRectIsLoop(v, text, start, end, options.chopIndentation);
    var startLine, endLine := SelectionLines(v, start, end);
    MarkLines(v, text, start, end, options.chopIndentation, r, startLine, endLine);
    AddInlayBounds(r, InlaysIn(v, start, end));
  }

  /** The line-bounded rectangle covers both points of every offset of the range that is
      not a line break and is not skipped, and every inlay bound of the range. */
  lemma LineBoundedRectCovers(v: View, text: string, start: int, end: int, chop: bool, i: int)
    requires v.Valid() && 0 <= start <= i < end <= |v.text| && |text| > 0
    requires v.text[i] != '\n' && !Skipped(text, start, i, chop)
    ensures LineBoundedRect(v, text, start, end, chop).Covers(v.xy(i))
    ensures LineBoundedRect(v, text, start, end, chop).Covers(Point(v.xy(i).x, v.xy(i).y + v.lineHeight))
  {
    var a := LineVisits(v, start, end);
    LineVisitsAreNonBreaks(v, start, end);
    NonBreaksMeaning(v.text, start, end);
    var k :| 0 <= k < |a| && a[k] == i;
    SelectionRectCovers(v, text, start, end, chop, a);
  }

  // ================================================================ what the line loops leave out

  /** The line-bounded walk stops before the selection end, so `bottomEdge` is never set:
      it stays 0 and the frame ends one line height below y = 0 wherever the selection
      ends. */
  lemma LineBoundedBottomNeverSet(v: View, s: int, e: int, chop: bool)
    requires v.Valid() && 0 <= s < e <= |v.text|
    ensures e !in LineVisits(v, s, e)
    ensures Run(Walk(v, s, e, chop, false), Start(chop), LineVisits(v, s, e)).bottom == 0
  {
    UpperBottomOnlyAtEnds(Walk(v, s, e, chop, false), Start(chop), LineVisits(v, s, e));
  }

  /** The line-bounded walk visits no line break, so `indentRegion`, once cleared, is
      never set again: when chopping it ends true exactly when every interior character
      it visits is whitespace, and only the first non-whitespace character of the whole
      selection can lower the left edge. */
  lemma LineBoundedIndentNeverReset(v: View, s: int, e: int)
    requires v.Valid() && 0 <= s < e <= |v.text|
    ensures var w := Walk(v, s, e, true, false);
            var a := LineVisits(v, s, e);
            Run(w, Start(true), a).indent <==>
              forall k :: 0 <= k < |a| && w.Interior(a[k]) ==> IsJavaWhitespace(v.text[a[k]])
  {
    var w := Walk(v, s, e, true, false);
    var a := LineVisits(v, s, e);
    LineVisitsAreNonBreaks(v, s, e);
    NonBreaksSound(v.text, s, e);
    IndentRegionMeaning(w, Start(true), a);
    assert forall k :: 0 <= k < |a| ==> NoBreakFrom(w, a, k);
  }

  // ================================================================ StateSnapshot

  /** The five settings as the options ask for them. */
  function OptionFlags(o: KotlinOptions.State): Flags
  {
    Flags(o.lineNumbersShown, o.gutterIconsShown, o.foldingOutlineShown, o.indentGuidesShown, o.innerWhitespaceShown)
  }

  /** What `tweakEditor(options)` leaves: `setSelection(0, 0)` removes the selection, so
      the selection start it then reads is the caret offset; with `removeCaret` the caret is
      disabled and moved to the last line's end when that offset is 0, to 0 otherwise; the
      five settings come from the options. */
  function Tweaked(s: EditorView, lastLineEnd: int, o: KotlinOptions.State): EditorView
  {
    var cleared := s.Select(0, 0);
    var hidden :=
      if o.removeCaret then cleared.(caretEnabled := false).MovedTo(if cleared.selStart == 0 then lastLineEnd else 0)
      else cleared;
    hidden.(flags := OptionFlags(o))
  }

  /** What `restore()` leaves: the caret enabled and moved back to the captured offset,
      then the captured selection selected; the settings are put back and the caret row is
      not touched. */
  function Restored(cur: EditorView, caret: int, selStart: int, selEnd: int, flags: Flags): EditorView
  {
    cur.(caretEnabled := true).MovedTo(caret).Select(selStart, selEnd).(flags := flags)
  }

  /** `tweakEditor` always leaves no selection and applies the options' settings; a
      removed caret leaves offset 0 for the last line's end and any other offset for 0;
      without `removeCaret` the caret is left alone; the caret row is never touched. */
  lemma TweakEffect(s: EditorView, lastLineEnd: int, o: KotlinOptions.State)
    ensures var t := Tweaked(s, lastLineEnd, o);
            && t.selStart == t.selEnd == t.caret
            && t.flags.lineNumbers == o.lineNumbersShown && t.flags.gutterIcons == o.gutterIconsShown
            && t.flags.foldingOutline == o.foldingOutlineShown && t.flags.indentGuides == o.indentGuidesShown
            && t.flags.innerWhitespace == o.innerWhitespaceShown
            && (o.removeCaret ==> !t.caretEnabled && t.caret == (if s.caret == 0 then lastLineEnd else 0))
            && (!o.removeCaret ==> t.caretEnabled == s.caretEnabled && t.caret == s.caret)
            && t.caretRow == s.caretRow
  {
  }

  /** Restoring a snapshot of a state `s` an editor can show, after any changes that leave
      the caret row alone, gives back `s` with the caret enabled: the caret offset, the
      selection and all five settings are put back, and a caret that was disabled comes
      back enabled. */
  lemma SnapshotRoundTrip(s: EditorView, t: EditorView)
    requires s.Coherent() && t.caretRow == s.caretRow
    ensures Restored(t, s.caret, s.selStart, s.selEnd, s.flags) == s.(caretEnabled := true)
  {
  }

  /** `StateSnapshot(editor)`: the caret offset, the selection and the five settings of an
      `EditorEx`, taken at construction. */
  class StateSnapshot {
    const editor: Editor
    const caretOffset: int
    const selectionStart: int
    const selectionEnd: int
    const settings: Flags

    constructor (editor: Editor)
      requires editor.isEx
      ensures this.editor == editor
      ensures caretOffset == editor.caretOffset
      ensures selectionStart == editor.selectionStart && selectionEnd == editor.selectionEnd
      ensures settings == editor.Settings()
    {
      this.editor := editor;
      caretOffset := editor.caretOffset;
      selectionStart := editor.selectionStart;
      selectionEnd := editor.selectionEnd;
      settings := editor.Settings();
    }

    /** `tweakEditor(options)`. */
    method TweakEditor(options: KotlinOptions.State)
      requires editor.isEx
      modifies editor
      ensures editor.State() == Tweaked(old(editor.State()), editor.lastLineEnd, options)
    {
      editor.SetSelection(0, 0);
      if options.removeCaret {
        editor.SetCaretEnabled(false);
        var start := editor.selectionStart;
        editor.MoveToOffset(if start == 0 then editor.lastLineEnd else 0);
      }
      editor.ApplySettings(OptionFlags(options));
    }

    /** `restore()`. */
    method Restore()
      requires editor.isEx
      modifies editor
      ensures editor.State() == Restored(old(editor.State()), caretOffset, selectionStart, selectionEnd, settings)
    {
      editor.SetCaretEnabled(true);
      editor.MoveToOffset(caretOffset);
      editor.SetSelection(selectionStart, selectionEnd);
      editor.ApplySettings(settings);
    }
  }

  // ================================================================ resetEditor, EditorState

  /** What `resetEditor(editor, project)` leaves: the selection removed (collapsed onto
      the caret); with `removeCaret` the caret moved to the last line's end when the
      collapsed selection starts at 0 and to 0 otherwise, disabled when the editor is an
      `EditorEx`, and the caret row hidden. */
  function Reset(s: EditorView, lastLineEnd: int, isEx: bool, removeCaret: bool): EditorView
  {
    var cleared := s.(selStart := s.caret, selEnd := s.caret);
    if !removeCaret then cleared
    else
      var moved := cleared.MovedTo(if cleared.selStart == 0 then lastLineEnd else 0);
      (if isEx then moved.(caretEnabled := false) else moved).(caretRow := false)
  }

  /** `resetEditor(editor, project)`; `options` is the project's options state. */
  method ResetEditor(editor: Editor, options: KotlinOptions.State)
    modifies editor
    ensures editor.State() == Reset(old(editor.State()), editor.lastLineEnd, editor.isEx, options.removeCaret)
  {
    editor.RemoveSelection();
    if options.removeCaret {
      var range := GetRange(editor);
      var targetOffset := if range.startOffset == 0 then editor.lastLineEnd else 0;
      editor.MoveToOffset(targetOffset);
      if editor.isEx {
        editor.SetCaretEnabled(false);
      }
      editor.SetCaretRowShown(false);
    }
  }

  /** `resetEditor` leaves no selection and keeps the settings; with `removeCaret` the
      caret leaves offset 0 for the last line's end and any other offset for 0, and the
      caret row is hidden; without it the caret is left alone. */
  lemma ResetEffect(s: EditorView, lastLineEnd: int, isEx: bool, removeCaret: bool)
    ensures var t := Reset(s, lastLineEnd, isEx, removeCaret);
            && t.selStart == t.selEnd
            && t.flags == s.flags
            && (removeCaret ==> t.caret == (if s.caret == 0 then lastLineEnd else 0) && !t.caretRow)
            && (removeCaret && isEx ==> !t.caretEnabled)
            && (!(removeCaret && isEx) ==> t.caretEnabled == s.caretEnabled)
            && (!removeCaret ==> t.caret == s.caret && t.caretRow == s.caretRow)
  {
  }

  /** The target is chosen from the selection read after `removeSelection`, which starts
      at the caret: a selection [0, 5) made left to right, with the caret at its end,
      sends the caret to offset 0, inside the selection being captured. */
  lemma ResetCaretInSelection()
    ensures var s := EditorView(5, true, true, 0, 5, Flags(false, false, false, false, false));
            var c := Reset(s, 10, false, true).caret;
            s.selStart <= c < s.selEnd
  {
  }

  /** What `EditorState.restore(editor)` leaves: nothing changes when the editor has no
      project; otherwise the caret row is put back, with `removeCaret` the caret is
      re-enabled (on an `EditorEx`) and moved back, and the selection is put back. */
  function StateRestored(cur: EditorView, hasProject: bool, isEx: bool, removeCaret: bool,
                         range: TextRange, offset: int, caretRow: bool): EditorView
  {
    if !hasProject then cur
    else
      var row := cur.(caretRow := caretRow);
      var caret := if !removeCaret then row else (if isEx then row.(caretEnabled := true) else row).MovedTo(offset);
      caret.Select(range.startOffset, range.endOffset)
  }

  /** `EditorState(range, offset, caretRow)`: what `createImage` saves before resetting. */
  class EditorState {
    const range: TextRange
    const offset: int
    const caretRow: bool

    constructor (range: TextRange, offset: int, caretRow: bool)
      ensures this.range == range && this.offset == offset && this.caretRow == caretRow
    {
      this.range := range;
      this.offset := offset;
      this.caretRow := caretRow;
    }

    /** `EditorState.from(editor)`: the selection, the caret offset and the caret row. */
    static method From(editor: Editor) returns (st: EditorState)
      ensures fresh(st)
      ensures st.range == TextRange(editor.selectionStart, editor.selectionEnd)
      ensures st.offset == editor.caretOffset && st.caretRow == editor.caretRowShown
    {
      var range := GetRange(editor);
      var offset := editor.caretOffset;
      st := new EditorState(range, offset, editor.caretRowShown);
    }

    /** `restore(editor)`; `removeCaret` is the project's current option. */
    method Restore(editor: Editor, removeCaret: bool)
      modifies editor
      ensures editor.State() == StateRestored(old(editor.State()), editor.hasProject, editor.isEx, removeCaret,
                                              range, offset, caretRow)
    {
      if !editor.hasProject {
        return;
      }
      editor.SetCaretRowShown(caretRow);
      if removeCaret {
        if editor.isEx {
          editor.SetCaretEnabled(true);
        }
        editor.MoveToOffset(offset);
      }
      editor.SetSelection(range.startOffset, range.endOffset);
    }
  }

  /** Saving `s`, resetting and restoring with the same `removeCaret` gives back `s`, except
      that a caret the reset disabled comes back enabled; when the editor has no project
      the restore does nothing and the reset state stays. */
  lemma ResetRoundTrip(s: EditorView, lastLineEnd: int, isEx: bool, hasProject: bool, removeCaret: bool)
    requires s.Coherent()
    ensures var t := Reset(s, lastLineEnd, isEx, removeCaret);
            StateRestored(t, hasProject, isEx, removeCaret, TextRange(s.selStart, s.selEnd), s.caret, s.caretRow)
            == if !hasProject then t
               else if removeCaret && isEx then s.(caretEnabled := true)
               else s
  {
  }
}
