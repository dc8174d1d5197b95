/** The selection geometry shared by the revisions of `calculateSelectionArea` and
    `getSelectionRectangle`: one step of each loop body as a function, the loops as folds
    over the offsets they visit, and what the folds compute, stated independently of them. */
module SelectionGeometry {
  import opened Wrappers
  import opened Platform
  import opened Host
  import opened Constants

  // ================================================================ offsets

  /** The offsets lo, lo + 1, ..., hi - 1 (Kotlin's `lo until hi`). */
  function Range(lo: int, hi: int): (a: seq<int>)
    decreases hi - lo
    ensures |a| == if hi <= lo then 0 else hi - lo
    ensures forall k :: 0 <= k < |a| ==> a[k] == lo + k
  {
    if hi <= lo then [] else Range(lo, hi - 1) + [hi - 1]
  }

  // ================================================================ calculateSelectionArea

  /** The four integer edges `calculateSelectionArea` grows, and its `indentRegion` flag. */
  datatype Edges = Edges(left: int, upper: int, right: int, bottom: int, indent: bool)

  /** One non-empty selection [s, e] being walked. `chop` is `chopIndentation`;
      `alwaysTrack` says the revision updates `indentRegion` even without chopping. */
  datatype Walk = Walk(v: View, s: int, e: int, chop: bool, alwaysTrack: bool)
  {
    predicate Valid() { 0 <= s <= e <= |v.text| }

    /** An offset strictly inside the selection: the only kind that moves left or right. */
    predicate Interior(i: int) { s < i < e }

    /** The revision reads characters at this setting. */
    predicate Tracks() { chop || alwaysTrack }
  }

  /** The edges before the loop: all 0, except a left edge of `Int.MAX_VALUE` when chopping. */
  function Start(chop: bool): Edges
  {
    Edges(if chop then INT_MAX else 0, 0, 0, 0, true)
  }

  /** Where a soft-wrap sign at the start of a visual line puts the left edge. */
  function WrapLeft(v: View, x: int): int { Wrap32(x - v.symbolWidth2) }

  /** Where a soft-wrap sign at the end of a visual line puts the right edge. */
  function WrapRight(v: View, x: int): int { Wrap32(x + v.wsCharWidth + v.symbolWidth1) }

  /** The indentation part of the loop body at an interior offset whose x is `x`. */
  function IndentStep(w: Walk, st: Edges, i: int, x: int): Edges
    requires w.Valid() && w.Interior(i)
  {
    if !w.Tracks() then st
    else if w.v.text[i] == '\n' then st.(indent := true)
    else if st.indent && !IsJavaWhitespace(w.v.text[i]) then
      st.(indent := false, left := if w.chop then Min(st.left, x) else st.left)
    else st
  }

  /** The soft-wrap part of the loop body at an interior offset whose x is `x`. */
  function WrapStep(w: Walk, st: Edges, i: int, x: int): Edges
  {
    if !w.v.softWrapping then st
    else
      var a := if w.v.softWrapAt(i) then st.(left := Min(st.left, WrapLeft(w.v, x))) else st;
      if w.v.softWrapAt(i + 1) then a.(right := Max(a.right, WrapRight(w.v, x))) else a
  }

  /** The loop body at offset i. */
  function Step(w: Walk, st: Edges, i: int): Edges
    requires w.Valid() && w.s <= i <= w.e
  {
    var p := w.v.xy(i);
    if i == w.s then st.(upper := p.y)
    else if i == w.e then st.(bottom := p.y)
    else WrapStep(w, IndentStep(w, st.(right := Max(st.right, p.x)), i, p.x), i, p.x)
  }

  predicate InWalk(w: Walk, a: seq<int>)
  {
    forall k :: 0 <= k < |a| ==> w.s <= a[k] <= w.e
  }

  /** The loop body applied to the offsets of `a` in order. */
  function Run(w: Walk, st: Edges, a: seq<int>): Edges
    requires w.Valid() && InWalk(w, a)
  {
    if a == [] then st else Step(w, Run(w, st, a[..|a| - 1]), a[|a| - 1])
  }

  /** The code after the loops: the bottom grows by a line, the width by one scaled pixel,
      each in 32-bit `Int` arithmetic, and `Rectangle2D.getBounds()` turns a negative size
      into the empty rectangle. */
  function Frame(v: View, st: Edges): Rect
  {
    var bottom := Wrap32(st.bottom + v.lineHeight);
    Bounds(Rect(st.left, st.upper, Wrap32(st.right - st.left + v.scaledPixel), Wrap32(bottom - st.upper)))
  }

  // ---------------------------------------------------------------- empty selection

  /** The right edge after the loop over one line's soft-wrap stops. */
  function StopsRight(v: View, stops: seq<int>, right: int): int
  {
    if stops == [] then right
    else Max(StopsRight(v, stops[..|stops| - 1], right), WrapRight(v, v.xy(stops[|stops| - 1] - 1).x))
  }

  /** The edges after the empty-selection loop has handled lines 0 .. n - 1. */
  function Extent(v: View, n: nat): Edges
  {
    if n == 0 then Start(false)
    else
      var st := Extent(v, n - 1);
      var p := v.xy(v.lineEndAt(n - 1));
      st.(right := Max(StopsRight(v, v.wrapStops(n - 1), st.right), p.x), bottom := p.y)
  }

  /** A value the empty-selection loop raises the right edge to on one line: the line
      end's x, or a soft-wrap stop's x plus the space and wrap-sign widths. */
  ghost predicate LineCandidate(v: View, line: int, val: int)
  {
    val == v.xy(v.lineEndAt(line)).x ||
    exists k :: 0 <= k < |v.wrapStops(line)| && val == WrapRight(v, v.xy(v.wrapStops(line)[k] - 1).x)
  }

  /** A candidate on one of lines 0 .. n - 1. */
  ghost predicate ExtentCandidate(v: View, n: nat, val: int)
  {
    exists line :: 0 <= line < n && LineCandidate(v, line, val)
  }

  lemma {:induction false} StopsRightIsMax(v: View, stops: seq<int>, right: int)
    ensures StopsRight(v, stops, right) >= right
    ensures forall k :: 0 <= k < |stops| ==> StopsRight(v, stops, right) >= WrapRight(v, v.xy(stops[k] - 1).x)
    ensures StopsRight(v, stops, right) == right ||
            exists k :: 0 <= k < |stops| && StopsRight(v, stops, right) == WrapRight(v, v.xy(stops[k] - 1).x)
  {
    if stops != [] {
      var init := stops[..|stops| - 1];
      StopsRightIsMax(v, init, right);
      assert forall k :: 0 <= k < |init| ==> init[k] == stops[k];
    }
  }

  /** The empty-selection loop keeps left and top at 0 and ends with the bottom at the
      last handled line end's y. */
  lemma {:induction false} ExtentEdges(v: View, n: nat)
    ensures Extent(v, n).left == 0 && Extent(v, n).upper == 0
    ensures Extent(v, n).bottom == if n == 0 then 0 else v.xy(v.lineEndAt(n - 1)).y
  {
    if n > 0 {
      ExtentEdges(v, n - 1);
    }
  }

  /** The empty-selection right edge is at least 0 and at least every candidate. */
  lemma {:induction false} ExtentRightBound(v: View, n: nat)
    ensures Extent(v, n).right >= 0
    ensures forall val :: ExtentCandidate(v, n, val) ==> Extent(v, n).right >= val
  {
    if n > 0 {
      ExtentRightBound(v, n - 1);
      var st := Extent(v, n - 1);
      StopsRightIsMax(v, v.wrapStops(n - 1), st.right);
      forall val | ExtentCandidate(v, n, val)
        ensures Extent(v, n).right >= val
      {
        var l :| 0 <= l < n && LineCandidate(v, l, val);
        if l < n - 1 {
          assert ExtentCandidate(v, n - 1, val);
        }
      }
    }
  }

  /** The empty-selection right edge is 0 or one of the candidates: it is their maximum. */
  lemma {:induction false} ExtentRightAttained(v: View, n: nat)
    ensures Extent(v, n).right == 0 || ExtentCandidate(v, n, Extent(v, n).right)
  {
    if n > 0 {
      ExtentRightAttained(v, n - 1);
      var st := Extent(v, n - 1);
      var stops := v.wrapStops(n - 1);
      StopsRightIsMax(v, stops, st.right);
      var r := Extent(v, n).right;
      if r != 0 {
        if r == st.right {
          var l :| 0 <= l < n - 1 && LineCandidate(v, l, r);
          assert LineCandidate(v, l, r);
        } else if r == v.xy(v.lineEndAt(n - 1)).x {
          assert LineCandidate(v, n - 1, r);
        } else {
          var k :| 0 <= k < |stops| && r == WrapRight(v, v.xy(stops[k] - 1).x);
          assert LineCandidate(v, n - 1, r);
        }
      }
    }
  }

  // ---------------------------------------------------------------- non-empty selection

  /** Walking a + b is walking b from where a left off. */
  lemma {:induction false} RunAppend(w: Walk, st: Edges, a: seq<int>, b: seq<int>)
    requires w.Valid() && InWalk(w, a + b)
    ensures InWalk(w, a) && InWalk(w, b)
    ensures Run(w, st, a + b) == Run(w, Run(w, st, a), b)
  {
    assert forall k :: 0 <= k < |a| ==> a[k] == (a + b)[k];
    assert forall k :: 0 <= k < |b| ==> b[k] == (a + b)[|a| + k];
    if b == [] {
      assert a + b == a;
    } else {
      assert (a + b)[..|a + b| - 1] == a + b[..|b| - 1];
      RunAppend(w, st, a, b[..|b| - 1]);
    }
  }

  /** Walking one more offset is one more loop body. */
  lemma RunSnoc(w: Walk, st: Edges, a: seq<int>, i: int)
    requires w.Valid() && InWalk(w, a) && w.s <= i <= w.e
    ensures InWalk(w, a + [i])
    ensures Run(w, st, a + [i]) == Step(w, Run(w, st, a), i)
  {
    assert (a + [i])[..|a|] == a;
  }

  /** The loop body applied to the offsets lo .. hi - 1 in order: `for (i in lo until hi)`. */
  function RunFrom(w: Walk, st: Edges, lo: int, hi: int): Edges
    requires w.Valid() && w.s <= lo && hi <= w.e + 1
    decreases hi
  {
    if hi <= lo then st else Step(w, RunFrom(w, st, lo, hi - 1), hi - 1)
  }

  /** The interval loop is the walk over the interval's offsets ... */
  lemma {:induction false} RunFromIsRun(w: Walk, st: Edges, lo: int, hi: int)
    requires w.Valid() && w.s <= lo && hi <= w.e + 1
    decreases hi
    ensures InWalk(w, Range(lo, hi))
    ensures RunFrom(w, st, lo, hi) == Run(w, st, Range(lo, hi))
  {
    if lo < hi {
      var init := Range(lo, hi - 1);
      assert Range(lo, hi) == init + [hi - 1];
      RunFromIsRun(w, st, lo, hi - 1);
      RunSnoc(w, st, init, hi - 1);
    }
  }

  /** ... and continues a walk over earlier offsets. */
  lemma RunFromAfter(w: Walk, st: Edges, done: seq<int>, lo: int, hi: int)
    requires w.Valid() && InWalk(w, done) && w.s <= lo && hi <= w.e + 1
    ensures InWalk(w, done + Range(lo, hi))
    ensures Run(w, st, done + Range(lo, hi)) == RunFrom(w, Run(w, st, done), lo, hi)
  {
    RunFromIsRun(w, Run(w, st, done), lo, hi);
    var b := Range(lo, hi);
    assert forall k :: 0 <= k < |done + b| ==> (done + b)[k] == if k < |done| then done[k] else b[k - |done|];
    RunAppend(w, st, done, b);
  }

  /** The top edge is set only at the selection start and the bottom edge only at the
      selection end (when it differs from the start). */
  lemma {:induction false} UpperBottomOnlyAtEnds(w: Walk, st: Edges, a: seq<int>)
    requires w.Valid() && InWalk(w, a)
    ensures Run(w, st, a).upper == if w.s in a then w.v.xy(w.s).y else st.upper
    ensures Run(w, st, a).bottom == if w.e in a && w.e != w.s then w.v.xy(w.e).y else st.bottom
  {
    if a != [] {
      var init := a[..|a| - 1];
      assert a == init + [a[|a| - 1]];
      UpperBottomOnlyAtEnds(w, st, init);
    }
  }

  /** No line break among the interior offsets of a[k..]. */
  ghost predicate NoBreakFrom(w: Walk, a: seq<int>, k: int)
    requires w.Valid() && InWalk(w, a) && 0 <= k
  {
    forall m :: k <= m < |a| && w.Interior(a[m]) ==> w.v.text[a[m]] != '\n'
  }

  /** Every interior character walked since the last interior line break (or since the
      start, when there is none) is whitespace. */
  ghost predicate IndentAfter(w: Walk, a: seq<int>)
    requires w.Valid() && InWalk(w, a)
  {
    forall k :: 0 <= k < |a| && w.Interior(a[k]) && NoBreakFrom(w, a, k) ==> IsJavaWhitespace(w.v.text[a[k]])
  }

  /** How "only whitespace since the last line break" changes with one more offset: an
      interior line break makes it hold, an interior other character keeps it only when
      it is whitespace, and an end offset leaves it alone. */
  lemma IndentAfterSnoc(w: Walk, a: seq<int>)
    requires w.Valid() && InWalk(w, a) && a != []
    ensures InWalk(w, a[..|a| - 1])
    ensures IndentAfter(w, a) ==
      var i := a[|a| - 1];
      if !w.Interior(i) then IndentAfter(w, a[..|a| - 1])
      else if w.v.text[i] == '\n' then true
      else IndentAfter(w, a[..|a| - 1]) && IsJavaWhitespace(w.v.text[i])
  {
    var n := |a| - 1;
    var init := a[..n];
    var i := a[n];
    assert forall k :: 0 <= k < n ==> init[k] == a[k];
    assert forall k :: 0 <= k < n ==>
      (NoBreakFrom(w, a, k) <==> NoBreakFrom(w, init, k) && (w.Interior(i) ==> w.v.text[i] != '\n'));
    if !w.Interior(i) {
      assert IndentAfter(w, a) == IndentAfter(w, init);
    } else if w.v.text[i] == '\n' {
      assert !NoBreakFrom(w, a, n);
    } else {
      assert NoBreakFrom(w, a, n);
    }
  }

  /** In a revision that reads characters, `indentRegion` after a walk is exactly
      "only whitespace since the last line break". */
  lemma {:induction false} IndentRegionMeaning(w: Walk, st: Edges, a: seq<int>)
    requires w.Valid() && InWalk(w, a) && w.Tracks() && st.indent
    ensures Run(w, st, a).indent == IndentAfter(w, a)
  {
    if a != [] {
      IndentAfterSnoc(w, a);
      IndentRegionMeaning(w, st, a[..|a| - 1]);
    }
  }

  /** The k-th offset walked is the first non-whitespace character since the last line
      break: where a chopping walk takes its left edge from. */
  ghost predicate Lead(w: Walk, a: seq<int>, k: int)
    requires w.Valid() && InWalk(w, a) && 0 <= k < |a|
  {
    w.Interior(a[k]) && !IsJavaWhitespace(w.v.text[a[k]]) && IndentAfter(w, a[..k])
  }

  /** The values the walk may lower the left edge to at its k-th offset: the x of a lead
      character when chopping, and the x before a soft-wrap sign at a visual line start. */
  ghost predicate LeftCandidate(w: Walk, a: seq<int>, k: int, val: int)
    requires w.Valid() && InWalk(w, a) && 0 <= k < |a|
  {
    w.Interior(a[k]) &&
    ((w.chop && Lead(w, a, k) && val == w.v.xy(a[k]).x) ||
     (w.v.softWrapping && w.v.softWrapAt(a[k]) && val == WrapLeft(w.v, w.v.xy(a[k]).x)))
  }

  /** The values the walk may raise the right edge to at its k-th offset: its x, and the
      x past a soft-wrap sign at a visual line end. */
  ghost predicate RightCandidate(w: Walk, a: seq<int>, k: int, val: int)
    requires w.Valid() && InWalk(w, a) && 0 <= k < |a|
  {
    w.Interior(a[k]) &&
    (val == w.v.xy(a[k]).x ||
     (w.v.softWrapping && w.v.softWrapAt(a[k] + 1) && val == WrapRight(w.v, w.v.xy(a[k]).x)))
  }

  /** The right edge never decreases, and ends at or above every candidate. */
  lemma {:induction false} RightBound(w: Walk, st: Edges, a: seq<int>)
    requires w.Valid() && InWalk(w, a)
    ensures Run(w, st, a).right >= st.right
    ensures forall k, val :: 0 <= k < |a| && RightCandidate(w, a, k, val) ==> Run(w, st, a).right >= val
  {
    if a != [] {
      var n := |a| - 1;
      var init := a[..n];
      assert forall k :: 0 <= k < n ==> init[k] == a[k];
      RightBound(w, st, init);
      assert forall k, val :: 0 <= k < n && RightCandidate(w, a, k, val) ==> RightCandidate(w, init, k, val);
    }
  }

  /** The right edge ends where it started or at one of the candidates. */
  lemma {:induction false} RightAttained(w: Walk, st: Edges, a: seq<int>)
    requires w.Valid() && InWalk(w, a)
    ensures Run(w, st, a).right == st.right ||
            exists k :: 0 <= k < |a| && RightCandidate(w, a, k, Run(w, st, a).right)
  {
    if a != [] {
      var n := |a| - 1;
      var init := a[..n];
      assert forall k :: 0 <= k < n ==> init[k] == a[k];
      RightAttained(w, st, init);
      var r := Run(w, st, a).right;
      if r != Run(w, st, init).right {
        assert RightCandidate(w, a, n, r);
      } else if r != st.right {
        var k :| 0 <= k < n && RightCandidate(w, init, k, r);
        assert RightCandidate(w, a, k, r);
      }
    }
  }

  /** The left edge never increases, and ends at or below every candidate. */
  lemma {:induction false} LeftBound(w: Walk, st: Edges, a: seq<int>)
    requires w.Valid() && InWalk(w, a) && st.indent
    ensures Run(w, st, a).left <= st.left
    ensures forall k, val :: 0 <= k < |a| && LeftCandidate(w, a, k, val) ==> Run(w, st, a).left <= val
  {
    if a != [] {
      var n := |a| - 1;
      var init := a[..n];
      assert forall k :: 0 <= k < n ==> init[k] == a[k];
      assert forall k :: 0 <= k <= n ==> a[..k] == init[..k];
      LeftBound(w, st, init);
      assert forall k, val :: 0 <= k < n && LeftCandidate(w, a, k, val) ==> LeftCandidate(w, init, k, val);
      if w.chop && Lead(w, a, n) {
        IndentRegionMeaning(w, st, init);
      }
    }
  }

  /** The left edge ends where it started or at one of the candidates. */
  lemma {:induction false} LeftAttained(w: Walk, st: Edges, a: seq<int>)
    requires w.Valid() && InWalk(w, a) && st.indent
    ensures Run(w, st, a).left == st.left ||
            exists k :: 0 <= k < |a| && LeftCandidate(w, a, k, Run(w, st, a).left)
  {
    if a != [] {
      var n := |a| - 1;
      var init := a[..n];
      assert forall k :: 0 <= k < n ==> init[k] == a[k];
      assert forall k :: 0 <= k <= n ==> a[..k] == init[..k];
      LeftAttained(w, st, init);
      var l := Run(w, st, a).left;
      if l != Run(w, st, init).left {
        if w.chop {
          IndentRegionMeaning(w, st, init);
        }
        assert LeftCandidate(w, a, n, l);
      } else if l != st.left {
        var k :| 0 <= k < n && LeftCandidate(w, init, k, l);
        assert LeftCandidate(w, a, k, l);
      }
    }
  }

  // ================================================================ getSelectionRectangle

  /** `includePoint(r, p)` for a present point: an empty rectangle becomes the 1 x 1
      square at p; any other rectangle grows to take p in. */
  function Include(r: Rect, p: Point): Rect
  {
    if r.IsEmpty() then Rect(p.x, p.y, 1, 1) else AddPoint(r, p)
  }

  /** With chopping, offset i is skipped when the selected text up to and including it
      ends in a line break followed by whitespace. */
  predicate Skipped(text: string, start: int, i: int, chop: bool)
    requires start <= i
  {
    chop && HasEmptySuffix(text[..Min(i - start + 1, |text|)])
  }

  predicate From(start: int, a: seq<int>)
  {
    forall k :: 0 <= k < |a| ==> start <= a[k]
  }

  /** The points the loop includes, in order: for each offset it does not skip, the
      offset's point and the point one line height below it. */
  function Marks(v: View, text: string, start: int, chop: bool, a: seq<int>): seq<Point>
    requires From(start, a)
  {
    if a == [] then [] else Marks(v, text, start, chop, a[..|a| - 1]) + OffsetMarks(v, text, start, chop, a[|a| - 1])
  }

  /** The points the loop includes for offset i. */
  function OffsetMarks(v: View, text: string, start: int, chop: bool, i: int): seq<Point>
    requires start <= i
  {
    var p := v.xy(i);
    if Skipped(text, start, i, chop) then [] else [p, Point(p.x, p.y + v.lineHeight)]
  }

  /** `includePoint` applied to each point in order. */
  function IncludeAll(r: Rect, pts: seq<Point>): Rect
  {
    if pts == [] then r else Include(IncludeAll(r, pts[..|pts| - 1]), pts[|pts| - 1])
  }

  /** `inlayModel.getInlineElementsInRange(start, end)`: the inline inlays at offsets
      start .. end, both ends included, in document order. */
  function InlaysIn(v: View, start: int, end: int): (r: seq<Inlay>)
    ensures forall k :: 0 <= k < |r| ==> start <= r[k].offset <= end
  {
    Filter(v.inlays, start, end)
  }

  function Filter(inlays: seq<Inlay>, start: int, end: int): (r: seq<Inlay>)
    ensures forall k :: 0 <= k < |r| ==> start <= r[k].offset <= end && r[k] in inlays
    ensures forall k :: 0 <= k < |inlays| && start <= inlays[k].offset <= end ==> inlays[k] in r
  {
    if inlays == [] then []
    else
      var last := inlays[|inlays| - 1];
      Filter(inlays[..|inlays| - 1], start, end) + (if start <= last.offset <= end then [last] else [])
  }

  /** The inlay loop: `r.add(bounds)` for each inlay that has bounds. */
  function AddInlays(r: Rect, inlays: seq<Inlay>): Rect
  {
    if inlays == [] then r
    else
      var last := inlays[|inlays| - 1];
      var q := AddInlays(r, inlays[..|inlays| - 1]);
      if last.bounds.Some? then AddRect(q, last.bounds.value) else q
  }

  /** What `getSelectionRectangle` returns after walking the offsets of `a`. */
  function SelectionRect(v: View, text: string, start: int, end: int, chop: bool, a: seq<int>): Rect
    requires From(start, a)
  {
    AddInlays(IncludeAll(EmptyRect, Marks(v, text, start, chop, a)), InlaysIn(v, start, end))
  }

  /** The loop body at offset i, on the rectangle's value: both points of i included,
      unless i is skipped. */
  function MarkStep(v: View, text: string, start: int, chop: bool, r: Rect, i: int): Rect
    requires start <= i
  {
    if Skipped(text, start, i, chop) then r
    else
      var p := v.xy(i);
      Include(Include(r, p), Point(p.x, p.y + v.lineHeight))
  }

  /** The loop body applied to the offsets of `a` in order. */
  function MarkRun(v: View, text: string, start: int, chop: bool, r: Rect, a: seq<int>): Rect
    requires From(start, a)
  {
    if a == [] then r else MarkStep(v, text, start, chop, MarkRun(v, text, start, chop, r, a[..|a| - 1]), a[|a| - 1])
  }

  /** Walking one more offset is one more loop body. */
  lemma MarkRunSnoc(v: View, text: string, start: int, chop: bool, r: Rect, a: seq<int>, i: int)
    requires From(start, a) && start <= i
    ensures From(start, a + [i])
    ensures MarkRun(v, text, start, chop, r, a + [i]) == MarkStep(v, text, start, chop, MarkRun(v, text, start, chop, r, a), i)
  {
    assert (a + [i])[..|a|] == a;
  }

  /** `for (i in lo until hi)` with the loop body of `getSelectionRectangle`. */
  function MarkFrom(v: View, text: string, start: int, chop: bool, r: Rect, lo: int, hi: int): Rect
    requires start <= lo
    decreases hi - lo
  {
    if hi <= lo then r else MarkStep(v, text, start, chop, MarkFrom(v, text, start, chop, r, lo, hi - 1), hi - 1)
  }

  /** The interval loop is the walk over the interval's offsets. */
  lemma {:induction false} MarkFromIsMarkRun(v: View, text: string, start: int, chop: bool, r: Rect, lo: int, hi: int)
    requires start <= lo
    decreases hi - lo
    ensures From(start, Range(lo, hi))
    ensures MarkFrom(v, text, start, chop, r, lo, hi) == MarkRun(v, text, start, chop, r, Range(lo, hi))
  {
    if lo < hi {
      MarkFromIsMarkRun(v, text, start, chop, r, lo, hi - 1);
      MarkRunSnoc(v, text, start, chop, r, Range(lo, hi - 1), hi - 1);
    }
  }

  /** Walking a + b is walking b from where a left off. */
  lemma {:induction false} MarkRunAppend(v: View, text: string, start: int, chop: bool, r: Rect, a: seq<int>, b: seq<int>)
    requires From(start, a) && From(start, b)
    ensures From(start, a + b)
    ensures MarkRun(v, text, start, chop, r, a + b) == MarkRun(v, text, start, chop, MarkRun(v, text, start, chop, r, a), b)
  {
    assert forall k :: 0 <= k < |a| ==> (a + b)[k] == a[k];
    assert forall k :: 0 <= k < |b| ==> (a + b)[|a| + k] == b[k];
    if b == [] {
      assert a + b == a;
    } else {
      var init := b[..|b| - 1];
      assert (a + b)[..|a + b| - 1] == a + init;
      MarkRunAppend(v, text, start, chop, r, a, init);
    }
  }

  /** The interval loop continues a walk over earlier offsets. */
  lemma MarkFromAfter(v: View, text: string, start: int, chop: bool, r: Rect, done: seq<int>, lo: int, hi: int)
    requires From(start, done) && start <= lo
    ensures From(start, done + Range(lo, hi))
    ensures MarkRun(v, text, start, chop, r, done + Range(lo, hi))
         == MarkFrom(v, text, start, chop, MarkRun(v, text, start, chop, r, done), lo, hi)
  {
    MarkFromIsMarkRun(v, text, start, chop, MarkRun(v, text, start, chop, r, done), lo, hi);
    MarkRunAppend(v, text, start, chop, r, done, Range(lo, hi));
  }

  /** The loop, run on a rectangle, includes the marks one by one. */
  lemma {:induction false} MarkRunIsIncludeAll(v: View, text: string, start: int, chop: bool, r: Rect, a: seq<int>)
    requires From(start, a)
    ensures MarkRun(v, text, start, chop, r, a) == IncludeAll(r, Marks(v, text, start, chop, a))
  {
    if a != [] {
      var init := a[..|a| - 1];
      var i := a[|a| - 1];
      MarkRunIsIncludeAll(v, text, start, chop, r, init);
      var m := Marks(v, text, start, chop, init);
      MarkStepIsIncludeAll(v, text, start, chop, IncludeAll(r, m), i);
      IncludeAllAppend(r, m, OffsetMarks(v, text, start, chop, i));
    }
  }

  /** One loop body includes the offset's marks. */
  lemma MarkStepIsIncludeAll(v: View, text: string, start: int, chop: bool, r: Rect, i: int)
    requires start <= i
    ensures MarkStep(v, text, start, chop, r, i) == IncludeAll(r, OffsetMarks(v, text, start, chop, i))
  {
    var p := v.xy(i);
    var q := Point(p.x, p.y + v.lineHeight);
    if !Skipped(text, start, i, chop) {
      assert [p, q][..1] == [p] && [p][..0] == [];
      assert IncludeAll(r, [p]) == Include(r, p);
      assert IncludeAll(r, [p, q]) == Include(Include(r, p), q);
    }
  }

  // ---------------------------------------------------------------- reference: the hull

  function MinOf(xs: seq<int>): int
    requires |xs| > 0
  {
    if |xs| == 1 then xs[0] else Min(MinOf(xs[..|xs| - 1]), xs[|xs| - 1])
  }

  function MaxOf(xs: seq<int>): int
    requires |xs| > 0
  {
    if |xs| == 1 then xs[0] else Max(MaxOf(xs[..|xs| - 1]), xs[|xs| - 1])
  }

  function Xs(pts: seq<Point>): (xs: seq<int>)
    ensures |xs| == |pts| && forall k :: 0 <= k < |pts| ==> xs[k] == pts[k].x
  {
    seq(|pts|, k requires 0 <= k < |pts| => pts[k].x)
  }

  function Ys(pts: seq<Point>): (ys: seq<int>)
    ensures |ys| == |pts| && forall k :: 0 <= k < |pts| ==> ys[k] == pts[k].y
  {
    seq(|pts|, k requires 0 <= k < |pts| => pts[k].y)
  }

  /** The bounding box of the points, stretched to take in the 1 x 1 square of the first:
      the rectangle `includePoint` builds, defined without it. */
  function Hull(pts: seq<Point>): Rect
  {
    if pts == [] then EmptyRect
    else
      var x1 := MinOf(Xs(pts));
      var y1 := MinOf(Ys(pts));
      Rect(x1, y1, Max(MaxOf(Xs(pts)), pts[0].x + 1) - x1, Max(MaxOf(Ys(pts)), pts[0].y + 1) - y1)
  }

  lemma {:induction false} MinMaxOf(xs: seq<int>)
    requires |xs| > 0
    ensures forall k :: 0 <= k < |xs| ==> MinOf(xs) <= xs[k] <= MaxOf(xs)
    ensures exists k :: 0 <= k < |xs| && MinOf(xs) == xs[k]
    ensures exists k :: 0 <= k < |xs| && MaxOf(xs) == xs[k]
  {
    var n := |xs| - 1;
    if n == 0 {
      assert MinOf(xs) == xs[0] && MaxOf(xs) == xs[0];
    } else {
      var init := xs[..n];
      MinMaxOf(init);
      assert forall k :: 0 <= k < n ==> init[k] == xs[k];
      var i :| 0 <= i < n && MinOf(init) == init[i];
      var j :| 0 <= j < n && MaxOf(init) == init[j];
      if MinOf(xs) == xs[n] {
        assert 0 <= n < |xs| && MinOf(xs) == xs[n];
      } else {
        assert MinOf(xs) == xs[i];
      }
      if MaxOf(xs) == xs[n] {
        assert 0 <= n < |xs| && MaxOf(xs) == xs[n];
      } else {
        assert MaxOf(xs) == xs[j];
      }
    }
  }

  /** Including the points one by one into an empty rectangle builds their hull. */
  lemma {:induction false} IncludeAllIsHull(pts: seq<Point>)
    ensures IncludeAll(EmptyRect, pts) == Hull(pts)
  {
    if |pts| > 1 {
      var init := pts[..|pts| - 1];
      var p := pts[|pts| - 1];
      IncludeAllIsHull(init);
      MinMaxOf(Xs(init));
      MinMaxOf(Ys(init));
      assert Xs(init) == Xs(pts)[..|pts| - 1];
      assert Ys(init) == Ys(pts)[..|pts| - 1];
      assert init[0] == pts[0];
    }
  }

  /** The hull covers every point and the first point's square ... */
  lemma HullCovers(pts: seq<Point>)
    requires |pts| > 0
    ensures forall k :: 0 <= k < |pts| ==> Hull(pts).Covers(pts[k])
    ensures Hull(pts).Covers(Point(pts[0].x + 1, pts[0].y + 1))
    ensures !Hull(pts).IsEmpty()
  {
    MinMaxOf(Xs(pts));
    MinMaxOf(Ys(pts));
  }

  /** ... and lies inside every rectangle that covers them: it is the smallest such. */
  lemma HullMinimal(pts: seq<Point>, r: Rect)
    requires |pts| > 0
    requires forall k :: 0 <= k < |pts| ==> r.Covers(pts[k])
    requires r.Covers(Point(pts[0].x + 1, pts[0].y + 1))
    ensures Hull(pts).Inside(r)
  {
    MinMaxOf(Xs(pts));
    MinMaxOf(Ys(pts));
    var i :| 0 <= i < |pts| && MinOf(Xs(pts)) == Xs(pts)[i];
    var j :| 0 <= j < |pts| && MinOf(Ys(pts)) == Ys(pts)[j];
    var i' :| 0 <= i' < |pts| && MaxOf(Xs(pts)) == Xs(pts)[i'];
    var j' :| 0 <= j' < |pts| && MaxOf(Ys(pts)) == Ys(pts)[j'];
    assert r.Covers(pts[i]) && r.Covers(pts[j]) && r.Covers(pts[i']) && r.Covers(pts[j']);
  }

  /** Adding inlay bounds keeps everything the rectangle covered and takes in each inlay
      that has bounds. */
  lemma {:induction false} AddInlaysGrows(r: Rect, inlays: seq<Inlay>)
    ensures forall q :: r.Covers(q) ==> AddInlays(r, inlays).Covers(q)
    ensures r.width >= 0 && r.height >= 0 ==> r.Inside(AddInlays(r, inlays))
    ensures forall k :: 0 <= k < |inlays| && inlays[k].bounds.Some? ==>
              inlays[k].bounds.value.Inside(AddInlays(r, inlays))
  {
    if inlays != [] {
      var init := inlays[..|inlays| - 1];
      var last := inlays[|inlays| - 1];
      AddInlaysGrows(r, init);
      assert forall k :: 0 <= k < |init| ==> init[k] == inlays[k];
      if last.bounds.Some? {
        AddRectGrows(AddInlays(r, init), last.bounds.value);
      }
    }
  }

  /** Only a blank character is ever skipped: the text through a skipped offset ends in a
      `\s` character or a line terminator, and the first offset is never skipped. */
  lemma SkippedIsBlank(text: string, start: int, i: int, chop: bool)
    requires start <= i && Skipped(text, start, i, chop)
    ensures i > start
    ensures i - start < |text| ==> IsRegexSpace(text[i - start]) || IsLineTerminator(text[i - start])
  {
    HasEmptySuffixIff(text[..Min(i - start + 1, |text|)]);
    FindsEmptySuffixEndsBlank(text[..Min(i - start + 1, |text|)]);
  }

  /** Both points of every offset walked and not skipped are among the marks ... */
  lemma {:induction false} MarksComplete(v: View, text: string, start: int, chop: bool, a: seq<int>, k: int)
    requires From(start, a) && 0 <= k < |a| && !Skipped(text, start, a[k], chop)
    ensures v.xy(a[k]) in Marks(v, text, start, chop, a)
    ensures Point(v.xy(a[k]).x, v.xy(a[k]).y + v.lineHeight) in Marks(v, text, start, chop, a)
  {
    var init := a[..|a| - 1];
    if k < |a| - 1 {
      assert init[k] == a[k];
      MarksComplete(v, text, start, chop, init, k);
    }
  }

  /** ... and nothing else is. */
  lemma {:induction false} MarksSound(v: View, text: string, start: int, chop: bool, a: seq<int>, q: Point)
    requires From(start, a) && q in Marks(v, text, start, chop, a)
    ensures exists k :: 0 <= k < |a| && !Skipped(text, start, a[k], chop) &&
              (q == v.xy(a[k]) || q == Point(v.xy(a[k]).x, v.xy(a[k]).y + v.lineHeight))
  {
    var n := |a| - 1;
    var init := a[..n];
    if q in Marks(v, text, start, chop, init) {
      MarksSound(v, text, start, chop, init, q);
      var k :| 0 <= k < |init| && !Skipped(text, start, init[k], chop) &&
               (q == v.xy(init[k]) || q == Point(v.xy(init[k]).x, v.xy(init[k]).y + v.lineHeight));
      assert init[k] == a[k];
    } else {
      assert !Skipped(text, start, a[n], chop);
    }
  }

  /** The marks of a + b are those of a followed by those of b. */
  lemma {:induction false} MarksAppend(v: View, text: string, start: int, chop: bool, a: seq<int>, b: seq<int>)
    requires From(start, a) && From(start, b)
    ensures From(start, a + b)
    ensures Marks(v, text, start, chop, a + b) == Marks(v, text, start, chop, a) + Marks(v, text, start, chop, b)
  {
    assert forall k :: 0 <= k < |a| ==> (a + b)[k] == a[k];
    assert forall k :: 0 <= k < |b| ==> (a + b)[|a| + k] == b[k];
    if b == [] {
      assert a + b == a;
    } else {
      var init := b[..|b| - 1];
      assert (a + b)[..|a + b| - 1] == a + init;
      MarksAppend(v, text, start, chop, a, init);
    }
  }

  /** Including p then q is including p and then including q. */
  lemma {:induction false} IncludeAllAppend(r: Rect, p: seq<Point>, q: seq<Point>)
    ensures IncludeAll(r, p + q) == IncludeAll(IncludeAll(r, p), q)
  {
    if q == [] {
      assert p + q == p;
    } else {
      assert (p + q)[..|p + q| - 1] == p + q[..|q| - 1];
      IncludeAllAppend(r, p, q[..|q| - 1]);
    }
  }

  /** `includePoint` keeps what it had and takes the point in: the result covers the point
      and is never empty, and a non-empty rectangle lies inside it. */
  lemma IncludeGrows(r: Rect, p: Point)
    ensures Include(r, p).Covers(p) && !Include(r, p).IsEmpty()
    ensures r.IsEmpty() ==> Include(r, p) == Rect(p.x, p.y, 1, 1)
    ensures !r.IsEmpty() ==> r.Inside(Include(r, p))
  {
    if !r.IsEmpty() {
      AddPointGrows(r, p);
    }
  }

  /** What `getSelectionRectangle` returns covers both points of every walked offset it
      does not skip, and every inlay bound of the range; when it walked at least one
      such offset, the point part is the hull of the marks. */
  lemma SelectionRectCovers(v: View, text: string, start: int, end: int, chop: bool, a: seq<int>)
    requires From(start, a)
    ensures forall k :: 0 <= k < |a| && !Skipped(text, start, a[k], chop) ==>
              SelectionRect(v, text, start, end, chop, a).Covers(v.xy(a[k])) &&
              SelectionRect(v, text, start, end, chop, a).Covers(Point(v.xy(a[k]).x, v.xy(a[k]).y + v.lineHeight))
    ensures forall k :: 0 <= k < |InlaysIn(v, start, end)| && InlaysIn(v, start, end)[k].bounds.Some? ==>
              InlaysIn(v, start, end)[k].bounds.value.Inside(SelectionRect(v, text, start, end, chop, a))
  {
    var marks := Marks(v, text, start, chop, a);
    var base := IncludeAll(EmptyRect, marks);
    IncludeAllIsHull(marks);
    AddInlaysGrows(base, InlaysIn(v, start, end));
    forall k | 0 <= k < |a| && !Skipped(text, start, a[k], chop)
      ensures SelectionRect(v, text, start, end, chop, a).Covers(v.xy(a[k]))
      ensures SelectionRect(v, text, start, end, chop, a).Covers(Point(v.xy(a[k]).x, v.xy(a[k]).y + v.lineHeight))
    {
      MarksComplete(v, text, start, chop, a, k);
      HullCovers(marks);
      var i :| 0 <= i < |marks| && marks[i] == v.xy(a[k]);
      var j :| 0 <= j < |marks| && marks[j] == Point(v.xy(a[k]).x, v.xy(a[k]).y + v.lineHeight);
      assert base.Covers(marks[i]) && base.Covers(marks[j]);
    }
  }
}
