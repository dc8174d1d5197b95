/** `ImageBuilder.kt` of the Kotlin tree: `createImage` with its save / reset / restore
    frame, the per-offset `getSelectionRectangle` (every offset of the range, both ends
    included), and this file's `EditorState`. Its `resetEditor` and `includePoint` are the
    same code as those of `EditorUtils.kt`, whose models are reused. An `ImageBuilder`
    exists only for an editor that has a project: its constructor throws otherwise. */
module KotlinImageBuilder {
  import opened Wrappers
  import opened Platform
  import opened Host
  import opened SelectionGeometry
  import EditorUtils
  import KotlinOptions
  import KotlinTransferable

  // ================================================================ getSelectionRectangle

  /** What `getSelectionRectangle(range, text, options)` returns: the marks of every offset
      from `start` to `end`, both included, then the bounds of the inlays of the range. */
  function PerOffsetRect(v: View, text: string, start: int, end: int, chop: bool): Rect
    requires 0 <= start
  {
    SelectionRect(v, text, start, end, chop, Range(start, end + 1))
  }

  /** `getSelectionRectangle(range, text, options)`; `text` is the document text of the
      range. */
  method GetSelectionRectangle(v: View, range: TextRange, text: string, options: KotlinOptions.State)
    returns (r: Rectangle2D)
    requires 0 <= range.startOffset <= range.endOffset
    ensures fresh(r)
    ensures r.Value() == PerOffsetRect(v, text, range.startOffset, range.endOffset, options.chopIndentation)
  {
    var start, end := range.startOffset, range.endOffset;
    var chop := options.chopIndentation;
    r := new Rectangle2D();
    assert r.Value() == EmptyRect;
    var i := start;
    while i <= end
      invariant start <= i <= end + 1
      invariant r.Value() == MarkFrom(v, text, start, chop, EmptyRect, start, i)
    {
      EditorUtils.MarkOffset(v, text, start, chop, r, EmptyRect, start, i);
      i := i + 1;
    }
    assert i == end + 1;
    PerOffsetRectIsLoop(v, text, start, end, chop);
    EditorUtils.AddInlayBounds(r, InlaysIn(v, start, end));
  }

  /** The offset loop, run from an empty rectangle, then the inlays, is the rectangle. */
  lemma PerOffsetRectIsLoop(v: View, text: string, start: int, end: int, chop: bool)
    requires 0 <= start
    ensures PerOffsetRect(v, text, start, end, chop)
         == AddInlays(MarkFrom(v, text, start, chop, EmptyRect, start, end + 1), InlaysIn(v, start, end))
  {
    MarkFromIsMarkRun(v, text, start, chop, EmptyRect, start, end + 1);
    MarkRunIsIncludeAll(v, text, start, chop, EmptyRect, Range(start, end + 1));
  }

  /** `selectedSize()`, through the `selectionRectangle` property: the rectangle of the
      current selection and the document text it covers. */
  method SelectedSize(editor: Editor, v: View, options: KotlinOptions.State) returns (r: Rectangle2D)
    requires 0 <= editor.selectionStart <= editor.selectionEnd <= |v.text|
    ensures fresh(r)
    ensures r.Value() == PerOffsetRect(v, v.text[editor.selectionStart..editor.selectionEnd],
                                       editor.selectionStart, editor.selectionEnd, options.chopIndentation)
  {
    var range := EditorUtils.GetRange(editor);
    r := GetSelectionRectangle(v, range, v.text[range.startOffset..range.endOffset], options);
  }

  /** The rectangle covers both points of every offset of the range that is not skipped,
      the end offset included, and the bounds of every inlay of the range. */
  lemma PerOffsetRectCovers(v: View, text: string, start: int, end: int, chop: bool, i: int)
    requires 0 <= start <= i <= end && !Skipped(text, start, i, chop)
    ensures PerOffsetRect(v, text, start, end, chop).Covers(v.xy(i))
    ensures PerOffsetRect(v, text, start, end, chop).Covers(Point(v.xy(i).x, v.xy(i).y + v.lineHeight))
    ensures forall k :: 0 <= k < |InlaysIn(v, start, end)| && InlaysIn(v, start, end)[k].bounds.Some? ==>
              InlaysIn(v, start, end)[k].bounds.value.Inside(PerOffsetRect(v, text, start, end, chop))
  {
    var a := Range(start, end + 1);
    assert a[i - start] == i;
    SelectionRectCovers(v, text, start, end, chop, a);
  }

  /** The walk's marks start with the start offset's point, which is never skipped. */
  lemma MarksStartAtStart(v: View, text: string, start: int, end: int, chop: bool)
    requires 0 <= start <= end
    ensures var m := Marks(v, text, start, chop, Range(start, end + 1));
            |m| >= 2 && m[0] == v.xy(start)
  {
    var first := Range(start, start + 1);
    var rest := Range(start + 1, end + 1);
    assert Range(start, end + 1) == first + rest;
    MarksAppend(v, text, start, chop, first, rest);
    if Skipped(text, start, start, chop) {
      SkippedIsBlank(text, start, start, chop);
    }
    assert first == [] + [start];
    assert Marks(v, text, start, chop, first) == Marks(v, text, start, chop, []) + OffsetMarks(v, text, start, chop, start);
  }

  /** Unlike the line-bounded revision, the rectangle is never empty, even for empty text:
      the start offset is always included. */
  lemma PerOffsetRectNonEmpty(v: View, text: string, start: int, end: int, chop: bool)
    requires 0 <= start <= end
    ensures !PerOffsetRect(v, text, start, end, chop).IsEmpty()
  {
    var m := Marks(v, text, start, chop, Range(start, end + 1));
    MarksStartAtStart(v, text, start, end, chop);
    IncludeAllIsHull(m);
    HullCovers(m);
    AddInlaysGrows(IncludeAll(EmptyRect, m), InlaysIn(v, start, end));
  }

  /** Without inlays in the range, the rectangle is the smallest one that covers both
      points of every offset not skipped and the 1 x 1 square at the start offset. */
  lemma PerOffsetRectSmallest(v: View, text: string, start: int, end: int, chop: bool, R: Rect)
    requires 0 <= start <= end && InlaysIn(v, start, end) == []
    requires forall i :: start <= i <= end && !Skipped(text, start, i, chop) ==>
               R.Covers(v.xy(i)) && R.Covers(Point(v.xy(i).x, v.xy(i).y + v.lineHeight))
    requires R.Covers(Point(v.xy(start).x + 1, v.xy(start).y + 1))
    ensures PerOffsetRect(v, text, start, end, chop).Inside(R)
  {
    var a := Range(start, end + 1);
    var m := Marks(v, text, start, chop, a);
    MarksStartAtStart(v, text, start, end, chop);
    IncludeAllIsHull(m);
    forall k | 0 <= k < |m|
      ensures R.Covers(m[k])
    {
      MarksSound(v, text, start, chop, a, m[k]);
    }
    HullMinimal(m, R);
  }

  // ================================================================ EditorState

  /** What this file's `EditorState.restore(editor)` leaves: the caret row is put back
      first; without a project nothing more; otherwise, with `removeCaret`, the caret is
      re-enabled (on an `EditorEx`) and moved back, and the selection is put back. */
  function Restored(cur: EditorView, hasProject: bool, isEx: bool, removeCaret: bool,
                    range: TextRange, offset: int, caretRow: bool): EditorView
  {
    var row := cur.(caretRow := caretRow);
    if !hasProject then row
    else
      var caret := if !removeCaret then row else (if isEx then row.(caretEnabled := true) else row).MovedTo(offset);
      caret.Select(range.startOffset, range.endOffset)
  }

  /** With a project this restore does what the `EditorUtils.kt` one does; without one it
      still puts back the caret row, where the other changes nothing. */
  lemma RestoreLikeEditorUtils(cur: EditorView, hasProject: bool, isEx: bool, removeCaret: bool,
                               range: TextRange, offset: int, caretRow: bool)
    ensures Restored(cur, hasProject, isEx, removeCaret, range, offset, caretRow)
         == if hasProject then EditorUtils.StateRestored(cur, hasProject, isEx, removeCaret, range, offset, caretRow)
            else EditorUtils.StateRestored(cur, hasProject, isEx, removeCaret, range, offset, caretRow).(caretRow := caretRow)
  {
  }

  /** `EditorState(range, offset, caretRow)` of this file. */
  class EditorState {
    const range: TextRange
    const offset: int
    const caretRow: bool

    constructor (range: TextRange, offset: int, caretRow: bool)
      ensures this.range == range && this.offset == offset && this.caretRow == caretRow
    {
      this.range := range;
      this.offset := offset;
      this.caretRow := caretRow;
    }

    /** `EditorState.from(editor)`: the selection, the caret offset and the caret row. */
    static method From(editor: Editor) returns (st: EditorState)
      ensures fresh(st)
      ensures st.range == TextRange(editor.selectionStart, editor.selectionEnd)
      ensures st.offset == editor.caretOffset && st.caretRow == editor.caretRowShown
    {
      var range := EditorUtils.GetRange(editor);
      var offset := editor.caretOffset;
      st := new EditorState(range, offset, editor.caretRowShown);
    }

    /** `restore(editor)`; `removeCaret` is the project's current option. */
    method Restore(editor: Editor, removeCaret: bool)
      modifies editor
      ensures editor.State() == Restored(old(editor.State()), editor.hasProject, editor.isEx, removeCaret,
                                         range, offset, caretRow)
    {
      editor.SetCaretRowShown(caretRow);
      if !editor.hasProject {
        return;
      }
      if removeCaret {
        if editor.isEx {
          editor.SetCaretEnabled(true);
        }
        editor.MoveToOffset(offset);
      }
      editor.SetSelection(range.startOffset, range.endOffset);
    }
  }

  /** Saving the state, resetting and restoring with the same `removeCaret` gives back the
      saved state, except that a caret the reset disabled comes back enabled. */
  lemma RoundTrip(s: EditorView, lastLineEnd: int, isEx: bool, removeCaret: bool)
    requires s.Coherent()
    ensures Restored(EditorUtils.Reset(s, lastLineEnd, isEx, removeCaret), true, isEx, removeCaret,
                     TextRange(s.selStart, s.selEnd), s.caret, s.caretRow)
         == if removeCaret && isEx then s.(caretEnabled := true) else s
  {
  }

  // ================================================================ createImage

  /** One `format.paint(contentComponent, at, width, height, background, padding)` call. */
  datatype PaintCall = PaintCall(at: Affine, width: int, height: int, background: Color, padding: int)

  /** The glyph-cache warm-up: the scaled transform, a 1 x 1 area, a black background and
      no padding. */
  function WarmUp(t: Affine, scale: real): PaintCall
  {
    PaintCall(t.Scaled(scale), 1, 1, Black, 0)
  }

  /** The real paint: the scaled transform moved by (-r.x, -r.y), the selection's size
      scaled and truncated, the editor background and the options' padding. */
  function RealPaint(t: Affine, scale: real, r: Rect, background: Color, padding: int): PaintCall
  {
    PaintCall(t.Scaled(scale).Translated(-r.x as real, -r.y as real),
              KotlinTransferable.Scaled(r.width, scale), KotlinTransferable.Scaled(r.height, scale), background, padding)
  }

  /** The real paint's transform takes the selection to the origin of the context it
      starts from, scaled by `scale`: the selection's top-left corner lands where the
      untransformed context has (0, 0). */
  lemma RealPaintFramesSelection(t: Affine, scale: real, r: Rect, background: Color, padding: int)
    ensures RealPaint(t, scale, r, background, padding).at.MapRect(r.x as real, r.y as real, r.width as real, r.height as real)
         == t.MapRect(0.0, 0.0, scale * r.width as real, scale * r.height as real)
  {
    var x, y, w, h := r.x as real, r.y as real, r.width as real, r.height as real;
    var a := t.Scaled(scale);
    assert a == Affine(t.sx * scale, t.sy * scale, t.tx, t.ty);
    var b := a.Translated(-x, -y);
    assert b == Affine(t.sx * scale, t.sy * scale, t.sx * scale * -x + t.tx, t.sy * scale * -y + t.ty);
    assert t.sx * scale * w == t.sx * (scale * w);
    assert t.sy * scale * h == t.sy * (scale * h);
  }

  /** The exceptions `createImage` catches: an `IOException` becomes `null`, any other
      one leaves the call. */
  function Caught(r: Result<KotlinTransferable.TransferableImage, Thrown>)
    : Result<Option<KotlinTransferable.TransferableImage>, Thrown>
  {
    if r.Success? then Success(Some(r.value))
    else if r.error == IOException then Success(None)
    else Failure(r.error)
  }

  /** What `createImage(r)` answers and which paints it makes. `graphics` is the content
      component's graphics transform, or `None` when its graphics is not a `Graphics2D`;
      the two streams are what Batik produced for the warm-up and for the real SVG. */
  function CreateOutcome(options: KotlinOptions.State, r: Rect, graphics: Option<Affine>, sysScale: real,
                         background: Color, warmUpStream: Result<string, Thrown>, svgStream: Result<string, Thrown>)
    : (Result<Option<KotlinTransferable.TransferableImage>, Thrown>, seq<PaintCall>)
  {
    if graphics.None? then (Success(None), [])
    else
      var warm := WarmUp(graphics.value, options.scale);
      var main := RealPaint(graphics.value, options.scale, r, background, options.padding);
      var first := KotlinTransferable.PaintResult(options.format, 1, 1, 0, sysScale, warmUpStream);
      if first.Failure? then (Caught(first), [warm])
      else (Caught(KotlinTransferable.PaintResult(options.format, main.width, main.height, main.padding, sysScale, svgStream)),
            [warm, main])
  }

  /** A missing `Graphics2D` gives `null` without painting; otherwise the warm-up always
      comes first, and the real paint happens exactly when the warm-up succeeded; an
      `IOException` from either gives `null`. */
  lemma CreateOutcomeShape(options: KotlinOptions.State, r: Rect, graphics: Option<Affine>, sysScale: real,
                           background: Color, warmUpStream: Result<string, Thrown>, svgStream: Result<string, Thrown>)
    requires graphics.Some?
    ensures var (res, calls) := CreateOutcome(options, r, graphics, sysScale, background, warmUpStream, svgStream);
            && 1 <= |calls| <= 2
            && calls[0] == PaintCall(graphics.value.Scaled(options.scale), 1, 1, Black, 0)
            && (|calls| == 2 <==> KotlinTransferable.PaintResult(options.format, 1, 1, 0, sysScale, warmUpStream).Success?)
            && (|calls| == 2 ==> calls[1].padding == options.padding && calls[1].background == background)
            && (res.Success? && res.value.Some? ==> |calls| == 2)
            && (options.format.SVG? && (warmUpStream.Failure? || svgStream.Failure?) ==> res == Success(None))
  {
  }

  /** The outcome once the warm-up has succeeded. */
  lemma CreateOutcomeAfterWarmUp(options: KotlinOptions.State, r: Rect, graphics: Option<Affine>, sysScale: real,
                                 background: Color, warmUpStream: Result<string, Thrown>, svgStream: Result<string, Thrown>)
    requires graphics.Some?
    requires KotlinTransferable.PaintResult(options.format, 1, 1, 0, sysScale, warmUpStream).Success?
    ensures var main := RealPaint(graphics.value, options.scale, r, background, options.padding);
            CreateOutcome(options, r, graphics, sysScale, background, warmUpStream, svgStream)
              == (Caught(KotlinTransferable.PaintResult(options.format, main.width, main.height, main.padding, sysScale, svgStream)),
                  [WarmUp(graphics.value, options.scale), main])
  {
  }

  /** The `try` block of `createImage(r)` after the reset: the `Graphics2D` test, the
      warm-up paint, the translation to the selection and the real paint. */
  method PaintSelection(options: KotlinOptions.State, r: Rect, graphics: Option<Affine>, sysScale: real,
                        background: Color, warmUpStream: Result<string, Thrown>, svgStream: Result<string, Thrown>)
    returns (res: Result<Option<KotlinTransferable.TransferableImage>, Thrown>, calls: seq<PaintCall>)
    ensures (res, calls) == CreateOutcome(options, r, graphics, sysScale, background, warmUpStream, svgStream)
  {
    if graphics.None? {
      return Success(None), [];
    }
    var t := graphics.value;
    var warm := WarmUp(t, options.scale);
    var first := Draw(options.format, warm, sysScale, warmUpStream);
    if first.Failure? {
      return Caught(first), [warm];
    }
    var main := RealPaint(t, options.scale, r, background, options.padding);
    var second := Draw(options.format, main, sysScale, svgStream);
    CreateOutcomeAfterWarmUp(options, r, graphics, sysScale, background, warmUpStream, svgStream);
    res, calls := Caught(second), [warm, main];
  }

  /** One `format.paint` call, answering what the painting produced. */
  method Draw(format: KotlinTransferable.Format, call: PaintCall, sysScale: real, stream: Result<string, Thrown>)
    returns (result: Result<KotlinTransferable.TransferableImage, Thrown>)
    ensures result == KotlinTransferable.PaintResult(format, call.width, call.height, call.padding, sysScale, stream)
  {
    var p, _ := KotlinTransferable.Paint(format, call.at, call.width, call.height, call.background, call.padding, sysScale, stream);
    result := p.result;
  }

  /** `createImage(r)`: save the editor state, reset the editor, paint (a warm-up, then the
      real image) and restore the saved state in `finally`, whatever the way out. */
  method CreateImage(editor: Editor, options: KotlinOptions.State, r: Rect, graphics: Option<Affine>, sysScale: real,
                     background: Color, warmUpStream: Result<string, Thrown>, svgStream: Result<string, Thrown>)
    returns (res: Result<Option<KotlinTransferable.TransferableImage>, Thrown>, calls: seq<PaintCall>)
    requires editor.hasProject && editor.State().Coherent()
    modifies editor
    ensures (res, calls) == CreateOutcome(options, r, graphics, sysScale, background, warmUpStream, svgStream)
    ensures editor.State() == Restored(EditorUtils.Reset(old(editor.State()), editor.lastLineEnd, editor.isEx, options.removeCaret),
                                       true, editor.isEx, options.removeCaret,
                                       TextRange(old(editor.selectionStart), old(editor.selectionEnd)),
                                       old(editor.caretOffset), old(editor.caretRowShown))
    ensures editor.State() == if options.removeCaret && editor.isEx then old(editor.State()).(caretEnabled := true)
                              else old(editor.State())
  {
    var state := EditorState.From(editor);
    ghost var saved := editor.State();
    EditorUtils.ResetEditor(editor, options);
    RoundTrip(saved, editor.lastLineEnd, editor.isEx, options.removeCaret);
    res, calls := PaintSelection(options, r, graphics, sysScale, background, warmUpStream, svgStream);
    state.Restore(editor, options.removeCaret);
  }
}
