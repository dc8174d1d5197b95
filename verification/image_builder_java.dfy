/** `ImageBuilder.kt` of the Java tree: `createImage` with its save / reset / restore
    frame, `resetEditor` (which reads the selection before removing it), `selectedSize`
    (a pixel count next to the rectangle), the per-offset `getSelectionRectangle`, this
    file's `EditorState` and its unguarded `includePoint`. */
module JavaImageBuilder {
  import opened Wrappers
  import opened Platform
  import opened Host
  import opened SelectionGeometry
  import Constants
  import EditorUtils
  import JavaOptions
  import JavaTransferable
  import KotlinTransferable
  import KotlinOptions
  import KotlinImageBuilder

  // ================================================================ resetEditor

  /** What `resetEditor()` leaves: the selection is removed; with `removeCaret` the caret
      goes to the last line's end when the selection read BEFORE the removal started at
      offset 0 and to offset 0 otherwise, is disabled on an `EditorEx`, and the caret row
      is hidden. */
  function Reset(s: EditorView, lastLineEnd: int, isEx: bool, removeCaret: bool): EditorView
  {
    var cleared := s.(selStart := s.caret, selEnd := s.caret);
    if !removeCaret then cleared
    else
      var moved := cleared.MovedTo(if s.selStart == 0 then lastLineEnd else 0);
      (if isEx then moved.(caretEnabled := false) else moved).(caretRow := false)
  }

  /** `resetEditor()`; `options` is the project's options state. */
  method ResetEditor(editor: Editor, options: JavaOptions.State)
    modifies editor
    ensures editor.State() == Reset(old(editor.State()), editor.lastLineEnd, editor.isEx, options.removeCaret)
  {
    var range := EditorUtils.GetRange(editor);
    editor.RemoveSelection();
    if options.removeCaret {
      editor.MoveToOffset(if range.startOffset == 0 then editor.lastLineEnd else 0);
      if editor.isEx {
        editor.SetCaretEnabled(false);
      }
      editor.SetCaretRowShown(false);
    }
  }

  /** This reset and the one of `EditorUtils.kt` (which reads the selection after removing
      it, so that it sees the caret offset) agree exactly when the caret is left alone,
      when both targets are offset 0, or when the selection and the caret are both at
      offset 0 or both away from it. */
  lemma ResetLikeEditorUtils(s: EditorView, lastLineEnd: int, isEx: bool, removeCaret: bool)
    ensures Reset(s, lastLineEnd, isEx, removeCaret) == EditorUtils.Reset(s, lastLineEnd, isEx, removeCaret)
        <==> !removeCaret || lastLineEnd == 0 || (s.selStart == 0 <==> s.caret == 0)
  {
    if removeCaret && lastLineEnd != 0 && !(s.selStart == 0 <==> s.caret == 0) {
      assert Reset(s, lastLineEnd, isEx, removeCaret).caret != EditorUtils.Reset(s, lastLineEnd, isEx, removeCaret).caret;
    }
  }

  /** With `removeCaret`, the caret leaves the selection being captured: it lands before
      the selection or at or after its end, for any selection inside the document. */
  lemma ResetCaretOutsideSelection(s: EditorView, lastLineEnd: int, isEx: bool)
    requires 0 <= s.selStart <= s.selEnd <= lastLineEnd
    ensures var c := Reset(s, lastLineEnd, isEx, true).caret;
            c < s.selStart || s.selEnd <= c
    ensures !Reset(s, lastLineEnd, isEx, true).caretRow
  {
  }

  // ================================================================ includePoint, getSelectionRectangle

  /** `includePoint(r, p)` of this file, which has no null check: a null point throws a
      `NullPointerException` before `r` changes; otherwise an empty rectangle becomes the
      1 x 1 square at p and any other one grows to take p in. */
  method IncludePoint(r: Rectangle2D, p: Option<Point>) returns (thrown: Option<Thrown>)
    modifies r
    ensures thrown == if p.None? then Some(NullPointerException) else None
    ensures r.Value() == if p.None? then old(r.Value()) else Include(old(r.Value()), p.value)
  {
    if p.None? {
      return Some(NullPointerException);
    }
    thrown := None;
    if r.IsEmpty() {
      r.SetFrame(Rect(p.value.x, p.value.y, 1, 1));
    } else {
      r.Add(p.value);
    }
  }

  /** The loop body of `getSelectionRectangle` at offset i. The points come from the
      editor's layout and are never null, so neither `includePoint` throws. */
  method MarkOffset(v: View, text: string, start: int, chop: bool, r: Rectangle2D, i: int)
    requires start <= i && r.Value() == MarkFrom(v, text, start, chop, EmptyRect, start, i)
    modifies r
    ensures r.Value() == MarkFrom(v, text, start, chop, EmptyRect, start, i + 1)
  {
    Constants.HasEmptySuffixIff(text[..Min(i - start + 1, |text|)]);
    if chop && Constants.FindsEmptySuffix(text[..Min(i - start + 1, |text|)]) {
      return;
    }
    var point := v.xy(i);
    var top := IncludePoint(r, Some(point));
    var bottom := IncludePoint(r, Some(Point(point.x, point.y + v.lineHeight)));
    assert top == None && bottom == None;
  }

  /** `getSelectionRectangle(range, text, options)`: the same walk over every offset of
      the range, both ends included, as in the Kotlin tree. */
  method GetSelectionRectangle(v: View, range: TextRange, text: string, options: JavaOptions.State)
    returns (r: Rectangle2D)
    requires 0 <= range.startOffset <= range.endOffset
    ensures fresh(r)
    ensures r.Value() == KotlinImageBuilder.PerOffsetRect(v, text, range.startOffset, range.endOffset, options.chopIndentation)
  {
    var start, end := range.startOffset, range.endOffset;
    var chop := options.chopIndentation;
    r := new Rectangle2D();
    assert r.Value() == EmptyRect;
    var i := start;
    while i <= end
      invariant start <= i <= end + 1
      invariant r.Value() == MarkFrom(v, text, start, chop, EmptyRect, start, i)
    {
      MarkOffset(v, text, start, chop, r, i);
      i := i + 1;
    }
    assert i == end + 1;
    KotlinImageBuilder.PerOffsetRectIsLoop(v, text, start, end, chop);
    EditorUtils.AddInlayBounds(r, InlaysIn(v, start, end));
  }

  // ================================================================ selectedSize

  /** The pixel count `selectedSize()` pairs with the rectangle: each side grows by
      `padding * 2` (an `Int` product, so it wraps), and the product of the two sides,
      times the scale twice, is truncated to a `Long`. */
  function PixelCount(r: Rect, padding: int, scale: real): int
  {
    var sizeX := (r.width + Wrap32(padding * 2)) as real;
    var sizeY := (r.height + Wrap32(padding * 2)) as real;
    Trunc(sizeX * sizeY * scale * scale)
  }

  /** At scale 1 and a padding whose double fits an `Int`, the count is exactly the
      padded area. */
  lemma PixelCountUnitScale(r: Rect, padding: int)
    requires 0 <= padding <= INT_MAX / 2
    ensures PixelCount(r, padding, 1.0) == (r.width + 2 * padding) * (r.height + 2 * padding)
  {
    var a, b := r.width + 2 * padding, r.height + 2 * padding;
    assert Wrap32(padding * 2) == 2 * padding;
    assert a as real * b as real * 1.0 * 1.0 == (a * b) as real;
  }

  /** For sides that are not negative and a padding whose double fits an `Int`, enlarging by a
      scale of at least 1 never counts fewer pixels than the padded area. */
  lemma PixelCountAtLeastArea(r: Rect, padding: int, scale: real)
    requires r.width >= 0 && r.height >= 0 && 0 <= padding <= INT_MAX / 2 && scale >= 1.0
    ensures PixelCount(r, padding, scale) >= (r.width + 2 * padding) * (r.height + 2 * padding)
  {
    var a, b := r.width + 2 * padding, r.height + 2 * padding;
    assert Wrap32(padding * 2) == 2 * padding;
    CountAtLeast(a, b, scale);
  }

  /** Truncating a whole area scaled twice by at least 1 counts at least the area. */
  lemma CountAtLeast(a: int, b: int, scale: real)
    requires a >= 0 && b >= 0 && scale >= 1.0
    ensures Trunc(a as real * b as real * scale * scale) >= a * b
  {
    WholeProduct(a, b);
    ScaleTwice(a as real * b as real, scale);
    TruncAtLeast(a as real * b as real * scale * scale, a * b);
  }

  /** The product of two whole numbers that are not negative, as a real. */
  lemma WholeProduct(a: int, b: int)
    requires a >= 0 && b >= 0
    ensures a as real * b as real == (a * b) as real && a * b >= 0
  { }

  /** Scaling twice by at least 1 never makes a value that is not negative smaller. */
  lemma ScaleTwice(x: real, scale: real)
    requires x >= 0.0 && scale >= 1.0
    ensures x * scale * scale >= x
  {
    ScaleUp(x, scale);
    ScaleUp(x * scale, scale);
  }

  /** Scaling a value that is not negative by at least 1 never makes it smaller. */
  lemma ScaleUp(x: real, scale: real)
    requires x >= 0.0 && scale >= 1.0
    ensures x * scale >= x
  {
    assert x * scale == x + x * (scale - 1.0);
  }

  /** Truncating a value at or above a whole number gives at least that number. */
  lemma TruncAtLeast(x: real, n: int)
    requires x >= n as real && n >= 0
    ensures Trunc(x) >= n
  { }

  /** `selectedSize()`: the pixel count and the selection rectangle, from the current
      selection and the document text it covers. */
  method SelectedSize(editor: Editor, v: View, options: JavaOptions.State) returns (size: int, r: Rectangle2D)
    requires 0 <= editor.selectionStart <= editor.selectionEnd <= |v.text|
    ensures fresh(r)
    ensures r.Value() == KotlinImageBuilder.PerOffsetRect(v, v.text[editor.selectionStart..editor.selectionEnd],
                                                          editor.selectionStart, editor.selectionEnd, options.chopIndentation)
    ensures size == PixelCount(r.Value(), options.padding, options.scale)
  {
    var range := EditorUtils.GetRange(editor);
    r := GetSelectionRectangle(v, range, v.text[range.startOffset..range.endOffset], options);
    var rect := r.Value();
    size := PixelCount(rect, options.padding, options.scale);
  }

  // ================================================================ EditorState

  /** What this file's `EditorState.restore(editor)` leaves: the caret row is put back
      first; without a project `requireNonNull` throws there; otherwise, with
      `removeCaret`, the caret is DISABLED (on an `EditorEx`) and moved back, and the
      selection is put back. */
  function Restored(cur: EditorView, hasProject: bool, isEx: bool, removeCaret: bool,
                    range: TextRange, offset: int, caretRow: bool): EditorView
  {
    var row := cur.(caretRow := caretRow);
    if !hasProject then row
    else
      var caret := if !removeCaret then row else (if isEx then row.(caretEnabled := false) else row).MovedTo(offset);
      caret.Select(range.startOffset, range.endOffset)
  }

  /** `EditorState(range, offset, caretRow)` of this file. */
  class EditorState {
    const range: TextRange
    const offset: int
    const caretRow: bool

    constructor (range: TextRange, offset: int, caretRow: bool)
      ensures this.range == range && this.offset == offset && this.caretRow == caretRow
    {
      this.range := range;
      this.offset := offset;
      this.caretRow := caretRow;
    }

    /** `EditorState.from(editor)`: the selection, the caret offset and the caret row. */
    static method From(editor: Editor) returns (st: EditorState)
      ensures fresh(st)
      ensures st.range == TextRange(editor.selectionStart, editor.selectionEnd)
      ensures st.offset == editor.caretOffset && st.caretRow == editor.caretRowShown
    {
      var range := EditorUtils.GetRange(editor);
      var offset := editor.caretOffset;
      st := new EditorState(range, offset, editor.caretRowShown);
    }

    /** `restore(editor)`; `removeCaret` is the project's current option. It throws a
        `NullPointerException` exactly when the editor has no project. */
    method Restore(editor: Editor, removeCaret: bool) returns (thrown: Option<Thrown>)
      modifies editor
      ensures thrown == if editor.hasProject then None else Some(NullPointerException)
      ensures editor.State() == Restored(old(editor.State()), editor.hasProject, editor.isEx, removeCaret,
                                         range, offset, caretRow)
    {
      editor.SetCaretRowShown(caretRow);
      if !editor.hasProject {
        return Some(NullPointerException);
      }
      thrown := None;
      if removeCaret {
        if editor.isEx {
          editor.SetCaretEnabled(false);
        }
        editor.MoveToOffset(offset);
      }
      editor.SetSelection(range.startOffset, range.endOffset);
    }
  }

  /** Saving the state, resetting and restoring with the same `removeCaret` gives back the
      saved state, except that on an `EditorEx` the caret stays disabled. */
  lemma RoundTrip(s: EditorView, lastLineEnd: int, isEx: bool, removeCaret: bool)
    requires s.Coherent()
    ensures Restored(Reset(s, lastLineEnd, isEx, removeCaret), true, isEx, removeCaret,
                     TextRange(s.selStart, s.selEnd), s.caret, s.caretRow)
         == if removeCaret && isEx then s.(caretEnabled := false) else s
  {
  }

  /** An `EditorEx` whose caret was shown before a capture with `removeCaret` has it
      hidden afterwards, where the Kotlin tree shows it again. */
  lemma CaretLeftDisabled(s: EditorView, lastLineEnd: int)
    requires s.Coherent() && s.caretEnabled
    ensures var after := Restored(Reset(s, lastLineEnd, true, true), true, true, true,
                                  TextRange(s.selStart, s.selEnd), s.caret, s.caretRow);
            after != s && !after.caretEnabled
    ensures KotlinImageBuilder.Restored(EditorUtils.Reset(s, lastLineEnd, true, true), true, true, true,
                                        TextRange(s.selStart, s.selEnd), s.caret, s.caretRow) == s
  {
    RoundTrip(s, lastLineEnd, true, true);
    KotlinImageBuilder.RoundTrip(s, lastLineEnd, true, true);
  }

  // ================================================================ createImage

  /** What `contentComponent.getGraphics()` gives: null, a context that is not a
      `Graphics2D`, or a `Graphics2D` with its transform. */
  datatype ContentGraphics = NoGraphics | NotGraphics2D | Graphics2D(transform: Affine)

  /** The exceptions `createImage` catches: an `IOException` becomes `null`, any other
      one leaves the call. */
  function Caught(r: Result<JavaTransferable.TransferableImage, Thrown>)
    : Result<Option<JavaTransferable.TransferableImage>, Thrown>
  {
    if r.Success? then Success(Some(r.value))
    else if r.error == IOException then Success(None)
    else Failure(r.error)
  }

  /** What `createImage(r)` answers and which paints it makes: the cast `as Graphics2D`
      throws on a null context (`NullPointerException`) or another kind of context
      (`ClassCastException`); otherwise the warm-up and the real paint of the Kotlin tree. */
  function CreateOutcome(options: JavaOptions.State, r: Rect, graphics: ContentGraphics, sysScale: real,
                         background: Color, warmUpStream: Result<string, Thrown>, svgStream: Result<string, Thrown>)
    : (Result<Option<JavaTransferable.TransferableImage>, Thrown>, seq<KotlinImageBuilder.PaintCall>)
  {
    match graphics
    case NoGraphics => (Failure(NullPointerException), [])
    case NotGraphics2D => (Failure(ClassCastException), [])
    case Graphics2D(t) =>
      var warm := KotlinImageBuilder.WarmUp(t, options.scale);
      var main := KotlinImageBuilder.RealPaint(t, options.scale, r, background, options.padding);
      var first := JavaTransferable.PaintResult(options.format, 1, 1, 0, sysScale, warmUpStream);
      if first.Failure? then (Caught(first), [warm])
      else (Caught(JavaTransferable.PaintResult(options.format, main.width, main.height, main.padding, sysScale, svgStream)),
            [warm, main])
  }

  /** The same options of the Kotlin tree: the six shared fields, the rest at their
      defaults. */
  function AsKotlin(o: JavaOptions.State): KotlinOptions.State
  {
    KotlinOptions.DefaultState(if o.directoryToSave.Some? then o.directoryToSave.value else "")
      .(scale := o.scale, removeCaret := o.removeCaret, chopIndentation := o.chopIndentation,
        padding := o.padding, format := JavaTransferable.AsKotlin(o.format))
  }

  /** Over a `Graphics2D` both revisions paint the same calls and succeed, answer `null`
      or fail alike; over any other context the Kotlin tree answers `null` where this one
      throws. */
  lemma CreateLikeKotlin(options: JavaOptions.State, r: Rect, graphics: ContentGraphics, sysScale: real,
                         background: Color, warmUpStream: Result<string, Thrown>, svgStream: Result<string, Thrown>)
    ensures var (j, jCalls) := CreateOutcome(options, r, graphics, sysScale, background, warmUpStream, svgStream);
            var (k, kCalls) := KotlinImageBuilder.CreateOutcome(AsKotlin(options), r,
                                 if graphics.Graphics2D? then Some(graphics.transform) else None,
                                 sysScale, background, warmUpStream, svgStream);
            && jCalls == kCalls
            && (graphics.Graphics2D? ==> (j.Success? <==> k.Success?) && (j.Failure? ==> j.error == k.error)
                                         && (j.Success? ==> (j.value.Some? <==> k.value.Some?)))
            && (!graphics.Graphics2D? ==> j.Failure? && k == Success(None))
  {
    if graphics.Graphics2D? {
      var t := graphics.transform;
      var main := KotlinImageBuilder.RealPaint(t, options.scale, r, background, options.padding);
      JavaTransferable.PaintLikeKotlin(options.format, 1, 1, 0, sysScale, warmUpStream);
      JavaTransferable.PaintLikeKotlin(options.format, main.width, main.height, main.padding, sysScale, svgStream);
    }
  }

  /** One `format.paint` call of this revision, answering what the painting produced. */
  method Draw(format: JavaTransferable.Format, call: KotlinImageBuilder.PaintCall, sysScale: real,
              stream: Result<string, Thrown>)
    returns (result: Result<JavaTransferable.TransferableImage, Thrown>)
    ensures result == JavaTransferable.PaintResult(format, call.width, call.height, call.padding, sysScale, stream)
  {
    var _, res, _ := JavaTransferable.Paint(format, call.at, call.width, call.height, call.background, call.padding,
                                            sysScale, stream);
    result := res;
  }

  /** The `try` block of `createImage(r)` after the reset. */
  method PaintSelection(options: JavaOptions.State, r: Rect, graphics: ContentGraphics, sysScale: real,
                        background: Color, warmUpStream: Result<string, Thrown>, svgStream: Result<string, Thrown>)
    returns (res: Result<Option<JavaTransferable.TransferableImage>, Thrown>, calls: seq<KotlinImageBuilder.PaintCall>)
    ensures (res, calls) == CreateOutcome(options, r, graphics, sysScale, background, warmUpStream, svgStream)
  {
    match graphics
    case NoGraphics =>
      return Failure(NullPointerException), [];
    case NotGraphics2D =>
      return Failure(ClassCastException), [];
    case Graphics2D(t) =>
      var warm := KotlinImageBuilder.WarmUp(t, options.scale);
      var first := Draw(options.format, warm, sysScale, warmUpStream);
      if first.Failure? {
        return Caught(first), [warm];
      }
      var main := KotlinImageBuilder.RealPaint(t, options.scale, r, background, options.padding);
      var second := Draw(options.format, main, sysScale, svgStream);
      res, calls := Caught(second), [warm, main];
  }

  /** `createImage(r)`: save the editor state, reset the editor, paint and restore the
      saved state in `finally`, whatever the way out; the builder's editor has a project,
      so the restore itself does not throw. */
  method CreateImage(editor: Editor, options: JavaOptions.State, r: Rect, graphics: ContentGraphics, sysScale: real,
                     background: Color, warmUpStream: Result<string, Thrown>, svgStream: Result<string, Thrown>)
    returns (res: Result<Option<JavaTransferable.TransferableImage>, Thrown>, calls: seq<KotlinImageBuilder.PaintCall>)
    requires editor.hasProject && editor.State().Coherent()
    modifies editor
    ensures (res, calls) == CreateOutcome(options, r, graphics, sysScale, background, warmUpStream, svgStream)
    ensures editor.State() == if options.removeCaret && editor.isEx then old(editor.State()).(caretEnabled := false)
                              else old(editor.State())
  {
    var state := EditorState.From(editor);
    ghost var saved := editor.State();
    ResetEditor(editor, options);
    RoundTrip(saved, editor.lastLineEnd, editor.isEx, options.removeCaret);
    res, calls := PaintSelection(options, r, graphics, sysScale, background, warmUpStream, svgStream);
    var _ := state.Restore(editor, options.removeCaret);
  }
}
