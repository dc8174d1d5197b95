/** The IntelliJ editor as the plugin sees it.

    `View` holds the answers of the editor's layout queries for one document, taken as
    given: where each offset is drawn, where lines start, where soft wraps are, the inlays,
    and the pixel sizes the plugin reads. `Editor` holds the state the plugin changes and
    later puts back: caret, selection and the display settings. */
module Host {
  import opened Wrappers
  import opened Platform

  /** An inline inlay: the offset it sits at and its bounds, if it has any on screen. */
  datatype Inlay = Inlay(offset: int, bounds: Option<Rect>)

  /** Layout answers of an editor showing one document.
      - `xy(i)`: `visualPositionToXY(offsetToVisualPosition(i))`, which is also what
        `offsetToXY(i)` returns: the top-left pixel of the caret position before offset i;
      - `lineStarts[k]`: `logicalPositionToOffset(LogicalPosition(k, 0))`;
      - `lineEndAt(k)`: `logicalPositionToOffset(LogicalPosition(k, Int.MAX_VALUE))`, for
        any line index the plugin asks about;
      - `wrapStops(k)`: the start offsets of `getSoftWrapsForLine(k)`;
      - `softWrapAt(i)`: `getSoftWrap(i) != null`;
      - `symbolWidth1` / `symbolWidth2`: the minimal drawing widths of the
        before-line-feed and after-soft-wrap signs; `wsCharWidth`: the width of a space;
        `scaledPixel`: `JBUI.scale(1)`. */
  datatype View = View(
    text: string,
    lineStarts: seq<int>,
    xy: int -> Point,
    lineEndAt: int -> int,
    wrapStops: int -> seq<int>,
    softWrapAt: int -> bool,
    softWrapping: bool,
    lineHeight: int,
    wsCharWidth: int,
    symbolWidth1: int,
    symbolWidth2: int,
    scaledPixel: int,
    inlays: seq<Inlay>,
    gutterWidth: int)
  {
    function LineCount(): nat { |lineStarts| }

    /** Where a line's text ends: one before the next line's start, which leaves out the
        line break, or the text length on the last line. */
    function LineEnd(line: int): int
      requires 0 <= line < |lineStarts|
    {
      if line < |lineStarts| - 1 then lineStarts[line + 1] - 1 else |text|
    }

    /** The document's line structure: line 0 starts at 0, starts increase, every later
        line starts right after a '\n', and no '\n' lies inside a line's text. */
    ghost predicate Valid()
    {
      && |lineStarts| >= 1
      && lineStarts[0] == 0
      && (forall j, k :: 0 <= j < k < |lineStarts| ==> lineStarts[j] < lineStarts[k])
      && (forall k :: 1 <= k < |lineStarts| ==> lineStarts[k] <= |text| && text[lineStarts[k] - 1] == '\n')
      && |text| >= lineStarts[|lineStarts| - 1]
      && (forall k {:trigger LineEnd(k)} :: 0 <= k < |lineStarts| ==>
            forall j :: lineStarts[k] <= j < LineEnd(k) ==> text[j] != '\n')
    }
  }

  /** The number of line starts at or before `o`. */
  function StartsUpTo(ls: seq<int>, o: int): (n: nat)
    ensures n <= |ls|
  {
    if ls == [] then 0
    else StartsUpTo(ls[..|ls| - 1], o) + (if ls[|ls| - 1] <= o then 1 else 0)
  }

  /** `offsetToLogicalPosition(o).line`: the last line whose start is at or before `o`. */
  function LineOf(v: View, o: int): (k: int)
    requires v.Valid() && 0 <= o
    ensures 0 <= k < v.LineCount()
    ensures v.lineStarts[k] <= o
    ensures k + 1 < v.LineCount() ==> o < v.lineStarts[k + 1]
  {
    StartsUpToSorted(v.lineStarts, o);
    StartsUpTo(v.lineStarts, o) - 1
  }

  /** In a strictly increasing sequence, the starts at or before `o` are a prefix. */
  lemma {:induction false} StartsUpToSorted(ls: seq<int>, o: int)
    requires |ls| >= 1 && ls[0] <= o
    requires forall j, k :: 0 <= j < k < |ls| ==> ls[j] < ls[k]
    ensures 1 <= StartsUpTo(ls, o)
    ensures ls[StartsUpTo(ls, o) - 1] <= o
    ensures StartsUpTo(ls, o) < |ls| ==> o < ls[StartsUpTo(ls, o)]
  {
    var init := ls[..|ls| - 1];
    if |ls| == 1 {
      assert StartsUpTo(init, o) == 0;
    } else {
      StartsUpToSorted(init, o);
      if ls[|ls| - 1] <= o {
        AllStartsUpTo(init, o);
      }
    }
  }

  /** When every start is at or before `o`, all of them are counted. */
  lemma {:induction false} AllStartsUpTo(ls: seq<int>, o: int)
    requires forall k :: 0 <= k < |ls| ==> ls[k] <= o
    ensures StartsUpTo(ls, o) == |ls|
  {
    if ls != [] {
      AllStartsUpTo(ls[..|ls| - 1], o);
    }
  }

  /** `TextRange(startOffset, endOffset)`. */
  datatype TextRange = TextRange(startOffset: int, endOffset: int)

  /** The five display settings the plugin switches for a screenshot. */
  datatype Flags = Flags(
    lineNumbers: bool,
    gutterIcons: bool,
    foldingOutline: bool,
    indentGuides: bool,
    innerWhitespace: bool)

  /** Everything the plugin changes on an editor, as one value. */
  datatype EditorView = EditorView(
    caret: int,
    caretEnabled: bool,
    caretRow: bool,
    selStart: int,
    selEnd: int,
    flags: Flags)
  {
    /** An empty range is no selection, and `selectionStart`/`selectionEnd` then read the
        caret offset: a state an editor can show has its empty selection at the caret. */
    predicate Coherent()
    {
      selStart == selEnd ==> selStart == caret
    }

    /** The state `setSelection(start, end)` leaves: an empty range removes the selection,
        which then reads as the caret offset. */
    function Select(start: int, end: int): (t: EditorView)
      ensures t.Coherent()
      ensures t.caret == caret && t.flags == flags
      ensures start != end ==> t.selStart == start && t.selEnd == end
      ensures start == end ==> t.selStart == t.selEnd == caret
    {
      if start == end then this.(selStart := caret, selEnd := caret) else this.(selStart := start, selEnd := end)
    }

    /** The state `moveToOffset(offset)` leaves: a selection is kept, while an empty one
        follows the caret. */
    function MovedTo(offset: int): (t: EditorView)
      ensures t.caret == offset && t.flags == flags
      ensures Coherent() ==> t.Coherent()
      ensures selStart != selEnd ==> t.selStart == selStart && t.selEnd == selEnd
    {
      if selStart == selEnd then this.(caret := offset, selStart := offset, selEnd := offset)
      else this.(caret := offset)
    }
  }

  /** An open editor: the caret, the selection and the settings the plugin touches.
      `lastLineEnd` is `document.getLineEndOffset(lineCount - 1)`; `isEx` says the editor
      is an `EditorEx` (only those can disable the caret); `hasProject` says
      `editor.project` is not null. */
  class Editor {
    var caretOffset: int
    var caretEnabled: bool
    var caretRowShown: bool
    var selectionStart: int
    var selectionEnd: int
    var lineNumbersShown: bool
    var gutterIconsShown: bool
    var foldingOutlineShown: bool
    var indentGuidesShown: bool
    var innerWhitespaceShown: bool
    const lastLineEnd: int
    const isEx: bool
    const hasProject: bool

    function Settings(): Flags
      reads this
    {
      Flags(lineNumbersShown, gutterIconsShown, foldingOutlineShown, indentGuidesShown, innerWhitespaceShown)
    }

    function State(): EditorView
      reads this
    {
      EditorView(caretOffset, caretEnabled, caretRowShown, selectionStart, selectionEnd, Settings())
    }

    constructor (initial: EditorView, lastLineEnd: int, isEx: bool, hasProject: bool)
      requires initial.Coherent()
      ensures State() == initial
      ensures this.lastLineEnd == lastLineEnd && this.isEx == isEx && this.hasProject == hasProject
    {
      caretOffset := initial.caret;
      caretEnabled := initial.caretEnabled;
      caretRowShown := initial.caretRow;
      selectionStart := initial.selStart;
      selectionEnd := initial.selEnd;
      lineNumbersShown := initial.flags.lineNumbers;
      gutterIconsShown := initial.flags.gutterIcons;
      foldingOutlineShown := initial.flags.foldingOutline;
      indentGuidesShown := initial.flags.indentGuides;
      innerWhitespaceShown := initial.flags.innerWhitespace;
      this.lastLineEnd := lastLineEnd;
      this.isEx := isEx;
      this.hasProject := hasProject;
    }

    /** `selectionModel.setSelection(start, end)`; the caret stays where it is. An empty
        range removes the selection, which then reads as the caret offset. */
    method SetSelection(start: int, end: int)
      modifies this
      ensures State() == old(State()).Select(start, end)
    {
      if start == end {
        selectionStart, selectionEnd := caretOffset, caretOffset;
      } else {
        selectionStart, selectionEnd := start, end;
      }
    }

    /** `selectionModel.removeSelection()`: the selection collapses onto the caret. */
    method RemoveSelection()
      modifies this
      ensures State() == old(State()).(selStart := old(caretOffset), selEnd := old(caretOffset))
    {
      selectionStart, selectionEnd := caretOffset, caretOffset;
    }

    /** `caretModel.moveToOffset(offset)`: a selection is kept, while an empty one, which
        reads as the caret offset, follows the caret. */
    method MoveToOffset(offset: int)
      modifies this
      ensures State() == old(State()).MovedTo(offset)
    {
      if selectionStart == selectionEnd {
        selectionStart, selectionEnd := offset, offset;
      }
      caretOffset := offset;
    }

    /** `EditorEx.setCaretEnabled(enabled)`. */
    method SetCaretEnabled(enabled: bool)
      requires isEx
      modifies this
      ensures State() == old(State()).(caretEnabled := enabled)
    {
      caretEnabled := enabled;
    }

    /** `settings.isCaretRowShown = shown`. */
    method SetCaretRowShown(shown: bool)
      modifies this
      ensures State() == old(State()).(caretRow := shown)
    {
      caretRowShown := shown;
    }

    /** The five consecutive settings writes: line numbers, gutter icons, folding
        outline, inner whitespace, indent guides. */
    method ApplySettings(f: Flags)
      modifies this
      ensures State() == old(State()).(flags := f)
    {
      lineNumbersShown := f.lineNumbers;
      gutterIconsShown := f.gutterIcons;
      foldingOutlineShown := f.foldingOutline;
      innerWhitespaceShown := f.innerWhitespace;
      indentGuidesShown := f.indentGuides;
    }
  }
}
