# code-screenshoter core, in Dafny

code-screenshoter is an IntelliJ plugin that turns the selected code of an editor into a
PNG image or an SVG document, then copies it to the clipboard or saves it. The project
models the plugin's own logic beneath the editor, Swing and Batik glue:

- **Selection geometry.** This is how a selection becomes a pixel rectangle:
  - the two `calculateSelectionArea` loops (line-bounded in `EditorUtils.kt`, per-offset
    in `AdvancedImageBuilder.kt`), which grow integer edges with `min`/`max`;
  - the three `getSelectionRectangle` loops, which grow a `Rectangle2D` point by point
    through `includePoint`;
  - indentation chopping, through an `indentRegion` flag or the `EMPTY_SUFFIX` regular
    expression, and the soft-wrap extensions.
- **Editor state.** This covers `StateSnapshot`, `resetEditor` and `EditorState`: what a
  capture changes on the editor (selection, caret, caret row, five settings) and what the
  restore puts back.
- **Image frame arithmetic.** This covers the frame sizes of `takeScreenshot`, the
  `selectedSize` pixel count, the canvas size of `Format.paint`, and the fill, translate
  and clip steps of `paintComponent`.
- **Transfer formats and options.** This covers the `Format` enum, the flavor dispatch of
  `TransferableImage` with its SVG override, `write`, and the `CopyImageOptionsProvider`
  state with its defaults.

The Java tree and the Kotlin tree hold revisions of the same files that behave
differently. Each revision is its own module:

- `KotlinImageBuilder`, `KotlinTransferable` and `KotlinOptions` model the Kotlin tree.
- `JavaImageBuilder`, `JavaTransferable` and `JavaOptions` model the Java tree.
- Lemmas relate each pair, for example `JavaImageBuilder.CaretLeftDisabled` and
  `JavaTransferable.PaintLikeKotlin`.

Some code appears twice in identical form, and the model defines it once:

- The `StateSnapshot` of `AdvancedImageBuilder.kt` is the one of `EditorUtils.kt`, apart
  from the names of locals.
- The `resetEditor` of the Kotlin `ImageBuilder.kt` is the one of `EditorUtils.kt`.
- The per-offset `getSelectionRectangle` of the Java tree walks the same offsets as the
  Kotlin `ImageBuilder.kt` one.

The host editor is replaced by a value `Host.View`. It holds the answers the plugin asks
the editor for:

- the text, `offsetToXY` and the line starts;
- the soft-wrap model and the inline inlays;
- `lineHeight`, the symbol widths and the scaled pixel.

The mutable part of the editor is the class `Host.Editor`. It has fields for the caret
offset, caret enabled, caret row shown, selection start and end, and five visibility
settings. The methods the plugin calls change these fields. As in IntelliJ, an empty range
is no selection: `selectionStart` and `selectionEnd` then read the caret offset. So
`setSelection(s, s)` and `removeSelection()` leave the selection on the caret, and an empty
selection moves with the caret.

Modules:

- `Platform` models the JDK/AWT behaviour the plugin relies on:
  - `Rectangle2D` (`setFrame`, `add`, `getBounds`);
  - truncation of `toInt()`, and 32-bit `Int` wrap-around;
  - `Character.isWhitespace` and the regex `\s`;
  - `DataFlavor` equality and text-type tests, following the JDK's `DataFlavor.equals` and `isFlavorTextType` within the limits under "## Left out";
  - a `Graphics2D` with its transform, clip, fills and paints;
  - an `OutputStream`.
- `SelectionGeometry` holds the specification functions the loops are proved against:
  - `Run`/`RunFrom` fold the edge loop over offsets;
  - `MarkRun`/`MarkFrom` fold the rectangle loop;
  - `Extent` folds the empty-selection line loop.

  It also holds their independent readings: `Hull` (the smallest rectangle of the
  marks), `NonBreaks`, `IndentAfter`, and the left/right candidates.
- `Constants` reads the `\n\s+$` search as a predicate on the text.

Numbers:

- Coordinates are whole pixels, so rectangles are exact integers.
- `scale` and `sysScale` are exact reals.
- `toInt()` truncates toward zero.
- Kotlin `Int` sums and products that can overflow are wrapped explicitly with
  `Platform.Wrap32`.

## Model

Source paths are relative to the repository root.

| member | source | states |
|---|---|---|
| Platform.Wrap32 | src/main/kotlin/one/tain/jbp/code/screenshoter/EditorUtils.kt:155-161 | Kotlin `Int` arithmetic: the result is in the 32-bit range, congruent to the exact value modulo 2^32, and equal to it when it fits |
| Platform.Trunc | src/main/kotlin/one/tain/jbp/code/screenshoter/TransferableImage.kt:225-226 | `toInt()` truncates toward zero: within one of the value, on the side of zero, and not negative for a non-negative value |
| Platform.AddPointGrows | src/main/kotlin/one/tain/jbp/code/screenshoter/EditorUtils.kt:434 | `Rectangle2D.add(point)` covers the point, keeps every point it covered, and contains a non-negative rectangle it started from |
| Platform.AddRectGrows | src/main/kotlin/one/tain/jbp/code/screenshoter/EditorUtils.kt:519 | `Rectangle2D.add(rect)` contains both rectangles and keeps every point it covered |
| Platform.Rectangle2D.constructor | src/main/kotlin/one/tain/jbp/code/screenshoter/EditorUtils.kt:463 | `Rectangle2D.Double()` is the empty rectangle at the origin |
| Platform.Rectangle2D.SetFrame | src/main/kotlin/one/tain/jbp/code/screenshoter/EditorUtils.kt:431 | `setFrame` makes the rectangle exactly the given frame |
| Platform.Rectangle2D.Add | src/main/kotlin/one/tain/jbp/code/screenshoter/EditorUtils.kt:434 | `add(point)` replaces the rectangle by its union with the point |
| Platform.Rectangle2D.AddRectangle | src/main/kotlin/one/tain/jbp/code/screenshoter/EditorUtils.kt:519 | `add(rect)` replaces the rectangle by the union of both |
| Platform.SvgFlavorIsStringFlavor | src/main/kotlin/one/tain/jbp/code/screenshoter/TransferableImage.kt:137 | `DataFlavor(String::class.java, "image/svg+xml; charset=utf-8")` equals `stringFlavor` both ways, and does not equal the `image/svg+xml` MIME flavor either way |
| Platform.PlainTextEqualsIff | src/main/java/one/tain/jbp/code/screenshoter/TransferableImage.kt:53 | `DataFlavor.equals`: a `text/plain` flavor equals `plainTextFlavor` exactly when it is an input stream in UTF-16, because the charset counts for a text subtype with a charset and a class that is not a standard text class |
| Platform.TextTypeBySubtype | src/main/kotlin/one/tain/jbp/code/screenshoter/TransferableImage.kt:265 | `isFlavorTextType`: `text/plain` is a text type for every character or byte class, `text/rtf` only for byte classes, since its subtype has no charset |
| Platform.RegexSpaceIsJavaWhitespace | src/main/kotlin/one/tain/jbp/code/screenshoter/EditorUtils.kt:136 | every character the regex `\s` matches is also `Character.isWhitespace` |
| Platform.Graphics.SetColor | src/main/kotlin/one/tain/jbp/code/screenshoter/TransferableImage.kt:231 | `g.color = c` changes the colour and nothing else |
| Platform.Graphics.FillRect | src/main/kotlin/one/tain/jbp/code/screenshoter/TransferableImage.kt:232 | `fillRect` records one fill of the rectangle mapped by the current transform, in the current colour, and changes nothing else |
| Platform.Graphics.Translate | src/main/kotlin/one/tain/jbp/code/screenshoter/TransferableImage.kt:235 | `translate` composes a translation onto the transform and changes nothing else |
| Platform.Graphics.ClipRect | src/main/kotlin/one/tain/jbp/code/screenshoter/TransferableImage.kt:236 | `clipRect` intersects the clip with the rectangle in the current user space, or sets it when there is none |
| Platform.Graphics.Transform | src/main/kotlin/one/tain/jbp/code/screenshoter/TransferableImage.kt:239 | `transform(at)` composes `at` after the current transform and changes nothing else |
| Platform.Graphics.PaintComponent | src/main/kotlin/one/tain/jbp/code/screenshoter/TransferableImage.kt:240 | the component paints once, under the current clip and transform |
| Platform.OutputStream.Write | src/main/kotlin/one/tain/jbp/code/screenshoter/TransferableImage.kt:281 | writing to an open stream appends exactly the bytes |
| Platform.OutputStream.Close | src/main/kotlin/one/tain/jbp/code/screenshoter/TransferableImage.kt:280-282 | closing keeps what was written and leaves the stream closed |
| Host.LineOf | src/main/kotlin/one/tain/jbp/code/screenshoter/EditorUtils.kt:103-104 | `offsetToLogicalPosition(o).line` is the line whose start is at or before `o` with the next start after it |
| Host.EditorView.Select | src/main/kotlin/one/tain/jbp/code/screenshoter/EditorUtils.kt:360 | `setSelection(start, end)` selects a non-empty range; an empty range removes the selection, which then reads as the caret offset (start and end both at the caret); caret and settings stay, and the state stays one an editor can show |
| Host.EditorView.MovedTo | src/main/kotlin/one/tain/jbp/code/screenshoter/EditorUtils.kt:556 | `moveToOffset` puts the caret at the offset, keeps a non-empty selection and the settings, and keeps the state one an editor can show |
| Host.Editor.SetSelection | src/main/kotlin/one/tain/jbp/code/screenshoter/EditorUtils.kt:360 | `setSelection(start, end)` leaves the state `Select(start, end)`: an empty range, such as `setSelection(0, 0)`, leaves no selection, so the selection then reads as the caret; caret, caret row and settings stay |
| Host.Editor.RemoveSelection | src/main/kotlin/one/tain/jbp/code/screenshoter/EditorUtils.kt:540 | `removeSelection()` collapses the selection onto the caret offset and changes nothing else |
| Host.Editor.MoveToOffset | src/main/kotlin/one/tain/jbp/code/screenshoter/EditorUtils.kt:556 | `moveToOffset` moves the caret; an empty selection, which reads as the caret, moves with it; nothing else changes |
| Host.Editor.SetCaretEnabled | src/main/kotlin/one/tain/jbp/code/screenshoter/EditorUtils.kt:560 | `setCaretEnabled` (an `EditorEx` only) sets the caret's visibility and changes nothing else |
| Host.Editor.SetCaretRowShown | src/main/kotlin/one/tain/jbp/code/screenshoter/EditorUtils.kt:564 | `isCaretRowShown = b` sets the caret-row flag and changes nothing else |
| Host.Editor.ApplySettings | src/main/kotlin/one/tain/jbp/code/screenshoter/EditorUtils.kt:374-378 | the five settings writes set the five visibility flags and change nothing else |
| Constants.HasEmptySuffixIff | src/main/kotlin/one/tain/jbp/code/screenshoter/EditorUtils.kt:441 | the skip test computed from the text is exactly the `\n\s+$` search on it |
| Constants.FindsEmptySuffixIff | src/main/kotlin/one/tain/jbp/code/screenshoter/EditorUtils.kt:441 | the `\n\s+$` search succeeds exactly when the text, less one final line terminator, ends in a line break followed by one or more `\s` characters |
| Constants.FindsEmptySuffixEndsBlank | src/main/kotlin/one/tain/jbp/code/screenshoter/ImageBuilder.kt:26 | the search succeeds only on a text of length at least 2 whose last character is blank (`\s` or a line terminator) |
| SelectionGeometry.Range | src/main/kotlin/one/tain/jbp/code/screenshoter/EditorUtils.kt:120 | `lo until hi` lists exactly lo, lo + 1, ..., hi - 1 |
| SelectionGeometry.StopsRightIsMax | src/main/kotlin/one/tain/jbp/code/screenshoter/EditorUtils.kt:84-86 | the wrap-stop loop of one line raises the right edge to the maximum of where it was and each stop's x plus space and wrap-symbol width |
| SelectionGeometry.ExtentEdges | src/main/kotlin/one/tain/jbp/code/screenshoter/EditorUtils.kt:79-93 | the empty-selection loop keeps left and top at 0 and ends with the bottom at the last line end's y |
| SelectionGeometry.ExtentRightBound | src/main/kotlin/one/tain/jbp/code/screenshoter/EditorUtils.kt:79-93 | the empty-selection right edge is at least 0, every line end's x and every wrap stop's x plus space and wrap-symbol width |
| SelectionGeometry.ExtentRightAttained | src/main/kotlin/one/tain/jbp/code/screenshoter/EditorUtils.kt:79-93 | the empty-selection right edge is 0 or one of those candidates, so it is their maximum |
| SelectionGeometry.RunFromIsRun | src/main/kotlin/one/tain/jbp/code/screenshoter/AdvancedImageBuilder.kt:202-231 | the interval loop is the walk over the interval's offsets |
| SelectionGeometry.UpperBottomOnlyAtEnds | src/main/kotlin/one/tain/jbp/code/screenshoter/EditorUtils.kt:121-128 | the top edge is set only at the selection start, to its y, and the bottom edge only at the selection end |
| SelectionGeometry.IndentRegionMeaning | src/main/kotlin/one/tain/jbp/code/screenshoter/AdvancedImageBuilder.kt:212-221 | after a walk, `indentRegion` holds exactly when every interior character since the last visited line break is whitespace |
| SelectionGeometry.RightBound | src/main/kotlin/one/tain/jbp/code/screenshoter/EditorUtils.kt:129-147 | the right edge never decreases and ends at or above every interior offset's x and every wrap stop's right end |
| SelectionGeometry.RightAttained | src/main/kotlin/one/tain/jbp/code/screenshoter/EditorUtils.kt:129-147 | the right edge ends where it started or at one of those candidates |
| SelectionGeometry.LeftBound | src/main/kotlin/one/tain/jbp/code/screenshoter/EditorUtils.kt:132-145 | the left edge never increases and ends at or below each first non-whitespace x of an indent region (when chopping) and each wrap's x minus the after-wrap symbol |
| SelectionGeometry.LeftAttained | src/main/kotlin/one/tain/jbp/code/screenshoter/EditorUtils.kt:132-145 | the left edge ends where it started or at one of those candidates |
| SelectionGeometry.InlaysIn | src/main/kotlin/one/tain/jbp/code/screenshoter/EditorUtils.kt:516 | `getInlineElementsInRange(start, end)` yields only inlays at offsets in [start, end] |
| SelectionGeometry.Filter | src/main/kotlin/one/tain/jbp/code/screenshoter/EditorUtils.kt:516 | the inlays in range are exactly the view's inlays whose offset is in [start, end] |
| SelectionGeometry.MarkFromIsMarkRun | src/main/kotlin/one/tain/jbp/code/screenshoter/ImageBuilder.kt:173-190 | the interval rectangle loop is the walk over the interval's offsets |
| SelectionGeometry.MarkRunIsIncludeAll | src/main/kotlin/one/tain/jbp/code/screenshoter/ImageBuilder.kt:173-190 | the rectangle loop includes, in order, the two points of every offset it does not skip |
| SelectionGeometry.IncludeAllIsHull | src/main/kotlin/one/tain/jbp/code/screenshoter/EditorUtils.kt:427-436 | including points one by one into an empty rectangle builds their hull: min/max of the coordinates, one pixel past the maximum |
| SelectionGeometry.HullCovers | src/main/kotlin/one/tain/jbp/code/screenshoter/EditorUtils.kt:427-436 | the hull covers every point and the first point's 1 x 1 square, and is not empty |
| SelectionGeometry.HullMinimal | src/main/kotlin/one/tain/jbp/code/screenshoter/EditorUtils.kt:427-436 | the hull lies inside every rectangle covering the points and the first point's square: it is the smallest such |
| SelectionGeometry.AddInlaysGrows | src/main/kotlin/one/tain/jbp/code/screenshoter/EditorUtils.kt:516-521 | adding inlay bounds keeps every covered point and takes in each inlay that has bounds |
| SelectionGeometry.SkippedIsBlank | src/main/kotlin/one/tain/jbp/code/screenshoter/EditorUtils.kt:495-499 | a skipped offset is never the first one, and the prefix through it ends in a blank character |
| SelectionGeometry.MarksComplete | src/main/kotlin/one/tain/jbp/code/screenshoter/EditorUtils.kt:506-509 | both points (the offset's xy and one line height below) of every walked, unskipped offset are marks |
| SelectionGeometry.MarksSound | src/main/kotlin/one/tain/jbp/code/screenshoter/EditorUtils.kt:506-509 | every mark is one of those two points of a walked, unskipped offset |
| SelectionGeometry.IncludeGrows | src/main/kotlin/one/tain/jbp/code/screenshoter/EditorUtils.kt:427-436 | `includePoint` covers the point and is never empty; an empty rectangle becomes the 1 x 1 square at the point; a non-empty one only grows |
| SelectionGeometry.SelectionRectCovers | src/main/kotlin/one/tain/jbp/code/screenshoter/EditorUtils.kt:480-521 | the selection rectangle covers both points of every walked, unskipped offset and contains every inlay bound of the range |
| EditorUtils.Segment | src/main/kotlin/one/tain/jbp/code/screenshoter/EditorUtils.kt:106-120 | the offsets of one line's segment lie in the selection [s, e) |
| EditorUtils.LineVisits | src/main/kotlin/one/tain/jbp/code/screenshoter/EditorUtils.kt:103-120 | every offset the line-bounded loop visits lies in [s, e) |
| EditorUtils.NonBreaksMeaning | src/main/kotlin/one/tain/jbp/code/screenshoter/EditorUtils.kt:106-120 | the reference list holds exactly the offsets of [lo, hi) without a line break, in increasing order |
| EditorUtils.LineOfMonotone | src/main/kotlin/one/tain/jbp/code/screenshoter/EditorUtils.kt:103-104 | a later offset is never on an earlier line, so the start line is at most the end line |
| EditorUtils.FirstSegment | src/main/kotlin/one/tain/jbp/code/screenshoter/EditorUtils.kt:106-120 | on the line holding s, the loop visits s up to the end of the line's text or the selection end, with no line break |
| EditorUtils.LaterSegment | src/main/kotlin/one/tain/jbp/code/screenshoter/EditorUtils.kt:106-120 | on each later line the loop visits the line's text up to the selection end, which continues the break-free offsets past the previous line break |
| EditorUtils.SegmentsAreNonBreaks | src/main/kotlin/one/tain/jbp/code/screenshoter/EditorUtils.kt:103-120 | the segments of the lines from s's line to line L are the break-free offsets of [s, end of L) |
| EditorUtils.LineVisitsAreNonBreaks | src/main/kotlin/one/tain/jbp/code/screenshoter/EditorUtils.kt:103-120 | the line-bounded loop visits, in order, exactly the offsets of [s, e) that are not line breaks |
| EditorUtils.LineEdges | src/main/kotlin/one/tain/jbp/code/screenshoter/EditorUtils.kt:79-93 | the empty-selection loop computes the `Extent` fold, whose edges the `Extent*` lemmas describe |
| EditorUtils.VisitOffset | src/main/kotlin/one/tain/jbp/code/screenshoter/EditorUtils.kt:120-150 | one line-bounded loop body is one `Step` of the walk |
| EditorUtils.WalkSegment | src/main/kotlin/one/tain/jbp/code/screenshoter/EditorUtils.kt:119-151 | the offset loop of one line is the walk over `actualStart until actualEnd` |
| EditorUtils.WalkLine | src/main/kotlin/one/tain/jbp/code/screenshoter/EditorUtils.kt:106-152 | one round of the line loop extends the walk by that line's segment |
| EditorUtils.WalkLines | src/main/kotlin/one/tain/jbp/code/screenshoter/EditorUtils.kt:103-153 | the line loop is the walk over the segments of lines startLine..endLine |
| EditorUtils.FrameEdges | src/main/kotlin/one/tain/jbp/code/screenshoter/EditorUtils.kt:155-161 | the frame sits at (left, top), is right - left + one scaled pixel wide and bottom + lineHeight - top high, as `Int`s, through `getBounds` |
| EditorUtils.SelectionLines | src/main/kotlin/one/tain/jbp/code/screenshoter/EditorUtils.kt:103-104 | the start and end lines are the lines of the two offsets, in order |
| EditorUtils.CalculateSelectionArea | src/main/kotlin/one/tain/jbp/code/screenshoter/EditorUtils.kt:62-163 | the method computes the line-bounded area: the empty-selection extent, or the walk over the break-free offsets of [s, e), framed |
| EditorUtils.GetRange | src/main/kotlin/one/tain/jbp/code/screenshoter/EditorUtils.kt:416-419 | the range is the selection as the editor reads it, which for an editor with no selection is the empty range at the caret |
| EditorUtils.IncludePoint | src/main/kotlin/one/tain/jbp/code/screenshoter/EditorUtils.kt:427-436 | a null point leaves `r` as it was; otherwise `r` becomes the 1 x 1 square at p when empty, else its union with p |
| EditorUtils.MarkOffset | src/main/kotlin/one/tain/jbp/code/screenshoter/EditorUtils.kt:493-510 | one loop body of `getSelectionRectangle` extends the rectangle fold by one offset |
| EditorUtils.MarkSegment | src/main/kotlin/one/tain/jbp/code/screenshoter/EditorUtils.kt:492-511 | the offset loop of one line is the rectangle fold over `actualStart until actualEnd` |
| EditorUtils.MarkLinesIsMarkRun | src/main/kotlin/one/tain/jbp/code/screenshoter/EditorUtils.kt:480-512 | the line loop of `getSelectionRectangle` is the rectangle fold over the lines' segments in order |
| EditorUtils.MarkLine | src/main/kotlin/one/tain/jbp/code/screenshoter/EditorUtils.kt:481-511 | one round of the line loop extends the fold by that line |
| EditorUtils.MarkLines | src/main/kotlin/one/tain/jbp/code/screenshoter/EditorUtils.kt:480-512 | the line loop is the fold over lines startLine..endLine |
| EditorUtils.AddInlayBounds | src/main/kotlin/one/tain/jbp/code/screenshoter/EditorUtils.kt:516-521 | the inlay loop adds the bounds of every inlay that has bounds, in order |
| EditorUtils.LineBoundedRectIsLoop | src/main/kotlin/one/tain/jbp/code/screenshoter/EditorUtils.kt:472-523 | the line-bounded rectangle is the line loop's rectangle with the range's inlays added |
| EditorUtils.GetSelectionRectangle | src/main/kotlin/one/tain/jbp/code/screenshoter/EditorUtils.kt:455-523 | a fresh rectangle: empty for empty text, else the union of both points of every break-free, unskipped offset of [start, end) and the inlay bounds of [start, end] |
| EditorUtils.LineBoundedRectCovers | src/main/kotlin/one/tain/jbp/code/screenshoter/EditorUtils.kt:480-521 | the line-bounded rectangle covers both points of every offset of the range that is not a line break and not skipped |
| EditorUtils.LineBoundedBottomNeverSet | src/main/kotlin/one/tain/jbp/code/screenshoter/EditorUtils.kt:118-128 | the line-bounded walk never reaches the selection end, so the bottom edge stays 0 |
| EditorUtils.LineBoundedIndentNeverReset | src/main/kotlin/one/tain/jbp/code/screenshoter/EditorUtils.kt:132-145 | no line break is visited, so `indentRegion` ends true exactly when every visited interior character is whitespace |
| EditorUtils.TweakEffect | src/main/kotlin/one/tain/jbp/code/screenshoter/EditorUtils.kt:358-380 | `tweakEditor` leaves no selection (it reads as the caret), applies the five option flags, disables a removed caret and sends it from offset 0 to the last line's end and from anywhere else to 0 (the start it reads after `setSelection(0, 0)` is the caret), leaves the caret alone otherwise, and never touches the caret row |
| EditorUtils.SnapshotRoundTrip | src/main/kotlin/one/tain/jbp/code/screenshoter/EditorUtils.kt:387-407 | restoring a snapshot of a state an editor can show gives back the saved caret offset, selection and settings, with the caret enabled whatever it was |
| EditorUtils.StateSnapshot.constructor | src/main/kotlin/one/tain/jbp/code/screenshoter/EditorUtils.kt:332-349 | the snapshot captures the caret offset, the selection and the five settings |
| EditorUtils.StateSnapshot.TweakEditor | src/main/kotlin/one/tain/jbp/code/screenshoter/EditorUtils.kt:358-380 | the editor's new state is the tweaked state of the old one |
| EditorUtils.StateSnapshot.Restore | src/main/kotlin/one/tain/jbp/code/screenshoter/EditorUtils.kt:387-407 | the editor's new state is the captured state, caret enabled, caret row as it currently is |
| EditorUtils.ResetEditor | src/main/kotlin/one/tain/jbp/code/screenshoter/EditorUtils.kt:536-566 | the editor's new state is `Reset` of the old one |
| EditorUtils.ResetEffect | src/main/kotlin/one/tain/jbp/code/screenshoter/EditorUtils.kt:536-566 | the reset leaves no selection and keeps the settings; with `removeCaret` the caret goes to the last line's end from offset 0 and to 0 from elsewhere, the caret row is hidden, and an `EditorEx` caret is disabled; without it the caret is left alone |
| EditorUtils.ResetCaretInSelection | src/main/kotlin/one/tain/jbp/code/screenshoter/EditorUtils.kt:540-556 | a selection [0, 5) with the caret at 5 sends the caret to 0, inside the captured selection |
| EditorUtils.EditorState.From | src/main/kotlin/one/tain/jbp/code/screenshoter/EditorUtils.kt:616-621 | `from` captures the selection range, the caret offset and the caret row |
| EditorUtils.EditorState.Restore | src/main/kotlin/one/tain/jbp/code/screenshoter/EditorUtils.kt:587-607 | without a project nothing changes; otherwise the caret row and the selection are put back, and with `removeCaret` the caret moves back and an `EditorEx` caret is enabled |
| EditorUtils.ResetRoundTrip | src/main/kotlin/one/tain/jbp/code/screenshoter/EditorUtils.kt:536-623 | saving, resetting and restoring gives back the saved state, with an `EditorEx` caret enabled under `removeCaret`; without a project the reset state stays |
| AdvancedImageBuilder.VisitOffset | src/main/kotlin/one/tain/jbp/code/screenshoter/AdvancedImageBuilder.kt:203-230 | one per-offset loop body is one `Step` of the walk, which reads the character at every interior offset |
| AdvancedImageBuilder.WalkAll | src/main/kotlin/one/tain/jbp/code/screenshoter/AdvancedImageBuilder.kt:202-231 | the loop `selectionStart..selectionEnd` is the walk over every offset of the selection, both ends included |
| AdvancedImageBuilder.CalculateSelectionArea | src/main/kotlin/one/tain/jbp/code/screenshoter/AdvancedImageBuilder.kt:166-241 | the method computes the per-offset area: the empty-selection extent over lines 0..lineCount, or the inclusive walk, framed |
| AdvancedImageBuilder.PerOffsetUpperBottom | src/main/kotlin/one/tain/jbp/code/screenshoter/AdvancedImageBuilder.kt:202-211 | the top edge is the selection start's y and the bottom edge the selection end's y |
| AdvancedImageBuilder.PerOffsetLeftAfterBreak | src/main/kotlin/one/tain/jbp/code/screenshoter/AdvancedImageBuilder.kt:212-221 | when chopping, a non-whitespace character right after an interior line break pulls the left edge to its x or less |
| AdvancedImageBuilder.PerOffsetIndent | src/main/kotlin/one/tain/jbp/code/screenshoter/AdvancedImageBuilder.kt:198-221 | after the walk, `indentRegion` is "only whitespace since the last line break" |
| AdvancedImageBuilder.PaddedSideIsSum | src/main/kotlin/one/tain/jbp/code/screenshoter/AdvancedImageBuilder.kt:70-72 | each padded side is the inner side plus the truncated scaled double padding |
| AdvancedImageBuilder.FramePadded | src/main/kotlin/one/tain/jbp/code/screenshoter/AdvancedImageBuilder.kt:64-72 | the inner frame is trunc((gutter + width) * scale) by trunc(height * scale), with no negative side, and the frame adds trunc(2 * padding * scale) to each |
| AdvancedImageBuilder.PaddingGuard | src/main/kotlin/one/tain/jbp/code/screenshoter/AdvancedImageBuilder.kt:108-118 | bands are drawn exactly when padding > 0; each spans the full height; the gutter band ends where the editor band starts, and the editor band reaches the width plus twice the padding |
| AdvancedImageBuilder.ContentAligned | src/main/kotlin/one/tain/jbp/code/screenshoter/AdvancedImageBuilder.kt:129-153 | the gutter region ends where the content region starts, both end at `bounds.height`, and the selection's top-left lands at the content region's corner |
| AdvancedImageBuilder.Builder.TakeScreenshot | src/main/kotlin/one/tain/jbp/code/screenshoter/AdvancedImageBuilder.kt:52-97 | a null editor gives a `NullPointerException` and any other non-`EditorEx` a `ClassCastException`; otherwise the bounds come from the selection saved before the tweak; a non-positive frame side or a paint failure leaves the editor tweaked; success restores it with the caret enabled |
| AdvancedImageBuilder.LineBoundedSample | src/main/kotlin/one/tain/jbp/code/screenshoter/EditorUtils.kt:106-161 | on " a\nb" the line-bounded area is Rect(10, 0, 1, 20), missing the second line |
| AdvancedImageBuilder.PerOffsetSample | src/main/kotlin/one/tain/jbp/code/screenshoter/AdvancedImageBuilder.kt:198-240 | on " a\nb" the per-offset area is Rect(0, 0, 21, 40), holding both lines |
| KotlinImageBuilder.GetSelectionRectangle | src/main/kotlin/one/tain/jbp/code/screenshoter/ImageBuilder.kt:163-201 | a fresh rectangle: the union of both points of every unskipped offset of start..end inclusive and the inlay bounds of [start, end] |
| KotlinImageBuilder.PerOffsetRectIsLoop | src/main/kotlin/one/tain/jbp/code/screenshoter/ImageBuilder.kt:173-199 | the rectangle is the offset loop from an empty rectangle, then the inlays |
| KotlinImageBuilder.SelectedSize | src/main/kotlin/one/tain/jbp/code/screenshoter/ImageBuilder.kt:130-150 | the size is the rectangle of the current selection over the document text it covers |
| KotlinImageBuilder.PerOffsetRectCovers | src/main/kotlin/one/tain/jbp/code/screenshoter/ImageBuilder.kt:173-190 | the rectangle covers both points of every unskipped offset, the end offset included |
| KotlinImageBuilder.MarksStartAtStart | src/main/kotlin/one/tain/jbp/code/screenshoter/ImageBuilder.kt:173-190 | the first offset is never skipped, so the first mark is the start's point |
| KotlinImageBuilder.PerOffsetRectNonEmpty | src/main/kotlin/one/tain/jbp/code/screenshoter/ImageBuilder.kt:173-190 | the rectangle is never empty |
| KotlinImageBuilder.PerOffsetRectSmallest | src/main/kotlin/one/tain/jbp/code/screenshoter/ImageBuilder.kt:173-199 | without inlays, the rectangle lies inside every rectangle covering those points and the start's 1 x 1 square |
| KotlinImageBuilder.RestoreLikeEditorUtils | src/main/kotlin/one/tain/jbp/code/screenshoter/ImageBuilder.kt:222-239 | with a project this restore equals the one of `EditorUtils.kt`; without one it still puts back the caret row |
| KotlinImageBuilder.EditorState.From | src/main/kotlin/one/tain/jbp/code/screenshoter/ImageBuilder.kt:248-253 | `from` captures the selection range, the caret offset and the caret row |
| KotlinImageBuilder.EditorState.Restore | src/main/kotlin/one/tain/jbp/code/screenshoter/ImageBuilder.kt:222-239 | the caret row is restored first; without a project nothing more; otherwise, with `removeCaret`, an `EditorEx` caret is enabled and moved back; then the selection is put back |
| KotlinImageBuilder.RoundTrip | src/main/kotlin/one/tain/jbp/code/screenshoter/ImageBuilder.kt:90-120 | reset then restore gives back the saved state, except that an `EditorEx` caret under `removeCaret` comes back enabled |
| KotlinImageBuilder.RealPaintFramesSelection | src/main/kotlin/one/tain/jbp/code/screenshoter/ImageBuilder.kt:63-71 | the real paint's transform takes the selection rectangle to the scaled rectangle at the context's origin |
| KotlinImageBuilder.CreateOutcomeShape | src/main/kotlin/one/tain/jbp/code/screenshoter/ImageBuilder.kt:52-75 | the warm-up 1 x 1 black paint with no padding comes first; the real paint follows exactly when it succeeded, with `options.padding`; an image needs both; an SVG stream failure gives null |
| KotlinImageBuilder.CreateOutcomeAfterWarmUp | src/main/kotlin/one/tain/jbp/code/screenshoter/ImageBuilder.kt:62-75 | after a good warm-up, the outcome is the real paint's result with `IOException` turned into null |
| KotlinImageBuilder.PaintSelection | src/main/kotlin/one/tain/jbp/code/screenshoter/ImageBuilder.kt:52-75 | the `try` block computes `CreateOutcome` |
| KotlinImageBuilder.Draw | src/main/kotlin/one/tain/jbp/code/screenshoter/ImageBuilder.kt:68-72 | one `format.paint` call answers what `Format.paint` produces for that call |
| KotlinImageBuilder.CreateImage | src/main/kotlin/one/tain/jbp/code/screenshoter/ImageBuilder.kt:41-80 | the outcome is `CreateOutcome`, and on every way out the editor is back in its saved state, with the caret enabled under `removeCaret` on an `EditorEx` |
| JavaImageBuilder.ResetEditor | src/main/java/one/tain/jbp/code/screenshoter/ImageBuilder.kt:56-68 | the editor's new state is this file's `Reset`: target chosen from the selection read before removing it |
| JavaImageBuilder.ResetLikeEditorUtils | src/main/java/one/tain/jbp/code/screenshoter/ImageBuilder.kt:56-68 | this reset equals the Kotlin one exactly when the caret is left alone, the last line ends at 0, or selection start and caret are both at 0 or both away from it |
| JavaImageBuilder.ResetCaretOutsideSelection | src/main/java/one/tain/jbp/code/screenshoter/ImageBuilder.kt:56-68 | with `removeCaret` the caret lands outside the selection being captured and the caret row is hidden |
| JavaImageBuilder.IncludePoint | src/main/java/one/tain/jbp/code/screenshoter/ImageBuilder.kt:179-185 | no null guard: a null point throws before `r` changes; otherwise the 1 x 1 square for an empty `r`, else the union |
| JavaImageBuilder.MarkOffset | src/main/java/one/tain/jbp/code/screenshoter/ImageBuilder.kt:113-127 | one loop body extends the rectangle fold by one offset, and neither `includePoint` throws |
| JavaImageBuilder.GetSelectionRectangle | src/main/java/one/tain/jbp/code/screenshoter/ImageBuilder.kt:103-137 | the rectangle is the Kotlin per-offset rectangle of the range |
| JavaImageBuilder.PixelCountUnitScale | src/main/java/one/tain/jbp/code/screenshoter/ImageBuilder.kt:70-77 | at scale 1 the pixel count is exactly (w + 2p) * (h + 2p) |
| JavaImageBuilder.PixelCountAtLeastArea | src/main/java/one/tain/jbp/code/screenshoter/ImageBuilder.kt:70-77 | at a scale of at least 1 the pixel count is at least the padded area |
| JavaImageBuilder.SelectedSize | src/main/java/one/tain/jbp/code/screenshoter/ImageBuilder.kt:70-88 | returns trunc((w + 2p)(h + 2p) * scale^2) with the selection rectangle it was computed from |
| JavaImageBuilder.EditorState.From | src/main/java/one/tain/jbp/code/screenshoter/ImageBuilder.kt:160-165 | `from` captures the selection range, the caret offset and the caret row |
| JavaImageBuilder.EditorState.Restore | src/main/java/one/tain/jbp/code/screenshoter/ImageBuilder.kt:144-157 | restores the caret row; throws a `NullPointerException` exactly without a project; otherwise moves the caret back under `removeCaret`, disabling an `EditorEx` caret, and puts the selection back |
| JavaImageBuilder.RoundTrip | src/main/java/one/tain/jbp/code/screenshoter/ImageBuilder.kt:56-68 | reset then restore gives back the saved state, except that an `EditorEx` caret under `removeCaret` stays disabled |
| JavaImageBuilder.CaretLeftDisabled | src/main/java/one/tain/jbp/code/screenshoter/ImageBuilder.kt:150-155 | a shown `EditorEx` caret is hidden after a capture with `removeCaret`, where the Kotlin tree gives the state back unchanged |
| JavaImageBuilder.CreateLikeKotlin | src/main/java/one/tain/jbp/code/screenshoter/ImageBuilder.kt:25-54 | over a `Graphics2D` both revisions paint the same calls and agree on success, error and null; over another context this one throws where Kotlin answers null |
| JavaImageBuilder.Draw | src/main/java/one/tain/jbp/code/screenshoter/ImageBuilder.kt:43-47 | one `format.paint` call answers what this revision's `Format.paint` produces |
| JavaImageBuilder.PaintSelection | src/main/java/one/tain/jbp/code/screenshoter/ImageBuilder.kt:30-50 | the `try` block computes `CreateOutcome`, including the `NullPointerException` and `ClassCastException` of the cast |
| JavaImageBuilder.CreateImage | src/main/java/one/tain/jbp/code/screenshoter/ImageBuilder.kt:25-54 | the outcome is `CreateOutcome`, and on every way out the editor is back in its saved state, except that an `EditorEx` caret under `removeCaret` is left disabled |
| KotlinTransferable.TransferableImage.GetTransferDataFlavors | src/main/kotlin/one/tain/jbp/code/screenshoter/TransferableImage.kt:56-58 | the advertised flavors are the format's: `imageFlavor` for a PNG, and for an SVG two flavors that both equal `stringFlavor`, since the first is built from a class and a display name |
| KotlinTransferable.TransferableImage.IsDataFlavorSupported | src/main/kotlin/one/tain/jbp/code/screenshoter/TransferableImage.kt:67-69 | `contains` asks `flavor.equals`: a PNG supports exactly the flavors equal to `imageFlavor`, an SVG exactly those equal to `stringFlavor` |
| KotlinTransferable.TransferableImage.GetTransferData | src/main/kotlin/one/tain/jbp/code/screenshoter/TransferableImage.kt:263-269 | a flavor is served exactly when supported or, for an SVG, a text or reader flavor; a refused flavor throws `UnsupportedFlavorException` for it; a reader comes back exactly for an SVG reader flavor that is no text flavor, otherwise the transferee |
| KotlinTransferable.TransferableImage.BaseTransferData | src/main/kotlin/one/tain/jbp/code/screenshoter/TransferableImage.kt:43-48 | the transferee is returned exactly for a supported flavor; any other flavor throws `UnsupportedFlavorException` for that flavor |
| KotlinTransferable.PngServesOnlyImage | src/main/kotlin/one/tain/jbp/code/screenshoter/TransferableImage.kt:93 | a PNG supports exactly the flavors `equals` finds equal to the image flavor, `image/x-java-image` or `image` with subtype `*` delivered as an image, hands out its image for them and throws for anything else |
| KotlinTransferable.SvgServesAdvertised | src/main/kotlin/one/tain/jbp/code/screenshoter/TransferableImage.kt:135-139 | an SVG serves each advertised flavor, each equal to `stringFlavor`, with the markup |
| KotlinTransferable.SvgMimeRefused | src/main/kotlin/one/tain/jbp/code/screenshoter/TransferableImage.kt:137 | as written, the `image/svg+xml` flavor delivered as a `String` is not supported and `getTransferData` refuses it |
| KotlinTransferable.IntendedSvgServed | src/main/kotlin/one/tain/jbp/code/screenshoter/TransferableImage.kt:135-139 | with the SVG MIME flavor built from a MIME string, that flavor is advertised and served with the markup, and every flavor served as written is served the same way |
| KotlinTransferable.SvgServesUnadvertised | src/main/kotlin/one/tain/jbp/code/screenshoter/TransferableImage.kt:263-269 | the override also serves text flavors it does not advertise, `plainTextFlavor` and a `text/plain` reader flavor, with the markup as a `String` |
| KotlinTransferable.SvgRtfFlavors | src/main/kotlin/one/tain/jbp/code/screenshoter/TransferableImage.kt:263-269 | `text/rtf` as a `String` is no text type, so the base class throws `UnsupportedFlavorException`; `text/rtf` through a reader gets a `StringReader` |
| KotlinTransferable.SvgReaderOnlyForNonText | src/main/kotlin/one/tain/jbp/code/screenshoter/TransferableImage.kt:263-269 | a reader is handed out exactly for a reader flavor that is not a text flavor |
| KotlinTransferable.CanvasIsFill | src/main/kotlin/one/tain/jbp/code/screenshoter/TransferableImage.kt:116-117 | the canvas trunc(w * scale + 2p) by trunc(h * scale + 2p) is exactly the filled area trunc(w * scale) + 2p by trunc(h * scale) + 2p |
| KotlinTransferable.PaintComponent | src/main/kotlin/one/tain/jbp/code/screenshoter/TransferableImage.kt:215-241 | one fill of the padded area in the background colour, transform = translation by (p, p) then `at`, clip = the scaled content at the padding, one paint under them |
| KotlinTransferable.ContentInsideFill | src/main/kotlin/one/tain/jbp/code/screenshoter/TransferableImage.kt:224-236 | on a fresh context the clip is the scaled content at (p, p) and lies inside the filled background |
| KotlinTransferable.PaintResultSize | src/main/kotlin/one/tain/jbp/code/screenshoter/TransferableImage.kt:116-127 | a PNG succeeds exactly for a positive canvas and is an image of the filled size; an SVG fails exactly when streaming fails |
| KotlinTransferable.Paint | src/main/kotlin/one/tain/jbp/code/screenshoter/TransferableImage.kt:114-174 | the canvas size, the transferable produced, and (when drawing happens) the one fill, transform, clip and paint on a fresh context |
| KotlinTransferable.Write | src/main/kotlin/one/tain/jbp/code/screenshoter/TransferableImage.kt:279-305 | the encoded bytes are appended, or the encoder's `IOException` is passed on with nothing written; the stream is closed either way |
| JavaTransferable.TransferableImage.GetTransferDataFlavors | src/main/java/one/tain/jbp/code/screenshoter/TransferableImage.kt:32-34 | a copy of the format's flavors: `imageFlavor` for a PNG; for an SVG two flavors equal to `stringFlavor`, then `plainTextFlavor` |
| JavaTransferable.TransferableImage.IsDataFlavorSupported | src/main/java/one/tain/jbp/code/screenshoter/TransferableImage.kt:36-38 | `flavor.equals` some advertised flavor: a PNG supports exactly the flavors equal to `imageFlavor`, an SVG those equal to `stringFlavor` or `plainTextFlavor` |
| JavaTransferable.TransferableImage.GetTransferData | src/main/java/one/tain/jbp/code/screenshoter/TransferableImage.kt:52-58 | a flavor is served exactly when supported, and refused with `UnsupportedFlavorException` otherwise; a reader comes back exactly for an SVG and a flavor equal to `plainTextFlavor`, otherwise the transferee |
| JavaTransferable.TransferableImage.BaseTransferData | src/main/java/one/tain/jbp/code/screenshoter/TransferableImage.kt:25-30 | the transferee exactly for a supported flavor, `UnsupportedFlavorException` otherwise |
| JavaTransferable.ServedIffSupported | src/main/java/one/tain/jbp/code/screenshoter/TransferableImage.kt:36-38 | every transferable of this revision serves exactly the flavors it advertises |
| JavaTransferable.SvgPayloads | src/main/java/one/tain/jbp/code/screenshoter/TransferableImage.kt:52-58 | an SVG gives a reader for a flavor `equals` finds equal to `plainTextFlavor`, the markup for one equal to `stringFlavor` (its first two flavors), and throws otherwise |
| JavaTransferable.SvgMimeRefused | src/main/java/one/tain/jbp/code/screenshoter/TransferableImage.kt:90 | as written, the `image/svg+xml` flavor delivered as a `String` is refused |
| JavaTransferable.SvgPlainTextNeedsItsCharset | src/main/java/one/tain/jbp/code/screenshoter/TransferableImage.kt:52-58 | `text/plain` through an input stream gets a reader in UTF-16, the charset of `plainTextFlavor`, and is refused in UTF-8 |
| JavaTransferable.PaintLikeKotlin | src/main/java/one/tain/jbp/code/screenshoter/TransferableImage.kt:69-117 | both revisions fail alike and succeed over the same image or markup |
| JavaTransferable.Paint | src/main/java/one/tain/jbp/code/screenshoter/TransferableImage.kt:120-136 | same canvas size, fill, translate, clip and transform as the Kotlin revision, with this revision's transferables |
| JavaTransferable.Write | src/main/java/one/tain/jbp/code/screenshoter/TransferableImage.kt:43-65 | the encoded bytes are appended or the `IOException` passed on; only `Svg` closes the stream |
| KotlinOptions.DefaultState | src/main/kotlin/one/tain/jbp/code/screenshoter/CopyImageOptionsProvider.kt:60-87 | defaults: scale 4.0, removeCaret and chopIndentation on, padding 0, PNG, five flags off, lineLimitToWarn 50, pattern "yyyyMMdd_HHmmss" |
| KotlinOptions.Companion.constructor | src/main/kotlin/one/tain/jbp/code/screenshoter/CopyImageOptionsProvider.kt:13-25 | the companion starts with the default state |
| KotlinOptions.CopyImageOptionsProvider.LoadState | src/main/kotlin/one/tain/jbp/code/screenshoter/CopyImageOptionsProvider.kt:34-46 | after `loadState(s)`, `getState()` is `s` |
| KotlinOptions.LoadIsShared | src/main/kotlin/one/tain/jbp/code/screenshoter/CopyImageOptionsProvider.kt:24-46 | loading into one provider changes what every other provider answers |
| JavaOptions.DefaultState | src/main/java/one/tain/jbp/code/screenshoter/CopyImageOptionsProvider.kt:26-39 | defaults: scale 4.0, removeCaret and chopIndentation on, no directory, padding 0, PNG |
| JavaOptions.CopyImageOptionsProvider.constructor | src/main/java/one/tain/jbp/code/screenshoter/CopyImageOptionsProvider.kt:16 | a new provider holds the defaults |
| JavaOptions.CopyImageOptionsProvider.LoadState | src/main/java/one/tain/jbp/code/screenshoter/CopyImageOptionsProvider.kt:18-24 | after `loadState(s)`, `getState()` is `s` |
| JavaOptions.LoadIsPerInstance | src/main/java/one/tain/jbp/code/screenshoter/CopyImageOptionsProvider.kt:16-24 | loading into one provider leaves every other provider as it was |

## Left out

- Host editor queries are inputs, not implementations: `offsetToXY`, `offsetToVisualPosition`, `visualPositionToXY`, line starts, the soft-wrap and inlay models, `lineHeight`, `EditorUtil.charWidth`, `JBUI.scale(1)` and `sysScale`. The document's last line end and whether the editor is an `EditorEx` are constants of `Host.Editor`.
- IEEE `Double` behaviour: `scale` and `sysScale` are exact reals, and `toInt()` is truncation without its saturation at the `Int` range.
- Actual drawing is left out: `drawGutterBackground`/`drawEditorBackground`, `LinePainter2D`, the component's own painting, Batik's `SVGGraphics2D` and `ImageIO`. Only the rectangles and sizes they receive are modelled, and the encoders' output is a parameter (`svgStream`, `encoded`).
- The reflection helpers `findMethod`/`invokeMethod`, `extractVisualComponents`, `scrollPane.validate` and logging are foreign private-API access and diagnostics.
- Actions (`CopyImageAction`, `SaveImageAction`, `BaseImageAction`), the settings UI (`CopyImageConfigurable`, `CopyImageOptionsPanel`), `ScreenShoterUtils.kt`, `CopyImageUtils.kt` and `CodeScreenshoterBundle.kt` are clipboard, dialog, file, OS-probing and localisation plumbing. `ScreenShoterUtils.pictureDefaultDirectory()` is a parameter of `KotlinOptions.DefaultState`.
- The `EMPTY_SUFFIX` regular expression is a predicate on the text. It is not a regex engine. `EditorUtils.kt` compiles `\\n\\s+$` with `DOTALL` and `ImageBuilder.kt` compiles a literal line feed followed by `\s+$`. They match the same texts, since the pattern has no `.`.
- `Format.Ext` carries no lemma: it is the constant "png" or "svg".
- AdvancedImageBuilder.Builder.TakeScreenshot: the palettes' pixel contents are not modelled. The result is the frame size, the padding bands and the content regions.
- KotlinImageBuilder.SelectedSize: in the Kotlin tree `selectedSize` returns only the rectangle, as the source does. The pixel count is a Java-tree member.
- KotlinImageBuilder.CreateImage and JavaImageBuilder.CreateImage:
  - They require an editor with a project, as the builder's constructor demands one (`Objects.requireNonNull(editor.project)` in both trees).
  - `sysScale`, the background colour and the encoder output are parameters.
- KotlinImageBuilder.GetSelectionRectangle and JavaImageBuilder.GetSelectionRectangle: the points come from the editor's layout and are never null. The null-point path of `includePoint` exists only in `EditorUtils.IncludePoint` and `JavaImageBuilder.IncludePoint`.
- AdvancedImageBuilder.FramePadded, AdvancedImageBuilder.PaddingGuard, AdvancedImageBuilder.ContentAligned and KotlinTransferable.CanvasIsFill hold under a no-overflow precondition. Outside it the model still wraps the `Int` products with `Wrap32`, and the lemmas say nothing there.
- `Platform.Affine` has only a scale per axis and a translation: the transforms the plugin composes are of that form, so rotation and shear of `AffineTransform` are not modelled. The editor's own `Graphics2D` transform is a parameter of `createImage`.
- `Platform.FlavorEquals` and `Platform.IsFlavorTextType` take a flavor's `charset` by its canonical name, so `Charset` aliases are not resolved, and they count every named charset as supported by the JVM. The `document` parameter that `equals` also compares for `text/html` is not modelled; no flavor of the plugin is `text/html`.
- Host.Editor: IntelliJ editors with several carets are not modelled; there is one caret and one selection, and a state with an empty selection away from the caret cannot arise, which the lemmas about restores take as given (`EditorView.Coherent`).
- JavaImageBuilder.PixelCountAtLeastArea: only scales of at least 1 are covered. Below 1 the count can be smaller than the area, as it should be.

## Findings

| source | as written | input that shows it | evidently intended | confidence | as-written member | corrected member |
|---|---|---|---|---|---|---|
| src/main/kotlin/one/tain/jbp/code/screenshoter/EditorUtils.kt:106-155 | the line-bounded loop runs `actualStart until actualEnd`, so it never reaches the selection end: `bottomEdge` stays 0, and it never visits a `'\n'`, so `indentRegion` is never reset | text " a\nb" with `xy(o)` = (column * 10, line * 20), `lineHeight` 20, one-pixel scale, whole text selected, chopping: area Rect(10, 0, 1, 20) | both lines framed with the indentation chopped per line, as the per-offset revision does: Rect(0, 0, 21, 40) | not executed; high | AdvancedImageBuilder.LineBoundedSample | AdvancedImageBuilder.PerOffsetSample |
| src/main/java/one/tain/jbp/code/screenshoter/ImageBuilder.kt:150-155 | `EditorState.restore` calls `setCaretEnabled(false)`, so a caret hidden for the capture stays hidden | an `EditorEx` with its caret shown and `removeCaret` on | the caret shown again after the capture, as in the Kotlin tree | not executed; high | JavaImageBuilder.CaretLeftDisabled | KotlinImageBuilder.RoundTrip |
| src/main/kotlin/one/tain/jbp/code/screenshoter/EditorUtils.kt:540-556 | `resetEditor` reads the range after `removeSelection()`, which collapses it onto the caret, so the caret's target is chosen from the caret, not the selection | selection [0, 5) made left to right (caret at 5), last line end 10, `removeCaret` on: the caret moves to 0, inside the selection | the caret moved out of the selection being captured, as the Java tree does by reading the range first | not executed; medium | EditorUtils.ResetCaretInSelection | JavaImageBuilder.ResetCaretOutsideSelection |
| src/main/kotlin/one/tain/jbp/code/screenshoter/TransferableImage.kt:135-139 | the SVG entry builds its first flavor as `DataFlavor(String::class.java, "image/svg+xml; charset=utf-8")`, the constructor whose second argument is a display name, so the flavor is `stringFlavor` again and the SVG is never offered as `image/svg+xml` (the same in src/main/java/one/tain/jbp/code/screenshoter/TransferableImage.kt:90) | an SVG transferable asked for `image/svg+xml; charset=utf-8` as a `String`: `UnsupportedFlavorException` | the first flavor built from the MIME string `image/svg+xml; charset=utf-8; class=java.lang.String`, so that flavor is advertised and served with the markup | not executed; high | KotlinTransferable.SvgMimeRefused | KotlinTransferable.IntendedSvgServed |
