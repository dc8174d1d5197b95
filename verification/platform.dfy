/** The parts of the JVM, AWT and java.util.regex that the plugin's arithmetic and
    geometry rely on, written out with the behaviour the model depends on: Kotlin `Int`
    wrap-around, `Double.toInt()` truncation, `Rectangle2D` union and bounds, the two
    notions of "whitespace", clipboard data flavors, a graphics context's state and an
    output stream. */
module Platform {
  import opened Wrappers

  // ---------------------------------------------------------------- numbers

  const INT_MAX: int := 0x7fff_ffff
  const INT_MIN: int := -0x8000_0000

  function Min(a: int, b: int): int { if a <= b then a else b }
  function Max(a: int, b: int): int { if a >= b then a else b }

  /** Kotlin `Int` arithmetic: the exact result wrapped to 32-bit two's complement. */
  function Wrap32(x: int): (r: int)
    ensures INT_MIN <= r <= INT_MAX
    ensures (x - r) % 0x1_0000_0000 == 0
    ensures INT_MIN <= x <= INT_MAX ==> r == x
  {
    (x - INT_MIN) % 0x1_0000_0000 + INT_MIN
  }

  /** `Double.toInt()` / `toLong()` on an exactly represented value: truncation toward
      zero. Saturation at the integer range is not modelled. */
  function Trunc(x: real): (r: int)
    ensures x >= 0.0 ==> r as real <= x < r as real + 1.0
    ensures x < 0.0 ==> r as real - 1.0 < x <= r as real
    ensures x >= 0.0 ==> r >= 0
  {
    if x >= 0.0 then x.Floor else -((-x).Floor)
  }

  /** Truncation commutes with adding a whole number of pixels to a non-negative value. */
  lemma TruncAddWhole(x: real, n: int)
    requires x >= 0.0 && n >= 0
    ensures Trunc(x + n as real) == Trunc(x) + n
  {
  }

  // ---------------------------------------------------------------- geometry

  /** `java.awt.Point`: integer pixel coordinates. */
  datatype Point = Point(x: int, y: int)

  /** A rectangle with integer corner and size, as `java.awt.Rectangle` holds it and as a
      `Rectangle2D.Double` holds it when every value put into it is a whole number. */
  datatype Rect = Rect(x: int, y: int, width: int, height: int)
  {
    function MaxX(): int { x + width }
    function MaxY(): int { y + height }

    /** `RectangularShape.isEmpty()`. */
    predicate IsEmpty() { width <= 0 || height <= 0 }

    /** The closed region [x, x + width] x [y, y + height]: where `Rectangle2D.add`
        places an added point (on the boundary). */
    predicate Covers(p: Point) { x <= p.x <= x + width && y <= p.y <= y + height }

    /** Every edge of this rectangle lies inside `o` (or on its boundary). */
    predicate Inside(o: Rect) { o.x <= x && o.y <= y && MaxX() <= o.MaxX() && MaxY() <= o.MaxY() }

    function Area(): int { width * height }
  }

  /** `new Rectangle()` and `new Rectangle2D.Double()`. */
  const EmptyRect: Rect := Rect(0, 0, 0, 0)

  /** `Rectangle2D.add(Point2D)`: the smallest rectangle whose closed region holds the
      old rectangle's corners and the point. */
  function AddPoint(r: Rect, p: Point): Rect
  {
    var x1 := Min(r.x, p.x);
    var x2 := Max(r.MaxX(), p.x);
    var y1 := Min(r.y, p.y);
    var y2 := Max(r.MaxY(), p.y);
    Rect(x1, y1, x2 - x1, y2 - y1)
  }

  /** `Rectangle2D.add(Rectangle2D)`: the union of the two by their corners, with no
      test for emptiness on either side. */
  function AddRect(r: Rect, o: Rect): Rect
  {
    var x1 := Min(r.x, o.x);
    var x2 := Max(r.MaxX(), o.MaxX());
    var y1 := Min(r.y, o.y);
    var y2 := Max(r.MaxY(), o.MaxY());
    Rect(x1, y1, x2 - x1, y2 - y1)
  }

  /** `RectangularShape.getBounds()` on whole-number values: a negative width or height
      gives `new Rectangle()`; otherwise floor/ceil change nothing. */
  function Bounds(r: Rect): Rect
  {
    if r.width < 0 || r.height < 0 then EmptyRect else r
  }

  lemma AddPointGrows(r: Rect, p: Point)
    ensures AddPoint(r, p).Covers(p)
    ensures r.width >= 0 && r.height >= 0 ==> r.Inside(AddPoint(r, p))
    ensures forall q: Point :: r.Covers(q) ==> AddPoint(r, p).Covers(q)
  {
  }

  lemma AddRectGrows(r: Rect, o: Rect)
    ensures o.Inside(AddRect(r, o)) && r.Inside(AddRect(r, o))
    ensures forall q: Point :: r.Covers(q) ==> AddRect(r, o).Covers(q)
  {
  }

  /** A rectangle is inside another exactly when its four corner coordinates are. */
  lemma InsideCovers(a: Rect, b: Rect, q: Point)
    requires a.Inside(b) && a.Covers(q)
    ensures b.Covers(q)
  {
  }

  /** `java.awt.Dimension`. */
  datatype Dimension = Dimension(width: int, height: int)

  /** A `Rectangle2D.Double` that is updated in place. Every value the plugin stores in
      one is a whole number, so the fields are integers. */
  class Rectangle2D {
    var x: int
    var y: int
    var width: int
    var height: int

    function Value(): Rect
      reads this
    {
      Rect(x, y, width, height)
    }

    /** `Rectangle2D.Double()`. */
    constructor ()
      ensures Value() == EmptyRect
    {
      x, y, width, height := 0, 0, 0, 0;
    }

    predicate IsEmpty()
      reads this
    {
      Value().IsEmpty()
    }

    method SetFrame(r: Rect)
      modifies this
      ensures Value() == r
    {
      x, y, width, height := r.x, r.y, r.width, r.height;
    }

    /** `add(Point2D)`. */
    method Add(p: Point)
      modifies this
      ensures Value() == AddPoint(old(Value()), p)
    {
      SetFrame(AddPoint(Value(), p));
    }

    /** `add(Rectangle2D)`. */
    method AddRectangle(o: Rect)
      modifies this
      ensures Value() == AddRect(old(Value()), o)
    {
      SetFrame(AddRect(Value(), o));
    }
  }

  /** What a call threw instead of returning. */
  datatype Thrown = IOException | ClassCastException | NullPointerException | RuntimeFailure

  // ---------------------------------------------------------------- characters

  /** `Character.isWhitespace(char)`: the Unicode space, line and paragraph separators
      other than the three no-break spaces, and the ASCII controls TAB, LF, VT, FF, CR
      and FS..US. */
  predicate IsJavaWhitespace(c: char)
  {
    || c == '\t' || c == '\n' || c == '\U{000B}' || c == '\U{000C}' || c == '\r'
    || ('\U{001C}' <= c <= '\U{001F}')
    || c == ' ' || c == '\U{1680}'
    || ('\U{2000}' <= c <= '\U{2006}') || ('\U{2008}' <= c <= '\U{200A}')
    || c == '\U{2028}' || c == '\U{2029}' || c == '\U{205F}' || c == '\U{3000}'
  }

  /** The regular-expression class `\s` without UNICODE_CHARACTER_CLASS: `[ \t\n\x0B\f\r]`. */
  predicate IsRegexSpace(c: char)
  {
    c == ' ' || c == '\t' || c == '\n' || c == '\U{000B}' || c == '\U{000C}' || c == '\r'
  }

  /** A line terminator as `$` sees one outside UNIX_LINES mode (`\r\n` counts as one). */
  predicate IsLineTerminator(c: char)
  {
    c == '\n' || c == '\r' || c == '\U{0085}' || c == '\U{2028}' || c == '\U{2029}'
  }

  lemma RegexSpaceIsJavaWhitespace(c: char)
    requires IsRegexSpace(c)
    ensures IsJavaWhitespace(c)
  {
  }

  // ---------------------------------------------------------------- clipboard types

  /** What a data flavor hands out: its representation class (a class or any subclass). */
  datatype ReprClass =
    | StringClass | ReaderClass | CharBufferClass | CharArrayClass
    | InputStreamClass | ByteBufferClass | ByteArrayClass
    | ImageClass | OtherClass

  /** `java.awt.datatransfer.DataFlavor`: the MIME primary type and subtype, the `charset`
      parameter (held by its canonical name, which is what `equals` compares) and the
      representation class. */
  datatype DataFlavor = DataFlavor(primaryType: string, subType: string, charset: Option<string>, repr: ReprClass)

  /** `DataFlavor.imageFlavor`: `image/x-java-image; class=java.awt.Image`. */
  const ImageFlavor: DataFlavor := DataFlavor("image", "x-java-image", None, ImageClass)
  /** `DataFlavor.stringFlavor`: `application/x-java-serialized-object; class=java.lang.String`. */
  const StringFlavor: DataFlavor := DataFlavor("application", "x-java-serialized-object", None, StringClass)
  /** `DataFlavor.plainTextFlavor`: `text/plain; charset=unicode; class=java.io.InputStream`,
      `unicode` being an alias of UTF-16. */
  const PlainTextFlavor: DataFlavor := DataFlavor("text", "plain", Some("UTF-16"), InputStreamClass)
  /** `DataFlavor(String::class.java, "image/svg+xml; charset=utf-8")`. This is the
      constructor taking a representation class and a human-presentable name, so the
      string is only the flavor's display name: its MIME type is that of a serialized
      `String`, the type of `stringFlavor`. */
  const SvgFlavor: DataFlavor := DataFlavor("application", "x-java-serialized-object", None, StringClass)
  /** `DataFlavor("image/svg+xml; charset=utf-8; class=java.lang.String")`: the SVG MIME
      type delivered as a `String`, built from a MIME string. */
  const SvgMimeFlavor: DataFlavor := DataFlavor("image", "svg+xml", Some("UTF-8"), StringClass)

  /** The flavor the SVG format builds with a display name equals `stringFlavor` both
      ways, and is not equal to the SVG MIME flavor either way. */
  lemma SvgFlavorIsStringFlavor()
    ensures FlavorEquals(SvgFlavor, StringFlavor) && FlavorEquals(StringFlavor, SvgFlavor)
    ensures !FlavorEquals(SvgMimeFlavor, SvgFlavor) && !FlavorEquals(SvgFlavor, SvgMimeFlavor)
  {
  }

  /** `isStandardTextRepresentationClass()`: a reader, a string, a char buffer or a char array. */
  predicate IsStandardTextRepresentation(f: DataFlavor)
  {
    f.repr.ReaderClass? || f.repr.StringClass? || f.repr.CharBufferClass? || f.repr.CharArrayClass?
  }

  /** A byte representation: an input stream, a byte buffer or a byte array. */
  predicate IsByteRepresentation(f: DataFlavor)
  {
    f.repr.InputStreamClass? || f.repr.ByteBufferClass? || f.repr.ByteArrayClass?
  }

  /** `DataFlavorUtil.doesSubtypeSupportCharset(flavor)`: fixed for the text subtypes the
      JDK knows, otherwise whether the flavor names a charset. */
  predicate DoesSubtypeSupportCharset(f: DataFlavor)
  {
    if f.subType in {"sgml", "xml", "html", "enriched", "richtext", "uri-list", "directory", "css", "calendar", "plain"}
    then true
    else if f.subType in {"rtf", "tab-separated-values", "t140", "rfc822-headers", "parityfec"} then false
    else f.charset.Some?
  }

  /** `MimeType.match`: the same primary type, and the same subtype or `*` on either side. */
  predicate MimeMatch(a: DataFlavor, b: DataFlavor)
  {
    a.primaryType == b.primaryType && (a.subType == "*" || b.subType == "*" || a.subType == b.subType)
  }

  /** `a.equals(b)`: the same representation class and matching MIME types; for a text
      flavor of `a` whose subtype supports a charset and whose class is not a standard
      text class, also the same charset. It looks at `a`'s subtype, so it need not be
      symmetric. */
  predicate FlavorEquals(a: DataFlavor, b: DataFlavor)
  {
    && a.repr == b.repr
    && MimeMatch(a, b)
    && (a.primaryType == "text" && DoesSubtypeSupportCharset(a) && !IsStandardTextRepresentation(a)
        ==> a.charset == b.charset)
  }

  /** `DataFlavorUtil.isFlavorCharsetTextType(flavor)`: the string flavor, or a text flavor
      whose subtype supports a charset, delivered as characters or as bytes. */
  predicate IsFlavorCharsetTextType(f: DataFlavor)
  {
    || FlavorEquals(StringFlavor, f)
    || (f.primaryType == "text" && DoesSubtypeSupportCharset(f) && (IsStandardTextRepresentation(f) || IsByteRepresentation(f)))
  }

  /** `DataFlavorUtil.isFlavorNoncharsetTextType(flavor)`: a text flavor whose subtype
      has no charset, delivered as bytes. */
  predicate IsFlavorNoncharsetTextType(f: DataFlavor)
  {
    f.primaryType == "text" && !DoesSubtypeSupportCharset(f) && IsByteRepresentation(f)
  }

  /** `DataFlavor.isFlavorTextType()`. */
  predicate IsFlavorTextType(f: DataFlavor)
  {
    IsFlavorCharsetTextType(f) || IsFlavorNoncharsetTextType(f)
  }

  /** `DataFlavor.isRepresentationClassReader()`. */
  predicate IsRepresentationClassReader(f: DataFlavor)
  {
    f.repr == ReaderClass
  }

  /** A `text/plain` flavor equals `plainTextFlavor` exactly when it is read through an
      input stream in UTF-16: the charset counts, because an input stream is not a
      standard text class. */
  lemma PlainTextEqualsIff(c: Option<string>, r: ReprClass)
    ensures FlavorEquals(DataFlavor("text", "plain", c, r), PlainTextFlavor) <==> r == InputStreamClass && c == Some("UTF-16")
  {
  }

  /** Whether a text flavor is a text type depends on its subtype: `text/plain` is one
      however it is delivered as characters or bytes, while `text/rtf`, which has no
      charset, is one only when delivered as bytes. */
  lemma TextTypeBySubtype(c: Option<string>, r: ReprClass)
    ensures IsFlavorTextType(DataFlavor("text", "plain", c, r))
        <==> r in {StringClass, ReaderClass, CharBufferClass, CharArrayClass, InputStreamClass, ByteBufferClass, ByteArrayClass}
    ensures IsFlavorTextType(DataFlavor("text", "rtf", c, r))
        <==> r in {InputStreamClass, ByteBufferClass, ByteArrayClass}
  {
  }

  // ---------------------------------------------------------------- drawing

  /** An sRGB colour. */
  datatype Color = Color(rgb: int)
  const Black: Color := Color(0)

  /** A rectangle in device space, where a scaled transform can put corners between pixels. */
  datatype Area = Area(x: real, y: real, width: real, height: real)
  {
    predicate Inside(o: Area)
    {
      o.x <= x && o.y <= y && x + width <= o.x + o.width && y + height <= o.y + o.height
    }
  }

  /** An `AffineTransform` made of a scale per axis and a translation:
      (x, y) goes to (sx * x + tx, sy * y + ty). */
  datatype Affine = Affine(sx: real, sy: real, tx: real, ty: real)
  {
    /** Where the user-space rectangle (x, y, w, h) lands in device space. */
    function MapRect(x: real, y: real, w: real, h: real): Area
    {
      Area(sx * x + tx, sy * y + ty, sx * w, sy * h)
    }

    /** `AffineTransform.concatenate(b)`: apply `b` first, then this transform. */
    function Then(b: Affine): Affine
    {
      Affine(sx * b.sx, sy * b.sy, sx * b.tx + tx, sy * b.ty + ty)
    }

    /** `AffineTransform.scale(s, s)`. */
    function Scaled(s: real): Affine { Then(Affine(s, s, 0.0, 0.0)) }

    /** `AffineTransform.translate(dx, dy)`. */
    function Translated(dx: real, dy: real): Affine { Then(Affine(1.0, 1.0, dx, dy)) }
  }

  const Identity: Affine := Affine(1.0, 1.0, 0.0, 0.0)

  /** The intersection of two device-space rectangles, as `Graphics.clipRect` forms it. */
  function Intersect(a: Area, b: Area): Area
  {
    var x1 := if a.x >= b.x then a.x else b.x;
    var y1 := if a.y >= b.y then a.y else b.y;
    var x2 := if a.x + a.width <= b.x + b.width then a.x + a.width else b.x + b.width;
    var y2 := if a.y + a.height <= b.y + b.height then a.y + a.height else b.y + b.height;
    Area(x1, y1, x2 - x1, y2 - y1)
  }

  /** One `fillRect` call as it lands in device space, with the colour it used. */
  datatype Fill = Fill(area: Area, color: Color)

  /** One call to a component's `paint(g)`: the clip and the transform it drew under. */
  datatype Painted = Painted(clip: Option<Area>, transform: Affine)

  /** A `Graphics2D` context: current colour, transform and clip, and the record of what
      has been filled and painted through it. */
  class Graphics {
    var color: Color
    var transform: Affine
    var clip: Option<Area>
    var fills: seq<Fill>
    var painted: seq<Painted>

    /** A fresh context of a new image or SVG document: identity transform, no clip. */
    constructor ()
      ensures transform == Identity && clip == None && fills == [] && painted == []
    {
      color := Black;
      transform := Identity;
      clip := None;
      fills := [];
      painted := [];
    }

    method SetColor(c: Color)
      modifies this
      ensures color == c
      ensures transform == old(transform) && clip == old(clip)
      ensures fills == old(fills) && painted == old(painted)
    {
      color := c;
    }

    method FillRect(x: int, y: int, w: int, h: int)
      modifies this
      ensures fills == old(fills) + [Fill(transform.MapRect(x as real, y as real, w as real, h as real), color)]
      ensures color == old(color) && transform == old(transform) && clip == old(clip)
      ensures painted == old(painted)
    {
      fills := fills + [Fill(transform.MapRect(x as real, y as real, w as real, h as real), color)];
    }

    method Translate(dx: int, dy: int)
      modifies this
      ensures transform == old(transform).Translated(dx as real, dy as real)
      ensures color == old(color) && clip == old(clip)
      ensures fills == old(fills) && painted == old(painted)
    {
      transform := transform.Translated(dx as real, dy as real);
    }

    /** `clipRect`: intersect the clip with the rectangle in current user space. */
    method ClipRect(x: int, y: int, w: int, h: int)
      modifies this
      ensures var a := old(transform).MapRect(x as real, y as real, w as real, h as real);
              clip == Some(if old(clip).None? then a else Intersect(old(clip).value, a))
      ensures color == old(color) && transform == old(transform)
      ensures fills == old(fills) && painted == old(painted)
    {
      var a := transform.MapRect(x as real, y as real, w as real, h as real);
      clip := Some(if clip.None? then a else Intersect(clip.value, a));
    }

    /** `transform(at)`: compose `at` after the current transform. */
    method Transform(at: Affine)
      modifies this
      ensures transform == old(transform).Then(at)
      ensures color == old(color) && clip == old(clip)
      ensures fills == old(fills) && painted == old(painted)
    {
      transform := transform.Then(at);
    }

    /** A component painting itself into this context. */
    method PaintComponent()
      modifies this
      ensures painted == old(painted) + [Painted(clip, transform)]
      ensures color == old(color) && transform == old(transform) && clip == old(clip)
      ensures fills == old(fills)
    {
      painted := painted + [Painted(clip, transform)];
    }
  }

  // ---------------------------------------------------------------- streams

  /** An `OutputStream`: the bytes written to it and whether it has been closed. */
  class OutputStream {
    var written: seq<bv8>
    var closed: bool

    constructor ()
      ensures written == [] && !closed
    {
      written := [];
      closed := false;
    }

    method Write(bytes: seq<bv8>)
      requires !closed
      modifies this
      ensures written == old(written) + bytes && !closed
    {
      written := written + bytes;
    }

    method Close()
      modifies this
      ensures closed && written == old(written)
    {
      closed := true;
    }
  }
}
