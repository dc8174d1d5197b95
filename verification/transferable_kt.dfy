/** The Kotlin revision of `TransferableImage.kt`: the two image formats with their file
    extension and clipboard flavors, the transferable wrapper that answers flavor queries,
    the painting of a component into an image or SVG canvas, and writing to a stream. */
module KotlinTransferable {
  import opened Wrappers
  import opened Platform

  /** The `Format` enum. */
  datatype Format = PNG | SVG
  {
    function Ext(): string
    {
      match this
      case PNG => "png"
      case SVG => "svg"
    }

    /** The `vararg flavors` of the enum entry. */
    function Flavors(): seq<DataFlavor>
    {
      match this
      case PNG => [ImageFlavor]
      case SVG => [SvgFlavor, StringFlavor]
    }
  }

  /** A `BufferedImage` of the given size. */
  datatype Image = Image(width: int, height: int)

  /** What `getTransferData` hands out: the image, the SVG markup as a `String`, or a
      `StringReader` over the markup. */
  datatype Payload = ImageData(image: Image) | Text(s: string) | TextReader(s: string)

  /** `UnsupportedFlavorException`. */
  datatype TransferError = UnsupportedFlavor(flavor: DataFlavor)

  /** The two subclasses, `Png` over an image and `Svg` over the SVG markup. */
  datatype TransferableImage = Png(image: Image) | Svg(markup: string)
  {
    function Format(): Format
    {
      match this
      case Png(_) => PNG
      case Svg(_) => SVG
    }

    function Transferee(): Payload
    {
      match this
      case Png(image) => ImageData(image)
      case Svg(markup) => Text(markup)
    }

    /** `getTransferDataFlavors()`: the format's own flavor array. The SVG entry's first
        flavor is built with a display name, so both of its flavors are string flavors. */
    function GetTransferDataFlavors(): (r: seq<DataFlavor>)
      ensures r == Format().Flavors()
      ensures Format().PNG? ==> r == [ImageFlavor]
      ensures Format().SVG? ==> |r| == 2 && r[0] == r[1] == StringFlavor
    {
      Format().Flavors()
    }

    /** `isDataFlavorSupported(flavor)`: `format.flavors.contains(flavor)`, which asks
        `flavor.equals` of each advertised flavor. */
    function IsDataFlavorSupported(f: DataFlavor): (b: bool)
      ensures b <==> if Format().PNG? then FlavorEquals(f, ImageFlavor) else FlavorEquals(f, StringFlavor)
    {
      assert Format().Flavors()[0] == (if Format().PNG? then ImageFlavor else StringFlavor);
      Lists(Format().Flavors(), f)
    }

    /** The base class's `getTransferData`. */
    function BaseTransferData(f: DataFlavor): (r: Result<Payload, TransferError>)
      ensures r.Success? <==> IsDataFlavorSupported(f)
      ensures r.Success? ==> r.value == Transferee()
      ensures r.Failure? ==> r.error == UnsupportedFlavor(f)
    {
      Served(Format().Flavors(), Transferee(), f)
    }

    /** `getTransferData(flavor)`, with the `Svg` override: any text flavor gets the markup,
        any other reader flavor a reader over it, and the rest the base behaviour. */
    function GetTransferData(f: DataFlavor): (r: Result<Payload, TransferError>)
      ensures r.Success? <==> IsDataFlavorSupported(f) || (Svg? && (IsFlavorTextType(f) || IsRepresentationClassReader(f)))
      ensures r.Failure? ==> r.error == UnsupportedFlavor(f)
      ensures r.Success? && !r.value.TextReader? ==> r.value == Transferee()
      ensures r.Success? && r.value.TextReader? <==> Svg? && IsRepresentationClassReader(f) && !IsFlavorTextType(f)
    {
      match this
      case Png(_) => BaseTransferData(f)
      case Svg(markup) => SvgTransferData(SVG.Flavors(), markup, f)
    }
  }

  /** `flavors.contains(flavor)`: `flavor.equals` one of the flavors. */
  predicate Lists(flavors: seq<DataFlavor>, f: DataFlavor)
  {
    exists k :: 0 <= k < |flavors| && FlavorEquals(f, flavors[k])
  }

  /** The base `getTransferData` of a transferable advertising `flavors`. */
  function Served(flavors: seq<DataFlavor>, transferee: Payload, f: DataFlavor): Result<Payload, TransferError>
  {
    if Lists(flavors, f) then Success(transferee) else Failure(UnsupportedFlavor(f))
  }

  /** The `Svg` override of `getTransferData`, for an SVG entry advertising `flavors`. */
  function SvgTransferData(flavors: seq<DataFlavor>, markup: string, f: DataFlavor): Result<Payload, TransferError>
  {
    if IsFlavorTextType(f) then Success(Text(markup))
    else if IsRepresentationClassReader(f) then Success(TextReader(markup))
    else Served(flavors, Text(markup), f)
  }

  /** A PNG transferable serves exactly the flavors equal to `imageFlavor`, those of an
      `image/x-java-image`, or an `image` flavor with subtype `*`, delivered as an image,
      whatever their charset. */
  lemma PngServesOnlyImage(image: Image, f: DataFlavor)
    ensures Png(image).IsDataFlavorSupported(f)
        <==> f.primaryType == "image" && (f.subType == "x-java-image" || f.subType == "*") && f.repr == ImageClass
    ensures Png(image).GetTransferData(f) ==
            if FlavorEquals(f, ImageFlavor) then Success(ImageData(image)) else Failure(UnsupportedFlavor(f))
  {
  }

  /** An SVG transferable serves each advertised flavor, that is every flavor equal to
      `stringFlavor`, with the markup as a string. */
  lemma SvgServesAdvertised(markup: string, f: DataFlavor)
    requires Svg(markup).IsDataFlavorSupported(f)
    ensures FlavorEquals(f, StringFlavor)
    ensures Svg(markup).GetTransferData(f) == Success(Text(markup))
  {
  }

  /** As written, the SVG is never offered under its own MIME type: the flavor
      `image/svg+xml; charset=utf-8` delivered as a `String` is neither advertised, nor a
      text type, nor a reader flavor, so it is refused. */
  lemma SvgMimeRefused(markup: string)
    ensures !Svg(markup).IsDataFlavorSupported(SvgMimeFlavor)
    ensures Svg(markup).GetTransferData(SvgMimeFlavor) == Failure(UnsupportedFlavor(SvgMimeFlavor))
  {
  }

  /** The flavors the SVG entry evidently means to advertise: the SVG MIME type built from
      a MIME string, then `stringFlavor`. */
  function IntendedSvgFlavors(): seq<DataFlavor>
  {
    [SvgMimeFlavor, StringFlavor]
  }

  /** With the intended flavors, the SVG MIME flavor is advertised and served with the
      markup, and every flavor served before is still served the same way. */
  lemma IntendedSvgServed(markup: string, f: DataFlavor)
    ensures Lists(IntendedSvgFlavors(), SvgMimeFlavor)
    ensures SvgTransferData(IntendedSvgFlavors(), markup, SvgMimeFlavor) == Success(Text(markup))
    ensures Svg(markup).GetTransferData(f).Success? ==>
              SvgTransferData(IntendedSvgFlavors(), markup, f) == Svg(markup).GetTransferData(f)
  {
    assert FlavorEquals(SvgMimeFlavor, IntendedSvgFlavors()[0]);
    if Lists(SVG.Flavors(), f) {
      assert FlavorEquals(f, IntendedSvgFlavors()[1]);
    }
  }

  /** It also serves flavors it does not advertise: every text flavor, such as
      `DataFlavor.plainTextFlavor`, gets the markup as a `String`, even one whose
      representation class is a stream or a reader. */
  lemma SvgServesUnadvertised(markup: string)
    ensures !Svg(markup).IsDataFlavorSupported(PlainTextFlavor)
    ensures Svg(markup).GetTransferData(PlainTextFlavor) == Success(Text(markup))
    ensures var readerText := DataFlavor("text", "plain", None, ReaderClass);
            !Svg(markup).IsDataFlavorSupported(readerText) &&
            Svg(markup).GetTransferData(readerText) == Success(Text(markup))
  {
  }

  /** A `text/rtf` flavor is no text type when delivered as a string, so the override
      passes it to the base class, which refuses it; delivered through a reader it gets
      a reader over the markup. */
  lemma SvgRtfFlavors(markup: string, c: Option<string>)
    ensures var rtfString := DataFlavor("text", "rtf", c, StringClass);
            Svg(markup).GetTransferData(rtfString) == Failure(UnsupportedFlavor(rtfString))
    ensures Svg(markup).GetTransferData(DataFlavor("text", "rtf", c, ReaderClass)) == Success(TextReader(markup))
  {
    var rtfString := DataFlavor("text", "rtf", c, StringClass);
    assert !IsFlavorTextType(rtfString);
  }

  /** An SVG transferable hands a reader only to a reader flavor that is not a text flavor. */
  lemma SvgReaderOnlyForNonText(markup: string, f: DataFlavor)
    ensures Svg(markup).GetTransferData(f).Success? && Svg(markup).GetTransferData(f).value.TextReader?
            <==> IsRepresentationClassReader(f) && !IsFlavorTextType(f)
  {
  }

  // ---------------------------------------------------------------- painting

  /** `(width * sysScale).toInt()`: a content size in device pixels. */
  function Scaled(size: int, sysScale: real): int
  {
    Trunc(size as real * sysScale)
  }

  /** `Dimension((width * scale + 2 * padding).toInt(), (height * scale + 2 * padding).toInt())`:
      the PNG image size and the SVG canvas size; `2 * padding` is an `Int` product. */
  function CanvasSize(width: int, height: int, padding: int, sysScale: real): Dimension
  {
    Dimension(Trunc(width as real * sysScale + Wrap32(2 * padding) as real),
              Trunc(height as real * sysScale + Wrap32(2 * padding) as real))
  }

  /** The area `paintComponent` fills: the scaled content plus the padding on each side,
      in `Int` arithmetic. */
  function FillSize(width: int, height: int, padding: int, sysScale: real): Dimension
  {
    Dimension(Wrap32(Scaled(width, sysScale) + 2 * padding), Wrap32(Scaled(height, sysScale) + 2 * padding))
  }

  /** For a non-negative size and padding that fit in an `Int`, the canvas is exactly the
      area filled with the background: truncating then adding the padding is the same as
      adding it then truncating. */
  lemma CanvasIsFill(width: int, height: int, padding: int, sysScale: real)
    requires sysScale > 0.0 && width >= 0 && height >= 0 && padding >= 0
    requires Scaled(width, sysScale) + 2 * padding <= INT_MAX
    requires Scaled(height, sysScale) + 2 * padding <= INT_MAX
    ensures CanvasSize(width, height, padding, sysScale) == FillSize(width, height, padding, sysScale)
  {
    assert Wrap32(2 * padding) == 2 * padding;
    TruncAddWhole(width as real * sysScale, 2 * padding);
    TruncAddWhole(height as real * sysScale, 2 * padding);
  }

  /** Where `paintComponent` leaves a context whose transform was `t` and clip `c`: the
      content is clipped to the scaled size at (padding, padding), under `t` translated by
      the padding and then by `at`. */
  function ContentClip(t: Affine, c: Option<Area>, width: int, height: int, padding: int, sysScale: real): Area
  {
    var a := t.Translated(padding as real, padding as real)
              .MapRect(0.0, 0.0, Scaled(width, sysScale) as real, Scaled(height, sysScale) as real);
    if c.None? then a else Intersect(c.value, a)
  }

  /** `paintComponent`: fill the padded area with the background, move the origin in by
      the padding, clip to the scaled content, apply the transform and paint. */
  method PaintComponent(g: Graphics, at: Affine, width: int, height: int, background: Color, padding: int, sysScale: real)
    modifies g
    ensures var fill := FillSize(width, height, padding, sysScale);
            g.fills == old(g.fills) + [Fill(old(g.transform).MapRect(0.0, 0.0, fill.width as real, fill.height as real), background)]
    ensures g.transform == old(g.transform).Translated(padding as real, padding as real).Then(at)
    ensures g.clip == Some(ContentClip(old(g.transform), old(g.clip), width, height, padding, sysScale))
    ensures g.painted == old(g.painted) + [Painted(g.clip, g.transform)]
    ensures g.color == background
  {
    var scaledWidth := Scaled(width, sysScale);
    var scaledHeight := Scaled(height, sysScale);
    var imgWidth := Wrap32(scaledWidth + 2 * padding);
    var imgHeight := Wrap32(scaledHeight + 2 * padding);
    g.SetColor(background);
    g.FillRect(0, 0, imgWidth, imgHeight);
    g.Translate(padding, padding);
    g.ClipRect(0, 0, scaledWidth, scaledHeight);
    g.Transform(at);
    g.PaintComponent();
  }

  /** With a fresh context, the content is drawn inside the filled background, framed by a
      band of the padding's width: the clip is the scaled content at (padding, padding). */
  lemma ContentInsideFill(width: int, height: int, padding: int, sysScale: real)
    requires sysScale > 0.0 && width >= 0 && height >= 0 && padding >= 0
    requires Scaled(width, sysScale) + 2 * padding <= INT_MAX
    requires Scaled(height, sysScale) + 2 * padding <= INT_MAX
    ensures var fill := FillSize(width, height, padding, sysScale);
            var clip := ContentClip(Identity, None, width, height, padding, sysScale);
            clip == Area(padding as real, padding as real, Scaled(width, sysScale) as real, Scaled(height, sysScale) as real) &&
            clip.Inside(Identity.MapRect(0.0, 0.0, fill.width as real, fill.height as real))
  {
    var pad := padding as real;
    assert 0.0 <= width as real * sysScale && 0.0 <= height as real * sysScale;
    var sw, sh := Scaled(width, sysScale), Scaled(height, sysScale);
    assert Identity.Translated(pad, pad) == Affine(1.0, 1.0, pad, pad);
    assert ContentClip(Identity, None, width, height, padding, sysScale) == Area(pad, pad, sw as real, sh as real);
    var fill := FillSize(width, height, padding, sysScale);
    assert fill == Dimension(sw + 2 * padding, sh + 2 * padding);
    assert Identity.MapRect(0.0, 0.0, fill.width as real, fill.height as real)
        == Area(0.0, 0.0, (sw + 2 * padding) as real, (sh + 2 * padding) as real);
  }

  /** One `Format.paint` call: the canvas it sized and the transferable it returned (or
      the exception that replaced it). */
  datatype Painting = Painting(canvas: Dimension, result: Result<TransferableImage, Thrown>)

  /** Whether `Format.paint` gets as far as drawing: a PNG needs a `BufferedImage`, which
      refuses a side that is not positive; an SVG canvas takes any size. */
  predicate Draws(format: Format, canvas: Dimension)
  {
    format.SVG? || (canvas.width > 0 && canvas.height > 0)
  }

  /** What `Format.paint` answers: a PNG over an image of the canvas size, or the markup
      Batik streamed (an `IOException` when streaming failed). */
  function PaintResult(format: Format, width: int, height: int, padding: int, sysScale: real,
                       svgStream: Result<string, Thrown>): Result<TransferableImage, Thrown>
  {
    var canvas := CanvasSize(width, height, padding, sysScale);
    if !Draws(format, canvas) then Failure(RuntimeFailure)
    else match format
      case PNG => Success(Png(Image(canvas.width, canvas.height)))
      case SVG => if svgStream.Success? then Success(Svg(svgStream.value)) else Failure(IOException)
  }

  /** A painted PNG is exactly the canvas size, which is the area filled with the
      background; an SVG fails only when streaming fails. */
  lemma PaintResultSize(format: Format, width: int, height: int, padding: int, sysScale: real,
                        svgStream: Result<string, Thrown>)
    requires sysScale > 0.0 && width >= 0 && height >= 0 && padding >= 0
    requires Scaled(width, sysScale) + 2 * padding <= INT_MAX
    requires Scaled(height, sysScale) + 2 * padding <= INT_MAX
    ensures var r := PaintResult(format, width, height, padding, sysScale, svgStream);
            var fill := FillSize(width, height, padding, sysScale);
            && (format.PNG? ==> (r.Success? <==> fill.width > 0 && fill.height > 0))
            && (r.Success? && format.PNG? ==> r.value == Png(Image(fill.width, fill.height)))
            && (format.SVG? ==> (r.Success? <==> svgStream.Success?))
  {
    CanvasIsFill(width, height, padding, sysScale);
  }

  /** `Format.paint`. PNG draws into a new image of the canvas size. SVG sizes a new SVG
      canvas and streams it; `svgStream` stands for what Batik's serializer produced for
      the drawing (markup, or the `IOException` it threw). */
  method Paint(format: Format, at: Affine, width: int, height: int, background: Color, padding: int,
               sysScale: real, svgStream: Result<string, Thrown>)
    returns (p: Painting, g: Graphics)
    ensures fresh(g)
    ensures p.canvas == CanvasSize(width, height, padding, sysScale)
    ensures p.result == PaintResult(format, width, height, padding, sysScale, svgStream)
    ensures !Draws(format, p.canvas) ==> g.fills == [] && g.painted == []
    ensures Draws(format, p.canvas) ==>
            && g.transform == Identity.Translated(padding as real, padding as real).Then(at)
            && g.clip == Some(ContentClip(Identity, None, width, height, padding, sysScale))
            && g.painted == [Painted(g.clip, g.transform)]
            && var fill := FillSize(width, height, padding, sysScale);
               g.fills == [Fill(Identity.MapRect(0.0, 0.0, fill.width as real, fill.height as real), background)]
  {
    var size := CanvasSize(width, height, padding, sysScale);
    g := new Graphics();
    if !Draws(format, size) {
      p := Painting(size, Failure(RuntimeFailure));
      return;
    }
    PaintComponent(g, at, width, height, background, padding, sysScale);
    match format
    case PNG =>
      p := Painting(size, Success(Png(Image(size.width, size.height))));
    case SVG =>
      if svgStream.Success? {
        p := Painting(size, Success(Svg(svgStream.value)));
      } else {
        p := Painting(size, Failure(IOException));
      }
  }

  // ---------------------------------------------------------------- writing

  /** `write(to)`. The bytes are those of the encoder the subclass delegates to (UTF-8
      for `Svg`, the PNG writer for `Png`), or the `IOException` it threw; both
      subclasses write inside `to.use { }`, so the stream is closed either way. */
  method Write(t: TransferableImage, to: OutputStream, encoded: Result<seq<bv8>, Thrown>)
    returns (r: Result<(), Thrown>)
    requires !to.closed
    modifies to
    ensures to.closed
    ensures encoded.Success? ==> r.Success? && to.written == old(to.written) + encoded.value
    ensures encoded.Failure? ==> r == Failure(encoded.error) && to.written == old(to.written)
  {
    if encoded.Success? {
      to.Write(encoded.value);
      r := Success(());
    } else {
      r := Failure(encoded.error);
    }
    to.Close();
  }
}
