/** The Java-tree revision of `TransferableImage.kt`. Its SVG entry also advertises
    `plainTextFlavor`, its `Svg` answers only that flavor specially (with a reader), its
    flavor query returns a copy of the array, and its `Png.write` leaves the stream open.
    Images, payloads and the shared painting routine are those of `KotlinTransferable`,
    whose `Format.paint` companion is the same code. */
module JavaTransferable {
  import opened Wrappers
  import opened Platform
  import KotlinTransferable

  type Image = KotlinTransferable.Image
  type Payload = KotlinTransferable.Payload
  type TransferError = KotlinTransferable.TransferError

  /** The `Format` enum of this revision. */
  datatype Format = PNG | SVG
  {
    function Ext(): string
    {
      match this
      case PNG => "png"
      case SVG => "svg"
    }

    function Flavors(): seq<DataFlavor>
    {
      match this
      case PNG => [ImageFlavor]
      case SVG => [SvgFlavor, StringFlavor, PlainTextFlavor]
    }
  }

  datatype TransferableImage = Png(image: Image) | Svg(markup: string)
  {
    function Format(): Format
    {
      match this
      case Png(_) => PNG
      case Svg(_) => SVG
    }

    function Transferee(): Payload
    {
      match this
      case Png(image) => KotlinTransferable.ImageData(image)
      case Svg(markup) => KotlinTransferable.Text(markup)
    }

    /** `getTransferDataFlavors()`: `format.flavors.clone()`, a copy the caller may change
        without touching the enum. The SVG entry's first flavor is built with a display
        name, so its first two flavors are string flavors. */
    function GetTransferDataFlavors(): (r: seq<DataFlavor>)
      ensures r == Format().Flavors()
      ensures Format().PNG? ==> r == [ImageFlavor]
      ensures Format().SVG? ==> r == [StringFlavor, StringFlavor, PlainTextFlavor]
    {
      Format().Flavors()
    }

    /** `isDataFlavorSupported(flavor)`: `flavor.equals` some advertised flavor. */
    function IsDataFlavorSupported(f: DataFlavor): (b: bool)
      ensures b <==> if Format().PNG? then FlavorEquals(f, ImageFlavor)
                     else FlavorEquals(f, StringFlavor) || FlavorEquals(f, PlainTextFlavor)
    {
      assert Format().SVG? ==> Format().Flavors()[2] == PlainTextFlavor;
      assert Format().Flavors()[0] == (if Format().PNG? then ImageFlavor else StringFlavor);
      KotlinTransferable.Lists(Format().Flavors(), f)
    }

    function BaseTransferData(f: DataFlavor): (r: Result<Payload, TransferError>)
      ensures r.Success? <==> IsDataFlavorSupported(f)
      ensures r.Success? ==> r.value == Transferee()
      ensures r.Failure? ==> r.error == KotlinTransferable.UnsupportedFlavor(f)
    {
      KotlinTransferable.Served(Format().Flavors(), Transferee(), f)
    }

    /** `getTransferData(flavor)`, with the `Svg` override: a flavor equal to
        `plainTextFlavor` gets a `StringReader` over the markup, every other flavor the
        base behaviour. */
    function GetTransferData(f: DataFlavor): (r: Result<Payload, TransferError>)
      ensures r.Success? <==> IsDataFlavorSupported(f)
      ensures r.Failure? ==> r.error == KotlinTransferable.UnsupportedFlavor(f)
      ensures r.Success? && r.value.TextReader? <==> Svg? && FlavorEquals(f, PlainTextFlavor)
      ensures r.Success? && !r.value.TextReader? ==> r.value == Transferee()
    {
      match this
      case Png(_) => BaseTransferData(f)
      case Svg(markup) =>
        if FlavorEquals(f, PlainTextFlavor) then Success(KotlinTransferable.TextReader(markup))
        else BaseTransferData(f)
    }
  }

  /** Every transferable of this revision serves exactly the flavors it advertises:
      the override adds no flavor the base class would refuse. */
  lemma ServedIffSupported(t: TransferableImage, f: DataFlavor)
    ensures t.GetTransferData(f).Success? <==> t.IsDataFlavorSupported(f)
  {
  }

  /** What an SVG transferable hands out: a reader for a flavor equal to
      `plainTextFlavor`, the markup for one equal to `stringFlavor` (its first two
      flavors), and an `UnsupportedFlavorException` otherwise. */
  lemma SvgPayloads(markup: string, f: DataFlavor)
    ensures Svg(markup).GetTransferData(f) ==
            if FlavorEquals(f, PlainTextFlavor) then Success(KotlinTransferable.TextReader(markup))
            else if FlavorEquals(f, StringFlavor) then Success(KotlinTransferable.Text(markup))
            else Failure(KotlinTransferable.UnsupportedFlavor(f))
  {
  }

  /** As written, this revision does not offer the SVG under its own MIME type either:
      `image/svg+xml; charset=utf-8` delivered as a `String` is refused. */
  lemma SvgMimeRefused(markup: string)
    ensures Svg(markup).GetTransferData(SvgMimeFlavor) == Failure(KotlinTransferable.UnsupportedFlavor(SvgMimeFlavor))
  {
  }

  /** `text/plain` read through an input stream is served a reader only in UTF-16, the
      charset of `plainTextFlavor`; in UTF-8 it is refused. */
  lemma SvgPlainTextNeedsItsCharset(markup: string)
    ensures var utf8 := DataFlavor("text", "plain", Some("UTF-8"), InputStreamClass);
            Svg(markup).GetTransferData(utf8) == Failure(KotlinTransferable.UnsupportedFlavor(utf8))
    ensures Svg(markup).GetTransferData(DataFlavor("text", "plain", Some("UTF-16"), InputStreamClass))
         == Success(KotlinTransferable.TextReader(markup))
  {
    SvgPayloads(markup, DataFlavor("text", "plain", Some("UTF-8"), InputStreamClass));
  }

  /** What this revision's `Format.paint` answers: the Kotlin revision's answer, with
      this revision's transferables. */
  function PaintResult(format: Format, width: int, height: int, padding: int, sysScale: real,
                       svgStream: Result<string, Thrown>): Result<TransferableImage, Thrown>
  {
    var canvas := KotlinTransferable.CanvasSize(width, height, padding, sysScale);
    if format.PNG? && !(canvas.width > 0 && canvas.height > 0) then Failure(RuntimeFailure)
    else match format
      case PNG => Success(Png(KotlinTransferable.Image(canvas.width, canvas.height)))
      case SVG => if svgStream.Success? then Success(Svg(svgStream.value)) else Failure(IOException)
  }

  /** The Kotlin revision's format of the same name. */
  function AsKotlin(format: Format): KotlinTransferable.Format
  {
    match format
    case PNG => KotlinTransferable.PNG
    case SVG => KotlinTransferable.SVG
  }

  /** The two revisions paint alike: they fail in the same cases, and succeed with
      transferables over the same image or markup. */
  lemma PaintLikeKotlin(format: Format, width: int, height: int, padding: int, sysScale: real,
                        svgStream: Result<string, Thrown>)
    ensures var j := PaintResult(format, width, height, padding, sysScale, svgStream);
            var k := KotlinTransferable.PaintResult(AsKotlin(format), width, height, padding, sysScale, svgStream);
            && (j.Success? <==> k.Success?)
            && (j.Failure? ==> j.error == k.error)
            && (j.Success? ==> j.value.Transferee() == k.value.Transferee())
  {
  }

  /** `Format.paint`: the same sizing and drawing as the Kotlin revision (the companion
      `paint` is the Kotlin `paintComponent`), answering with this revision's
      transferables. */
  method Paint(format: Format, at: Affine, width: int, height: int, background: Color, padding: int,
               sysScale: real, svgStream: Result<string, Thrown>)
    returns (canvas: Dimension, result: Result<TransferableImage, Thrown>, g: Graphics)
    ensures fresh(g)
    ensures canvas == KotlinTransferable.CanvasSize(width, height, padding, sysScale)
    ensures result == PaintResult(format, width, height, padding, sysScale, svgStream)
    ensures var draws := KotlinTransferable.Draws(AsKotlin(format), canvas);
            && (!draws ==> g.fills == [] && g.painted == [])
            && (draws ==>
                  && g.transform == Identity.Translated(padding as real, padding as real).Then(at)
                  && g.clip == Some(KotlinTransferable.ContentClip(Identity, None, width, height, padding, sysScale))
                  && g.painted == [Painted(g.clip, g.transform)]
                  && var fill := KotlinTransferable.FillSize(width, height, padding, sysScale);
                     g.fills == [Fill(Identity.MapRect(0.0, 0.0, fill.width as real, fill.height as real), background)])
  {
    canvas := KotlinTransferable.CanvasSize(width, height, padding, sysScale);
    g := new Graphics();
    if !KotlinTransferable.Draws(AsKotlin(format), canvas) {
      result := Failure(RuntimeFailure);
      return;
    }
    KotlinTransferable.PaintComponent(g, at, width, height, background, padding, sysScale);
    match format
    case PNG =>
      result := Success(Png(KotlinTransferable.Image(canvas.width, canvas.height)));
    case SVG =>
      result := if svgStream.Success? then Success(Svg(svgStream.value)) else Failure(IOException);
  }

  /** `write(to)`. `Svg` writes through an `OutputStreamWriter` inside `use { }`, which
      closes the stream whether or not the write succeeded; `Png` hands the stream to
      `ImageIO.write`, which leaves it open. */
  method Write(t: TransferableImage, to: OutputStream, encoded: Result<seq<bv8>, Thrown>)
    returns (r: Result<(), Thrown>)
    requires !to.closed
    modifies to
    ensures to.closed <==> t.Svg?
    ensures encoded.Success? ==> r.Success? && to.written == old(to.written) + encoded.value
    ensures encoded.Failure? ==> r == Failure(encoded.error) && to.written == old(to.written)
  {
    if encoded.Success? {
      to.Write(encoded.value);
      r := Success(());
    } else {
      r := Failure(encoded.error);
    }
    if t.Svg? {
      to.Close();
    }
  }
}
