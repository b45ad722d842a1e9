/** The styling options the QR preview hands to its renderer, derived from the
    code's type, its data, the stored design and the requested size. */
module QrPreview {
  import opened Wrappers

  datatype CodeType = Static | Dynamic

  /** A stored design; every field may be missing or null (`None`). */
  datatype Design = Design(
    dotColor: Option<string>,
    backgroundColor: Option<string>,
    cornerColor: Option<string>,
    logoUrl: Option<string>,
    frameText: Option<string>)

  /** The component's props; `width` and `height` may be left out. */
  datatype Props = Props(kind: CodeType, data: string, design: Design, width: Option<int>, height: Option<int>)

  datatype ColorOptions = ColorOptions(color: string, shape: string)

  datatype ImageOptions = ImageOptions(crossOrigin: string, margin: int, hideBackgroundDots: bool, imageSize: real)

  /** The options record given to the renderer. `image` and `qrOptions` (the
      error-correction level) are set only in some cases. */
  datatype StylingOptions = StylingOptions(
    width: int,
    height: int,
    renderType: string,
    data: string,
    dotsOptions: ColorOptions,
    backgroundColor: string,
    cornersSquareOptions: ColorOptions,
    cornersDotOptions: ColorOptions,
    imageOptions: ImageOptions,
    image: Option<string>,
    errorCorrectionLevel: Option<string>)

  const DefaultSize := 200
  const DefaultDark := "#000000"
  const DefaultLight := "#ffffff"

  /** `design.corner_color || design.dot_color || "#000000"`. */
  function CornerColor(design: Design): string {
    OrElse(design.cornerColor, OrElse(design.dotColor, DefaultDark))
  }

  /** The options, built as the effect builds them: the base record, then the
      image options, then the logo, then the frame patch. `redirectUrl` is the
      short-link builder applied to dynamic codes. The preview always renders
      as SVG, with rounded dots, extra-rounded corner squares and dot-shaped
      corner dots; the other fields are stated by the lemmas below. */
  function PreviewOptions(props: Props, redirectUrl: string -> string): (r: StylingOptions)
    ensures r.renderType == "svg"
    ensures r.dotsOptions.shape == "rounded"
    ensures r.cornersSquareOptions.shape == "extra-rounded"
    ensures r.cornersDotOptions.shape == "dot"
  {
    var design := props.design;
    var qrData := if props.kind == Dynamic then redirectUrl(props.data) else props.data;
    var base := StylingOptions(
      props.width.GetOr(DefaultSize), props.height.GetOr(DefaultSize), "svg", qrData,
      ColorOptions(OrElse(design.dotColor, DefaultDark), "rounded"),
      OrElse(design.backgroundColor, DefaultLight),
      ColorOptions(CornerColor(design), "extra-rounded"),
      ColorOptions(CornerColor(design), "dot"),
      ImageOptions("anonymous", if Truthy(design.logoUrl) then 8 else 0, false, 0.4),
      None, None);
    var withLogo := if Truthy(design.logoUrl) then base.(image := design.logoUrl) else base;
    if Truthy(design.frameText) then
      withLogo.(errorCorrectionLevel := Some("H"), imageOptions := withLogo.imageOptions.(margin := 10))
    else withLogo
  }

  /** Dynamic codes encode the redirect link, static codes their data unchanged. */
  lemma EncodedData(props: Props, redirectUrl: string -> string)
    ensures var o := PreviewOptions(props, redirectUrl);
      && (props.kind == Dynamic ==> o.data == redirectUrl(props.data))
      && (props.kind == Static ==> o.data == props.data)
  {
  }

  /** The encoded data does not depend on the design or the size. */
  lemma DataIgnoresDesign(props: Props, design: Design, width: Option<int>, height: Option<int>, redirectUrl: string -> string)
    ensures PreviewOptions(props.(design := design, width := width, height := height), redirectUrl).data
              == PreviewOptions(props, redirectUrl).data
  {
  }

  /** Colour fallbacks: a missing or empty colour falls back, both corner colours
      always agree, and they follow the dot colour when no corner colour is given. */
  lemma ColourFallbacks(props: Props, redirectUrl: string -> string)
    ensures var o := PreviewOptions(props, redirectUrl);
      var d := props.design;
      && (o.dotsOptions.color == if Truthy(d.dotColor) then d.dotColor.value else "#000000")
      && (o.backgroundColor == if Truthy(d.backgroundColor) then d.backgroundColor.value else "#ffffff")
      && o.cornersSquareOptions.color == o.cornersDotOptions.color
      && (o.cornersSquareOptions.color ==
            if Truthy(d.cornerColor) then d.cornerColor.value else o.dotsOptions.color)
  {
  }

  /** A logo is set exactly when `logo_url` is truthy, and is that url; the base
      image options never hide background dots and keep image size 0.4. */
  lemma LogoRules(props: Props, redirectUrl: string -> string)
    ensures var o := PreviewOptions(props, redirectUrl);
      && (o.image.Some? <==> Truthy(props.design.logoUrl))
      && (o.image.Some? ==> o.image == props.design.logoUrl)
      && o.imageOptions.crossOrigin == "anonymous"
      && !o.imageOptions.hideBackgroundDots
      && o.imageOptions.imageSize == 0.4
  {
  }

  /** The image margin: 10 with frame text, else 8 with a logo, else 0. */
  lemma MarginRule(props: Props, redirectUrl: string -> string)
    ensures PreviewOptions(props, redirectUrl).imageOptions.margin ==
      if Truthy(props.design.frameText) then 10
      else if Truthy(props.design.logoUrl) then 8
      else 0
  {
  }

  /** Frame text changes exactly two things: the error-correction level becomes
      "H" and the image margin becomes 10; everything else is as without a frame.
      Without frame text no error-correction level is set. */
  lemma FramePatchOnly(props: Props, redirectUrl: string -> string, frameText: string)
    requires frameText != []
    ensures var framed := PreviewOptions(props.(design := props.design.(frameText := Some(frameText))), redirectUrl);
      var plain := PreviewOptions(props.(design := props.design.(frameText := None)), redirectUrl);
      && plain.errorCorrectionLevel.None?
      && framed == plain.(errorCorrectionLevel := Some("H"), imageOptions := plain.imageOptions.(margin := 10))
  {
  }

  /** Width and height default to 200 only when they are left out. */
  lemma DefaultDimensions(props: Props, redirectUrl: string -> string)
    ensures var o := PreviewOptions(props, redirectUrl);
      && (props.width.None? ==> o.width == 200) && (props.width.Some? ==> o.width == props.width.value)
      && (props.height.None? ==> o.height == 200) && (props.height.Some? ==> o.height == props.height.value)
  {
  }
}
