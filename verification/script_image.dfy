/** script-image.js: the name is written over the original design image,
    which is loaded once and then reused. There is no fallback design: a
    missing image or a drawing error ends the request with an alert. */
module ImageScript {
  import opened Geometry
  import opened JsText
  import opened Scene
  import opened Raster
  import opened Gating
  import ImageCard

  /** Font 8% of the shorter side, name centred at (50%, 60%), box padded by
      20 and 10, outlined name, subtitle 0.8 font sizes lower in 0.4 of it. */
  const OverlayStyle: Style :=
    Style(Scaled(0.08), Scaled(0.5), Scaled(0.6), Middle, 20.0, 10.0, true, false,
          Some(SubtitleRule(Scaled(0.8), Scaled(0.4))), None)

  /** The phrase ("loading image") the handler looks for to tell a load
      failure from any other error. */
  const LoadMarker: string := "تحميل صورة"

  /** The error the image loader rejects with: "فشل في تحميل صورة التصميم
      الأصلي" ("failed to load the original design image"). */
  const LoadErrorMessage: string := "فشل في " + LoadMarker + " التصميم الأصلي"

  /** The loader's own error is recognised as a load failure. */
  lemma LoadErrorRecognised()
    ensures AlertFor(LoadErrorMessage, LoadMarker) == LoadFailed
  {
    IncludesInfix("فشل في ", LoadMarker, " التصميم الأصلي");
  }

  /** The overlay geometry of this design. */
  lemma OverlayGeometry(img: Image, textWidth: real)
    requires textWidth >= 0.0
    ensures var w := img.width as real; var h := img.height as real;
            var l := Place(OverlayStyle, w, h, textWidth);
            && l.fontSize == 0.08 * Min(w, h) && l.name == Point(0.5 * w, 0.6 * h)
            && Surrounds(l.box, TextExtent(l.name, textWidth, l.fontSize), 20.0, 10.0)
            && l.subtitle == Some(Placed(Point(l.name.x, l.name.y + 0.8 * l.fontSize), 0.4 * l.fontSize))
            && (l.box.WithinWidth(w) <==> textWidth + 40.0 <= w)
  {
    FitsIffNameFits(OverlayStyle, img.width as real, img.height as real, textWidth);
  }

  /** `generateCustomCard` of this script. */
  function Generate(raw: string, cache: Option<Image>, fetched: Option<Image>,
                    drawError: Option<string>, textWidth: real): (r: (Outcome<Canvas>, Option<Image>))
    requires textWidth >= 0.0
    ensures r.0.Refused? <==> IsBlank(raw)
    ensures !IsBlank(raw) && LoadCached(cache, fetched).0.None? ==> r.0 == Failed(LoadFailed)
    ensures r.0.Done? ==> ImageUnderneath(r.0.value.ops) && NameOutlined(r.0.value.ops)
  {
    LoadErrorRecognised();
    ImageCard.Generate(OverlayStyle, LoadMarker, LoadErrorMessage, raw, cache, fetched, drawError, textWidth)
  }
}
