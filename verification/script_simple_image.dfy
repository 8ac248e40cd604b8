/** script-simple-image.js: the name is written, with a drop shadow and a
    star on either side, over a design image loaded once (and preloaded
    when the page opens). */
module SimpleImageScript {
  import opened Geometry
  import opened JsText
  import opened Scene
  import opened Raster
  import opened Gating
  import ImageCard

  /** Font 8% of the shorter side, name centred at (50%, 70%), box padded by
      30 and 15, shadow on the name only, subtitle 0.7 font sizes lower in
      0.4 of it, stars 20 px outside the box in half the font size. */
  const OverlayStyle: Style :=
    Style(Scaled(0.08), Scaled(0.5), Scaled(0.7), Middle, 30.0, 15.0, false, true,
          Some(SubtitleRule(Scaled(0.7), Scaled(0.4))), Some(StarRule(20.0, 20.0, Scaled(0.5))))

  /** The phrase ("loading the image") the handler looks for. */
  const LoadMarker: string := "تحميل الصورة"

  /** The path of the design image. */
  const ImagePath: string := "تهنئة هيمنة باليوم الوطني.png"

  /** The loader's rejection: "فشل في تحميل الصورة: " followed by the path. */
  const LoadErrorMessage: string := "فشل في " + LoadMarker + ": " + ImagePath

  lemma LoadErrorRecognised()
    ensures AlertFor(LoadErrorMessage, LoadMarker) == LoadFailed
  {
    IncludesInfix("فشل في ", LoadMarker, ": " + ImagePath);
    assert LoadErrorMessage == "فشل في " + LoadMarker + (": " + ImagePath);
  }

  /** The overlay geometry of this design: the stars mirror each other
      about the name, each 20 px outside the box. */
  lemma OverlayGeometry(img: Image, textWidth: real)
    requires textWidth >= 0.0
    ensures var w := img.width as real; var h := img.height as real;
            var l := Place(OverlayStyle, w, h, textWidth);
            && l.fontSize == 0.08 * Min(w, h) && l.name == Point(0.5 * w, 0.7 * h)
            && Surrounds(l.box, TextExtent(l.name, textWidth, l.fontSize), 30.0, 15.0)
            && l.subtitle == Some(Placed(Point(l.name.x, l.name.y + 0.7 * l.fontSize), 0.4 * l.fontSize))
            && l.name.x - l.stars.value.left.x == l.stars.value.right.x - l.name.x
            && l.name.x - l.stars.value.left.x == textWidth / 2.0 + 50.0
            && l.stars.value.size == 0.5 * l.fontSize
            && (l.box.WithinWidth(w) <==> textWidth + 60.0 <= w)
  {
    var w := img.width as real;
    var h := img.height as real;
    StarsSymmetricIff(OverlayStyle, w, h, textWidth);
    FitsIffNameFits(OverlayStyle, w, h, textWidth);
  }

  /** `generateCustomCard` of this script. */
  function Generate(raw: string, cache: Option<Image>, fetched: Option<Image>,
                    drawError: Option<string>, textWidth: real): (r: (Outcome<Canvas>, Option<Image>))
    requires textWidth >= 0.0
    ensures r.0.Refused? <==> IsBlank(raw)
    ensures !IsBlank(raw) && LoadCached(cache, fetched).0.None? ==> r.0 == Failed(LoadFailed)
    ensures r.0.Done? ==> ImageUnderneath(r.0.value.ops) && ShadowOnlyOnName(r.0.value.ops)
  {
    LoadErrorRecognised();
    ImageCard.Generate(OverlayStyle, LoadMarker, LoadErrorMessage, raw, cache, fetched, drawError, textWidth)
  }

  /** The page preloads the image when it opens, so when that succeeds the
      first request already finds it cached, whatever a later fetch gives. */
  lemma PreloadServesFirstRequest(preloaded: Image, raw: string, fetched: Option<Image>, textWidth: real)
    requires textWidth >= 0.0 && !IsBlank(raw)
    ensures var r := Generate(raw, LoadCached(None, Some(preloaded)).1, fetched, None, textWidth);
            && r.0.Done? && r.1 == Some(preloaded)
            && r.0.value.width == preloaded.width && r.0.value.height == preloaded.height
  {
    LoadErrorRecognised();
  }
}
