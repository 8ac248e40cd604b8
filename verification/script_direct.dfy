/** script-direct.js: the name is written over `card.png`, loaded once when
    the page opens. The minimal overlay: a padded box and the name, with no
    subtitle and no stars. */
module DirectScript {
  import opened Geometry
  import opened JsText
  import opened Scene
  import opened Raster
  import opened Gating

  /** Font 7% of the shorter side, name centred at (50%, 72%), box padded
      by 20 and 10. */
  const OverlayStyle: Style :=
    Style(Scaled(0.07), Scaled(0.5), Scaled(0.72), Middle, 20.0, 10.0, false, false, None, None)

  /** `addNameToCard`: the image, the box filled and stroked, the name. */
  function AddNameToCard(img: Image, textWidth: real): (c: Canvas)
    requires textWidth >= 0.0
    ensures var w := img.width as real; var h := img.height as real;
            var fs := 0.07 * Min(w, h);
            var name := Point(0.5 * w, 0.72 * h);
            var box := Rect(name.x - textWidth / 2.0 - 20.0, name.y - fs / 2.0 - 10.0, textWidth + 40.0, fs + 20.0);
            && c.width == img.width && c.height == img.height
            && c.ops == [DrawImage(Origin), FillRect(box), StrokeRect(box), FillText(Name, name, fs)]
            && box.CenterX() == name.x && box.CenterY() == name.y
            && ImageUnderneath(c.ops) && StrokesFollowFills(c.ops) && NameOverBox(c.ops, box)
  {
    OverlayOrder(OverlayStyle, img, textWidth);
    Overlay(OverlayStyle, img, textWidth)
  }

  /** `generateCustomCard`: a blank name returns silently; a missing card
      image throws ("the card is not loaded") and is alerted; otherwise the
      card is drawn, and an error thrown while drawing (`drawThrows`)
      rejects the drawing promise and is alerted the same way. */
  function Generate(raw: string, cardImage: Option<Image>, textWidth: real, drawThrows: bool): (r: Outcome<Canvas>)
    requires textWidth >= 0.0
    ensures r.Ignored? <==> IsBlank(raw)
    ensures r.Failed? <==> !IsBlank(raw) && (cardImage.None? || drawThrows)
    ensures r.Failed? ==> r.reason == (if cardImage.None? then LoadFailed else ComposeFailed)
    ensures r.Done? ==> r.value == AddNameToCard(cardImage.value, textWidth)
    ensures !r.Refused?
  {
    if !NameReady(raw) then Ignored
    else if cardImage.None? then Failed(LoadFailed)
    else if drawThrows then Failed(ComposeFailed)
    else Done(AddNameToCard(cardImage.value, textWidth))
  }

  /** Enter in the name field generates only while the button is enabled. */
  function OnEnter(buttonEnabled: bool, raw: string, cardImage: Option<Image>, textWidth: real, drawThrows: bool): (r: Outcome<Canvas>)
    requires textWidth >= 0.0
    ensures buttonEnabled ==> r == Generate(raw, cardImage, textWidth, drawThrows)
    ensures !buttonEnabled ==> r.Ignored?
  {
    if buttonEnabled then Generate(raw, cardImage, textWidth, drawThrows) else Ignored
  }

  /** With the button as `validateInput` leaves it, Enter and a click agree.
      `resetApp` empties the field without re-validating, so the button can
      stay enabled over an empty field; Enter then still does nothing,
      because the handler ignores a blank name itself. */
  lemma EnterAgreesWithClick(raw: string, cardImage: Option<Image>, textWidth: real, drawThrows: bool, buttonEnabled: bool)
    requires textWidth >= 0.0
    ensures OnEnter(ValidateInput(raw).enabled, raw, cardImage, textWidth, drawThrows) == Generate(raw, cardImage, textWidth, drawThrows)
    ensures IsBlank(raw) ==> OnEnter(buttonEnabled, raw, cardImage, textWidth, drawThrows).Ignored?
  {
  }
}
