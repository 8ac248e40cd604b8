/** script-upload-once.js: the user uploads the card image once and can
    then write any number of names on it. The name field is disabled until
    an image has been decoded, and the generate button also needs a
    non-blank name. The page is a small state machine over `Session`. */
module UploadOnceScript {
  import opened Geometry
  import opened JsText
  import opened Scene
  import opened Raster
  import opened Gating

  /** Font 8% of the shorter side, name centred at (50%, 75%), box padded by
      25 and 12.5, shadow on the name only, subtitle 0.8 font sizes lower in
      0.4 of it, stars 15 px outside the box in half the font size. */
  const OverlayStyle: Style :=
    Style(Scaled(0.08), Scaled(0.5), Scaled(0.75), Middle, 25.0, 12.5, false, true,
          Some(SubtitleRule(Scaled(0.8), Scaled(0.4))), Some(StarRule(15.0, 15.0, Scaled(0.5))))

  /** The overlay geometry of this design: stars `tw / 2 + 40` either side
      of the name, 15 px outside the box. */
  lemma OverlayGeometry(img: Image, textWidth: real)
    requires textWidth >= 0.0
    ensures var w := img.width as real; var h := img.height as real;
            var l := Place(OverlayStyle, w, h, textWidth);
            && l.fontSize == 0.08 * Min(w, h) && l.name == Point(0.5 * w, 0.75 * h)
            && Surrounds(l.box, TextExtent(l.name, textWidth, l.fontSize), 25.0, 12.5)
            && l.subtitle == Some(Placed(Point(l.name.x, l.name.y + 0.8 * l.fontSize), 0.4 * l.fontSize))
            && l.name.x - l.stars.value.left.x == textWidth / 2.0 + 40.0
            && l.stars.value.right.x - l.name.x == textWidth / 2.0 + 40.0
            && (l.box.WithinWidth(w) <==> textWidth + 50.0 <= w)
  {
    FitsIffNameFits(OverlayStyle, img.width as real, img.height as real, textWidth);
  }

  /** Which section of the page is showing. */
  datatype Screen = NameEntry | Preview(card: Canvas)

  /** The page state: the decoded image, whether the name field accepts
      input, the field's text and the visible section. */
  datatype Session = Session(image: Option<Image>, nameInputEnabled: bool, nameText: string, screen: Screen)
  {
    /** The name field is enabled exactly when an image is loaded. */
    predicate Valid() {
      nameInputEnabled <==> image.Some?
    }
  }

  /** The page as it opens: no image, name field disabled. */
  const Initial: Session := Session(None, false, "", NameEntry)

  /** `validateInput`: the button and its label. */
  function ButtonFor(s: Session): (b: Button)
    ensures b.enabled <==> s.image.Some? && !IsBlank(s.nameText)
    // the label distinguishes exactly three situations
    ensures b.caption == UploadFirst <==> s.image.None?
    ensures b.caption.Personalised? <==> s.image.Some? && !IsBlank(s.nameText)
    ensures b.caption == Prompt <==> s.image.Some? && IsBlank(s.nameText)
    ensures b.caption.Personalised? ==> b.caption.name == Trim(s.nameText)
  {
    var ready := NameReady(s.nameText);
    var hasImage := s.image.Some?;
    Button(hasImage && ready,
           if !hasImage then UploadFirst else if ready then Personalised(Trim(s.nameText)) else Prompt)
  }

  /** The file input's change handler. A missing file or one whose type
      does not start with "image/" only shows an error; an image file
      whose data decodes (`decoded`) becomes the card image and enables the
      name field. Decoding that never completes changes nothing. */
  function ChooseFile(s: Session, file: Option<File>, decoded: Option<Image>): (r: (Outcome<()>, Session))
    ensures s.Valid() ==> r.1.Valid()
    ensures r.0.Refused? <==> file.None? || !StartsWith(file.value.mimeType, ImageMimePrefix)
    ensures r.0.Refused? ==> r.0.reason == NotImage
    ensures r.0.Done? <==> file.Some? && StartsWith(file.value.mimeType, ImageMimePrefix) && decoded.Some?
    ensures r.0.Done? ==> r.1 == s.(image := decoded, nameInputEnabled := true)
    ensures !r.0.Done? ==> r.1 == s
  {
    if file.None? || !StartsWith(file.value.mimeType, ImageMimePrefix) then (Refused(NotImage), s)
    else if decoded.None? then (Ignored, s)
    else (Done(()), s.(image := decoded, nameInputEnabled := true))
  }

  /** Typing into the name field; a disabled field ignores keystrokes. */
  function Type(s: Session, text: string): (r: Session)
    ensures s.Valid() ==> r.Valid()
    ensures r.image == s.image && r.screen == s.screen
    ensures r.nameText == (if s.nameInputEnabled then text else s.nameText)
  {
    if s.nameInputEnabled then s.(nameText := text) else s
  }

  /** `generateCustomCard`: returns silently unless both a non-blank name
      and an image are present; otherwise the card is drawn (an error thrown
      while drawing is alerted and leaves the page as it was). */
  function Generate(s: Session, textWidth: real, drawThrows: bool): (r: (Outcome<Canvas>, Session))
    requires textWidth >= 0.0
    ensures s.Valid() ==> r.1.Valid()
    ensures r.0.Ignored? <==> IsBlank(s.nameText) || s.image.None?
    ensures r.0.Failed? <==> !IsBlank(s.nameText) && s.image.Some? && drawThrows
    ensures r.0.Failed? ==> r.0.reason == ComposeFailed
    ensures !r.0.Done? ==> r.1 == s
    ensures r.0.Done? ==>
              && r.1 == s.(screen := Preview(r.0.value))
              && r.0.value.width == s.image.value.width && r.0.value.height == s.image.value.height
              && ImageUnderneath(r.0.value.ops) && ShadowOnlyOnName(r.0.value.ops)
  {
    if !NameReady(s.nameText) || s.image.None? then (Ignored, s)
    else if drawThrows then (Failed(ComposeFailed), s)
    else
      OverlayOrder(OverlayStyle, s.image.value, textWidth);
      var card := Overlay(OverlayStyle, s.image.value, textWidth);
      (Done(card), s.(screen := Preview(card)))
  }

  /** Enter in the name field generates only while the button is enabled. */
  function OnEnter(s: Session, textWidth: real, drawThrows: bool): (r: (Outcome<Canvas>, Session))
    requires textWidth >= 0.0
    ensures !ButtonFor(s).enabled ==> r == (Ignored, s)
    ensures ButtonFor(s).enabled ==> r == Generate(s, textWidth, drawThrows)
  {
    if ButtonFor(s).enabled then Generate(s, textWidth, drawThrows) else (Ignored, s)
  }

  /** The Enter guard is redundant: generation ignores exactly the states
      in which the button is disabled, so Enter and a click always agree. */
  lemma EnterAgreesWithClick(s: Session, textWidth: real, drawThrows: bool)
    requires textWidth >= 0.0
    ensures OnEnter(s, textWidth, drawThrows) == Generate(s, textWidth, drawThrows)
  {
  }

  /** "Write another name on the same card": back to name entry with an
      empty field, keeping the image. */
  function AnotherName(s: Session): (r: Session)
    ensures s.Valid() ==> r.Valid()
    ensures r.image == s.image && r.nameInputEnabled == s.nameInputEnabled
    ensures r.nameText == "" && r.screen == NameEntry
    ensures !ButtonFor(r).enabled
  {
    s.(nameText := "", screen := NameEntry)
  }

  /** `resetApp`: forget the image, empty and disable the name field. */
  function Reset(s: Session): (r: Session)
    ensures r.Valid() && r == Initial
    ensures ButtonFor(r) == Button(false, UploadFirst)
  {
    Session(None, false, "", NameEntry)
  }

  /** After a card is made, "another name" followed by typing a non-blank
      name is enough to make the next card from the same image: no second
      upload is needed. */
  lemma AnotherNameReusesImage(s: Session, tw: real, name: string, tw2: real)
    requires s.Valid() && tw >= 0.0 && tw2 >= 0.0 && !IsBlank(name)
    requires s.image.Some? && !IsBlank(s.nameText)
    ensures var t := Type(AnotherName(Generate(s, tw, false).1), name);
            && Generate(s, tw, false).0.Done?
            && ButtonFor(t).enabled
            && Generate(t, tw2, false).0.Done?
            && Generate(t, tw2, false).0.value.width == s.image.value.width
  {
    var g := Generate(s, tw, false);
    assert g.0.Done?;
    var t := Type(AnotherName(g.1), name);
    assert t.image == s.image && t.nameInputEnabled && t.nameText == name;
  }

  /** After a reset, no typing brings the button back: an image must be
      uploaded again first. */
  lemma ResetNeedsNewUpload(s: Session, texts: seq<string>, tw: real)
    requires tw >= 0.0
    ensures var t := TypeAll(Reset(s), texts);
            && !ButtonFor(t).enabled && Generate(t, tw, false).0.Ignored?
  {
  }

  /** Typing each text of `texts` in turn. */
  function TypeAll(s: Session, texts: seq<string>): (r: Session)
    ensures r.image == s.image && r.nameInputEnabled == s.nameInputEnabled
    ensures !s.nameInputEnabled ==> r.nameText == s.nameText
    decreases |texts|
  {
    if |texts| == 0 then s else Type(TypeAll(s, texts[..|texts| - 1]), texts[|texts| - 1])
  }
}
