/** script-final.js: the name is written over the original design image;
    when that image cannot be loaded or drawn, an 800 x 1200 card is drawn
    from scratch instead. */
module FinalScript {
  import opened Geometry
  import opened JsText
  import opened Scene
  import opened Raster
  import opened Gating

  /** `createCustomizedCard`: font 6% of the shorter side, name centred at
      (50%, 65%), box padded by 25 and 15, outlined name, subtitle at 0.8
      of the font size below the name in half its size, no stars. */
  const OverlayStyle: Style :=
    Style(Scaled(0.06), Scaled(0.5), Scaled(0.65), Middle, 25.0, 15.0, true, false,
          Some(SubtitleRule(Scaled(0.8), Scaled(0.5))), None)

  function OverlayLayout(img: Image, textWidth: real): (l: Layout)
    requires textWidth >= 0.0
    ensures var w := img.width as real; var h := img.height as real;
            && l.fontSize == 0.06 * Min(w, h)
            && l.name == Point(0.5 * w, 0.65 * h)
            && l.box == Rect(l.name.x - textWidth / 2.0 - 25.0, l.name.y - l.fontSize / 2.0 - 15.0,
                             textWidth + 50.0, l.fontSize + 30.0)
            && l.box.CenterX() == l.name.x && l.box.CenterY() == l.name.y
            && l.subtitle == Some(Placed(Point(l.name.x, l.name.y + 0.8 * l.fontSize), 0.5 * l.fontSize))
            && l.stars.None?
  {
    Place(OverlayStyle, img.width as real, img.height as real, textWidth)
  }

  /** On a non-empty image the subtitle is drawn lower on the canvas than
      the name (y grows downwards). */
  lemma OverlaySubtitleBelowName(img: Image, textWidth: real)
    requires textWidth >= 0.0 && img.width > 0 && img.height > 0
    ensures var l := OverlayLayout(img, textWidth);
            l.subtitle.value.at.y > l.name.y
  {
    var l := OverlayLayout(img, textWidth);
    assert Min(img.width as real, img.height as real) > 0.0;
  }

  /** The customised card: the image first, then box, border, outlined
      name and subtitle. */
  function CustomizedCard(img: Image, textWidth: real): (c: Canvas)
    requires textWidth >= 0.0
    ensures c.width == img.width && c.height == img.height
    ensures ImageUnderneath(c.ops)
    ensures StrokesFollowFills(c.ops) && NameOutlined(c.ops)
    ensures NameOverBox(c.ops, OverlayLayout(img, textWidth).box)
  {
    OverlayOrder(OverlayStyle, img, textWidth);
    Overlay(OverlayStyle, img, textWidth)
  }

  const CardWidth: nat := 800
  const CardHeight: nat := 1200

  /** `createCustomDesignCard`: the name in bold 56px centred on x = 400 at
      y = 550 (alphabetic baseline); its box spans 40 px above and below
      (56 / 2 + 12), is padded by 40 on each side, and has stars 40 px
      before and 20 px after it. */
  const ScratchStyle: Style :=
    Style(Fixed(56.0), Scaled(0.5), Fixed(550.0), Alphabetic, 40.0, 12.0, false, false,
          Some(SubtitleRule(Fixed(80.0), Fixed(28.0))), Some(StarRule(40.0, 20.0, Fixed(32.0))))

  function ScratchLayout(textWidth: real): (l: Layout)
    requires textWidth >= 0.0
    ensures l.fontSize == 56.0 && l.name == Point(400.0, 550.0)
    ensures l.box.CenterX() == 400.0 && l.box.w == textWidth + 80.0
    ensures l.box.y == 510.0 && l.box.YEnd() == 590.0
    ensures l.subtitle == Some(Placed(Point(400.0, 630.0), 28.0))
    ensures l.stars.Some? && l.stars.value.left.y == 550.0 == l.stars.value.right.y
    // the left star is 20 px farther from the centre than the right one
    ensures 400.0 - l.stars.value.left.x == l.stars.value.right.x - 400.0 + 20.0
    ensures l.box.x - l.stars.value.left.x == 40.0 && l.stars.value.right.x - l.box.Right() == 20.0
  {
    Place(ScratchStyle, CardWidth as real, CardHeight as real, textWidth)
  }

  /** Everything drawn before the name section: the gradient background,
      the 30 px green frame, title, year and "special greeting" line. */
  function ScratchBackdrop(): seq<Op> {
    [FillRect(Rect(0.0, 0.0, 800.0, 1200.0))]
    + Frame(800.0, 1200.0, 30.0)
    + [ FillText(Caption, Point(400.0, 150.0), 48.0),
      FillText(Caption, Point(400.0, 220.0), 36.0),
      FillText(Caption, Point(400.0, 400.0), 32.0) ]
  }

  /** The seven gold circles at x = 100, 200, ..., 700 on y = 1050. */
  function ScratchCircles(): seq<Op> {
    CircleRow(7, 100.0, 100.0, 1050.0, 8.0)
  }

  /** Everything drawn after the name section: two closing lines and the circles. */
  function ScratchTrailer(): seq<Op> {
    [ FillText(Caption, Point(400.0, 750.0), 24.0),
      FillText(Caption, Point(400.0, 950.0), 32.0) ]
    + ScratchCircles()
  }

  /** Every decorative circle lies inside the card, clear of its 30 px frame. */
  lemma ScratchCirclesInsideFrame()
    ensures forall i :: 0 <= i < |ScratchCircles()| ==>
              && 30.0 < ScratchCircles()[i].center.x - ScratchCircles()[i].radius
              && ScratchCircles()[i].center.x + ScratchCircles()[i].radius < 770.0
  {
    CircleRowWithin(7, 100.0, 100.0, 1050.0, 8.0, 30.0, 770.0);
  }

  /** The backdrop fills rectangles but strokes none. */
  lemma ScratchBackdropStrokesFollowFills()
    ensures StrokesFollowFills(ScratchBackdrop())
  {
    var a := ScratchBackdrop();
    forall m | 0 <= m < |a| ensures !a[m].StrokeRect? {
      if 1 <= m < 5 { assert a[m] == Frame(800.0, 1200.0, 30.0)[m - 1]; }
    }
  }

  /** The trailer draws texts and circles only. */
  lemma ScratchTrailerPaintsNoRect()
    ensures NoRectFrom(ScratchTrailer(), 0)
  {
    CircleRowPaintsNoRect(7, 100.0, 100.0, 1050.0, 8.0);
    NoRectConcat([ FillText(Caption, Point(400.0, 750.0), 24.0),
                   FillText(Caption, Point(400.0, 950.0), 32.0) ], ScratchCircles());
  }

  /** The fallback card drawn from scratch. */
  function CustomDesignCard(textWidth: real): (c: Canvas)
    requires textWidth >= 0.0
    ensures c.width == CardWidth && c.height == CardHeight
    ensures StrokesFollowFills(c.ops)
    ensures NameOverBox(c.ops, ScratchLayout(textWidth).box)
  {
    var l := ScratchLayout(textWidth);
    var a := ScratchBackdrop();
    var b := NameOps(ScratchStyle, l);
    var t := ScratchTrailer();
    NameOpsOrder(ScratchStyle, l);
    ScratchBackdropStrokesFollowFills();
    ScratchTrailerPaintsNoRect();
    NameSectionBetween(a, b, t, l.box);
    Canvas(CardWidth, CardHeight, a + b + t)
  }

  /** Which design the generated card shows. */
  datatype Design = OriginalDesign | CustomDesign

  datatype Card = Card(name: string, design: Design, canvas: Canvas)

  /** `generateCustomCard`: a blank name is refused before anything else;
      otherwise the original design is used when it loaded (`loaded`) and
      drawing over it did not throw, and the scratch design in every other
      case; should the scratch design throw as well, the request fails.
      The two widths are the name measured in each design's font. */
  function Generate(raw: string, loaded: Option<Image>, overlayThrows: bool, scratchThrows: bool,
                    overlayWidth: real, scratchWidth: real): (r: Outcome<Card>)
    requires overlayWidth >= 0.0 && scratchWidth >= 0.0
    ensures r.Refused? <==> IsBlank(raw)
    ensures r.Refused? ==> r.reason == MissingName
    ensures !r.Ignored?
    // only a failure of the fallback design itself reaches the outer catch
    ensures r.Failed? <==> !IsBlank(raw) && (loaded.None? || overlayThrows) && scratchThrows
    ensures r.Failed? ==> r.reason == ComposeFailed
    ensures r.Done? ==> r.value.name == Trim(raw) && |r.value.name| > 0
    ensures r.Done? ==> (r.value.design == OriginalDesign <==> loaded.Some? && !overlayThrows)
    ensures r.Done? && r.value.design == OriginalDesign ==>
              r.value.canvas.width == loaded.value.width && r.value.canvas.height == loaded.value.height
    ensures r.Done? && r.value.design == CustomDesign ==>
              r.value.canvas.width == 800 && r.value.canvas.height == 1200
  {
    if !NameReady(raw) then Refused(MissingName)
    else
      var name := Trim(raw);
      TrimEmptyIffBlank(raw);
      if loaded.Some? && !overlayThrows then
        Done(Card(name, OriginalDesign, CustomizedCard(loaded.value, overlayWidth)))
      else if scratchThrows then Failed(ComposeFailed)
      else
        Done(Card(name, CustomDesign, CustomDesignCard(scratchWidth)))
  }
}
