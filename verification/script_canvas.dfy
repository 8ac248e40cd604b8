/** script-canvas.js: an 800 x 1200 card drawn entirely on a canvas, with a
    plain HTML card as the fallback when drawing throws. The name is
    measured while the 32 px font of the line above it is still in force
    and drawn afterwards in bold 56 px, so its box is sized for a smaller
    text than the one drawn over it. */
module CanvasScript {
  import opened Geometry
  import opened JsText
  import opened Scene
  import opened Raster
  import opened Gating

  const CardWidth: nat := 800
  const CardHeight: nat := 1200

  /** Size of the font in force when the name is measured. */
  const MeasuredSize: real := 32.0

  /** Size of the font the name is drawn in. */
  const DrawnSize: real := 56.0

  /** The name section: name at (400, 500) on the alphabetic baseline, box
      padded by 60 left and right and spanning 40 above and below the
      baseline, subtitle 80 lower in 28 px, stars 40 before and 20 after
      the box in 32 px. */
  const NameStyle: Style :=
    Style(Fixed(DrawnSize), Scaled(0.5), Fixed(500.0), Alphabetic, 60.0, 12.0, false, false,
          Some(SubtitleRule(Fixed(80.0), Fixed(28.0))), Some(StarRule(40.0, 20.0, Fixed(32.0))))

  /** The layout for a name measured `measured` wide under the 32 px font. */
  function NameLayout(measured: real): (l: Layout)
    requires measured >= 0.0
    ensures l.fontSize == DrawnSize && l.name == Point(400.0, 500.0)
    ensures l.box.CenterX() == 400.0 && l.box.w == measured + 120.0
    ensures l.box.y == 460.0 && l.box.YEnd() == 540.0
    ensures l.subtitle == Some(Placed(Point(400.0, 580.0), 28.0))
    ensures l.stars.Some? && l.stars.value.size == 32.0
    ensures l.box.x - l.stars.value.left.x == 40.0 && l.stars.value.right.x - l.box.Right() == 20.0
  {
    Place(NameStyle, CardWidth as real, CardHeight as real, measured)
  }

  /** Everything before the name section: background, 30 px frame, title,
      year, the flag (a rectangle with a lighter text area and the shahada
      in 16 px) and the "special greeting" line. */
  function Backdrop(): seq<Op> {
    [FillRect(Rect(0.0, 0.0, 800.0, 1200.0))]
    + Frame(800.0, 1200.0, 30.0)
    + [ FillText(Caption, Point(400.0, 120.0), 48.0),
        FillText(Caption, Point(400.0, 180.0), 36.0),
        FillRect(Rect(320.0, 220.0, 160.0, 100.0)),
        FillRect(Rect(340.0, 250.0, 120.0, 40.0)),
        FillText(Caption, Point(400.0, 275.0), 16.0),
        FillText(Caption, Point(400.0, 400.0), 32.0) ]
  }

  /** The flag is centred on the card and its text area is centred in the flag. */
  lemma FlagCentred()
    ensures var flag := Backdrop()[7].rect; var area := Backdrop()[8].rect;
            && flag.CenterX() == 400.0 && area.CenterX() == flag.CenterX()
            && Surrounds(flag, area, 20.0, 30.0)
  {
  }

  /** Everything after the name section: patriotic line, closing line with a
      heart on either side, the seven gold circles and the year. */
  function Trailer(): seq<Op> {
    [ FillText(Caption, Point(400.0, 680.0), 24.0),
      FillText(Caption, Point(400.0, 900.0), 32.0),
      FillText(Heart, Point(200.0, 900.0), 28.0),
      FillText(Heart, Point(580.0, 900.0), 28.0) ]
    + CircleRow(7, 100.0, 100.0, 1050.0, 8.0)
    + [FillText(Caption, Point(400.0, 1120.0), 20.0)]
  }

  /** The hearts are not symmetric about the centre line: the left one is
      200 px from it, the right one 180 px. */
  lemma HeartsOffCentre()
    ensures Trailer()[2].Draws(Heart) && Trailer()[3].Draws(Heart)
    ensures 400.0 - Trailer()[2].at.x == 200.0 && Trailer()[3].at.x - 400.0 == 180.0
  {
  }

  /** The backdrop fills rectangles but strokes none. */
  lemma BackdropStrokesFollowFills()
    ensures StrokesFollowFills(Backdrop())
  {
    var a := Backdrop();
    forall m | 0 <= m < |a| ensures !a[m].StrokeRect? {
      if 1 <= m < 5 { assert a[m] == Frame(800.0, 1200.0, 30.0)[m - 1]; }
    }
  }

  /** The trailer draws texts and circles only. */
  lemma TrailerPaintsNoRect()
    ensures NoRectFrom(Trailer(), 0)
  {
    var row := CircleRow(7, 100.0, 100.0, 1050.0, 8.0);
    var texts := [ FillText(Caption, Point(400.0, 680.0), 24.0),
      FillText(Caption, Point(400.0, 900.0), 32.0),
      FillText(Heart, Point(200.0, 900.0), 28.0),
      FillText(Heart, Point(580.0, 900.0), 28.0) ];
    CircleRowPaintsNoRect(7, 100.0, 100.0, 1050.0, 8.0);
    NoRectConcat(texts, row);
    NoRectConcat(texts + row, [FillText(Caption, Point(400.0, 1120.0), 20.0)]);
  }

  /** The card drawn by `createCanvasCard`. */
  function CanvasCard(measured: real): (c: Canvas)
    requires measured >= 0.0
    ensures c.width == CardWidth && c.height == CardHeight
    ensures StrokesFollowFills(c.ops)
    ensures NameOverBox(c.ops, NameLayout(measured).box)
  {
    var l := NameLayout(measured);
    var a := Backdrop();
    var b := NameOps(NameStyle, l);
    var t := Trailer();
    NameOpsOrder(NameStyle, l);
    BackdropStrokesFollowFills();
    TrailerPaintsNoRect();
    NameSectionBetween(a, b, t, l.box);
    Canvas(CardWidth, CardHeight, a + b + t)
  }

  /** The name is measured at 32 px but drawn at 56 px. Assuming a
      measurer that scales linearly with the font size, the drawn name is
      `measured * 56 / 32` wide; under that assumption it stays horizontally
      inside its box exactly when it measured at most 160 px at 32 px, and
      any longer name spills over both box edges. */
  lemma DrawnNameInsideBoxIff(measured: real)
    requires measured >= 0.0
    ensures var box := NameLayout(measured).box;
            var d := measured * DrawnSize / MeasuredSize;
            (box.x <= 400.0 - d / 2.0 && 400.0 + d / 2.0 <= box.Right()) <==> measured <= 160.0
  {
    var box := NameLayout(measured).box;
    var d := measured * DrawnSize / MeasuredSize;
    assert d == measured * 1.75;
  }

  /** What the user ends up with. */
  datatype Card =
    | CanvasDesign(name: string, canvas: Canvas)
      /** `createSimpleHtmlCard`: the same greeting laid out in HTML */
    | HtmlCard(name: string)

  /** `generateCustomCard`: a blank name is refused; otherwise the canvas
      card is drawn, and if drawing throws the user is told and gets the
      HTML card instead, so a non-blank name always produces a card. */
  function Generate(raw: string, measured: real, canvasThrows: bool): (r: Outcome<Card>)
    requires measured >= 0.0
    ensures r.Refused? <==> IsBlank(raw)
    ensures r.Refused? ==> r.reason == MissingName
    ensures r.Done? <==> !IsBlank(raw)
    ensures r.Done? ==> r.value.name == Trim(raw) && |r.value.name| > 0
    ensures r.Done? ==> (r.value.HtmlCard? <==> canvasThrows)
    ensures r.Done? && r.value.CanvasDesign? ==> r.value.canvas == CanvasCard(measured)
  {
    if !NameReady(raw) then Refused(MissingName)
    else
      TrimEmptyIffBlank(raw);
      if canvasThrows then Done(HtmlCard(Trim(raw)))
      else Done(CanvasDesign(Trim(raw), CanvasCard(measured)))
  }
}
