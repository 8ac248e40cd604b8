/** Name overlay on a 2D raster canvas: y grows downwards and the name is
    drawn with `textAlign = 'center'`, so the anchor point is the middle of
    the name. One parameterised layout serves every canvas script; each
    script is a `Style` preset. */
module Raster {
  import opened Geometry
  import opened Scene

  /** `textBaseline` in force when the name is drawn. */
  datatype Baseline = Middle | Alphabetic

  /** Subtitle below the name: vertical offset and font size, both measured
      against the name's font size. */
  datatype SubtitleRule = SubtitleRule(offset: Measure, size: Measure)

  /** Flanking stars: each one `leftGap` / `rightGap` outside the box edge,
      at the height of the name, with a size measured against its font size. */
  datatype StarRule = StarRule(leftGap: real, rightGap: real, size: Measure)

  datatype Style = Style(
    font: Measure,         // against min(width, height)
    anchorX: Measure,      // against width
    anchorY: Measure,      // against height
    baseline: Baseline,
    padX: real,
    padY: real,
    outlineName: bool,     // `strokeText` before `fillText`
    shadowName: bool,      // shadow set just for the name
    subtitle: Option<SubtitleRule>,
    stars: Option<StarRule>)
  {
    predicate Valid() {
      padX >= 0.0 && padY >= 0.0
    }
  }

  datatype Placed = Placed(at: Point, size: real)

  datatype StarPair = StarPair(left: Point, right: Point, size: real)

  datatype Layout = Layout(
    fontSize: real,
    name: Point,
    box: Rect,
    subtitle: Option<Placed>,
    stars: Option<StarPair>)

  /** The image a card is drawn over, at its natural size. */
  datatype Image = Image(width: nat, height: nat)

  /** A composed canvas: its size and the calls drawn on it. */
  datatype Canvas = Canvas(width: nat, height: nat, ops: seq<Op>)

  /** The em box of a text of width `tw` and font size `fs` drawn centred,
      with `textBaseline = 'middle'`, at `c`. */
  function TextExtent(c: Point, tw: real, fs: real): (r: Rect)
    ensures r.CenterX() == c.x && r.CenterY() == c.y
    ensures r.w == tw && r.h == fs
  {
    Rect(c.x - tw / 2.0, c.y - fs / 2.0, tw, fs)
  }

  /** The overlay geometry for a name measured `textWidth` wide on a
      `width` x `height` canvas. Nothing is clamped or shrunk to fit. */
  function Place(s: Style, width: real, height: real, textWidth: real): (l: Layout)
    requires textWidth >= 0.0
    ensures l.fontSize == s.font.Of(Min(width, height))
    ensures l.name == Point(s.anchorX.Of(width), s.anchorY.Of(height))
    // the box is centred on the anchor and padded around the measured width
    ensures l.box.CenterX() == l.name.x && l.box.CenterY() == l.name.y
    ensures l.box.w == textWidth + 2.0 * s.padX && l.box.h == l.fontSize + 2.0 * s.padY
    ensures s.baseline == Middle ==> Surrounds(l.box, TextExtent(l.name, textWidth, l.fontSize), s.padX, s.padY)
    ensures l.subtitle.Some? <==> s.subtitle.Some?
    ensures s.subtitle.Some? ==>
              && l.subtitle.value.at.x == l.name.x
              && l.subtitle.value.at.y - l.name.y == s.subtitle.value.offset.Of(l.fontSize)
              && l.subtitle.value.size == s.subtitle.value.size.Of(l.fontSize)
    ensures l.stars.Some? <==> s.stars.Some?
    ensures s.stars.Some? ==>
              && l.box.x - l.stars.value.left.x == s.stars.value.leftGap
              && l.stars.value.right.x - l.box.Right() == s.stars.value.rightGap
              && l.stars.value.left.y == l.name.y == l.stars.value.right.y
              && l.stars.value.size == s.stars.value.size.Of(l.fontSize)
  {
    var fs := s.font.Of(Min(width, height));
    var c := Point(s.anchorX.Of(width), s.anchorY.Of(height));
    var box := Rect(c.x - textWidth / 2.0 - s.padX, c.y - fs / 2.0 - s.padY,
                    textWidth + 2.0 * s.padX, fs + 2.0 * s.padY);
    var subtitle :=
      match s.subtitle
      case None => None
      case Some(r) => Some(Placed(Point(c.x, c.y + r.offset.Of(fs)), r.size.Of(fs)));
    var stars :=
      match s.stars
      case None => None
      case Some(r) => Some(StarPair(Point(box.x - r.leftGap, c.y), Point(box.Right() + r.rightGap, c.y), r.size.Of(fs)));
    Layout(fs, c, box, subtitle, stars)
  }

  /** Without shrink-to-fit or clamping, a horizontally centred box stays
      inside the canvas exactly when the measured name plus both paddings
      is no wider than the canvas. */
  lemma FitsIffNameFits(s: Style, width: real, height: real, textWidth: real)
    requires s.Valid() && s.anchorX == Scaled(0.5) && textWidth >= 0.0
    ensures Place(s, width, height, textWidth).box.WithinWidth(width) <==> textWidth + 2.0 * s.padX <= width
  {
    var l := Place(s, width, height, textWidth);
    CentredFitsIff(l.box, width);
  }

  /** The stars are mirror images about the name exactly when the two gaps
      are equal. */
  lemma StarsSymmetricIff(s: Style, width: real, height: real, textWidth: real)
    requires textWidth >= 0.0 && s.stars.Some?
    ensures var p := Place(s, width, height, textWidth).stars.value;
            var c := Place(s, width, height, textWidth).name;
            c.x - p.left.x == p.right.x - c.x <==> s.stars.value.leftGap == s.stars.value.rightGap
  {
  }

  /** On a top-down canvas the subtitle's centre lies below the lower edge
      of the name box exactly when its offset exceeds half the box height. */
  lemma SubtitleClearsBoxIff(s: Style, width: real, height: real, textWidth: real)
    requires textWidth >= 0.0 && s.subtitle.Some?
    ensures var l := Place(s, width, height, textWidth);
            (l.subtitle.value.at.y > l.box.YEnd()
             <==> s.subtitle.value.offset.Of(l.fontSize) > l.fontSize / 2.0 + s.padY)
  {
  }

  /** The font size and anchor do not depend on the name: a longer name gets
      a box that contains the shorter name's box, never a smaller font. */
  lemma LongerNameWiderBox(s: Style, width: real, height: real, tw1: real, tw2: real)
    requires 0.0 <= tw1 <= tw2
    ensures var a := Place(s, width, height, tw1);
            var b := Place(s, width, height, tw2);
            && a.fontSize == b.fontSize && a.name == b.name
            && b.box.x <= a.box.x && a.box.Right() <= b.box.Right()
            && a.box.y == b.box.y && a.box.h == b.box.h
  {
  }

  /** The name itself: optionally outlined, optionally with a shadow set
      just before and cleared just after. */
  function NameDraw(s: Style, l: Layout): seq<Op> {
    (if s.shadowName then [Shadow(true)] else [])
    + (if s.outlineName then [StrokeText(Name, l.name, l.fontSize)] else [])
    + [FillText(Name, l.name, l.fontSize)]
    + (if s.shadowName then [Shadow(false)] else [])
  }

  /** The subtitle and the two stars, when the layout has them. */
  function Decorations(l: Layout): seq<Op> {
    (match l.subtitle
     case None => []
     case Some(p) => [FillText(Subtitle, p.at, p.size)])
    + (match l.stars
       case None => []
       case Some(p) => [FillText(Star, p.left, p.size), FillText(Star, p.right, p.size)])
  }

  /** The calls that draw the name section: the box (filled, then stroked),
      the name, the subtitle and the two stars. */
  function NameOps(s: Style, l: Layout): seq<Op> {
    [FillRect(l.box), StrokeRect(l.box)] + (NameDraw(s, l) + Decorations(l))
  }

  /** Where the name's `fillText` sits within `NameDraw`. */
  function NameIndex(s: Style): nat {
    (if s.shadowName then 1 else 0) + (if s.outlineName then 1 else 0)
  }

  lemma NameDrawShape(s: Style, l: Layout)
    ensures var d := NameDraw(s, l); var k := NameIndex(s);
            && |d| == k + 1 + (if s.shadowName then 1 else 0)
            && TextOnly(d)
            && d[k] == FillText(Name, l.name, l.fontSize)
            && (s.outlineName ==> d[k - 1] == StrokeText(Name, l.name, l.fontSize))
            && (s.shadowName ==> d[0] == Shadow(true) && d[k + 1] == Shadow(false))
            && (s.shadowName ==> forall m :: 0 < m < |d| - 1 ==> d[m].DrawsText() && d[m].item == Name)
            && (!s.shadowName ==> forall m :: 0 <= m < |d| ==> d[m].DrawsText() && d[m].item == Name)
  {
  }

  /** The decorations are texts other than the name. */
  lemma DecorationsPlain(l: Layout)
    ensures var e := Decorations(l);
            forall m :: 0 <= m < |e| ==> e[m].DrawsText() && e[m].item != Name
  {
  }

  /** The box is filled, then stroked, then the name drawn over it; nothing
      after the box paints a rectangle and the image is never redrawn. */
  lemma NameOpsBox(s: Style, l: Layout)
    ensures var ops := NameOps(s, l);
            && StrokesFollowFills(ops)
            && NameOverBox(ops, l.box)
            && NoRectFrom(ops, 2)
            && (forall m :: 0 <= m < |ops| ==> !ops[m].DrawImage?)
  {
    var d := NameDraw(s, l);
    var e := Decorations(l);
    NameDrawShape(s, l);
    DecorationsPlain(l);
    TextOnlyConcat(d, e);
    assert (d + e)[NameIndex(s)] == d[NameIndex(s)];
    BoxThenText(l.box, d + e, NameIndex(s));
  }

  /** A shadow, when the style sets one, applies to the name and to nothing
      else; otherwise no shadow call is made. */
  lemma NameOpsShadow(s: Style, l: Layout)
    ensures var ops := NameOps(s, l);
            && (s.shadowName ==> ShadowOnlyOnName(ops))
            && (!s.shadowName ==> forall m :: 0 <= m < |ops| ==> !ops[m].Shadow?)
  {
    var d := NameDraw(s, l);
    var e := Decorations(l);
    NameDrawShape(s, l);
    DecorationsPlain(l);
    if s.shadowName {
      ShadowBracketsName(d, e);
      ShadowOnlyOnNamePrepend([FillRect(l.box), StrokeRect(l.box)], d + e);
    } else {
      TextOnlyConcat(d, e);
      var ops := NameOps(s, l);
      assert forall m :: 2 <= m < |ops| ==> ops[m] == (d + e)[m - 2];
    }
  }

  /** An outlined name is stroked and then filled at the same spot. */
  lemma NameOpsOutline(s: Style, l: Layout)
    ensures s.outlineName ==> NameOutlined(NameOps(s, l))
  {
    if s.outlineName {
      var d := NameDraw(s, l);
      var e := Decorations(l);
      var k := NameIndex(s);
      NameDrawShape(s, l);
      assert (d + e)[k - 1] == d[k - 1] && (d + e)[k] == d[k];
      NameOutlinedPrepend([FillRect(l.box), StrokeRect(l.box)], d + e);
    }
  }

  /** The name section keeps its promises about order: the border strokes
      the filled rectangle, the name is drawn on top of the box, the image
      is never redrawn, and a shadow, when the style sets one, applies to
      the name and to nothing else. */
  lemma NameOpsOrder(s: Style, l: Layout)
    ensures var ops := NameOps(s, l);
            && StrokesFollowFills(ops)
            && NameOverBox(ops, l.box)
            && NoRectFrom(ops, 2)
            && (forall m :: 0 <= m < |ops| ==> !ops[m].DrawImage?)
            && (s.shadowName ==> ShadowOnlyOnName(ops))
            && (!s.shadowName ==> forall m :: 0 <= m < |ops| ==> !ops[m].Shadow?)
            && (s.outlineName ==> NameOutlined(ops))
  {
    NameOpsBox(s, l);
    NameOpsShadow(s, l);
    NameOpsOutline(s, l);
  }

  /** An image overlay: the image at its natural size, then the name section. */
  function Overlay(s: Style, img: Image, textWidth: real): (c: Canvas)
    requires textWidth >= 0.0
    ensures c.width == img.width && c.height == img.height
    ensures |c.ops| > 0 && c.ops[0] == DrawImage(Origin)
  {
    var l := Place(s, img.width as real, img.height as real, textWidth);
    Canvas(img.width, img.height, [DrawImage(Origin)] + NameOps(s, l))
  }

  /** Every overlay draws the template first and the name over its box. */
  lemma OverlayOrder(s: Style, img: Image, textWidth: real)
    requires textWidth >= 0.0
    ensures var c := Overlay(s, img, textWidth);
            var l := Place(s, img.width as real, img.height as real, textWidth);
            && ImageUnderneath(c.ops)
            && StrokesFollowFills(c.ops)
            && NameOverBox(c.ops, l.box)
            && (s.shadowName ==> ShadowOnlyOnName(c.ops))
            && (s.outlineName ==> NameOutlined(c.ops))
  {
    var l := Place(s, img.width as real, img.height as real, textWidth);
    var a: seq<Op> := [DrawImage(Origin)];
    var b := NameOps(s, l);
    var ops := a + b;
    NameOpsBox(s, l);
    NameOverBoxPrepend(a, b, l.box);
    StrokesFollowFillsConcat(a, b);
    forall m | 0 < m < |ops|
      ensures !ops[m].DrawImage?
    {
      assert ops[m] == b[m - 1];
    }
    if s.outlineName {
      NameOpsOutline(s, l);
      NameOutlinedPrepend(a, b);
    }
    if s.shadowName {
      NameOpsShadow(s, l);
      ShadowOnlyOnNamePrepend(a, b);
    }
  }
}
