/** Name overlay on a PDF page: y grows upwards and `drawText` takes the
    left end of the baseline, so a name `tw` wide is centred by starting it
    at `(width - tw) / 2`. One parameterised layout serves every PDF script;
    each script is a `Style` preset. */
module Pdf {
  import opened Geometry
  import opened Scene
  import opened Gating

  /** Subtitle centred on the page, `drop` below the name's baseline. */
  datatype SubtitleRule = SubtitleRule(drop: real, size: real)

  /** What the two stars flank: the name box, or the subtitle text. */
  datatype StarAnchor = AroundBox | AroundSubtitle

  /** Stars start `leftGap` before the left edge and `rightGap` after the
      right edge of what they flank, on its baseline. */
  datatype StarRule = StarRule(anchor: StarAnchor, leftGap: real, rightGap: real, size: real)

  datatype Style = Style(
    fontSize: real,
    baseline: Measure,       // against the page height
    pad: real,               // box = text widened by pad, heightened by pad
    drawNameTwice: bool,     // name drawn once before the box and once after
    subtitle: Option<SubtitleRule>,
    stars: Option<StarRule>)
  {
    predicate Valid() {
      && pad >= 0.0
      && (stars.Some? && stars.value.anchor == AroundSubtitle ==> subtitle.Some?)
    }
  }

  datatype Placed = Placed(at: Point, size: real)

  datatype StarPair = StarPair(left: Point, right: Point, size: real)

  datatype Layout = Layout(
    fontSize: real,
    name: Point,             // left end of the name's baseline
    box: Rect,
    subtitle: Option<Placed>,
    stars: Option<StarPair>)

  datatype Page = Page(width: real, height: real, ops: seq<Op>)

  /** The left x at which a text `textWidth` wide is centred on the page. */
  function CentredLeft(width: real, textWidth: real): (x: real)
    ensures x + textWidth / 2.0 == width / 2.0
  {
    (width - textWidth) / 2.0
  }

  /** The em box of a text of width `tw` and size `fs` whose baseline starts at `p`. */
  function TextBox(p: Point, tw: real, fs: real): Rect {
    Rect(p.x, p.y, tw, fs)
  }

  /** The overlay geometry for a name `nameWidth` wide and a subtitle
      `subtitleWidth` wide on a `width` x `height` page. */
  function Place(s: Style, width: real, height: real, nameWidth: real, subtitleWidth: real): (l: Layout)
    requires s.Valid() && nameWidth >= 0.0 && subtitleWidth >= 0.0
    ensures l.fontSize == s.fontSize
    ensures l.name.x + nameWidth / 2.0 == width / 2.0 && l.name.y == s.baseline.Of(height)
    // the box pads the name by `pad` left and right and by `pad / 2` below and above
    ensures Surrounds(l.box, TextBox(l.name, nameWidth, l.fontSize), s.pad, s.pad / 2.0)
    ensures l.box.CenterX() == width / 2.0
    ensures l.subtitle.Some? <==> s.subtitle.Some?
    ensures s.subtitle.Some? ==>
              && l.subtitle.value.at.x + subtitleWidth / 2.0 == width / 2.0
              && l.name.y - l.subtitle.value.at.y == s.subtitle.value.drop
              && l.subtitle.value.size == s.subtitle.value.size
    ensures l.stars.Some? <==> s.stars.Some?
    ensures s.stars.Some? && s.stars.value.anchor == AroundBox ==>
              && l.box.x - l.stars.value.left.x == s.stars.value.leftGap
              && l.stars.value.right.x - l.box.Right() == s.stars.value.rightGap
              && l.stars.value.left.y == l.name.y == l.stars.value.right.y
    ensures s.stars.Some? && s.stars.value.anchor == AroundSubtitle ==>
              && l.subtitle.value.at.x - l.stars.value.left.x == s.stars.value.leftGap
              && l.stars.value.right.x - (l.subtitle.value.at.x + subtitleWidth) == s.stars.value.rightGap
              && l.stars.value.left.y == l.subtitle.value.at.y == l.stars.value.right.y
    ensures s.stars.Some? ==> l.stars.value.size == s.stars.value.size
  {
    var p := Point(CentredLeft(width, nameWidth), s.baseline.Of(height));
    var box := Rect(p.x - s.pad, p.y - s.pad / 2.0, nameWidth + s.pad * 2.0, s.fontSize + s.pad);
    var subtitle :=
      match s.subtitle
      case None => None
      case Some(r) => Some(Placed(Point(CentredLeft(width, subtitleWidth), p.y - r.drop), r.size));
    var stars :=
      match s.stars
      case None => None
      case Some(r) =>
        if r.anchor == AroundBox then
          Some(StarPair(Point(box.x - r.leftGap, p.y), Point(box.Right() + r.rightGap, p.y), r.size))
        else
          var q := subtitle.value.at;
          Some(StarPair(Point(q.x - r.leftGap, q.y), Point(q.x + subtitleWidth + r.rightGap, q.y), r.size));
    Layout(s.fontSize, p, box, subtitle, stars)
  }

  /** Nothing clamps the box: it stays on the page horizontally exactly
      when the measured name plus both paddings fits the page width. */
  lemma FitsIffNameFits(s: Style, width: real, height: real, nameWidth: real, subtitleWidth: real)
    requires s.Valid() && nameWidth >= 0.0 && subtitleWidth >= 0.0
    ensures (Place(s, width, height, nameWidth, subtitleWidth).box.WithinWidth(width)
             <==> nameWidth + 2.0 * s.pad <= width)
  {
    var l := Place(s, width, height, nameWidth, subtitleWidth);
    CentredFitsIff(l.box, width);
  }

  /** With y growing upwards, the subtitle's baseline lies below the name
      box exactly when it drops further than the box's lower padding. */
  lemma SubtitleBelowBoxIff(s: Style, width: real, height: real, nameWidth: real, subtitleWidth: real)
    requires s.Valid() && nameWidth >= 0.0 && subtitleWidth >= 0.0 && s.subtitle.Some?
    ensures var l := Place(s, width, height, nameWidth, subtitleWidth);
            l.subtitle.value.at.y < l.box.y <==> s.subtitle.value.drop > s.pad / 2.0
  {
  }

  /** The calls of the name section: the framed box and the name over it
      (a first name draw before the box when the style asks for it), the
      subtitle, then the two stars. */
  function NameOps(s: Style, l: Layout): seq<Op> {
    var name := FillText(Name, l.name, l.fontSize);
    (if s.drawNameTwice then [name] else [])
    + [FramedRect(l.box), name]
    + (match l.subtitle
       case None => []
       case Some(p) => [FillText(Subtitle, p.at, p.size)])
    + (match l.stars
       case None => []
       case Some(p) => [FillText(Star, p.left, p.size), FillText(Star, p.right, p.size)])
  }

  /** Whatever the style, the last name draw comes after its box and no
      rectangle is painted after it. */
  lemma NameOpsOrder(s: Style, l: Layout)
    ensures var ops := NameOps(s, l);
            && NameOverBox(ops, l.box)
            && (s.drawNameTwice ==> ops[0].Draws(Name))
            && (forall m :: 0 <= m < |ops| ==> !ops[m].DrawImage? && !ops[m].Shadow?)
  {
    var ops := NameOps(s, l);
    var k := if s.drawNameTwice then 1 else 0;
    assert ops[k] == FramedRect(l.box);
    assert ops[k + 1] == FillText(Name, l.name, l.fontSize);
    assert NameOverBoxAt(ops, l.box, k, k + 1);
  }

  /** Copy every page and overlay the name on the first one only; a
      document without pages has no first page to draw on. */
  function OverlayFirstPage(s: Style, pages: seq<Page>, nameWidth: real, subtitleWidth: real): (r: Option<seq<Page>>)
    requires s.Valid() && nameWidth >= 0.0 && subtitleWidth >= 0.0
    ensures r.None? <==> |pages| == 0
    ensures r.Some? ==> |r.value| == |pages|
    ensures r.Some? ==> forall i :: 1 <= i < |pages| ==> r.value[i] == pages[i]
    ensures r.Some? ==>
              var p := pages[0];
              && r.value[0].width == p.width && r.value[0].height == p.height
              && |p.ops| <= |r.value[0].ops| && r.value[0].ops[..|p.ops|] == p.ops
              && r.value[0].ops[|p.ops|..] == NameOps(s, Place(s, p.width, p.height, nameWidth, subtitleWidth))
    // whatever the template page held, the name ends up over its box
    ensures r.Some? ==>
              NameOverBox(r.value[0].ops, Place(s, pages[0].width, pages[0].height, nameWidth, subtitleWidth).box)
  {
    if |pages| == 0 then None
    else
      var p := pages[0];
      var l := Place(s, p.width, p.height, nameWidth, subtitleWidth);
      NameOpsOrder(s, l);
      NameOverBoxPrepend(p.ops, NameOps(s, l), l.box);
      Some([Page(p.width, p.height, p.ops + NameOps(s, l))] + pages[1..])
  }

  /** The widths the PDF library's font metrics give for the name and the
      subtitle. */
  datatype Measured = Measured(name: real, subtitle: real) {
    predicate Valid() {
      name >= 0.0 && subtitle >= 0.0
    }
  }

  /** Copy a parsed template and overlay the name on its first page.
      `widths` is `None` when the library cannot measure or encode the
      texts, which it reports by throwing; a template without pages has no
      first page and throws as well. */
  function Personalise(s: Style, pages: seq<Page>, widths: Option<Measured>): (r: Outcome<seq<Page>>)
    requires s.Valid() && (widths.Some? ==> widths.value.Valid())
    ensures r.Failed? <==> |pages| == 0 || widths.None?
    ensures r.Failed? ==> r.reason == ComposeFailed
    ensures !r.Ignored? && !r.Refused?
    ensures r.Done? ==> Some(r.value) == OverlayFirstPage(s, pages, widths.value.name, widths.value.subtitle)
  {
    if widths.None? then Failed(ComposeFailed)
    else
      match OverlayFirstPage(s, pages, widths.value.name, widths.value.subtitle)
      case None => Failed(ComposeFailed)
      case Some(out) => Done(out)
  }
}
