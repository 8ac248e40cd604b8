/** script-fixed.js: a one-page A4 card (595 x 842 points) built from
    scratch with the PDF library; y grows upwards. Widths of the texts come
    from the library's font metrics and are inputs here. */
module FixedScript {
  import opened Geometry
  import opened JsText
  import opened Scene
  import opened Pdf
  import opened Gating

  const PageWidth: real := 595.0
  const PageHeight: real := 842.0

  /** The name section: bold 42 pt, baseline 420 below the top edge, box
      padded by 30 (15 below and above), subtitle 60 lower in 20 pt, stars
      18 pt, 30 before and 10 after the box. */
  const NameStyle: Style :=
    Style(42.0, Inset(420.0), 30.0, false, Some(SubtitleRule(60.0, 20.0)), Some(StarRule(AroundBox, 30.0, 10.0, 18.0)))

  /** The measured widths of the texts the card centres. */
  datatype Widths = Widths(title: real, year: real, congrats: real, name: real,
                           subtitle: real, patriotic: real, bottom: real)
  {
    predicate Valid() {
      title >= 0.0 && year >= 0.0 && congrats >= 0.0 && name >= 0.0
      && subtitle >= 0.0 && patriotic >= 0.0 && bottom >= 0.0
    }
  }

  /** The layout of the name section on the page. */
  lemma NameGeometry(nameWidth: real, subtitleWidth: real)
    requires nameWidth >= 0.0 && subtitleWidth >= 0.0
    ensures var l := Place(NameStyle, PageWidth, PageHeight, nameWidth, subtitleWidth);
            && l.name.y == 422.0 && l.name.x == (PageWidth - nameWidth) / 2.0
            && l.box.CenterX() == PageWidth / 2.0 && l.box.w == nameWidth + 60.0
            // the box spans 15 below the baseline to 57 above it
            && l.box.y == l.name.y - 15.0 && l.box.YEnd() == l.name.y + 57.0
            // the subtitle's baseline is below the box (y grows upwards)
            && l.subtitle.value.at.y == l.name.y - 60.0 && l.subtitle.value.at.y < l.box.y
            && l.stars.value.left.x == l.name.x - 60.0
            && l.stars.value.right.x == l.name.x + nameWidth + 40.0
            && (l.box.WithinWidth(PageWidth) <==> nameWidth <= 535.0)
  {
    FitsIffNameFits(NameStyle, PageWidth, PageHeight, nameWidth, subtitleWidth);
    SubtitleBelowBoxIff(NameStyle, PageWidth, PageHeight, nameWidth, subtitleWidth);
  }

  /** The opacity of background strip `i`. */
  function Opacity(i: int): real {
    0.1 - 0.005 * (i as real)
  }

  /** The opacities of the twenty strips fall strictly and stay within
      [0.005, 0.1]. */
  lemma OpacitiesFall(i: int, j: int)
    requires 0 <= i < j < 20
    ensures Opacity(i) > Opacity(j)
    ensures 0.005 <= Opacity(j) < Opacity(i) <= 0.1
  {
  }

  /** The first `n` background strips: strip `i` is 42 points high, as wide
      as the page, starts `42 * i` below the top edge and has opacity
      `Opacity(i)`. */
  function Strips(n: nat): (ops: seq<Op>)
    ensures |ops| == n
    ensures forall i :: 0 <= i < n ==>
              ops[i] == TintRect(Rect(0.0, PageHeight - 42.0 * (i as real), PageWidth, 42.0), Opacity(i))
    decreases n
  {
    if n == 0 then []
    else
      var prev := Strips(n - 1);
      var last := TintRect(Rect(0.0, PageHeight - 42.0 * ((n - 1) as real), PageWidth, 42.0), Opacity(n - 1));
      var ops := prev + [last];
      assert forall i :: 0 <= i < n - 1 ==> ops[i] == prev[i];
      assert ops[n - 1] == last;
      ops
  }

  /** Strip 0 starts at the top edge and so lies wholly above the page;
      every later strip lies on the page, and none reaches the lowest 44
      points. */
  lemma StripsPlacement()
    ensures Strips(20)[0].rect.y == PageHeight
    ensures forall i :: 1 <= i < 20 ==>
              Strips(20)[i].rect.WithinSurface(PageWidth, PageHeight) && Strips(20)[i].rect.y >= 44.0
  {
    StripsWithin(20);
  }

  lemma StripsWithin(n: nat)
    requires n <= 20
    ensures n > 0 ==> Strips(n)[0].rect.y == PageHeight
    ensures forall i :: 1 <= i < n ==>
              Strips(n)[i].rect.WithinSurface(PageWidth, PageHeight) && Strips(n)[i].rect.y >= 44.0
  {
    var ops := Strips(n);
    forall i | 1 <= i < n
      ensures ops[i].rect.WithinSurface(PageWidth, PageHeight) && ops[i].rect.y >= 44.0
    {
      assert ops[i].rect == Rect(0.0, PageHeight - 42.0 * (i as real), PageWidth, 42.0);
      assert 1.0 <= i as real <= 19.0;
    }
  }

  /** The four 20-point border bands; the top one is drawn first. */
  function Borders(): (ops: seq<Op>)
    ensures |ops| == 4
    ensures forall i :: 0 <= i < 4 ==> ops[i].FillRect? && ops[i].rect.WithinSurface(PageWidth, PageHeight)
  {
    var f := Frame(PageWidth, PageHeight, 20.0);
    [f[1], f[0], f[2], f[3]]
  }

  /** The title block: title, year, a star either side of the title, the
      flag and the "special greeting" line, each text centred. */
  function Heading(w: Widths): seq<Op> {
    [ FillText(Caption, Point(CentredLeft(PageWidth, w.title), PageHeight - 120.0), 36.0),
      FillText(Caption, Point(CentredLeft(PageWidth, w.year), PageHeight - 160.0), 28.0),
      FillText(Star, Point((PageWidth - w.title) / 2.0 - 40.0, PageHeight - 120.0), 20.0),
      FillText(Star, Point((PageWidth + w.title) / 2.0 + 20.0, PageHeight - 120.0), 20.0),
      FillRect(Rect((PageWidth - 100.0) / 2.0, PageHeight - 250.0, 100.0, 60.0)),
      FillRect(Rect((PageWidth - 100.0) / 2.0 + 10.0, PageHeight - 250.0 + 20.0, 80.0, 20.0)),
      FillText(Caption, Point(CentredLeft(PageWidth, w.congrats), PageHeight - 320.0), 24.0) ]
  }

  /** The closing block: patriotic line, closing line with a heart either
      side, five gold circles of radius 5 along y = 60. */
  function Closing(w: Widths): seq<Op> {
    [ FillText(Caption, Point(CentredLeft(PageWidth, w.patriotic), PageHeight - 520.0), 16.0),
      FillText(Caption, Point(CentredLeft(PageWidth, w.bottom), 100.0), 22.0),
      FillText(Heart, Point((PageWidth - w.bottom) / 2.0 - 30.0, 100.0), 16.0),
      FillText(Heart, Point((PageWidth + w.bottom) / 2.0 + 15.0, 100.0), 16.0) ]
    + CircleRow(5, 80.0, 100.0, 60.0, 5.0)
  }

  /** Title, year, greeting, patriotic and closing lines are each centred
      on the page. */
  lemma TextsCentred(w: Widths)
    requires w.Valid()
    ensures var h := Heading(w); var c := Closing(w);
            && h[0].at.x + w.title / 2.0 == PageWidth / 2.0
            && h[1].at.x + w.year / 2.0 == PageWidth / 2.0
            && h[6].at.x + w.congrats / 2.0 == PageWidth / 2.0
            && c[0].at.x + w.patriotic / 2.0 == PageWidth / 2.0
            && c[1].at.x + w.bottom / 2.0 == PageWidth / 2.0
  {
  }

  /** The title stars flank the title asymmetrically: the left one starts
      40 points before the title, the right one 20 after its end; the hearts
      likewise sit 30 before and 15 after the closing line. */
  lemma DecorationsFlankTexts(w: Widths)
    requires w.Valid()
    ensures var h := Heading(w);
            && h[0].at.x - h[2].at.x == 40.0 && h[3].at.x - (h[0].at.x + w.title) == 20.0
    ensures var c := Closing(w);
            && c[1].at.x - c[2].at.x == 30.0 && c[3].at.x - (c[1].at.x + w.bottom) == 15.0
  {
  }

  /** The fixed decorations lie on the page: the flag is centred and its
      white band sits inside it, and every circle lies between the side
      borders, clear of the bottom band. */
  lemma DecorationsInsidePage(w: Widths)
    requires w.Valid()
    ensures var flag := Heading(w)[4].rect; var band := Heading(w)[5].rect;
            && flag.WithinSurface(PageWidth, PageHeight) && flag.CenterX() == PageWidth / 2.0
            && Surrounds(flag, band, 10.0, 20.0)
    ensures var cs := CircleRow(5, 80.0, 100.0, 60.0, 5.0);
            forall i :: 0 <= i < 5 ==>
              && 20.0 < cs[i].center.x - cs[i].radius && cs[i].center.x + cs[i].radius < PageWidth - 20.0
              && 20.0 < cs[i].center.y - cs[i].radius
  {
    CircleRowWithin(5, 80.0, 100.0, 60.0, 5.0, 20.0, PageWidth - 20.0);
  }

  /** Nothing after the name section paints a rectangle. */
  lemma ClosingPaintsNoRect(w: Widths)
    ensures NoRectFrom(Closing(w), 0)
  {
    var t := Closing(w);
    forall m | 0 <= m < |t| ensures !t[m].PaintsRect() {
      if m >= 4 { assert t[m] == CircleRow(5, 80.0, 100.0, 60.0, 5.0)[m - 4]; }
    }
  }

  /** `createNationalDayCard`: strips, borders, heading, name section,
      closing, in that order on one page. */
  function NationalDayCard(w: Widths): (p: Page)
    requires w.Valid()
    ensures p.width == PageWidth && p.height == PageHeight
    ensures NameOverBox(p.ops, Place(NameStyle, PageWidth, PageHeight, w.name, w.subtitle).box)
    ensures |p.ops| > 20 && p.ops[..20] == Strips(20)
  {
    var l := Place(NameStyle, PageWidth, PageHeight, w.name, w.subtitle);
    var s := Strips(20);
    var a := Borders() + Heading(w);
    var b := NameOps(NameStyle, l);
    var t := Closing(w);
    NameOpsOrder(NameStyle, l);
    NameOverBoxPrepend(a, b, l.box);
    ClosingPaintsNoRect(w);
    NameOverBoxAppend(a + b, t, l.box);
    var rest := a + b + t;
    NameOverBoxPrepend(s, rest, l.box);
    assert (s + rest)[..20] == s;
    Page(PageWidth, PageHeight, s + rest)
  }

  /** `generateCustomCard`: a blank name is refused; `widths` is `None`
      when the PDF library cannot measure or encode one of the texts, which
      it reports by throwing. */
  function Generate(raw: string, widths: Option<Widths>): (r: Outcome<Page>)
    requires widths.Some? ==> widths.value.Valid()
    ensures r.Refused? <==> IsBlank(raw)
    ensures r.Refused? ==> r.reason == MissingName
    ensures r.Failed? <==> !IsBlank(raw) && widths.None?
    ensures r.Failed? ==> r.reason == ComposeFailed
    ensures r.Done? ==> r.value == NationalDayCard(widths.value)
    ensures !r.Ignored?
  {
    if !NameReady(raw) then Refused(MissingName)
    else if widths.None? then Failed(ComposeFailed)
    else Done(NationalDayCard(widths.value))
  }
}
