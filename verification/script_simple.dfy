/** script-simple.js: the name is written on the first page of a fixed PDF
    template fetched from the server. */
module SimpleScript {
  import opened Geometry
  import opened JsText
  import opened Scene
  import opened Pdf
  import opened Gating

  /** Helvetica 32, baseline at a quarter of the page height, box padded by
      25 (12.5 below and above), subtitle 45 lower in 16, 12 pt stars 25
      before the subtitle and 15 after it, on its baseline. */
  const NameStyle: Style :=
    Style(32.0, Scaled(0.25), 25.0, false, Some(SubtitleRule(45.0, 16.0)), Some(StarRule(AroundSubtitle, 25.0, 15.0, 12.0)))

  /** The layout of the name on a `width` x `height` first page. */
  lemma NameGeometry(width: real, height: real, nameWidth: real, subtitleWidth: real)
    requires nameWidth >= 0.0 && subtitleWidth >= 0.0
    ensures var l := Place(NameStyle, width, height, nameWidth, subtitleWidth);
            && l.name == Point((width - nameWidth) / 2.0, 0.25 * height)
            && l.box == Rect(l.name.x - 25.0, l.name.y - 12.5, nameWidth + 50.0, 57.0)
            && l.box.CenterX() == width / 2.0
            && l.subtitle.value.at == Point((width - subtitleWidth) / 2.0, l.name.y - 45.0)
            && l.subtitle.value.at.y < l.box.y
            && l.stars.value.left == Point(l.subtitle.value.at.x - 25.0, l.subtitle.value.at.y)
            && l.stars.value.right == Point(l.subtitle.value.at.x + subtitleWidth + 15.0, l.subtitle.value.at.y)
            && (l.box.WithinWidth(width) <==> nameWidth + 50.0 <= width)
  {
    FitsIffNameFits(NameStyle, width, height, nameWidth, subtitleWidth);
    SubtitleBelowBoxIff(NameStyle, width, height, nameWidth, subtitleWidth);
  }

  /** `generateCustomCard`: a blank name is refused; otherwise the template
      is fetched (`fetched`), parsed (`parsed`) and personalised. */
  function Generate(raw: string, fetched: bool, parsed: Option<seq<Page>>, widths: Option<Measured>): (r: Outcome<seq<Page>>)
    requires widths.Some? ==> widths.value.Valid()
    ensures r.Refused? <==> IsBlank(raw)
    ensures r.Refused? ==> r.reason == MissingName
    ensures r.Failed? && !fetched ==> r.reason == LoadFailed
    ensures r.Done? <==> !IsBlank(raw) && fetched && parsed.Some? && |parsed.value| > 0 && widths.Some?
    ensures r.Done? ==>
              && |r.value| == |parsed.value|
              && (forall i :: 1 <= i < |r.value| ==> r.value[i] == parsed.value[i])
              && NameOverBox(r.value[0].ops,
                             Place(NameStyle, parsed.value[0].width, parsed.value[0].height,
                                   widths.value.name, widths.value.subtitle).box)
    ensures !r.Ignored?
  {
    if !NameReady(raw) then Refused(MissingName)
    else if !fetched then Failed(LoadFailed)
    else if parsed.None? then Failed(ComposeFailed)
    else Personalise(NameStyle, parsed.value, widths)
  }
}
