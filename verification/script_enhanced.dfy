/** script-enhanced.js: the user uploads any PDF; the name is drawn on its
    first page, once before the box and once more on top of it. */
module EnhancedScript {
  import opened Geometry
  import opened JsText
  import opened Scene
  import opened Pdf
  import opened Gating

  /** Helvetica 28, baseline at 30% of the page height, box padded by 20
      (10 below and above), name drawn twice, subtitle 40 lower in 14, no
      stars. */
  const NameStyle: Style :=
    Style(28.0, Scaled(0.3), 20.0, true, Some(SubtitleRule(40.0, 14.0)), None)

  /** The layout of the name on a `width` x `height` first page. */
  lemma NameGeometry(width: real, height: real, nameWidth: real, subtitleWidth: real)
    requires nameWidth >= 0.0 && subtitleWidth >= 0.0
    ensures var l := Place(NameStyle, width, height, nameWidth, subtitleWidth);
            && l.name == Point((width - nameWidth) / 2.0, 0.3 * height)
            && l.box == Rect(l.name.x - 20.0, l.name.y - 10.0, nameWidth + 40.0, 48.0)
            && l.box.CenterX() == width / 2.0
            && l.subtitle.value.at == Point((width - subtitleWidth) / 2.0, l.name.y - 40.0)
            && l.subtitle.value.at.y < l.box.y
            && (l.box.WithinWidth(width) <==> nameWidth + 40.0 <= width)
  {
    FitsIffNameFits(NameStyle, width, height, nameWidth, subtitleWidth);
    SubtitleBelowBoxIff(NameStyle, width, height, nameWidth, subtitleWidth);
  }

  /** The name section on the first page: the name, the framed box over it,
      the name again on top, then the subtitle. The first draw is covered by
      the box; the last one is what shows. */
  lemma DrawOrder(width: real, height: real, nameWidth: real, subtitleWidth: real)
    requires nameWidth >= 0.0 && subtitleWidth >= 0.0
    ensures var l := Place(NameStyle, width, height, nameWidth, subtitleWidth);
            var ops := NameOps(NameStyle, l);
            && |ops| == 4
            && ops[0].Draws(Name) && ops[1] == FramedRect(l.box) && ops[2] == ops[0]
            && ops[3].Draws(Subtitle)
            && NameOverBox(ops, l.box)
  {
    NameOpsOrder(NameStyle, Place(NameStyle, width, height, nameWidth, subtitleWidth));
  }

  type Bytes = seq<bv8>

  /** The uploaded file's bytes and the document parsed from it. */
  datatype Session = Session(bytes: Option<Bytes>, doc: Option<seq<Page>>)

  /** `handlePdfUpload`. No file: nothing happens. A type other than
      `application/pdf` is refused. Otherwise the bytes are read (`read`)
      and kept, then parsed (`parsed`); a parse failure is alerted but keeps
      the new bytes and leaves the previously parsed document in place. */
  function Upload(s: Session, file: Option<File>, read: Option<Bytes>, parsed: Option<seq<Page>>): (r: (Outcome<()>, Session))
    ensures file.None? ==> r == (Ignored, s)
    ensures r.0.Refused? <==> file.Some? && file.value.mimeType != PdfMime
    ensures r.0.Refused? ==> r.0.reason == NotPdf && r.1 == s
    ensures r.0.Done? <==> file.Some? && file.value.mimeType == PdfMime && read.Some? && parsed.Some?
    ensures r.0.Done? ==> r.1 == Session(read, parsed)
    ensures r.0.Failed? ==> r.0.reason == LoadFailed && r.1.doc == s.doc
    ensures r.0.Failed? && read.Some? ==> r.1.bytes == read
    ensures r.0.Failed? && read.None? ==> r.1 == s
  {
    if file.None? then (Ignored, s)
    else if file.value.mimeType != PdfMime then (Refused(NotPdf), s)
    else if read.None? then (Failed(LoadFailed), s)
    else if parsed.None? then (Failed(LoadFailed), s.(bytes := read))
    else (Done(()), Session(read, parsed))
  }

  /** `generateCustomCard`: a blank name, then a missing document, are
      refused in that order; otherwise the document is personalised. */
  function Generate(s: Session, raw: string, widths: Option<Measured>): (r: Outcome<seq<Page>>)
    requires widths.Some? ==> widths.value.Valid()
    ensures r.Refused? <==> IsBlank(raw) || s.doc.None?
    ensures r.Refused? ==> r.reason == (if IsBlank(raw) then MissingName else MissingTemplate)
    ensures r.Done? <==> !IsBlank(raw) && s.doc.Some? && |s.doc.value| > 0 && widths.Some?
    ensures r.Done? ==>
              && |r.value| == |s.doc.value|
              && (forall i :: 1 <= i < |r.value| ==> r.value[i] == s.doc.value[i])
              && NameOverBox(r.value[0].ops,
                             Place(NameStyle, s.doc.value[0].width, s.doc.value[0].height,
                                   widths.value.name, widths.value.subtitle).box)
    ensures !r.Ignored?
  {
    if !NameReady(raw) then Refused(MissingName)
    else if s.doc.None? then Refused(MissingTemplate)
    else Personalise(NameStyle, s.doc.value, widths)
  }

  /** A PDF that fails to parse after an earlier one succeeded leaves the
      earlier document in use: the next card is made from it, not from the
      file just chosen. This describes the upload handler on its own: the
      page hides the upload section after a good upload and shows it again
      only from the reset, which also forgets the document, so a user may
      not be able to reach this sequence through the page. */
  lemma FailedParseKeepsEarlierDocument(s: Session, file: File, read: Bytes, raw: string, widths: Option<Measured>)
    requires s.doc.Some? && file.mimeType == PdfMime
    requires widths.Some? ==> widths.value.Valid()
    ensures var (o, t) := Upload(s, Some(file), Some(read), None);
            && o == Failed(LoadFailed)
            && t.bytes == Some(read) && t.doc == s.doc
            && Generate(t, raw, widths) == Generate(s, raw, widths)
  {
  }
}
