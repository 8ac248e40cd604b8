/** script.js: the user uploads a PDF meant to contain the placeholder
    "[الاسم]" ("[the name]"); the name is stamped on every page at an
    approximately centred position computed from its length, without
    measuring it. */
module PlaceholderScript {
  import opened Geometry
  import opened JsText
  import opened Scene
  import opened Pdf
  import opened Gating

  const Placeholder: string := "[الاسم]"

  /** The font size of the stamped name. */
  const StampSize: real := 24.0

  /** Where a name is stamped on a `width` x `height` page: 8 units left of
      the centre per UTF-16 code unit of the name, at half the height. */
  function StampAt(width: real, height: real, name: string): (p: Point)
    ensures p.y == height / 2.0
    ensures p.x + 8.0 * (Utf16Length(name) as real) == width / 2.0
  {
    Point(width / 2.0 - 8.0 * (Utf16Length(name) as real), height / 2.0)
  }

  /** Nothing clamps the stamp: it starts left of the page exactly when
      eight units per code unit exceed half the page width. */
  lemma StampLeftOfPageIff(width: real, height: real, name: string)
    ensures StampAt(width, height, name).x < 0.0 <==> 8.0 * (Utf16Length(name) as real) > width / 2.0
  {
  }

  /** The position is centred only by approximation: a name that is really
      `tw` wide is centred on the page exactly when `tw` is 16 units per
      code unit. */
  lemma StampCentredIff(width: real, height: real, name: string, tw: real)
    ensures StampAt(width, height, name).x + tw / 2.0 == width / 2.0 <==> tw == 16.0 * (Utf16Length(name) as real)
  {
  }

  /** `createModifiedPdf`: the name stamped on every page, each page keeping
      its size and earlier contents. */
  function StampAll(pages: seq<Page>, name: string): (r: seq<Page>)
    ensures |r| == |pages|
    ensures forall i :: 0 <= i < |pages| ==>
              r[i] == Page(pages[i].width, pages[i].height,
                           pages[i].ops + [FillText(Name, StampAt(pages[i].width, pages[i].height, name), StampSize)])
    decreases |pages|
  {
    if |pages| == 0 then []
    else
      var rest := StampAll(pages[1..], name);
      var p := pages[0];
      var r := [Page(p.width, p.height, p.ops + [FillText(Name, StampAt(p.width, p.height, name), StampSize)])] + rest;
      assert forall i :: 1 <= i < |pages| ==> r[i] == rest[i - 1] && pages[i] == pages[1..][i - 1];
      r
  }

  /** The text search the upload handler runs: whatever the document, and
      even when it cannot be parsed, it returns the placeholder itself. */
  function ExtractText(parsed: Option<seq<Page>>): (text: string)
    ensures text == Placeholder
  {
    match parsed
    case Some(_) => Placeholder
    case None => Placeholder
  }

  /** So the placeholder check of the upload handler never rejects. */
  lemma PlaceholderCheckNeverRejects(parsed: Option<seq<Page>>)
    ensures Includes(ExtractText(parsed), Placeholder)
  {
    IncludesInfix([], Placeholder, []);
    assert [] + Placeholder + [] == Placeholder;
  }

  type Bytes = seq<bv8>

  /** `handlePdfUpload`. No file: nothing happens. A type other than
      `application/pdf` is refused. Otherwise the bytes are read and kept,
      and the text search decides; a read failure is alerted and changes
      nothing. Returns the outcome and the kept bytes. */
  function Upload(bytes: Option<Bytes>, file: Option<File>, read: Option<Bytes>, parsed: Option<seq<Page>>): (r: (Outcome<()>, Option<Bytes>))
    ensures file.None? ==> r == (Ignored, bytes)
    ensures r.0.Refused? <==> file.Some? && file.value.mimeType != PdfMime
    ensures r.0.Refused? ==> r.0.reason == NotPdf && r.1 == bytes
    // every PDF that can be read is accepted, placeholder or not
    ensures r.0.Done? <==> file.Some? && file.value.mimeType == PdfMime && read.Some?
    ensures r.0.Done? ==> r.1 == read
    ensures r.0.Failed? ==> r.0.reason == LoadFailed && r.1 == bytes
  {
    if file.None? then (Ignored, bytes)
    else if file.value.mimeType != PdfMime then (Refused(NotPdf), bytes)
    else if read.None? then (Failed(LoadFailed), bytes)
    else
      PlaceholderCheckNeverRejects(parsed);
      if !Includes(ExtractText(parsed), Placeholder) then (Refused(NoPlaceholder), read)
      else (Done(()), read)
  }

  /** `generateCustomCard`: a blank name, then missing bytes, are refused in
      that order. The kept bytes are parsed again (`parsed`); `encodes`
      says whether the PDF library's standard font can encode the name,
      which it reports by throwing from the first `drawText`. A document
      without pages never draws, so it cannot fail that way. */
  function Generate(raw: string, bytes: Option<Bytes>, parsed: Option<seq<Page>>, encodes: bool): (r: Outcome<seq<Page>>)
    ensures r.Refused? <==> IsBlank(raw) || bytes.None?
    ensures r.Refused? ==> r.reason == (if IsBlank(raw) then MissingName else MissingTemplate)
    ensures r.Failed? <==> !IsBlank(raw) && bytes.Some? && (parsed.None? || (!encodes && |parsed.value| > 0))
    ensures r.Failed? ==> r.reason == ComposeFailed
    ensures r.Done? ==> r.value == StampAll(parsed.value, Trim(raw))
    ensures !r.Ignored?
  {
    if !NameReady(raw) then Refused(MissingName)
    else if bytes.None? then Refused(MissingTemplate)
    else if parsed.None? || (!encodes && |parsed.value| > 0) then Failed(ComposeFailed)
    else Done(StampAll(parsed.value, Trim(raw)))
  }

  /** An empty document comes back empty and the request succeeds, even
      for a name the font cannot encode: the page loop draws nothing. */
  lemma EmptyDocumentSucceeds(raw: string, bytes: Option<Bytes>, encodes: bool)
    requires !IsBlank(raw) && bytes.Some?
    ensures Generate(raw, bytes, Some([]), encodes) == Done([])
  {
    assert StampAll([], Trim(raw)) == [];
  }

  /** Every page of the result carries the name, at the same place relative
      to that page's size, as its last drawing. */
  lemma EveryPageStamped(raw: string, bytes: Option<Bytes>, pages: seq<Page>, i: int)
    requires Generate(raw, bytes, Some(pages), true).Done? && 0 <= i < |pages|
    ensures var out := Generate(raw, bytes, Some(pages), true).value;
            && |out| == |pages|
            && |out[i].ops| > 0
            && out[i].ops[|out[i].ops| - 1]
               == FillText(Name, StampAt(pages[i].width, pages[i].height, Trim(raw)), StampSize)
            && out[i].ops[..|pages[i].ops|] == pages[i].ops
  {
    var out := Generate(raw, bytes, Some(pages), true).value;
    assert out[i].ops == pages[i].ops + [FillText(Name, StampAt(pages[i].width, pages[i].height, Trim(raw)), StampSize)];
  }
}
