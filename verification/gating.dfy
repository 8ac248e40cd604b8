/** What every script does before any drawing: decide from the typed name
    (and, in some scripts, whether a template is loaded) whether the
    generate button is enabled and whether a generate request proceeds. */
module Gating {
  import opened Geometry
  import opened JsText

  /** Why a request produced no card. */
  datatype Reason =
    | MissingName        // the trimmed name is empty
    | MissingTemplate    // no PDF uploaded / no image loaded yet
    | NotPdf             // the chosen file's type is not application/pdf
    | NotImage           // the chosen file's type does not start with image/
    | NoPlaceholder      // the uploaded PDF does not contain the name placeholder
    | LoadFailed         // the template could not be fetched or decoded
    | ComposeFailed      // drawing or text encoding threw

  /** The result of a user request. `Ignored` returns silently; `Refused`
      alerts before any work starts; `Failed` is an error caught after work
      started; `Done` carries what was produced. */
  datatype Outcome<+T> = Ignored | Refused(reason: Reason) | Failed(reason: Reason) | Done(value: T)

  /** A file picked in an `<input type="file">`. */
  datatype File = File(mimeType: string)

  const PdfMime: string := "application/pdf"

  const ImageMimePrefix: string := "image/"

  /** The label shown on the generate button. */
  datatype Label = Prompt | Personalised(name: string) | UploadFirst

  datatype Button = Button(enabled: bool, caption: Label)

  /** `name.length === 0` after `trim()` is false: there is something to
      write on the card. */
  function NameReady(raw: string): (ok: bool)
    ensures ok <==> !IsBlank(raw)
  {
    TrimEmptyIffBlank(raw);
    Trim(raw) != []
  }

  /** `validateInput` of the scripts whose button shows the name: disabled
      with the prompt for a blank name, enabled and naming the trimmed name
      otherwise. */
  function ValidateInput(raw: string): (b: Button)
    ensures b.enabled <==> !IsBlank(raw)
    ensures b.enabled <==> b.caption.Personalised?
    ensures b.caption.Personalised? ==> b.caption.name == Trim(raw) && |b.caption.name| > 0
  {
    if NameReady(raw) then Button(true, Personalised(Trim(raw))) else Button(false, Prompt)
  }

  /** The alert a catch block picks for an error `message`: the "could not
      find the design" alert when the message includes the phrase that the
      loader's own error contains, the generic one otherwise. */
  function AlertFor(message: string, loadPhrase: string): (r: Reason)
    ensures r == LoadFailed <==> Includes(message, loadPhrase)
    ensures r == LoadFailed || r == ComposeFailed
  {
    if Includes(message, loadPhrase) then LoadFailed else ComposeFailed
  }

  /** A template loader that keeps the first image it loads: a cached image
      is returned without loading again; otherwise the fetch outcome decides,
      and a success is cached. */
  function LoadCached<T>(cache: Option<T>, fetched: Option<T>): (r: (Option<T>, Option<T>))
    ensures cache.Some? ==> r == (cache, cache)
    ensures cache.None? ==> r == (fetched, fetched)
  {
    match cache
    case Some(_) => (cache, cache)
    case None => (fetched, fetched)
  }

  /** Once a load has succeeded, every later load returns that same image,
      whatever a fresh fetch would have produced. */
  lemma LoadCachedSticks<T>(cache: Option<T>, fetched: Option<T>, later: Option<T>)
    requires LoadCached(cache, fetched).0.Some?
    ensures LoadCached(LoadCached(cache, fetched).1, later) == LoadCached(cache, fetched)
  {
  }
}
