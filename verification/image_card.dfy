/** The request flow shared by the scripts that write the name over a
    design image loaded once from the server (script-image.js and
    script-simple-image.js): refuse a blank name, load the image through the
    cache, draw the overlay, and on an error pick the alert by looking for
    the loader's phrase in the error message. */
module ImageCard {
  import opened Geometry
  import opened JsText
  import opened Scene
  import opened Raster
  import opened Gating

  /** `generateCustomCard` for overlay style `s`. `cache` is the image kept
      by earlier calls, `fetched` what loading the design file would give
      now, `loadError` the loader's rejection message and `loadPhrase` the
      phrase the catch block looks for, `drawError` the message of an error
      thrown while drawing. Returns the outcome and the cache afterwards. */
  function Generate(s: Style, loadPhrase: string, loadError: string, raw: string,
                    cache: Option<Image>, fetched: Option<Image>,
                    drawError: Option<string>, textWidth: real): (r: (Outcome<Canvas>, Option<Image>))
    requires textWidth >= 0.0 && Includes(loadError, loadPhrase)
    ensures r.0.Refused? <==> IsBlank(raw)
    ensures r.0.Refused? ==> r.0.reason == MissingName && r.1 == cache
    ensures !r.0.Ignored?
    // a blank name never touches the loader; otherwise a success is kept
    ensures !IsBlank(raw) ==> r.1 == LoadCached(cache, fetched).1
    ensures r.0.Done? <==> !IsBlank(raw) && LoadCached(cache, fetched).0.Some? && drawError.None?
    ensures r.0.Failed? && LoadCached(cache, fetched).0.None? ==> r.0.reason == LoadFailed
    ensures r.0.Failed? && LoadCached(cache, fetched).0.Some? ==> r.0.reason == AlertFor(drawError.value, loadPhrase)
    ensures r.0.Done? ==>
              var img := LoadCached(cache, fetched).0.value;
              && r.0.value.width == img.width && r.0.value.height == img.height
              && ImageUnderneath(r.0.value.ops) && StrokesFollowFills(r.0.value.ops)
              && NameOverBox(r.0.value.ops, Place(s, img.width as real, img.height as real, textWidth).box)
              && (s.shadowName ==> ShadowOnlyOnName(r.0.value.ops))
              && (s.outlineName ==> NameOutlined(r.0.value.ops))
  {
    if !NameReady(raw) then (Refused(MissingName), cache)
    else
      var (img, cache') := LoadCached(cache, fetched);
      if img.None? then (Failed(AlertFor(loadError, loadPhrase)), cache')
      else if drawError.Some? then (Failed(AlertFor(drawError.value, loadPhrase)), cache')
      else
        OverlayOrder(s, img.value, textWidth);
        (Done(Overlay(s, img.value, textWidth)), cache')
  }

  /** Once a card has been made, later requests reuse the same image: a
      changed file on the server, or a failed fetch, makes no difference. */
  lemma LaterCardsUseFirstImage(s: Style, loadPhrase: string, loadError: string,
                                raw: string, cache: Option<Image>, fetched: Option<Image>, textWidth: real,
                                raw2: string, fetched2: Option<Image>, textWidth2: real)
    requires textWidth >= 0.0 && textWidth2 >= 0.0 && Includes(loadError, loadPhrase)
    // the first request made a card: a non-blank name, and an image from the cache or the fetch
    requires !IsBlank(raw) && (cache.Some? || fetched.Some?)
    requires !IsBlank(raw2)
    ensures var c1 := Generate(s, loadPhrase, loadError, raw, cache, fetched, None, textWidth);
            var c2 := Generate(s, loadPhrase, loadError, raw2, c1.1, fetched2, None, textWidth2);
            && c1.0.Done? && c2.0.Done? && c2.1 == c1.1
            && c2.0.value.width == c1.0.value.width && c2.0.value.height == c1.0.value.height
  {
    LoadCachedSticks(cache, fetched, fetched2);
  }
}
