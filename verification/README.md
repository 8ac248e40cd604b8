# Saudi National Day greeting cards: name-overlay model

The repository is a set of ten browser scripts. Each one writes a person's
name on a Saudi National Day greeting card. Every script does the same
computation with its own constants: from the size of the surface and the
measured width of the name, it places

- a padded background box, filled and then bordered;
- the name over the box;
- optionally a subtitle ("كل عام وأنت بخير");
- optionally a star on either side.

Before drawing, each script also checks the typed name, and in some scripts
whether a template has been uploaded.

The scripts use two coordinate conventions:

- **Raster canvas.** y grows downwards and text is drawn centred on its
  anchor. This covers `script-final.js`, `script-image.js`,
  `script-simple-image.js`, `script-upload-once.js`, `script-direct.js` and
  `script-canvas.js`. Module `Raster` holds one parameterised layout,
  `Raster.Place`, and each of these scripts is a `Style` preset of it.
- **PDF page.** y grows upwards and text is drawn from a left x of
  `(width - tw) / 2`. This covers `script-fixed.js`, `script-simple.js` and
  `script-enhanced.js` through `Pdf.Place`. `script.js` approximates the
  centring from the name's length and is modelled separately.

A composed card is the ordered list of drawing calls issued against the
surface (`Scene.Op`). Properties about draw order are stated over that list:

- the template image is drawn first and never again;
- every border strokes exactly the rectangle just filled;
- the name is drawn after its box, and no rectangle is painted after it;
- the shadow falls on the name only;
- the name is outlined where the script strokes it before filling it.

Each request handler is a function from the page's inputs to an `Outcome`:

- `Ignored`: the handler returns silently;
- `Refused(reason)`: an alert before any work starts;
- `Failed(reason)`: an error caught after work started;
- `Done(value)`: the card that was produced.

Effects that the browser or a library decides are inputs to the model:

- whether an image loaded or a fetch succeeded;
- whether drawing threw;
- the bytes read from a file and the document parsed from them;
- the widths reported by text measurement.

Modules:

| module | file | what it holds |
|---|---|---|
| `Geometry` | geometry.dfy | `Point`, `Rect`, `Measure` (a fraction of a length or a fixed value), `Surrounds` |
| `JsText` | text.dfy | `String.prototype.trim`, `includes`, `startsWith`, UTF-16 length |
| `Scene` | scene.dfy | drawing calls and the draw-order predicates; border frames; rows of circles |
| `Gating` | gating.dfy | the outcome and reason types, `validateInput`, alert selection, the image cache |
| `Raster` | raster.dfy | the canvas overlay layout and its draw order |
| `Pdf` | pdf.dfy | the PDF overlay layout; overlaying the first page of a copied document |
| `ImageCard` | image_card.dfy | the request flow shared by script-image.js and script-simple-image.js |
| one per script | script_*.dfy | the script's preset, its scratch designs, its handlers and their lemmas |

The code does not clamp the box into the surface or shrink the name to fit,
and it has no error for an invalid measurement. The lemmas state the
consequence: a box stays within the surface's width exactly when the
measured name plus both paddings fits that width (`Raster.FitsIffNameFits`,
`Pdf.FitsIffNameFits`), and the script.js stamp starts left of the page
exactly when the name is long enough (`PlaceholderScript.StampLeftOfPageIff`).
Nothing is claimed about the vertical extent: on a short enough surface the
box reaches past the top or bottom edge.

In `script-canvas.js` the name is measured while the 32 px font of the line
above it is still set, but it is drawn in bold 56 px. The model keeps the
two sizes apart and claims no containment of the drawn name.
`CanvasScript.DrawnNameInsideBoxIff` shows that, for a measurer that scales
with font size, the drawn name stays in its box only up to a 160 px
measurement.

## Model

| member | source | states |
|---|---|---|
| JsText.TrimEmptyIffBlank | script-final.js:32-34 | `trim()` gives the empty string exactly when the input is only whitespace and line terminators, which is the condition every `validateInput` tests |
| JsText.TrimIdempotent | script-image.js:72-73 | `trim()` is idempotent: a trimmed name has no leading or trailing whitespace left to strip |
| JsText.IncludesInfix | script-image.js:106 | a message built as prefix + phrase + suffix satisfies `includes(phrase)` |
| Gating.NameReady | script-final.js:168-172 | the `!name` guard after `trim()` lets a request through exactly when the raw input is not blank |
| Gating.ValidateInput | script-final.js:32-44 | the button is enabled iff the trimmed name is non-empty; enabled iff its label names the person; the label carries the trimmed, non-empty name |
| Gating.AlertFor | script-image.js:102-110 | the alert is chosen by looking for the loader's phrase in the error message; the property it serves, that the loader's own error selects the load alert, is `ImageScript.LoadErrorRecognised` and `SimpleImageScript.LoadErrorRecognised` |
| Gating.LoadCached | script-image.js:47-68 | the image cache, defined case by case; its property, that a success is kept for good, is `Gating.LoadCachedSticks` |
| Gating.LoadCachedSticks | script-image.js:49-59 | after one successful load, every later load returns that same image, whatever a fresh load would give |
| Scene.Frame | script-final.js:308-312 | the four 30 px bands lie on the surface, each one covers one edge, and none reaches into the interior |
| Scene.CircleRowWithin | script-canvas.js:209-213 | every circle of a row lies strictly between two bounds when the first and the last do |
| Raster.Place | script-simple-image.js:130-195 | font size and anchor come from the image size; the box is centred on the anchor and padded around the measured width; the subtitle sits on the anchor's vertical line at the given offset; each star sits its gap outside the box edge at the name's height |
| Raster.FitsIffNameFits | script-image.js:153-158 | nothing clamps the box: it stays inside the canvas width iff `tw + 2 * padX <= W` |
| Raster.StarsSymmetricIff | script-simple-image.js:194-195 | the stars mirror each other about the name iff their two gaps are equal |
| Raster.SubtitleClearsBoxIff | script-final.js:269-275 | on a top-down canvas the subtitle's centre is below the box's lower edge iff its offset exceeds half the font size plus the vertical padding |
| Raster.LongerNameWiderBox | script-image.js:133-158 | font size and anchor do not depend on the name, so a longer name gets a wider box holding the shorter name's box and never a smaller font (no shrink-to-fit) |
| Raster.NameOpsOrder | script-simple-image.js:144-195 | the border strokes the filled rectangle; the name is drawn after the box and no rectangle follows; the shadow, when set, falls on the name only; an outlined name is stroked and then filled at the same spot |
| Raster.Overlay | script-image.js:117-126 | the canvas has the image's size and the image is drawn first at the origin |
| Raster.OverlayOrder | script-image.js:115-186 | the image is never redrawn over the overlay; fill/stroke agreement, name over box, shadow-only-on-name and outline all survive adding the image layer |
| Pdf.CentredLeft | script-fixed.js:239 | a text started at `(width - tw) / 2` has its middle on the page's centre line |
| Pdf.Place | script-simple.js:127-185 | the name's middle is on the centre line at the style's baseline; the box pads it by `pad` left and right and `pad / 2` below and above; the subtitle is centred `drop` lower; stars flank the box or the subtitle by their gaps on its baseline |
| Pdf.FitsIffNameFits | script-simple.js:136-146 | nothing clamps the box: it stays inside the page width iff `nameWidth + 2 * pad <= width` |
| Pdf.SubtitleBelowBoxIff | script-simple.js:158-169 | with y growing upwards, the subtitle's baseline is below the box iff it drops further than the box's lower padding |
| Pdf.NameOpsOrder | script-enhanced.js:158-186 | whatever the style, the last name draw follows its box and no rectangle comes after it; a doubled name is drawn first of all |
| Pdf.OverlayFirstPage | script-simple.js:111-121 | every page is copied; pages after the first are unchanged; the first page keeps its contents and gains the name section, with the name over its box; a document without pages has no first page |
| Pdf.Personalise | script-simple.js:108-195 | personalising fails iff the template has no pages or the font cannot measure the texts; otherwise it is the first-page overlay |
| FinalScript.OverlayLayout | script-final.js:225-275 | font `0.06 * min(W, H)`; name at `(0.5 W, 0.65 H)`; box `(x - tw/2 - 25, y - fs/2 - 15, tw + 50, fs + 30)` centred on the name; subtitle `0.8 fs` lower in `0.5 fs`; no stars |
| FinalScript.OverlaySubtitleBelowName | script-final.js:269-270 | on a non-empty image the subtitle is lower on the canvas than the name |
| FinalScript.CustomizedCard | script-final.js:209-279 | image underneath; border on the filled box; outlined name over the box |
| FinalScript.ScratchLayout | script-final.js:331-363 | the 800 x 1200 scratch card's box is centred on 400, `tw + 80` wide, spanning y 510 to 590 around baseline 550; its stars are 40 before and 20 after the box, so the left one is 20 px farther from the centre |
| FinalScript.ScratchCirclesInsideFrame | script-final.js:373-379 | the seven circles at x = 100 + 100 i lie inside the card and clear of its 30 px frame |
| FinalScript.CustomDesignCard | script-final.js:282-382 | the scratch card is 800 x 1200; every border strokes its filled box; the name is over its box |
| FinalScript.Generate | script-final.js:167-206 | a blank name is refused first; the original design is used iff the image loaded and drawing over it did not throw, the scratch design otherwise; only a throw of the scratch design fails the request |
| CanvasScript.NameLayout | script-canvas.js:158-189 | the box is centred on 400, `measured + 120` wide, spanning y 460 to 540 around baseline 500; the subtitle is at (400, 580); the stars are 40 before and 20 after the box |
| CanvasScript.FlagCentred | script-canvas.js:134-146 | the flag is centred on the card, and its text area sits inside it, 20 px in at the sides and 30 px in at the top and bottom |
| CanvasScript.HeartsOffCentre | script-canvas.js:201-205 | the hearts are 200 px left and 180 px right of the centre line, not symmetric |
| CanvasScript.CanvasCard | script-canvas.js:85-225 | the card is 800 x 1200; every border strokes its filled box; the name is drawn over the box sized from the 32 px measurement |
| CanvasScript.DrawnNameInsideBoxIff | script-canvas.js:155-178 | for a measurer that scales linearly with font size, the name drawn at 56 px stays inside its box iff it measured at most 160 px; longer names spill over both edges |
| CanvasScript.Generate | script-canvas.js:46-82 | a blank name is refused; any other name yields a card, which is the HTML card iff canvas drawing threw, and carries the trimmed, non-empty name |
| ImageCard.Generate | script-image.js:71-112 | refused iff the name is blank, and then the cache is untouched; the card is made iff the image is cached or loads and drawing does not throw; a load failure gives the load alert; a drawing error's alert follows its message; a made card is image-sized with the image underneath and the name over its box |
| ImageCard.LaterCardsUseFirstImage | script-image.js:47-60 | after a card is made, later requests reuse the same image whatever a fresh load would give |
| ImageScript.LoadErrorRecognised | script-image.js:62-110 | the loader's own rejection message contains the phrase the catch block looks for, so a load failure shows the load alert |
| ImageScript.OverlayGeometry | script-image.js:133-186 | font `0.08 * min(W, H)`; name at `(0.5 W, 0.6 H)`; box padded by 20 and 10; subtitle `0.8 fs` lower in `0.4 fs`; the box fits iff `tw + 40 <= W` |
| ImageScript.Generate | script-image.js:71-112 | refused iff the name is blank; a failed load gives the load alert; a made card has the image underneath and an outlined name |
| SimpleImageScript.LoadErrorRecognised | script-simple-image.js:62-108 | the loader's rejection message contains "تحميل الصورة", so a load failure shows the load alert |
| SimpleImageScript.OverlayGeometry | script-simple-image.js:130-195 | font `0.08 * min(W, H)`; name at `(0.5 W, 0.7 H)`; box padded by 30 and 15; subtitle `0.7 fs` lower in `0.4 fs`; stars mirrored at `tw/2 + 50` from the name in `0.5 fs`; the box fits iff `tw + 60 <= W` |
| SimpleImageScript.Generate | script-simple-image.js:73-110 | refused iff the name is blank; a failed load gives the load alert; a made card has the image underneath and a shadow on the name only |
| SimpleImageScript.PreloadServesFirstRequest | script-simple-image.js:458-470 | when the preload on page open succeeds, the first request finds the image cached and makes an image-sized card |
| UploadOnceScript.OverlayGeometry | script-upload-once.js:173-233 | font `0.08 * min(W, H)`; name at `(0.5 W, 0.75 H)`; box padded by 25 and 12.5; subtitle `0.8 fs` lower in `0.4 fs`; stars mirrored at `tw/2 + 40`; the box fits iff `tw + 50 <= W` |
| UploadOnceScript.ButtonFor | script-upload-once.js:106-122 | enabled iff an image is loaded and the trimmed name is non-empty; the label is "upload first" iff there is no image, names the person iff the button is enabled, and prompts for a name otherwise |
| UploadOnceScript.ChooseFile | script-upload-once.js:60-85 | a missing file, or one whose type does not start with `image/`, is refused and changes nothing; a decoded image becomes the card image and enables the name field |
| UploadOnceScript.Type | script-upload-once.js:87-89 | a disabled name field ignores typing; the image and the visible section never change |
| UploadOnceScript.Generate | script-upload-once.js:125-153 | silent iff the name is blank or no image is loaded; fails iff drawing throws; a made card is image-sized, with the image underneath and a shadow on the name only, and is shown |
| UploadOnceScript.OnEnter | script-upload-once.js:95-99 | the Enter handler, gated on the button; that the gate never changes the outcome is `UploadOnceScript.EnterAgreesWithClick` |
| UploadOnceScript.EnterAgreesWithClick | script-upload-once.js:95-129 | the Enter guard is redundant: Enter and a click always give the same result |
| UploadOnceScript.AnotherName | script-upload-once.js:316-323 | back to name entry with an empty field and a disabled button, keeping the image |
| UploadOnceScript.Reset | script-upload-once.js:371-378 | the page returns to its initial state: no image, and the name field emptied and disabled |
| UploadOnceScript.AnotherNameReusesImage | script-upload-once.js:316-323 | after "another name" and a non-blank name, the next card is made from the same image without a new upload |
| UploadOnceScript.ResetNeedsNewUpload | script-upload-once.js:371-378 | after a reset no amount of typing enables the button or produces a card |
| DirectScript.AddNameToCard | script-direct.js:98-153 | the card is the image, then the box filled and stroked at `(x - tw/2 - 20, y - fs/2 - 10, tw + 40, fs + 20)`, then the name at `(0.5 W, 0.72 H)` in `0.07 * min(W, H)`; the box is centred on the name; no subtitle and no stars |
| DirectScript.Generate | script-direct.js:64-95 | silent iff the name is blank; fails iff the card image is not loaded or drawing throws, with the load alert for a missing image; otherwise the card is drawn |
| DirectScript.OnEnter | script-direct.js:39-43 | the Enter handler, gated on the button; how it relates to a click is `DirectScript.EnterAgreesWithClick` |
| DirectScript.EnterAgreesWithClick | script-direct.js:37-61 | with the button as `validateInput` leaves it, Enter and a click agree; if `resetApp` leaves the button enabled over a blank field, Enter still does nothing |
| FixedScript.NameGeometry | script-fixed.js:235-288 | on the 595 x 842 page the name's baseline is at 422; the box is centred, `nameWidth + 60` wide, and spans 15 below to 57 above the baseline; the subtitle is 60 lower and below the box; the stars are at `x - 60` and `x + nameWidth + 40`; the box fits iff `nameWidth <= 535` |
| FixedScript.OpacitiesFall | script-fixed.js:109-119 | the strip opacities `0.1 - 0.005 i` fall strictly and stay in [0.005, 0.1] |
| FixedScript.Strips | script-fixed.js:108-119 | strip i is page-wide, 42 high, starts `42 i` below the top edge and has opacity `0.1 - 0.005 i` |
| FixedScript.StripsPlacement | script-fixed.js:109-119 | strip 0 lies wholly above the page; strips 1 to 19 lie on the page and none reaches the lowest 44 points |
| FixedScript.Borders | script-fixed.js:121-154 | four filled 20-point bands, each on the page |
| FixedScript.TextsCentred | script-fixed.js:156-314 | title, year, greeting, patriotic and closing lines each have their middle on the page's centre line |
| FixedScript.DecorationsFlankTexts | script-fixed.js:182-330 | the title stars start 40 before and 20 after the title; the hearts start 30 before and 15 after the closing line |
| FixedScript.DecorationsInsidePage | script-fixed.js:198-341 | the flag is centred on the page with its white band inside it; every circle lies between the side borders and clear of the bottom band |
| FixedScript.ClosingPaintsNoRect | script-fixed.js:290-341 | nothing drawn after the name section paints a rectangle |
| FixedScript.NationalDayCard | script-fixed.js:89-346 | a 595 x 842 page whose first twenty calls are the background strips and whose name ends up over its box |
| FixedScript.Generate | script-fixed.js:46-86 | refused iff the name is blank; fails iff the font cannot measure or encode the texts; otherwise the national-day page |
| SimpleScript.NameGeometry | script-simple.js:127-185 | baseline at `0.25 * height`; box `(x - 25, y - 12.5, nameWidth + 50, 57)` centred on the page; subtitle centred 45 lower and below the box; stars 25 before and 15 after the subtitle on its baseline; the box fits iff `nameWidth + 50 <= width` |
| SimpleScript.Generate | script-simple.js:47-90 | refused iff the name is blank; a failed fetch is a load failure; the card is made iff the template is fetched and parsed, has a page, and the texts can be measured; then every page is kept, and the first page has the name over its box |
| EnhancedScript.NameGeometry | script-enhanced.js:150-200 | baseline at `0.3 * height`; box `(x - 20, y - 10, nameWidth + 40, 48)` centred on the page; subtitle centred 40 lower and below the box; the box fits iff `nameWidth + 40 <= width` |
| EnhancedScript.DrawOrder | script-enhanced.js:157-200 | the name is drawn, then the framed box over it, then the name again and then the subtitle, so the visible name is over the box |
| EnhancedScript.Upload | script-enhanced.js:37-77 | no file does nothing; a type other than `application/pdf` is refused and changes nothing; a read failure changes nothing; a parse failure keeps the new bytes and the previous document; otherwise both are replaced |
| EnhancedScript.Generate | script-enhanced.js:86-125 | refused iff the name is blank or no document is loaded, with the name checked first; otherwise the loaded document is personalised on its first page |
| EnhancedScript.FailedParseKeepsEarlierDocument | script-enhanced.js:49-54 | taken on its own, the upload handler leaves the earlier document in use for the next card when a later upload does not parse (the page hides the upload section after a good upload, so this sequence may be unreachable) |
| PlaceholderScript.StampAt | script.js:162-166 | the name is stamped at half the page height, with its start 8 units left of the centre per UTF-16 code unit of the name |
| PlaceholderScript.StampLeftOfPageIff | script.js:163 | nothing clamps the stamp: it starts left of the page iff `8 * length > width / 2` |
| PlaceholderScript.StampCentredIff | script.js:163 | the stamp is centred only for a name whose rendered width is exactly 16 units per code unit |
| PlaceholderScript.StampAll | script.js:151-169 | every page keeps its size and contents and gains the name, in 24 pt, at its own stamp position |
| PlaceholderScript.ExtractText | script.js:71-92 | the text search returns the placeholder whatever the document, even one it cannot parse |
| PlaceholderScript.PlaceholderCheckNeverRejects | script.js:51-56 | so the placeholder check in the upload handler never rejects a file |
| PlaceholderScript.Upload | script.js:35-68 | no file does nothing; a type other than `application/pdf` is refused; a read failure changes nothing; every PDF that can be read is accepted and its bytes are kept |
| PlaceholderScript.Generate | script.js:101-140 | refused iff the name is blank or no bytes were uploaded, with the name checked first; fails iff the bytes do not parse, or the document has a page and the font cannot encode the name; otherwise every page is stamped with the trimmed name |
| PlaceholderScript.EmptyDocumentSucceeds | script.js:146-169 | a document without pages never reaches `drawText`, so the request succeeds with no pages whether or not the font can encode the name |
| PlaceholderScript.EveryPageStamped | script.js:151-169 | on a successful request, every page's last call is the name at that page's stamp position, after all of its earlier contents |

## Left out

- DOM and UI wiring is not modelled: toasts, success banners, the loading spinner, zoom, colours, gradients and line widths. It is presentation only. Draw order is kept, because it decides what is visible.
- Download, print and share are not modelled: data URLs, `window.open`, `navigator.share` and the social popups are browser I/O.
- Loading is an input, not a model: `fetch`, `FileReader`, `Image.onload` and the candidate file-name loop in script-final.js. Each load becomes an `Option` or a flag for its outcome. In script-final.js, an uploaded file that never decodes leaves the loader's promise pending; the model has no pending state.
- Text measurement is an input: `measureText` and `widthOfTextAtSize` are foreign calls, so widths are parameters of at least 0. Whether the PDF library's Helvetica can measure or encode Arabic and emoji is not known here, so the model takes it as an input. When it cannot, the library throws and the request fails.
- PDF document construction is not modelled: `PDFDocument.create`, `load`, `copyPages` and `save` are library internals. A parsed document is a sequence of pages, each holding its size and drawing calls. pdf-lib's `drawCircle` `size` is taken to be the radius.
- Coordinates are `real`, so IEEE-754 rounding is not modelled.
- Promise wrappers are not modelled, because they wrap synchronous drawing.
- In script-upload-once.js, `cardImage` is declared but `uploadedImage` is read and written, which raises a reference error at first use. The model stores the image in the session and does not model the error.
- Shrink-to-fit, clamping the box into the surface and errors for invalid measurements are absent, because no script implements them.
- The HTML fallback card of script-canvas.js is modelled only as carrying the name, because its content is markup.
- The upload-option panel of script-final.js is modelled only through the loaded-image input, because it only supplies the image.
- CanvasScript.DrawnNameInsideBoxIff: relies on a measurer that scales linearly with font size, so the name drawn at 56 px is taken to be `measured * 56 / 32` wide; the script computes no such width. A real measurer is a foreign call, so the lemma holds only under that assumption.
