# Geolocalizer: adaptive OCR tiler and text-corpus assembly, in Dafny

This project models the two algorithmic parts of the Geolocalizer, which reads
address text off a raster map and looks up where the map is.

- **The adaptive tiler** (`util/image_processor.py`, modules `ImageProcessor`
  and `CorrectedTiling`). The OCR service accepts only images below a size
  budget. The tiler checks the image's encoded size against
  `max_size_megabytes * 1024 * 1024`. A small enough image goes straight to
  the service. A larger one is cut into two overlapping tiles along its longer
  side. Each tile goes through the same procedure. The two answers are then
  merged: the texts are joined with a space, and every block, paragraph, word
  and symbol box of the second answer is translated by the tile offset.
- **The corpus assembly** (`geolocalizer.py`, module `Geolocalization`). It
  takes the first page of an OCR answer and keeps the paragraphs with
  confidence at least 0.9. It joins their symbols, adding a space at each
  detected break. It replaces every run of characters other than ASCII
  letters and digits with one space. It then sends the text to the entity
  extractor, keeps the ADDRESS and LOCATION names, and geocodes them into
  candidate locations.

Supporting modules:

- `Vision` (`vision.dfy`) holds the OCR annotation tree,
  Page → Block → Paragraph → Word → Symbol. It also holds the translation of
  all its boxes, with the composition, identity and inverse laws.
- `Sequences` holds the ordered concatenation that the accumulating loops
  build.
- `Wrappers` holds `Option` and `Result`. Each raised exception is a
  `Failure`.

The code is modelled in the same form it has in the source:

- The in-place vertex update of `_add_offset` is a method on an array.
- The four nested loops of the merge are one loop method per tree level.
- The annotation that `_merge_responses` overwrites and appends to is a class.
- The accumulating loops of `geolocalizer.py` are methods.
- Each method is proved equal to a specification function, and the lemmas
  state what those functions mean.
- The recursion and the crop arithmetic are functions.

External collaborators are parameters:

- An image is the crop box it occupies in the downloaded original.
- The encoded file size (`Services.fileSize`) and the OCR service's answer
  (`Services.ocr`) are functions of that box.
- The OCR call on a URI, the entity extractor and the geocoder are function
  fields of `Geolocalizer`.
- Download is a function from the URI to the image's width and height.

Behaviour of the code that the model keeps as written:

- The code never checks the overlap fraction.
- The tiler never inspects a leaf's error code. A leaf's reply, error code
  included, is returned unchanged, and a merge keeps only the annotations.
- The vertical merge passes the bottom answer first.
- The merge mutates its arguments rather than building a new response.

## Model

| member | source | states |
|---|---|---|
| `ImageProcessor.TruncationBounds` | util/image_processor.py:145-146 | Python's `int()` on a float is truncation: for a non-negative value, the greatest integer not above it; for a negative value, the least integer not below it |
| `ImageProcessor.HalvesBounds` | util/image_processor.py:143-146 | for a side of length n >= 0 and 0 <= overlap <= 1, the second tile starts at floor(n(1-o)/2) and the first ends at floor(n(1+o)/2); start <= end <= n, and the shared band is wider than n·o − 1 |
| `ImageProcessor.DivideImageLeftAndRight` | util/image_processor.py:130-161 | for 0 <= overlap <= 1: right_x = floor(w(1-o)/2) <= left_x = floor(w(1+o)/2) <= w; the left tile spans [0, left_x] and the right tile [right_x, w], so they cover the image and share a band wider than w·o − 1; both keep the full height; the offset is right_x |
| `ImageProcessor.DivideImageTopAndBottom` | util/image_processor.py:164-196 | the same for the height: bottom_y = floor(h(1-o)/2) <= top_y = floor(h(1+o)/2) <= h, the tiles cover [0, h] and share a band wider than h·o − 1, the offset is bottom_y, and both keep the full width |
| `ImageProcessor.RightTileShrinksIff` | util/image_processor.py:143-150 | the right tile is narrower than its parent if and only if w·(1 − overlap) >= 2; otherwise it is the parent itself |
| `ImageProcessor.AddOffset` | util/image_processor.py:199-211 | in place, every vertex of the box gets x + offset and the same y (HORIZONTAL), or the same x and y + offset (VERTICAL); the vertex count is unchanged |
| `ImageProcessor.OffsetWord` | util/image_processor.py:245-248 | the loop over a word's symbols and then the word itself yields the word with every symbol box and its own box translated along the axis |
| `ImageProcessor.OffsetParagraph` | util/image_processor.py:244-249 | the same for a paragraph, its words and its own box; its confidence is kept |
| `ImageProcessor.OffsetBlock` | util/image_processor.py:243-250 | the same for a block, its paragraphs and its own box |
| `ImageProcessor.OffsetPage` | util/image_processor.py:242-250 | every block of the page is translated; the page's own fields are untouched |
| `ImageProcessor.MergeDocumentsLayout` | util/image_processor.py:226-251 | the merged text is exactly text1 + " " + text2; the first answer's pages come first and are unchanged; then come the second's pages in order, each with its width, height and block count; the displacement is the offset along the axis and 0 along the other coordinate |
| `ImageProcessor.MergedBlockLayout` | util/image_processor.py:243-250 | every block of the second answer, with or without paragraphs, keeps its paragraph count and has every vertex of its own box moved by the displacement |
| `ImageProcessor.MergedParagraphLayout` | util/image_processor.py:244-249 | every paragraph keeps its word count and its confidence and has every vertex of its box moved |
| `ImageProcessor.MergedWordLayout` | util/image_processor.py:245-248 | every word keeps its symbol count and has every vertex of its box moved |
| `ImageProcessor.MergedSymbolLayout` | util/image_processor.py:246-247 | every symbol keeps its text and break type and has every vertex of its box moved |
| `ImageProcessor.MergeWithZeroOffset` | util/image_processor.py:237-251 | merging with offset 0 appends the second answer's pages unchanged |
| `ImageProcessor.MergeResponses` | util/image_processor.py:214-252 | the first annotation's text is overwritten with the joined text and becomes the merged result; the second answer's pages are translated in place and appended, in order; nothing else changes |
| `ImageProcessor.CallVisionApiHelper` | util/image_processor.py:74-127 | the recursion fails only by exceeding the depth bound |
| `ImageProcessor.CallVisionApi` | util/image_processor.py:53-71 | the call fails with a missing-URI error if and only if the URI is empty, before any other work |
| `ImageProcessor.LeafCase` | util/image_processor.py:91-100 | below the budget: one service call, whose reply is returned unchanged; no cut and no merge |
| `ImageProcessor.SplitCase` | util/image_processor.py:102-127 | at or above the budget: left/right when width >= height, top/bottom otherwise; the children get `max_size_bytes` in the megabytes slot; the result exists iff both children do, and it is their merge along the cut's axis, with the bottom answer first for a top/bottom cut |
| `ImageProcessor.AsWrittenCutsAtMostOnce` | util/image_processor.py:92-127 | because the child budget is scaled by 1024² again, a budget of M >= 1 megabytes with every size below M·1024⁴ bytes gives exactly one cut, two service calls and one merge |
| `ImageProcessor.NonPositiveBudgetNeverFits` | util/image_processor.py:92-127 | with a budget of 0 megabytes or fewer, no tile ever fits, so the recursion never ends at any depth |
| `CorrectedTiling.TileAndMerge` | util/image_processor.py:74-127 | the corrected recursion, with one byte budget at every depth and the top answer first; it fails only by exceeding the depth bound |
| `CorrectedTiling.Leaves` | util/image_processor.py:97-127 | the tiles that reach the service, in answer order; there is always at least one |
| `CorrectedTiling.LeafReference` | util/image_processor.py:97-100 | a single leaf's reference annotation is its own reply's annotation |
| `CorrectedTiling.MergeOfReferences` | util/image_processor.py:226-251 | merging the two tiles' reference annotations, with the second translated by the cut offset, gives the parent's reference |
| `CorrectedTiling.TileAndMergeMatchesReference` | util/image_processor.py:102-127 | the corrected tiler succeeds iff its leaves fit the depth bound; its text is the leaves' texts joined by spaces in order, and every leaf's boxes are translated exactly once, by that leaf's total offset from the root |
| `CorrectedTiling.ReferenceStep` | util/image_processor.py:102-127 | one cut preserves that property: if both tiles' answers match their references, so does the merged answer of the parent |
| `CorrectedTiling.LeavesWithinBudget` | util/image_processor.py:92-100 | every tile the corrected tiler sends to the service is strictly below the byte budget |
| `CorrectedTiling.LeavesInside` | util/image_processor.py:143-150 | for 0 <= overlap <= 1, every tile sent to the service lies inside the original image |
| `CorrectedTiling.NarrowImageNeverFits` | util/image_processor.py:102-114 | in the corrected tiler, an image at least as wide as it is high with width·(1 − overlap) < 2 that does not fit (with overlap 1, every such image) is cut into a right tile equal to itself, so the recursion fails at every depth bound |
| `CorrectedTiling.OverBudgetTileExample` | util/image_processor.py:106-110 | an 8×4-pixel, 40 MiB image with a 20 MB budget: as written, both 25 MiB tiles are sent to the service |
| `CorrectedTiling.VerticalMergeExample` | util/image_processor.py:120-126 | a 4×8-pixel image cut at y = 3: as written, the text reads "bottom top" and each tile's word is placed at the other tile's position; the corrected tiler gives the reference |
| `Vision.TranslateCompose` | util/image_processor.py:207-211 | translating by (a, b) and then by (c, d) equals translating once by (a + c, b + d), at every level of the tree |
| `Vision.TranslateZero` | util/image_processor.py:207-211 | translating by (0, 0) is the identity |
| `Vision.TranslateInverse` | util/image_processor.py:207-211 | a translation is undone by the opposite one, so nothing but position changes |
| `Geolocalization.NewGeolocalizer` | geolocalizer.py:33-38 | construction fails with a missing-key error if and only if the API key is empty |
| `Geolocalization.DetectTexts` | geolocalizer.py:40-52 | empty URI: missing-URI error; non-zero service error code: service error; no pages: no page; otherwise exactly the first page |
| `Geolocalization.CombineSymbols` | geolocalizer.py:64-69 | a word's text is its symbols' texts in order, each followed by one space exactly when its break type is non-zero |
| `Geolocalization.CombineWords` | geolocalizer.py:60-70 | a paragraph with confidence below 0.9 adds nothing; otherwise its words' texts are added in order |
| `Geolocalization.CombineParagraphs` | geolocalizer.py:60-70 | the loop over a block's paragraphs builds the block's share of the corpus: the confident paragraphs' texts, in order |
| `Geolocalization.CombineTexts` | geolocalizer.py:58-70 | the nested loops build the page's raw corpus, block by block and paragraph by paragraph |
| `Geolocalization.CorpusIsKeptSymbols` | geolocalizer.py:58-70 | the raw corpus is the text of exactly the symbols of confident paragraphs, in block/paragraph/word/symbol order |
| `Geolocalization.UnconfidentParagraphIgnored` | geolocalizer.py:61-62 | removing a paragraph with confidence below the threshold leaves the corpus unchanged |
| `Geolocalization.UnconfidentParagraphAddsNothing` | geolocalizer.py:60-62 | within one block, removing a paragraph with confidence below the threshold leaves the block's text unchanged |
| `Geolocalization.CorpusIgnoresGeometry` | util/image_processor.py:242-250 | relates two parts the source does not connect (geolocalizer.py calls the OCR service on the URI directly, lines 44-46): translating a page's boxes, as the tiler's merge does, leaves the corpus built from that page unchanged |
| `Geolocalization.Normalize` | geolocalizer.py:73 | the cleaned text holds only ASCII letters, digits and spaces; no two spaces are adjacent; it is empty iff the input is; it starts with the input's first character, or with a space for a run |
| `Geolocalization.NormalizeKeepsAlphanumerics` | geolocalizer.py:73 | cleaning keeps every ASCII letter and digit in order and adds none |
| `Geolocalization.NormalFormIsFixed` | geolocalizer.py:73 | a text already made of letters, digits and single spaces is left as it is |
| `Geolocalization.NormalizeIdempotent` | geolocalizer.py:73 | cleaning twice is the same as cleaning once |
| `Geolocalization.NormalizeSeparatorRun` | geolocalizer.py:73 | a run of separators between a text ending in a letter or digit (or empty) and one starting with a letter or digit (or empty) becomes exactly one space in the same place, each side cleaned on its own, so "Main-Street" reaches the extractor as two words |
| `Geolocalization.NormalizeKeepsWord` | geolocalizer.py:73 | a prefix of letters and digits passes through cleaning unchanged and in place |
| `Geolocalization.Places` | geolocalizer.py:84-85 | the kept entities are exactly those typed ADDRESS or LOCATION |
| `Geolocalization.AddressesArePlaces` | geolocalizer.py:83-87 | the query is the in-order concatenation of `name + ' '` over exactly the ADDRESS and LOCATION entities |
| `Geolocalization.AddressesEmptyIff` | geolocalizer.py:83-87 | the query is empty if and only if there is no ADDRESS or LOCATION entity |
| `Geolocalization.AnalyzeEntities` | geolocalizer.py:79-87 | the entity loop builds that query from the extractor's answer for the text |
| `Geolocalization.TextBlob` | geolocalizer.py:54-77 | there is no result if and only if there is no page or the raw corpus is empty; otherwise the result is the query built from the cleaned corpus |
| `Geolocalization.ProcessAndCombineTexts` | geolocalizer.py:54-77 | the method computes that result |
| `Geolocalization.Locations` | geolocalizer.py:96-98 | one candidate per result, in the same order: the result's `geometry.location` |
| `Geolocalization.Candidates` | geolocalizer.py:89-99 | there are candidates if and only if the query is present and non-empty and the geocoder returns at least one result |
| `Geolocalization.Geocode` | geolocalizer.py:89-99 | the loop builds those candidates |
| `Geolocalization.Geolocalize` | geolocalizer.py:101-106 | a detection error is raised; otherwise the result is the text blob and its candidates, from the three stages in sequence |
| `Geolocalization.CandidatesNeedPlaces` | geolocalizer.py:101-106 | candidates come only from a page whose cleaned corpus yields at least one ADDRESS or LOCATION entity |

## Left out

- The cloud clients are not modelled. These are the OCR call, the storage
  download, the entity extractor and the geocoder. Each is a function
  parameter, so the model says nothing about their timeouts, retries or
  failures other than the OCR error code.
- File handling is not modelled: temporary directories, `open`/`read`,
  `os.path.getsize`, `os.remove`, the `uuid` tile names and PIL's
  `open`/`crop`/`save`. An image is reduced to its crop box. Its encoded
  size and the OCR answer are functions of that box, and only the crop-box
  arithmetic is modelled. PIL's behaviour for a crop box outside the image
  (an overlap outside [0, 1]) is not modelled.
- Floating point is not modelled. The overlap and the paragraph confidence
  are exact reals. IEEE rounding is not modelled, and neither is the float32
  storage of the confidence, which puts a stored 0.9 slightly below the
  threshold.
- `CallVisionApiHelper`: the source has no depth bound, and Python's
  recursion limit is what stops it. The model takes a `fuel` argument and
  fails with `DepthExceeded` when it runs out.
- `CallVisionApiHelper`: `_merge_responses` returns a dictionary, so in the
  source a second-level merge fails on attribute access. The model reads the
  annotation from either kind of answer (`Response.FullTextAnnotation`) and
  does not reproduce that crash. As written, with a budget of M >= 1
  megabytes, a second cut needs a tile of at least M·1024⁴ bytes
  (`AsWrittenCutsAtMostOnce`).
- `MergeResponses`: the pages of the second response are rebuilt as values
  and written back; only the vertex arrays are updated in place, through
  `AddOffset`. Appending to a repeated message field copies the page, so the
  merged response shares no page with the second one, as in the model.
- Tile sizes: the encoded size is a function of the crop box alone. The
  source re-saves every tile as a JPEG (util/image_processor.py:155-159),
  so a re-encoded tile has a size of its own. The model assumes a tile
  equal to its parent is exactly as large (`NarrowImageNeverFits`).
- Concurrency is not modelled. The source is sequential.
- `NewGeolocalizer`: the contract does not say which clients the result
  holds, because function values have no equality. The client construction
  itself is not modelled.
- `DetectTexts`: the message text of the raised exceptions is not modelled.
- An absent URI or API key (`None`) is the empty string, since `not x`
  treats them the same. The query is an `Option`; `_geocode` treats its
  `None` and the empty string alike.
- The `texts` page is an `Option`. A raw protobuf message is always truthy,
  so `not texts` holds only for `None`.
- `main.py` is not part of this model. It parses the Flask request, reads an
  environment variable and serialises JSON.

## Findings

| source | as written | input that shows it | evidently intended | confidence | as-written member | corrected member |
|---|---|---|---|---|---|---|
| util/image_processor.py:106-110 | the recursive calls pass `max_size_bytes` into the `max_size_megabytes` parameter, so each level multiplies the budget by 1024² again | an 8×4-pixel image of 40 MiB, budget 20 MB, overlap 0.25, tiles of 25 MiB: both tiles go to the service although they exceed the 20 MB limit | each tile is checked against the same byte budget, and only tiles below it reach the service | high, not executed | `CorrectedTiling.OverBudgetTileExample` | `CorrectedTiling.LeavesWithinBudget` |
| util/image_processor.py:125 | the top/bottom merge passes the bottom answer first, so the offset `bottom_y` is added to the top tile's coordinates and the text reads bottom then top | a 4×8-pixel image, overlap 0.25, cut at y = 3, each tile's word at local y = 1: "top" is reported at y = 4 and "bottom" at y = 1, text "bottom top" | the top answer first and the bottom one translated by `bottom_y`, as the left/right merge does, so every box is in the original image's coordinates | high, not executed | `CorrectedTiling.VerticalMergeExample` | `CorrectedTiling.TileAndMergeMatchesReference` |
