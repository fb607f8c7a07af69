/**
 * The adaptive tiler of util/image_processor.py, as written: an image whose
 * encoded size is at or above the budget is cut into two overlapping tiles
 * along its longer side, each tile is sent through the same procedure, and
 * the two answers are merged by concatenating their texts and translating
 * the second answer's bounding boxes by the tile offset.
 *
 * Pixels, files and the OCR service are not modelled: an image is the crop
 * box it occupies in the downloaded original, and its encoded size and the
 * service's answer are functions of that box (see `Services`).
 */
module ImageProcessor {
  import opened Wrappers
  import opened Vision

  /** The coordinate that a merge translates: y for a top/bottom cut, x for a left/right cut. */
  datatype Axis = Vertical | Horizontal

  /** An image as the crop box it occupies in the original, in the original's pixel frame. */
  datatype Image = Image(x: int, y: int, width: int, height: int)

  /** The two tiles of a cut and the offset of the second within the parent. */
  datatype Split = Split(first: Image, second: Image, offset: int)

  /** The encoded size of an image, in bytes, and the OCR service's answer for it. */
  datatype Services = Services(fileSize: Image -> int, ocr: Image -> Reply)

  /** What the recursion can fail with: no URI, or more nested cuts than the model allows. */
  datatype TilerError = MissingUri | DepthExceeded

  /**
   * A tiler answer: either the service's own reply for a leaf tile, or the
   * bare annotation that a merge returns (a dictionary holding only
   * `full_text_annotation`, with no error field).
   */
  datatype Response = Served(reply: Reply) | Merged(annotation: Document) {
    function FullTextAnnotation(): Document
    {
      if Served? then reply.document else annotation
    }
  }

  /** Python's `int()` on a float: truncation toward zero. */
  function TruncateToInt(r: real): int
  {
    if r >= 0.0 then r.Floor else -((-r).Floor)
  }

  /** Truncation: the greatest integer not above a non-negative value, the least not below a negative one. */
  lemma TruncationBounds(r: real)
    ensures 0.0 <= r ==> TruncateToInt(r) as real <= r < TruncateToInt(r) as real + 1.0
    ensures r < 0.0 ==> TruncateToInt(r) as real - 1.0 < r <= TruncateToInt(r) as real
  {
  }

  /** Where the first tile ends along a side of length n: int((n + n * overlap) / 2). */
  function FirstTileEnd(n: int, overlap: real): int
  {
    TruncateToInt((n as real + n as real * overlap) / 2.0)
  }

  /** Where the second tile starts, which is also the merge offset: int((n - n * overlap) / 2). */
  function SecondTileStart(n: int, overlap: real): int
  {
    TruncateToInt((n as real - n as real * overlap) / 2.0)
  }

  // The two cuts. Crop boxes are (left, upper, right, lower) in the parent's
  // frame; the tile they produce is placed at the box's corner.

  /**
   * The left/right cut. For 0 <= overlap <= 1: 0 <= right_x <= left_x <= width,
   * the left tile spans [0, left_x] and the right tile [right_x, width] of the
   * parent, so together they cover it and share a band wider than
   * width * overlap - 1; both keep the full height, and the offset is right_x.
   */
  function DivideImageLeftAndRight(img: Image, overlap: real): (s: Split)
    ensures 0 <= img.width && 0.0 <= overlap <= 1.0 ==>
            && s.offset == LowerCut(img.width, overlap)
            && s.first.width == UpperCut(img.width, overlap)
            && 0 <= s.offset <= s.first.width <= img.width
            && s.first.x == img.x && s.second.x == img.x + s.offset
            && s.second.x + s.second.width == img.x + img.width
            && (s.first.width - s.offset) as real > img.width as real * overlap - 1.0
            && s.first.y == s.second.y == img.y
            && s.first.height == s.second.height == img.height
  {
    var leftX := FirstTileEnd(img.width, overlap);
    var rightX := SecondTileStart(img.width, overlap);
    var cut := Split(Image(img.x, img.y, leftX, img.height),
                     Image(img.x + rightX, img.y, img.width - rightX, img.height),
                     rightX);
    if 0 <= img.width && 0.0 <= overlap <= 1.0 then HalvesBounds(img.width, overlap); cut else cut
  }

  /** The top/bottom cut: the same bounds along the height, with the full width kept. */
  function DivideImageTopAndBottom(img: Image, overlap: real): (s: Split)
    ensures 0 <= img.height && 0.0 <= overlap <= 1.0 ==>
            && s.offset == LowerCut(img.height, overlap)
            && s.first.height == UpperCut(img.height, overlap)
            && 0 <= s.offset <= s.first.height <= img.height
            && s.first.y == img.y && s.second.y == img.y + s.offset
            && s.second.y + s.second.height == img.y + img.height
            && (s.first.height - s.offset) as real > img.height as real * overlap - 1.0
            && s.first.x == s.second.x == img.x
            && s.first.width == s.second.width == img.width
  {
    var topY := FirstTileEnd(img.height, overlap);
    var bottomY := SecondTileStart(img.height, overlap);
    var cut := Split(Image(img.x, img.y, img.width, topY),
                     Image(img.x, img.y + bottomY, img.width, img.height - bottomY),
                     bottomY);
    if 0 <= img.height && 0.0 <= overlap <= 1.0 then HalvesBounds(img.height, overlap); cut else cut
  }

  /** The near edge of the far tile: floor(n * (1 - overlap) / 2). */
  function LowerCut(n: int, overlap: real): int
  {
    (n as real * (1.0 - overlap) / 2.0).Floor
  }

  /** The far edge of the near tile: floor(n * (1 + overlap) / 2). */
  function UpperCut(n: int, overlap: real): int
  {
    (n as real * (1.0 + overlap) / 2.0).Floor
  }

  /** Bounds on an overlapping halving, shared by both cuts. */
  lemma HalvesBounds(n: int, overlap: real)
    requires 0 <= n && 0.0 <= overlap <= 1.0
    ensures var lo, hi := SecondTileStart(n, overlap), FirstTileEnd(n, overlap);
            && lo == LowerCut(n, overlap)
            && hi == UpperCut(n, overlap)
            && 0 <= lo <= hi <= n
            && (hi - lo) as real > n as real * overlap - 1.0
  {
    var w := n as real;
    assert 0.0 <= w * overlap <= w by {
      assert w * (1.0 - overlap) >= 0.0;
    }
  }

  /**
   * The right tile is narrower than its parent exactly when
   * width * (1 - overlap) >= 2; otherwise it is the parent itself, and a
   * parent that does not fit the budget is cut again into itself.
   */
  lemma RightTileShrinksIff(img: Image, overlap: real)
    requires 0 <= img.width && 0.0 <= overlap <= 1.0
    ensures var s := DivideImageLeftAndRight(img, overlap);
            && (s.second.width < img.width <==> img.width as real * (1.0 - overlap) >= 2.0)
            && (s.second.width >= img.width ==> s.second == img)
  {
    HalvesBounds(img.width, overlap);
  }

  /** The cut axis: left/right when the image is at least as wide as it is high. */
  function SplitAxis(img: Image): Axis
  {
    if img.width >= img.height then Horizontal else Vertical
  }

  function OffsetX(offset: int, axis: Axis): int { if axis == Horizontal then offset else 0 }
  function OffsetY(offset: int, axis: Axis): int { if axis == Vertical then offset else 0 }

  /** Pages translated by `offset` along `axis`. */
  function ShiftPages(ps: seq<Page>, offset: int, axis: Axis): seq<Page>
  {
    TranslatePages(ps, OffsetX(offset, axis), OffsetY(offset, axis))
  }

  /** Adds the offset, in place, to the x (HORIZONTAL) or y (VERTICAL) of every vertex of one box. */
  method AddOffset(offset: int, vertices: array<Vertex>, axis: Axis)
    modifies vertices
    ensures forall i :: 0 <= i < vertices.Length ==>
      if axis == Horizontal then vertices[i] == Vertex(old(vertices[i].x) + offset, old(vertices[i].y))
      else vertices[i] == Vertex(old(vertices[i].x), old(vertices[i].y) + offset)
    ensures vertices[..] == TranslateBox(old(vertices[..]), OffsetX(offset, axis), OffsetY(offset, axis))
  {
    var i := 0;
    while i < vertices.Length
      invariant 0 <= i <= vertices.Length
      invariant forall k :: 0 <= k < i ==>
        vertices[k] == TranslateVertex(old(vertices[k]), OffsetX(offset, axis), OffsetY(offset, axis))
      invariant forall k :: i <= k < vertices.Length ==> vertices[k] == old(vertices[k])
    {
      var v := vertices[i];
      if axis == Horizontal {
        vertices[i] := v.(x := v.x + offset);
      }
      if axis == Vertical {
        vertices[i] := v.(y := v.y + offset);
      }
      i := i + 1;
    }
  }

  /** One element's box, offset through `AddOffset` on a buffer holding its vertices. */
  method OffsetBox(offset: int, box: BoundingBox, axis: Axis) returns (shifted: BoundingBox)
    ensures shifted == TranslateBox(box, OffsetX(offset, axis), OffsetY(offset, axis))
  {
    var vertices := new Vertex[|box|](i requires 0 <= i < |box| => box[i]);
    assert vertices[..] == box;
    AddOffset(offset, vertices, axis);
    shifted := vertices[..];
  }

  // The four nested loops of the merge, one level per method: each element's
  // children are offset first, then the element's own box.

  method OffsetWord(offset: int, word: Word, axis: Axis) returns (shifted: Word)
    ensures shifted == TranslateWord(word, OffsetX(offset, axis), OffsetY(offset, axis))
  {
    ghost var dx, dy := OffsetX(offset, axis), OffsetY(offset, axis);
    var symbols: seq<Symbol> := [];
    var i := 0;
    while i < |word.symbols|
      invariant 0 <= i <= |word.symbols| && |symbols| == i
      invariant forall k :: 0 <= k < i ==> symbols[k] == TranslateSymbol(word.symbols[k], dx, dy)
    {
      var box := OffsetBox(offset, word.symbols[i].box, axis);
      symbols := symbols + [word.symbols[i].(box := box)];
      i := i + 1;
    }
    var box := OffsetBox(offset, word.box, axis);
    shifted := Word(symbols, box);
  }

  method OffsetParagraph(offset: int, paragraph: Paragraph, axis: Axis) returns (shifted: Paragraph)
    ensures shifted == TranslateParagraph(paragraph, OffsetX(offset, axis), OffsetY(offset, axis))
  {
    ghost var dx, dy := OffsetX(offset, axis), OffsetY(offset, axis);
    var words: seq<Word> := [];
    var i := 0;
    while i < |paragraph.words|
      invariant 0 <= i <= |paragraph.words| && |words| == i
      invariant forall k :: 0 <= k < i ==> words[k] == TranslateWord(paragraph.words[k], dx, dy)
    {
      var word := OffsetWord(offset, paragraph.words[i], axis);
      words := words + [word];
      i := i + 1;
    }
    var box := OffsetBox(offset, paragraph.box, axis);
    shifted := paragraph.(words := words, box := box);
  }

  method OffsetBlock(offset: int, block: Block, axis: Axis) returns (shifted: Block)
    ensures shifted == TranslateBlock(block, OffsetX(offset, axis), OffsetY(offset, axis))
  {
    ghost var dx, dy := OffsetX(offset, axis), OffsetY(offset, axis);
    var paragraphs: seq<Paragraph> := [];
    var i := 0;
    while i < |block.paragraphs|
      invariant 0 <= i <= |block.paragraphs| && |paragraphs| == i
      invariant forall k :: 0 <= k < i ==> paragraphs[k] == TranslateParagraph(block.paragraphs[k], dx, dy)
    {
      var paragraph := OffsetParagraph(offset, block.paragraphs[i], axis);
      paragraphs := paragraphs + [paragraph];
      i := i + 1;
    }
    var box := OffsetBox(offset, block.box, axis);
    shifted := Block(paragraphs, box);
  }

  /** A page's blocks are offset; the page itself has no box to offset. */
  method OffsetPage(offset: int, page: Page, axis: Axis) returns (shifted: Page)
    ensures shifted == TranslatePage(page, OffsetX(offset, axis), OffsetY(offset, axis))
  {
    ghost var dx, dy := OffsetX(offset, axis), OffsetY(offset, axis);
    var blocks: seq<Block> := [];
    var i := 0;
    while i < |page.blocks|
      invariant 0 <= i <= |page.blocks| && |blocks| == i
      invariant forall k :: 0 <= k < i ==> blocks[k] == TranslateBlock(page.blocks[k], dx, dy)
    {
      var block := OffsetBlock(offset, page.blocks[i], axis);
      blocks := blocks + [block];
      i := i + 1;
    }
    shifted := page.(blocks := blocks);
  }

  /** The merge of two annotations, as a value: texts joined by a space, second's pages shifted and appended. */
  function MergeDocuments(offset: int, first: Document, second: Document, axis: Axis): Document
  {
    Document(first.text + " " + second.text, first.pages + ShiftPages(second.pages, offset, axis))
  }

  /** `box'` is `box` with every vertex moved by (dx, dy). */
  predicate Shifted(box: seq<Vertex>, box': seq<Vertex>, dx: int, dy: int)
  {
    && |box'| == |box|
    && forall u :: 0 <= u < |box| ==> box'[u] == Vertex(box[u].x + dx, box[u].y + dy)
  }

  /**
   * What the merge promises at the level of the annotation: the text is
   * exactly text1 + " " + text2; the first annotation's pages come first,
   * unchanged; then come the second's pages in their order, each with its
   * size and its number of blocks. The displacement is `offset` along `axis`
   * and nothing along the other coordinate. The lemmas after this one state
   * what happens to each level of the second annotation's tree.
   */
  lemma MergeDocumentsLayout(offset: int, first: Document, second: Document, axis: Axis)
    ensures var m := MergeDocuments(offset, first, second, axis);
            && m.text == first.text + " " + second.text
            && |m.pages| == |first.pages| + |second.pages|
            && m.pages[..|first.pages|] == first.pages
            && (forall j :: 0 <= j < |second.pages| ==>
                  var p, p' := second.pages[j], m.pages[|first.pages| + j];
                  p'.width == p.width && p'.height == p.height && |p'.blocks| == |p.blocks|)
            && (axis == Horizontal ==> OffsetX(offset, axis) == offset && OffsetY(offset, axis) == 0)
            && (axis == Vertical ==> OffsetX(offset, axis) == 0 && OffsetY(offset, axis) == offset)
  {
  }

  /** Every block of the second annotation keeps its paragraph count, and its own box moves by the offset. */
  lemma MergedBlockLayout(offset: int, first: Document, second: Document, axis: Axis, j: nat, b: nat)
    requires j < |second.pages| && b < |second.pages[j].blocks|
    ensures var m := MergeDocuments(offset, first, second, axis);
            var bl, bl' := second.pages[j].blocks[b], m.pages[|first.pages| + j].blocks[b];
            && |bl'.paragraphs| == |bl.paragraphs|
            && Shifted(bl.box, bl'.box, OffsetX(offset, axis), OffsetY(offset, axis))
  {
  }

  /** Every paragraph keeps its word count and its confidence, and its own box moves by the offset. */
  lemma MergedParagraphLayout(offset: int, first: Document, second: Document, axis: Axis,
                              j: nat, b: nat, q: nat)
    requires j < |second.pages| && b < |second.pages[j].blocks|
    requires q < |second.pages[j].blocks[b].paragraphs|
    ensures var m := MergeDocuments(offset, first, second, axis);
            var pa, pa' := second.pages[j].blocks[b].paragraphs[q],
                           m.pages[|first.pages| + j].blocks[b].paragraphs[q];
            && |pa'.words| == |pa.words|
            && pa'.confidence == pa.confidence
            && Shifted(pa.box, pa'.box, OffsetX(offset, axis), OffsetY(offset, axis))
  {
  }

  /** Every word keeps its symbol count, and its own box moves by the offset. */
  lemma MergedWordLayout(offset: int, first: Document, second: Document, axis: Axis,
                         j: nat, b: nat, q: nat, w: nat)
    requires j < |second.pages| && b < |second.pages[j].blocks|
    requires q < |second.pages[j].blocks[b].paragraphs|
    requires w < |second.pages[j].blocks[b].paragraphs[q].words|
    ensures var m := MergeDocuments(offset, first, second, axis);
            var wo, wo' := second.pages[j].blocks[b].paragraphs[q].words[w],
                           m.pages[|first.pages| + j].blocks[b].paragraphs[q].words[w];
            && |wo'.symbols| == |wo.symbols|
            && Shifted(wo.box, wo'.box, OffsetX(offset, axis), OffsetY(offset, axis))
  {
  }

  /** Every symbol keeps its text and break type, and its box moves by the offset. */
  lemma MergedSymbolLayout(offset: int, first: Document, second: Document, axis: Axis,
                           j: nat, b: nat, q: nat, w: nat, k: nat)
    requires j < |second.pages| && b < |second.pages[j].blocks|
    requires q < |second.pages[j].blocks[b].paragraphs|
    requires w < |second.pages[j].blocks[b].paragraphs[q].words|
    requires k < |second.pages[j].blocks[b].paragraphs[q].words[w].symbols|
    ensures var m := MergeDocuments(offset, first, second, axis);
            var sy, sy' := second.pages[j].blocks[b].paragraphs[q].words[w].symbols[k],
                           m.pages[|first.pages| + j].blocks[b].paragraphs[q].words[w].symbols[k];
            && sy'.text == sy.text && sy'.breakType == sy.breakType
            && Shifted(sy.box, sy'.box, OffsetX(offset, axis), OffsetY(offset, axis))
  {
  }

  /** Merging with offset 0 keeps the second annotation's geometry: the pages are simply appended. */
  lemma MergeWithZeroOffset(first: Document, second: Document, axis: Axis)
    ensures MergeDocuments(0, first, second, axis).pages == first.pages + second.pages
  {
    TranslateZero(second.pages);
  }

  /** The full-text annotation object of a response, which the merge updates in place. */
  class TextAnnotation {
    var text: string
    var pages: seq<Page>

    constructor (document: Document)
      ensures Value() == document
    {
      text := document.text;
      pages := document.pages;
    }

    function Value(): Document
      reads this
    {
      Document(text, pages)
    }
  }

  /**
   * `_merge_responses`: overwrites the first annotation's text with the
   * joined text, offsets every element of the second annotation's pages in
   * place, and appends those pages to the first annotation, which is the
   * merged result.
   */
  method MergeResponses(offset: int, first: TextAnnotation, second: TextAnnotation, axis: Axis)
    returns (merged: TextAnnotation)
    requires first != second
    modifies first, second
    ensures merged == first
    ensures first.Value() == MergeDocuments(offset, old(first.Value()), old(second.Value()), axis)
    ensures second.text == old(second.text)
    ensures second.pages == ShiftPages(old(second.pages), offset, axis)
  {
    first.text := first.text + " " + second.text;
    merged := first;
    ghost var pages2 := second.pages;
    var i := 0;
    while i < |second.pages|
      invariant 0 <= i <= |second.pages| == |pages2|
      invariant first.text == old(first.text) + " " + old(second.text)
      invariant second.text == old(second.text)
      invariant second.pages[..i] == ShiftPages(pages2[..i], offset, axis)
      invariant second.pages[i..] == pages2[i..]
      invariant first.pages == old(first.pages) + second.pages[..i]
    {
      var page := OffsetPage(offset, second.pages[i], axis);
      assert second.pages[i] == pages2[i];
      second.pages := second.pages[i := page];
      first.pages := first.pages + [page];
      i := i + 1;
      assert second.pages[..i] == second.pages[..i - 1] + [page];
      assert pages2[..i] == pages2[..i - 1] + [pages2[i - 1]];
    }
    assert second.pages[..i] == second.pages;
    assert pages2[..i] == pages2;
  }

  /**
   * `_call_vision_api_helper`, as written. A leaf (size below the budget)
   * is sent to the service and its reply returned unchanged; otherwise the
   * image is cut along its longer side, both tiles are processed with
   * `maxSizeBytes` passed where megabytes are expected, and the answers are
   * merged, the bottom tile's answer first in the vertical case. `fuel`
   * bounds the number of nested cuts, which the source does not bound.
   */
  function CallVisionApiHelper(img: Image, maxSizeMegabytes: int, overlap: real, fuel: nat, env: Services)
    : (r: Result<Response, TilerError>)
    ensures r.Failure? ==> r.error == DepthExceeded
    decreases fuel
  {
    var maxSizeBytes := maxSizeMegabytes * 1024 * 1024;
    if env.fileSize(img) < maxSizeBytes then
      Success(Served(env.ocr(img)))
    else if fuel == 0 then
      Failure(DepthExceeded)
    else if img.width >= img.height then
      var s := DivideImageLeftAndRight(img, overlap);
      var left :- CallVisionApiHelper(s.first, maxSizeBytes, overlap, fuel - 1, env);
      var right :- CallVisionApiHelper(s.second, maxSizeBytes, overlap, fuel - 1, env);
      Success(Merged(MergeDocuments(s.offset, left.FullTextAnnotation(), right.FullTextAnnotation(), Horizontal)))
    else
      var s := DivideImageTopAndBottom(img, overlap);
      var top :- CallVisionApiHelper(s.first, maxSizeBytes, overlap, fuel - 1, env);
      var bottom :- CallVisionApiHelper(s.second, maxSizeBytes, overlap, fuel - 1, env);
      Success(Merged(MergeDocuments(s.offset, bottom.FullTextAnnotation(), top.FullTextAnnotation(), Vertical)))
  }

  /** `call_vision_api`: an empty URI is refused before anything else; otherwise the downloaded image is tiled. */
  function CallVisionApi(uri: string, dimensions: string -> (int, int), env: Services, fuel: nat,
                         maxSizeMegabytes: int := 20, overlap: real := 0.25): (r: Result<Response, TilerError>)
    ensures r == Failure(MissingUri) <==> uri == []
  {
    if uri == [] then Failure(MissingUri)
    else
      var (width, height) := dimensions(uri);
      CallVisionApiHelper(Image(0, 0, width, height), maxSizeMegabytes, overlap, fuel, env)
  }

  /** A leaf: one call to the service, whose reply is returned unchanged, with no cut and no merge. */
  lemma LeafCase(img: Image, maxSizeMegabytes: int, overlap: real, fuel: nat, env: Services)
    requires env.fileSize(img) < maxSizeMegabytes * 1024 * 1024
    ensures CallVisionApiHelper(img, maxSizeMegabytes, overlap, fuel, env) == Success(Served(env.ocr(img)))
  {
  }

  /**
   * An image at or above the budget is cut left/right when width >= height
   * and top/bottom otherwise; the tiles are processed with the budget in
   * bytes put in the megabytes slot, and the result is the merge along the
   * cut's axis, with the bottom answer first for a top/bottom cut.
   */
  lemma SplitCase(img: Image, maxSizeMegabytes: int, overlap: real, fuel: nat, env: Services)
    requires env.fileSize(img) >= maxSizeMegabytes * 1024 * 1024 && fuel > 0
    ensures var childBudget := maxSizeMegabytes * 1024 * 1024;
            var axis := SplitAxis(img);
            var s := if axis == Horizontal then DivideImageLeftAndRight(img, overlap)
                     else DivideImageTopAndBottom(img, overlap);
            var a := CallVisionApiHelper(s.first, childBudget, overlap, fuel - 1, env);
            var b := CallVisionApiHelper(s.second, childBudget, overlap, fuel - 1, env);
            var r := CallVisionApiHelper(img, maxSizeMegabytes, overlap, fuel, env);
            && (axis == Horizontal <==> img.width >= img.height)
            && (r.Success? <==> a.Success? && b.Success?)
            && (r.Success? && axis == Horizontal ==>
                  r.value == Merged(MergeDocuments(s.offset, a.value.FullTextAnnotation(),
                                                   b.value.FullTextAnnotation(), Horizontal)))
            && (r.Success? && axis == Vertical ==>
                  r.value == Merged(MergeDocuments(s.offset, b.value.FullTextAnnotation(),
                                                   a.value.FullTextAnnotation(), Vertical)))
  {
  }

  /**
   * Because a tile's budget is multiplied by 1024 * 1024 once more, a
   * positive budget of M megabytes is followed by at most one cut whenever
   * every encoded size is below M * 1024^4 bytes: one cut, two service
   * calls on the two tiles, one merge.
   */
  lemma AsWrittenCutsAtMostOnce(img: Image, maxSizeMegabytes: int, overlap: real, fuel: nat, env: Services)
    requires maxSizeMegabytes >= 1 && fuel >= 1
    requires forall t :: env.fileSize(t) < maxSizeMegabytes * 1024 * 1024 * 1024 * 1024
    requires env.fileSize(img) >= maxSizeMegabytes * 1024 * 1024
    ensures var s := if img.width >= img.height then DivideImageLeftAndRight(img, overlap)
                     else DivideImageTopAndBottom(img, overlap);
            var a, b := env.ocr(s.first).document, env.ocr(s.second).document;
            CallVisionApiHelper(img, maxSizeMegabytes, overlap, fuel, env)
              == Success(Merged(if img.width >= img.height then MergeDocuments(s.offset, a, b, Horizontal)
                                else MergeDocuments(s.offset, b, a, Vertical)))
  {
    var s := if img.width >= img.height then DivideImageLeftAndRight(img, overlap)
             else DivideImageTopAndBottom(img, overlap);
    var childBudget := maxSizeMegabytes * 1024 * 1024;
    LeafCase(s.first, childBudget, overlap, fuel - 1, env);
    LeafCase(s.second, childBudget, overlap, fuel - 1, env);
  }

  /**
   * With a budget of zero or fewer megabytes no tile ever fits, since every
   * tile's budget stays non-positive: the source recurses without end, and
   * the model runs out of fuel whatever the fuel.
   */
  lemma {:induction false} NonPositiveBudgetNeverFits(img: Image, maxSizeMegabytes: int, overlap: real,
                                                      fuel: nat, env: Services)
    requires maxSizeMegabytes <= 0
    requires forall t :: env.fileSize(t) >= 0
    ensures CallVisionApiHelper(img, maxSizeMegabytes, overlap, fuel, env) == Failure(DepthExceeded)
    decreases fuel
  {
    if fuel > 0 {
      var childBudget := maxSizeMegabytes * 1024 * 1024;
      var s := if img.width >= img.height then DivideImageLeftAndRight(img, overlap)
               else DivideImageTopAndBottom(img, overlap);
      NonPositiveBudgetNeverFits(s.first, childBudget, overlap, fuel - 1, env);
    }
  }
}
