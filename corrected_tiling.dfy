/**
 * The tiler with its two evident slips corrected, the reference it is
 * proved against, and concrete inputs on which the code as written departs
 * from it.
 *
 * Corrected: every tile is checked against the same byte budget as its
 * parent, and a top/bottom cut merges the top answer first and translates
 * the bottom answer by the cut offset, exactly as a left/right cut does.
 *
 * Reference: the leaf tiles, in order, each answered once by the service
 * and translated once by its own position within the root image; the text
 * is the leaves' texts joined by spaces. That the recursive merge equals this
 * is the statement that merging A with B and then shifting the combined
 * tree for a further merge gives the same coordinates as applying each
 * tile's total offset from the root once.
 */
module CorrectedTiling {
  import opened Wrappers
  import opened Vision
  import opened ImageProcessor
  import Sequences

  /** The cut along the longer side. */
  function Divide(img: Image, overlap: real): Split
  {
    if SplitAxis(img) == Horizontal then DivideImageLeftAndRight(img, overlap)
    else DivideImageTopAndBottom(img, overlap)
  }

  /** The first tile starts at the parent's corner; the second is displaced by the offset along the cut's axis. */
  lemma DividePlacement(img: Image, overlap: real)
    ensures var s, axis := Divide(img, overlap), SplitAxis(img);
            && s.first.x == img.x && s.first.y == img.y
            && s.second.x == img.x + OffsetX(s.offset, axis)
            && s.second.y == img.y + OffsetY(s.offset, axis)
  {
  }

  /** The corrected tiler: one byte budget at every depth, and the first (left or top) answer first. */
  function TileAndMerge(img: Image, maxSizeBytes: int, overlap: real, fuel: nat, env: Services)
    : (r: Result<Response, TilerError>)
    ensures r.Failure? ==> r.error == DepthExceeded
    decreases fuel
  {
    if env.fileSize(img) < maxSizeBytes then
      Success(Served(env.ocr(img)))
    else if fuel == 0 then
      Failure(DepthExceeded)
    else
      var s := Divide(img, overlap);
      var first :- TileAndMerge(s.first, maxSizeBytes, overlap, fuel - 1, env);
      var second :- TileAndMerge(s.second, maxSizeBytes, overlap, fuel - 1, env);
      Success(Merged(MergeDocuments(s.offset, first.FullTextAnnotation(), second.FullTextAnnotation(),
                                    SplitAxis(img))))
  }

  /** The tiles the corrected tiler sends to the service, in the order of its answer. */
  function Leaves(img: Image, maxSizeBytes: int, overlap: real, fuel: nat, fileSize: Image -> int)
    : (r: Option<seq<Image>>)
    ensures r.Some? ==> |r.value| >= 1
    decreases fuel
  {
    if fileSize(img) < maxSizeBytes then
      Some([img])
    else if fuel == 0 then
      None
    else
      var s := Divide(img, overlap);
      var a := Leaves(s.first, maxSizeBytes, overlap, fuel - 1, fileSize);
      var b := Leaves(s.second, maxSizeBytes, overlap, fuel - 1, fileSize);
      if a.Some? && b.Some? then Some(a.value + b.value) else None
  }

  /** The leaves' pages, each translated once by its leaf's position relative to (ox, oy). */
  function PlacedPages(ox: int, oy: int, leaves: seq<Image>, ocr: Image -> Reply): seq<Page>
  {
    if leaves == [] then []
    else
      var last := leaves[|leaves| - 1];
      PlacedPages(ox, oy, leaves[..|leaves| - 1], ocr)
        + TranslatePages(ocr(last).document.pages, last.x - ox, last.y - oy)
  }

  function LeafTexts(leaves: seq<Image>, ocr: Image -> Reply): seq<string>
  {
    seq(|leaves|, i requires 0 <= i < |leaves| => ocr(leaves[i]).document.text)
  }

  /** The annotation of `img` assembled directly from its leaves. */
  function Reference(img: Image, leaves: seq<Image>, ocr: Image -> Reply): Document
  {
    Document(Sequences.Join(LeafTexts(leaves, ocr)), PlacedPages(img.x, img.y, leaves, ocr))
  }

  lemma {:induction false} PlacedPagesAppend(ox: int, oy: int, a: seq<Image>, b: seq<Image>, ocr: Image -> Reply)
    ensures PlacedPages(ox, oy, a + b, ocr) == PlacedPages(ox, oy, a, ocr) + PlacedPages(ox, oy, b, ocr)
    decreases |b|
  {
    if b == [] {
      assert a + b == a;
    } else {
      var n, ab := |b| - 1, a + b;
      var back := TranslatePages(ocr(b[n]).document.pages, b[n].x - ox, b[n].y - oy);
      assert ab[|ab| - 1] == b[n];
      assert ab[..|ab| - 1] == a + b[..n];
      calc {
        PlacedPages(ox, oy, ab, ocr);
        PlacedPages(ox, oy, a + b[..n], ocr) + back;
        { PlacedPagesAppend(ox, oy, a, b[..n], ocr); }
        (PlacedPages(ox, oy, a, ocr) + PlacedPages(ox, oy, b[..n], ocr)) + back;
        PlacedPages(ox, oy, a, ocr) + (PlacedPages(ox, oy, b[..n], ocr) + back);
        PlacedPages(ox, oy, a, ocr) + PlacedPages(ox, oy, b, ocr);
      }
    }
  }

  /** Translating pages placed relative to (ox, oy) by (dx, dy) places them relative to (ox - dx, oy - dy). */
  lemma {:induction false} PlacedPagesRebase(ox: int, oy: int, leaves: seq<Image>, dx: int, dy: int,
                                             ocr: Image -> Reply)
    ensures TranslatePages(PlacedPages(ox, oy, leaves, ocr), dx, dy) == PlacedPages(ox - dx, oy - dy, leaves, ocr)
    decreases |leaves|
  {
    if leaves != [] {
      var n := |leaves| - 1;
      var last := leaves[n];
      var pages := ocr(last).document.pages;
      var front := PlacedPages(ox, oy, leaves[..n], ocr);
      var back := TranslatePages(pages, last.x - ox, last.y - oy);
      calc {
        TranslatePages(PlacedPages(ox, oy, leaves, ocr), dx, dy);
        TranslatePages(front + back, dx, dy);
        { TranslateAppend(front, back, dx, dy); }
        TranslatePages(front, dx, dy) + TranslatePages(back, dx, dy);
        { PlacedPagesRebase(ox, oy, leaves[..n], dx, dy, ocr);
          TranslateCompose(pages, last.x - ox, last.y - oy, dx, dy); }
        PlacedPages(ox - dx, oy - dy, leaves[..n], ocr)
          + TranslatePages(pages, last.x - (ox - dx), last.y - (oy - dy));
        PlacedPages(ox - dx, oy - dy, leaves, ocr);
      }
    }
  }

  /**
   * The corrected tiler succeeds exactly when its leaves are within the
   * fuel, and then its annotation is the reference assembled from the
   * leaves: texts joined in leaf order, and every leaf's boxes translated
   * once by that leaf's position in the root image.
   */
  predicate MatchesReference(img: Image, maxSizeBytes: int, overlap: real, fuel: nat, env: Services)
  {
    var r := TileAndMerge(img, maxSizeBytes, overlap, fuel, env);
    var leaves := Leaves(img, maxSizeBytes, overlap, fuel, env.fileSize);
    && (r.Success? <==> leaves.Some?)
    && (r.Success? ==> r.value.FullTextAnnotation() == Reference(img, leaves.value, env.ocr))
  }

  lemma {:induction false} TileAndMergeMatchesReference(img: Image, maxSizeBytes: int, overlap: real,
                                                        fuel: nat, env: Services)
    ensures MatchesReference(img, maxSizeBytes, overlap, fuel, env)
    decreases fuel
  {
    if env.fileSize(img) < maxSizeBytes {
      LeafReference(img, env.ocr);
    } else if fuel > 0 {
      var s := Divide(img, overlap);
      TileAndMergeMatchesReference(s.first, maxSizeBytes, overlap, fuel - 1, env);
      TileAndMergeMatchesReference(s.second, maxSizeBytes, overlap, fuel - 1, env);
      ReferenceStep(img, maxSizeBytes, overlap, fuel, env);
    }
  }

  /** The inductive step of the reference property: a cut whose two tiles match their references matches its own. */
  lemma ReferenceStep(img: Image, maxSizeBytes: int, overlap: real, fuel: nat, env: Services)
    requires env.fileSize(img) >= maxSizeBytes && fuel > 0
    requires MatchesReference(Divide(img, overlap).first, maxSizeBytes, overlap, fuel - 1, env)
    requires MatchesReference(Divide(img, overlap).second, maxSizeBytes, overlap, fuel - 1, env)
    ensures MatchesReference(img, maxSizeBytes, overlap, fuel, env)
  {
    var s, axis := Divide(img, overlap), SplitAxis(img);
    DividePlacement(img, overlap);
    TileAndMergeUnfold(img, maxSizeBytes, overlap, fuel, env);
    LeavesUnfold(img, maxSizeBytes, overlap, fuel, env.fileSize);
    var r1 := TileAndMerge(s.first, maxSizeBytes, overlap, fuel - 1, env);
    var r2 := TileAndMerge(s.second, maxSizeBytes, overlap, fuel - 1, env);
    if r1.Success? && r2.Success? {
      var l1 := Leaves(s.first, maxSizeBytes, overlap, fuel - 1, env.fileSize).value;
      var l2 := Leaves(s.second, maxSizeBytes, overlap, fuel - 1, env.fileSize).value;
      MergeOfReferences(img, s, axis, l1, l2, env.ocr);
    }
  }

  /** One cut of the corrected tiler, in terms of its two tiles. */
  lemma TileAndMergeUnfold(img: Image, maxSizeBytes: int, overlap: real, fuel: nat, env: Services)
    requires env.fileSize(img) >= maxSizeBytes && fuel > 0
    ensures var s := Divide(img, overlap);
            var r1 := TileAndMerge(s.first, maxSizeBytes, overlap, fuel - 1, env);
            var r2 := TileAndMerge(s.second, maxSizeBytes, overlap, fuel - 1, env);
            TileAndMerge(img, maxSizeBytes, overlap, fuel, env)
              == (if r1.Success? && r2.Success?
                  then Success(Merged(MergeDocuments(s.offset, r1.value.FullTextAnnotation(),
                                                     r2.value.FullTextAnnotation(), SplitAxis(img))))
                  else Failure(DepthExceeded))
  {
  }

  /** The leaves of a cut image are the leaves of its first tile followed by those of its second. */
  lemma LeavesUnfold(img: Image, maxSizeBytes: int, overlap: real, fuel: nat, fileSize: Image -> int)
    requires fileSize(img) >= maxSizeBytes && fuel > 0
    ensures var s := Divide(img, overlap);
            var l1 := Leaves(s.first, maxSizeBytes, overlap, fuel - 1, fileSize);
            var l2 := Leaves(s.second, maxSizeBytes, overlap, fuel - 1, fileSize);
            Leaves(img, maxSizeBytes, overlap, fuel, fileSize) == (if l1.Some? && l2.Some? then Some(l1.value + l2.value) else None)
  {
  }

  /** A lone leaf is its own reference: its answer, translated by (0, 0). */
  lemma LeafReference(img: Image, ocr: Image -> Reply)
    ensures Reference(img, [img], ocr) == ocr(img).document
  {
    TranslateZero(ocr(img).document.pages);
    assert [img][..0] == [];
    assert PlacedPages(img.x, img.y, [img], ocr) == TranslatePages(ocr(img).document.pages, 0, 0);
    assert LeafTexts([img], ocr) == [ocr(img).document.text];
  }

  /** One merge step of the reference: merging the references of the two tiles gives the parent's. */
  lemma MergeOfReferences(img: Image, s: Split, axis: Axis, ls1: seq<Image>, ls2: seq<Image>, ocr: Image -> Reply)
    requires s.first.x == img.x && s.first.y == img.y
    requires s.second.x == img.x + OffsetX(s.offset, axis) && s.second.y == img.y + OffsetY(s.offset, axis)
    requires ls1 != [] && ls2 != []
    ensures MergeDocuments(s.offset, Reference(s.first, ls1, ocr), Reference(s.second, ls2, ocr), axis)
            == Reference(img, ls1 + ls2, ocr)
  {
    var dx, dy := OffsetX(s.offset, axis), OffsetY(s.offset, axis);
    var texts1, texts2 := LeafTexts(ls1, ocr), LeafTexts(ls2, ocr);
    assert LeafTexts(ls1 + ls2, ocr) == texts1 + texts2;
    Sequences.JoinAppend(texts1, texts2);
    PlacedPagesRebase(s.second.x, s.second.y, ls2, dx, dy, ocr);
    PlacedPagesAppend(img.x, img.y, ls1, ls2, ocr);
  }

  /** Every tile the corrected tiler sends to the service is strictly below the byte budget. */
  lemma {:induction false} LeavesWithinBudget(img: Image, maxSizeBytes: int, overlap: real, fuel: nat,
                                              fileSize: Image -> int)
    ensures var leaves := Leaves(img, maxSizeBytes, overlap, fuel, fileSize);
            leaves.Some? ==> forall t :: t in leaves.value ==> fileSize(t) < maxSizeBytes
    decreases fuel
  {
    if fileSize(img) >= maxSizeBytes && fuel > 0 {
      var s := Divide(img, overlap);
      LeavesWithinBudget(s.first, maxSizeBytes, overlap, fuel - 1, fileSize);
      LeavesWithinBudget(s.second, maxSizeBytes, overlap, fuel - 1, fileSize);
      var a := Leaves(s.first, maxSizeBytes, overlap, fuel - 1, fileSize);
      var b := Leaves(s.second, maxSizeBytes, overlap, fuel - 1, fileSize);
      if a.Some? && b.Some? {
        forall t | t in a.value + b.value ensures fileSize(t) < maxSizeBytes {
          assert t in a.value || t in b.value;
        }
      }
    }
  }

  /** `t` lies within `img` and has no negative side. */
  predicate Inside(t: Image, img: Image)
  {
    && img.x <= t.x && 0 <= t.width && t.x + t.width <= img.x + img.width
    && img.y <= t.y && 0 <= t.height && t.y + t.height <= img.y + img.height
  }

  /** Every tile of `ts` lies within `img`. */
  predicate AllInside(ts: seq<Image>, img: Image)
  {
    forall t :: t in ts ==> Inside(t, img)
  }

  /** Tiles inside the two parts of a cut lie inside the parent. */
  lemma InsideBothParts(img: Image, overlap: real, a: seq<Image>, b: seq<Image>)
    requires Cuttable(img, overlap)
    requires AllInside(a, Divide(img, overlap).first) && AllInside(b, Divide(img, overlap).second)
    ensures AllInside(a + b, img)
  {
    DivideInside(img, overlap);
  }

  /** Both tiles of a cut lie within their parent. */
  lemma DivideInside(img: Image, overlap: real)
    requires Cuttable(img, overlap)
    ensures Inside(Divide(img, overlap).first, img) && Inside(Divide(img, overlap).second, img)
    ensures Cuttable(Divide(img, overlap).first, overlap) && Cuttable(Divide(img, overlap).second, overlap)
  {
  }

  /** A box with non-negative sides, and an overlap between 0 and 1. */
  predicate Cuttable(img: Image, overlap: real)
  {
    0 <= img.width && 0 <= img.height && 0.0 <= overlap <= 1.0
  }

  /** Every tile the corrected tiler sends to the service, if it gets that far, lies within `img`. */
  predicate LeavesLieInside(img: Image, maxSizeBytes: int, overlap: real, fuel: nat, fileSize: Image -> int)
  {
    var leaves := Leaves(img, maxSizeBytes, overlap, fuel, fileSize);
    leaves.Some? ==> AllInside(leaves.value, img)
  }

  /** For an overlap between 0 and 1, every tile sent to the service lies within the original image. */
  lemma {:induction false} LeavesInside(img: Image, maxSizeBytes: int, overlap: real, fuel: nat,
                                        fileSize: Image -> int)
    requires Cuttable(img, overlap)
    ensures LeavesLieInside(img, maxSizeBytes, overlap, fuel, fileSize)
    decreases fuel, 1
  {
    if fileSize(img) >= maxSizeBytes && fuel > 0 {
      InsideStep(img, maxSizeBytes, overlap, fuel, fileSize);
    }
  }

  /** The inductive step of `LeavesInside`: the leaves of both tiles lie inside the tiles, which lie inside the parent. */
  lemma {:induction false} InsideStep(img: Image, maxSizeBytes: int, overlap: real, fuel: nat,
                                      fileSize: Image -> int)
    requires fileSize(img) >= maxSizeBytes && fuel > 0 && Cuttable(img, overlap)
    ensures LeavesLieInside(img, maxSizeBytes, overlap, fuel, fileSize)
    decreases fuel, 0
  {
    var s := Divide(img, overlap);
    DivideInside(img, overlap);
    LeavesInside(s.first, maxSizeBytes, overlap, fuel - 1, fileSize);
    LeavesInside(s.second, maxSizeBytes, overlap, fuel - 1, fileSize);
    LeavesUnfold(img, maxSizeBytes, overlap, fuel, fileSize);
    var a := Leaves(s.first, maxSizeBytes, overlap, fuel - 1, fileSize);
    var b := Leaves(s.second, maxSizeBytes, overlap, fuel - 1, fileSize);
    if a.Some? && b.Some? {
      InsideBothParts(img, overlap, a.value, b.value);
    }
  }

  /**
   * Cutting does not always make progress: an image at least as wide as it
   * is high, with width·(1 − overlap) < 2, that does not fit is cut into a
   * right tile equal to itself, so no depth bound is ever enough. With
   * overlap 1 this is every such image.
   */
  lemma {:induction false} NarrowImageNeverFits(img: Image, maxSizeBytes: int, overlap: real, fuel: nat,
                                                env: Services)
    requires 0 <= img.height <= img.width && 0.0 <= overlap <= 1.0
    requires img.width as real * (1.0 - overlap) < 2.0
    requires env.fileSize(img) >= maxSizeBytes
    ensures TileAndMerge(img, maxSizeBytes, overlap, fuel, env) == Failure(DepthExceeded)
    decreases fuel
  {
    if fuel > 0 {
      RightTileShrinksIff(img, overlap);
      assert Divide(img, overlap).second == img;
      NarrowImageNeverFits(img, maxSizeBytes, overlap, fuel - 1, env);
    }
  }

  // Concrete inputs on which the code as written departs from the intent.

  /** The encoded size of a test image: 5 MiB per pixel of width. */
  function WidthSize(t: Image): int { t.width * 5_242_880 }

  /** The encoded size of a test image: 40 MiB at full height 8, 10 MiB for anything lower. */
  function HeightSize(t: Image): int { if t.height >= 8 then 40 * 1024 * 1024 else 10 * 1024 * 1024 }

  /** A service stub that reports whether the tile it was given was within a 20 MiB budget. */
  function BudgetWitness(t: Image): Reply
  {
    Reply(0, Document(if WidthSize(t) < 20 * 1024 * 1024 then "fits" else "over", []))
  }

  /** Both cuts of a side of 8 pixels with overlap 0.25 end the first tile at 5 and start the second at 3. */
  lemma EightPixelCuts()
    ensures DivideImageLeftAndRight(Image(0, 0, 8, 4), 0.25) == Split(Image(0, 0, 5, 4), Image(3, 0, 5, 4), 3)
    ensures DivideImageTopAndBottom(Image(0, 0, 4, 8), 0.25) == Split(Image(0, 0, 4, 5), Image(0, 3, 4, 5), 3)
  {
    assert FirstTileEnd(8, 0.25) == 5;
    assert SecondTileStart(8, 0.25) == 3;
  }

  /**
   * A 40 MiB image, 8 x 4 pixels, with a 20 MB budget and overlap 0.25: as
   * written, both 25 MiB tiles are sent to the service although they exceed
   * the budget, because their own budget has become 20 * 1024^4 bytes.
   */
  lemma OverBudgetTileExample(fuel: nat)
    requires fuel >= 1
    ensures var env := Services(WidthSize, BudgetWitness);
            var img := Image(0, 0, 8, 4);
            var s := DivideImageLeftAndRight(img, 0.25);
            && WidthSize(img) == 40 * 1024 * 1024
            && s.first == Image(0, 0, 5, 4) && s.second == Image(3, 0, 5, 4)
            && WidthSize(s.first) >= 20 * 1024 * 1024 && WidthSize(s.second) >= 20 * 1024 * 1024
            && CallVisionApiHelper(img, 20, 0.25, fuel, env)
               == Success(Merged(Document("over over", [])))
  {
    var env := Services(WidthSize, BudgetWitness);
    var img := Image(0, 0, 8, 4);
    EightPixelCuts();
    var s := DivideImageLeftAndRight(img, 0.25);
    var childBudget := 20 * 1024 * 1024;
    LeafCase(s.first, childBudget, 0.25, fuel - 1, env);
    LeafCase(s.second, childBudget, 0.25, fuel - 1, env);
    var over := Document("over", []);
    assert BudgetWitness(s.first).document == over && BudgetWitness(s.second).document == over;
    assert WidthSize(img) >= 20 * 1024 * 1024;
    var merged := MergeDocuments(3, over, over, Horizontal);
    assert merged == Document("over over", []);
    assert CallVisionApiHelper(img, 20, 0.25, fuel, env) == Success(Merged(merged));
  }

  /** One recognised symbol, `tag`, on a one-block page, every box with the single corner (0, y). */
  function TaggedPage(tag: string, y: int): Page
  {
    var box := [Vertex(0, y)];
    Page(4, 5, [Block([Paragraph([Word([Symbol(tag, 0, box)], box)], 1.0, box)], box)])
  }

  /** A service stub whose answer names the tile and puts that name at local y = 1. */
  function PositionWitness(t: Image): Reply
  {
    var tag := if t.y == 0 then "top" else "bottom";
    Reply(0, Document(tag, [TaggedPage(tag, 1)]))
  }

  lemma TaggedPageShift(tag: string, y: int, dy: int)
    ensures TranslatePage(TaggedPage(tag, y), 0, dy) == TaggedPage(tag, y + dy)
  {
    var box, box' := [Vertex(0, y)], [Vertex(0, y + dy)];
    assert TranslateBox(box, 0, dy) == box';
    var word := Word([Symbol(tag, 0, box)], box);
    assert TranslateWord(word, 0, dy) == Word([Symbol(tag, 0, box')], box');
    var paragraph := Paragraph([word], 1.0, box);
    assert TranslateParagraph(paragraph, 0, dy) == Paragraph([Word([Symbol(tag, 0, box')], box')], 1.0, box');
    var block := Block([paragraph], box);
    assert TranslateBlock(block, 0, dy)
           == Block([Paragraph([Word([Symbol(tag, 0, box')], box')], 1.0, box')], box');
  }

  /**
   * A 4 x 8 image (taller than wide), 40 MiB, budget 20 MB, overlap 0.25,
   * is cut at bottom_y = 3 into a top tile [0, 5) and a bottom tile [3, 8).
   * Each tile's answer puts its name at local y = 1, so "top" lies at y = 1
   * of the image and "bottom" at y = 4. As written, the answer reads
   * "bottom top", places "bottom" at y = 1 and "top" at y = 4, and so is
   * not the reference; the corrected tiler gives the reference.
   */
  lemma VerticalMergeExample(fuel: nat)
    requires fuel >= 1
    ensures var env := Services(HeightSize, PositionWitness);
            var img := Image(0, 0, 4, 8);
            var s := DivideImageTopAndBottom(img, 0.25);
            var expected := Document("top bottom", [TaggedPage("top", 1), TaggedPage("bottom", 4)]);
            && s.first == Image(0, 0, 4, 5) && s.second == Image(0, 3, 4, 5) && s.offset == 3
            && Reference(img, [s.first, s.second], PositionWitness) == expected
            && CallVisionApiHelper(img, 20, 0.25, fuel, env)
               == Success(Merged(Document("bottom top", [TaggedPage("bottom", 1), TaggedPage("top", 4)])))
            && TileAndMerge(img, 20 * 1024 * 1024, 0.25, fuel, env) == Success(Merged(expected))
  {
    var env := Services(HeightSize, PositionWitness);
    var img := Image(0, 0, 4, 8);
    var s := DivideImageTopAndBottom(img, 0.25);
    assert s.offset == 3 && s.first.height == 5;
    var top, bottom := [TaggedPage("top", 1)], [TaggedPage("bottom", 1)];
    TaggedPageShift("top", 1, 3);
    TaggedPageShift("bottom", 1, 3);
    assert TranslatePages(top, 0, 3) == [TaggedPage("top", 4)];
    assert TranslatePages(bottom, 0, 3) == [TaggedPage("bottom", 4)];
    TranslateZero(top);
    // the reference
    var ls := [s.first, s.second];
    assert s.first == Image(0, 0, 4, 5) && s.second == Image(0, 3, 4, 5);
    assert PositionWitness(s.first).document == Document("top", top);
    assert PositionWitness(s.second).document == Document("bottom", bottom);
    assert ls[..1] == [s.first];
    assert [s.first][..0] == [];
    assert LeafTexts(ls, PositionWitness) == ["top", "bottom"];
    assert Sequences.Join(["top", "bottom"]) == "top bottom" by {
      assert ["top", "bottom"][..1] == ["top"];
    }
    assert PlacedPages(0, 0, [s.first], PositionWitness) == top;
    assert PlacedPages(0, 0, ls, PositionWitness) == [TaggedPage("top", 1), TaggedPage("bottom", 4)];
    // as written: both tiles are leaves, merged bottom first
    LeafCase(s.first, 20 * 1024 * 1024, 0.25, fuel - 1, env);
    LeafCase(s.second, 20 * 1024 * 1024, 0.25, fuel - 1, env);
    var asWritten := MergeDocuments(3, Document("bottom", bottom), Document("top", top), Vertical);
    assert asWritten == Document("bottom top", [TaggedPage("bottom", 1), TaggedPage("top", 4)]);
    assert CallVisionApiHelper(img, 20, 0.25, fuel, env) == Success(Merged(asWritten));
    // corrected: both tiles are leaves, merged top first
    var corrected := MergeDocuments(3, Document("top", top), Document("bottom", bottom), Vertical);
    assert corrected == Document("top bottom", [TaggedPage("top", 1), TaggedPage("bottom", 4)]);
    assert TileAndMerge(img, 20 * 1024 * 1024, 0.25, fuel, env) == Success(Merged(corrected));
  }
}
