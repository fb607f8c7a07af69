/**
 * The part of the OCR service's document annotation that the tiler and the
 * geolocalizer read and write: a five-level tree Page -> Block -> Paragraph
 * -> Word -> Symbol whose lower four levels carry a bounding box, plus the
 * translation of every box of such a tree by a pixel displacement.
 */
module Vision {

  /** A corner of a bounding box, in pixels. */
  datatype Vertex = Vertex(x: int, y: int)

  /** The corners of a bounding box, in order. */
  type BoundingBox = seq<Vertex>

  /** One recognised character, and the kind of break the service detected after it (0: none). */
  datatype Symbol = Symbol(text: string, breakType: int, box: BoundingBox)

  datatype Word = Word(symbols: seq<Symbol>, box: BoundingBox)

  datatype Paragraph = Paragraph(words: seq<Word>, confidence: real, box: BoundingBox)

  datatype Block = Block(paragraphs: seq<Paragraph>, box: BoundingBox)

  /** A page carries its size but no bounding box of its own. */
  datatype Page = Page(width: int, height: int, blocks: seq<Block>)

  /** The full-text annotation: the recognised text and its pages. */
  datatype Document = Document(text: string, pages: seq<Page>)

  /** What the OCR service answers: an error code (0 when there is none) and the annotation. */
  datatype Reply = Reply(errorCode: int, document: Document)

  // Translation of every bounding box of a tree by (dx, dy).

  function TranslateVertex(v: Vertex, dx: int, dy: int): Vertex
  {
    Vertex(v.x + dx, v.y + dy)
  }

  function TranslateBox(box: BoundingBox, dx: int, dy: int): BoundingBox
  {
    seq(|box|, i requires 0 <= i < |box| => TranslateVertex(box[i], dx, dy))
  }

  function TranslateSymbol(s: Symbol, dx: int, dy: int): Symbol
  {
    s.(box := TranslateBox(s.box, dx, dy))
  }

  function TranslateWord(w: Word, dx: int, dy: int): Word
  {
    Word(seq(|w.symbols|, i requires 0 <= i < |w.symbols| => TranslateSymbol(w.symbols[i], dx, dy)),
         TranslateBox(w.box, dx, dy))
  }

  function TranslateParagraph(p: Paragraph, dx: int, dy: int): Paragraph
  {
    p.(words := seq(|p.words|, i requires 0 <= i < |p.words| => TranslateWord(p.words[i], dx, dy)),
       box := TranslateBox(p.box, dx, dy))
  }

  function TranslateBlock(b: Block, dx: int, dy: int): Block
  {
    Block(seq(|b.paragraphs|, i requires 0 <= i < |b.paragraphs| => TranslateParagraph(b.paragraphs[i], dx, dy)),
          TranslateBox(b.box, dx, dy))
  }

  /** The page's own width and height are not geometry to translate: only its blocks move. */
  function TranslatePage(p: Page, dx: int, dy: int): Page
  {
    p.(blocks := seq(|p.blocks|, i requires 0 <= i < |p.blocks| => TranslateBlock(p.blocks[i], dx, dy)))
  }

  function TranslatePages(ps: seq<Page>, dx: int, dy: int): seq<Page>
  {
    seq(|ps|, i requires 0 <= i < |ps| => TranslatePage(ps[i], dx, dy))
  }

  // Translating twice is translating once by the sum.

  lemma BoxCompose(box: BoundingBox, a: int, b: int, c: int, d: int)
    ensures TranslateBox(TranslateBox(box, a, b), c, d) == TranslateBox(box, a + c, b + d)
  {
  }

  lemma SymbolCompose(s: Symbol, a: int, b: int, c: int, d: int)
    ensures TranslateSymbol(TranslateSymbol(s, a, b), c, d) == TranslateSymbol(s, a + c, b + d)
  {
    BoxCompose(s.box, a, b, c, d);
  }

  lemma WordCompose(w: Word, a: int, b: int, c: int, d: int)
    ensures TranslateWord(TranslateWord(w, a, b), c, d) == TranslateWord(w, a + c, b + d)
  {
    BoxCompose(w.box, a, b, c, d);
    forall i | 0 <= i < |w.symbols| {
      SymbolCompose(w.symbols[i], a, b, c, d);
    }
  }

  lemma ParagraphCompose(p: Paragraph, a: int, b: int, c: int, d: int)
    ensures TranslateParagraph(TranslateParagraph(p, a, b), c, d) == TranslateParagraph(p, a + c, b + d)
  {
    BoxCompose(p.box, a, b, c, d);
    forall i | 0 <= i < |p.words| {
      WordCompose(p.words[i], a, b, c, d);
    }
  }

  lemma BlockCompose(bl: Block, a: int, b: int, c: int, d: int)
    ensures TranslateBlock(TranslateBlock(bl, a, b), c, d) == TranslateBlock(bl, a + c, b + d)
  {
    BoxCompose(bl.box, a, b, c, d);
    forall i | 0 <= i < |bl.paragraphs| {
      ParagraphCompose(bl.paragraphs[i], a, b, c, d);
    }
  }

  lemma PageCompose(p: Page, a: int, b: int, c: int, d: int)
    ensures TranslatePage(TranslatePage(p, a, b), c, d) == TranslatePage(p, a + c, b + d)
  {
    forall i | 0 <= i < |p.blocks| {
      BlockCompose(p.blocks[i], a, b, c, d);
    }
  }

  /** Translating pages by (a, b) and then by (c, d) is translating them by (a + c, b + d). */
  lemma TranslateCompose(ps: seq<Page>, a: int, b: int, c: int, d: int)
    ensures TranslatePages(TranslatePages(ps, a, b), c, d) == TranslatePages(ps, a + c, b + d)
  {
    forall i | 0 <= i < |ps| {
      PageCompose(ps[i], a, b, c, d);
    }
  }

  // Translating by (0, 0) changes nothing.

  lemma BoxZero(box: BoundingBox)
    ensures TranslateBox(box, 0, 0) == box
  {
  }

  lemma WordZero(w: Word)
    ensures TranslateWord(w, 0, 0) == w
  {
    BoxZero(w.box);
    forall i | 0 <= i < |w.symbols| ensures TranslateSymbol(w.symbols[i], 0, 0) == w.symbols[i] {
      BoxZero(w.symbols[i].box);
    }
  }

  lemma ParagraphZero(p: Paragraph)
    ensures TranslateParagraph(p, 0, 0) == p
  {
    BoxZero(p.box);
    forall i | 0 <= i < |p.words| {
      WordZero(p.words[i]);
    }
  }

  lemma BlockZero(b: Block)
    ensures TranslateBlock(b, 0, 0) == b
  {
    BoxZero(b.box);
    forall i | 0 <= i < |b.paragraphs| {
      ParagraphZero(b.paragraphs[i]);
    }
  }

  lemma PageZero(p: Page)
    ensures TranslatePage(p, 0, 0) == p
  {
    forall i | 0 <= i < |p.blocks| {
      BlockZero(p.blocks[i]);
    }
  }

  /** Translating by (0, 0) is the identity. */
  lemma TranslateZero(ps: seq<Page>)
    ensures TranslatePages(ps, 0, 0) == ps
  {
    forall i | 0 <= i < |ps| {
      PageZero(ps[i]);
    }
  }

  /** Translation is undone by the opposite translation, so it loses nothing but position. */
  lemma TranslateInverse(ps: seq<Page>, dx: int, dy: int)
    ensures TranslatePages(TranslatePages(ps, dx, dy), -dx, -dy) == ps
  {
    TranslateCompose(ps, dx, dy, -dx, -dy);
    TranslateZero(ps);
  }

  /** Translation acts page by page, so it distributes over concatenation of page lists. */
  lemma TranslateAppend(a: seq<Page>, b: seq<Page>, dx: int, dy: int)
    ensures TranslatePages(a + b, dx, dy) == TranslatePages(a, dx, dy) + TranslatePages(b, dx, dy)
  {
  }
}
