/**
 * The geolocalizer of geolocalizer.py: the first OCR page of a map is
 * turned into a text corpus (confident paragraphs only, symbols joined with
 * the detected breaks, every run of characters other than ASCII letters and
 * digits turned into one space), the entity extractor's ADDRESS and
 * LOCATION entities are joined into a query, and the geocoder's results
 * become candidate locations. The three services are parameters.
 */
module Geolocalization {
  import opened Wrappers
  import opened Vision
  import opened Sequences

  /** Paragraphs less confident than this contribute nothing to the corpus. */
  const ConfidenceThreshold: real := 0.9

  /** The entity extractor's entity kinds. */
  datatype EntityType =
    | Unknown | Person | Location | Organization | Event | WorkOfArt | ConsumerGood
    | Other | PhoneNumber | Address | Date | Number | Price

  datatype Entity = Entity(name: string, entityType: EntityType)

  datatype LatLng = LatLng(lat: real, lng: real)

  /** One geocoding result, reduced to `result['geometry']['location']`. */
  datatype GeocodeResult = GeocodeResult(geometry: Geometry)
  datatype Geometry = Geometry(location: LatLng)

  /** The exceptions the geolocalizer raises. */
  datatype GeoError = MissingApiKey | MissingUri | VisionFailure(code: int)

  /** A geolocalizer: the OCR service on an image URI, the entity extractor and the geocoder. */
  datatype Geolocalizer = Geolocalizer(
    vision: string -> Reply,
    nlp: string -> seq<Entity>,
    geocoder: string -> seq<GeocodeResult>)

  /** `Geolocalizer(api_key)`: refused exactly when the key is empty. */
  function NewGeolocalizer(apiKey: string, vision: string -> Reply, nlp: string -> seq<Entity>,
                           geocoder: string -> seq<GeocodeResult>): (r: Result<Geolocalizer, GeoError>)
    ensures r.Failure? <==> apiKey == []
    ensures r.Failure? ==> r.error == MissingApiKey
  {
    if apiKey == [] then Failure(MissingApiKey) else Success(Geolocalizer(vision, nlp, geocoder))
  }

  /**
   * `_detect_texts`: an empty URI and a non-zero service error code are
   * refused; an answer without pages gives no page; otherwise the first page.
   */
  function DetectTexts(g: Geolocalizer, uri: string): (r: Result<Option<Page>, GeoError>)
    ensures r == Failure(MissingUri) <==> uri == []
    ensures uri != [] ==> (r.Failure? <==> g.vision(uri).errorCode != 0)
    ensures r.Success? && r.value.Some? <==>
            uri != [] && g.vision(uri).errorCode == 0 && g.vision(uri).document.pages != []
    ensures r.Success? && r.value.Some? ==> r.value.value == g.vision(uri).document.pages[0]
  {
    if uri == [] then
      Failure(MissingUri)
    else
      var response := g.vision(uri);
      if response.errorCode != 0 then Failure(VisionFailure(response.errorCode))
      else if response.document.pages == [] then Success(None)
      else Success(Some(response.document.pages[0]))
  }

  // The raw corpus of a page.

  /** A symbol's text, followed by a space when a break was detected after it. */
  function SymbolText(s: Symbol): string
  {
    s.text + (if s.breakType != 0 then " " else "")
  }

  function WordText(w: Word): string
  {
    Concat(w.symbols, SymbolText)
  }

  predicate Confident(p: Paragraph)
  {
    !(p.confidence < ConfidenceThreshold)
  }

  function ParagraphText(p: Paragraph): string
  {
    if Confident(p) then Concat(p.words, WordText) else ""
  }

  function BlockText(b: Block): string
  {
    Concat(b.paragraphs, ParagraphText)
  }

  /** The text the nested loops of `_process_and_combine_texts` accumulate, before cleaning. */
  function PageCorpus(page: Page): string
  {
    Concat(page.blocks, BlockText)
  }

  /** The symbols of confident paragraphs, in block/paragraph/word/symbol order. */
  function WordSymbols(w: Word): seq<Symbol> { w.symbols }

  function ParagraphSymbols(p: Paragraph): seq<Symbol>
  {
    if Confident(p) then Concat(p.words, WordSymbols) else []
  }

  function BlockSymbols(b: Block): seq<Symbol>
  {
    Concat(b.paragraphs, ParagraphSymbols)
  }

  function KeptSymbols(page: Page): seq<Symbol>
  {
    Concat(page.blocks, BlockSymbols)
  }

  /**
   * The corpus is the text of exactly the symbols of confident paragraphs,
   * in document order, each followed by a space when a break follows it.
   */
  lemma CorpusIsKeptSymbols(page: Page)
    ensures PageCorpus(page) == Concat(KeptSymbols(page), SymbolText)
  {
    forall b | b in page.blocks ensures BlockText(b) == Concat(BlockSymbols(b), SymbolText) {
      forall p | p in b.paragraphs ensures ParagraphText(p) == Concat(ParagraphSymbols(p), SymbolText) {
        if Confident(p) {
          ConcatFlatten(p.words, WordSymbols, SymbolText, WordText);
        }
      }
      ConcatFlatten(b.paragraphs, ParagraphSymbols, SymbolText, ParagraphText);
    }
    ConcatFlatten(page.blocks, BlockSymbols, SymbolText, BlockText);
  }

  /**
   * A paragraph below the confidence threshold can be removed from its
   * block without changing the corpus.
   */
  lemma UnconfidentParagraphIgnored(page: Page, b: nat, q: nat)
    requires b < |page.blocks| && q < |page.blocks[b].paragraphs|
    requires page.blocks[b].paragraphs[q].confidence < ConfidenceThreshold
    ensures var block := page.blocks[b];
            var block' := block.(paragraphs := block.paragraphs[..q] + block.paragraphs[q + 1..]);
            PageCorpus(page.(blocks := page.blocks[b := block'])) == PageCorpus(page)
  {
    var block := page.blocks[b];
    var block' := block.(paragraphs := block.paragraphs[..q] + block.paragraphs[q + 1..]);
    UnconfidentParagraphAddsNothing(block, q);
    ConcatPointwise(page.blocks, BlockText, page.blocks[b := block'], BlockText);
  }

  /** Within one block: dropping a paragraph below the threshold leaves the block's text unchanged. */
  lemma UnconfidentParagraphAddsNothing(block: Block, q: nat)
    requires q < |block.paragraphs| && block.paragraphs[q].confidence < ConfidenceThreshold
    ensures BlockText(block.(paragraphs := block.paragraphs[..q] + block.paragraphs[q + 1..])) == BlockText(block)
  {
    var ps := block.paragraphs;
    var front, back := ps[..q], ps[q + 1..];
    assert Concat([ps[q]], ParagraphText) == [] by {
      assert [ps[q]][..0] == [];
    }
    calc {
      BlockText(block);
      { assert ps == (front + [ps[q]]) + back; }
      Concat((front + [ps[q]]) + back, ParagraphText);
      { ConcatAppend(front + [ps[q]], back, ParagraphText); }
      Concat(front + [ps[q]], ParagraphText) + Concat(back, ParagraphText);
      { ConcatAppend(front, [ps[q]], ParagraphText); }
      Concat(front, ParagraphText) + Concat(back, ParagraphText);
      { ConcatAppend(front, back, ParagraphText); }
      BlockText(block.(paragraphs := front + back));
    }
  }

  /** Translating a page's boxes, as the tiler's merge does, leaves its corpus unchanged. */
  lemma CorpusIgnoresGeometry(page: Page, dx: int, dy: int)
    ensures PageCorpus(TranslatePage(page, dx, dy)) == PageCorpus(page)
  {
    var page' := TranslatePage(page, dx, dy);
    forall i | 0 <= i < |page.blocks| ensures BlockText(page'.blocks[i]) == BlockText(page.blocks[i]) {
      var b := page.blocks[i];
      var b' := page'.blocks[i];
      forall j | 0 <= j < |b.paragraphs| ensures ParagraphText(b'.paragraphs[j]) == ParagraphText(b.paragraphs[j]) {
        var p := b.paragraphs[j];
        var p' := b'.paragraphs[j];
        forall k | 0 <= k < |p.words| ensures WordText(p'.words[k]) == WordText(p.words[k]) {
          ConcatPointwise(p'.words[k].symbols, SymbolText, p.words[k].symbols, SymbolText);
        }
        ConcatPointwise(p'.words, WordText, p.words, WordText);
      }
      ConcatPointwise(b'.paragraphs, ParagraphText, b.paragraphs, ParagraphText);
    }
    ConcatPointwise(page'.blocks, BlockText, page.blocks, BlockText);
  }

  /** The innermost loop of `_process_and_combine_texts`: one word's symbols, with spaces at breaks. */
  method CombineSymbols(word: Word) returns (symbols: string)
    ensures symbols == WordText(word)
  {
    symbols := "";
    var k := 0;
    while k < |word.symbols|
      invariant 0 <= k <= |word.symbols|
      invariant symbols == Concat(word.symbols[..k], SymbolText)
    {
      symbols := symbols + word.symbols[k].text;
      if word.symbols[k].breakType != 0 {
        symbols := symbols + " ";
      }
      ConcatStep(word.symbols, k, SymbolText);
      k := k + 1;
    }
    assert word.symbols[..k] == word.symbols;
  }

  /** The word loop of `_process_and_combine_texts` for one paragraph, skipped below the threshold. */
  method CombineWords(paragraph: Paragraph) returns (text: string)
    ensures text == ParagraphText(paragraph)
  {
    text := "";
    if paragraph.confidence < ConfidenceThreshold {
      return;
    }
    var w := 0;
    while w < |paragraph.words|
      invariant 0 <= w <= |paragraph.words|
      invariant text == Concat(paragraph.words[..w], WordText)
    {
      var symbols := CombineSymbols(paragraph.words[w]);
      text := text + symbols;
      ConcatStep(paragraph.words, w, WordText);
      w := w + 1;
    }
    assert paragraph.words[..w] == paragraph.words;
  }

  /** The paragraph loop of `_process_and_combine_texts` for one block. */
  method CombineParagraphs(block: Block) returns (text: string)
    ensures text == BlockText(block)
  {
    text := "";
    var q := 0;
    while q < |block.paragraphs|
      invariant 0 <= q <= |block.paragraphs|
      invariant text == Concat(block.paragraphs[..q], ParagraphText)
    {
      var paragraphText := CombineWords(block.paragraphs[q]);
      text := text + paragraphText;
      ConcatStep(block.paragraphs, q, ParagraphText);
      q := q + 1;
    }
    assert block.paragraphs[..q] == block.paragraphs;
  }

  /** The block loop of `_process_and_combine_texts`, which builds the raw corpus. */
  method CombineTexts(page: Page) returns (words: string)
    ensures words == PageCorpus(page)
  {
    words := "";
    var b := 0;
    while b < |page.blocks|
      invariant 0 <= b <= |page.blocks|
      invariant words == Concat(page.blocks[..b], BlockText)
    {
      var blockText := CombineParagraphs(page.blocks[b]);
      words := words + blockText;
      ConcatStep(page.blocks, b, BlockText);
      b := b + 1;
    }
    assert page.blocks[..b] == page.blocks;
  }

  // Cleaning: every maximal run of characters other than ASCII letters and digits becomes one space.

  predicate IsAlnum(c: char)
  {
    '0' <= c <= '9' || 'A' <= c <= 'Z' || 'a' <= c <= 'z'
  }

  /** The text after a leading run of characters that are not ASCII letters or digits. */
  function SkipSeparators(s: string): (r: string)
    ensures |r| <= |s| && r == s[|s| - |r|..]
    ensures r == [] || IsAlnum(r[0])
    ensures forall i :: 0 <= i < |s| - |r| ==> !IsAlnum(s[i])
  {
    if s == [] || IsAlnum(s[0]) then s else SkipSeparators(s[1..])
  }

  /** Only ASCII letters, digits and spaces. */
  predicate InAlphabet(t: string)
  {
    forall i :: 0 <= i < |t| ==> IsAlnum(t[i]) || t[i] == ' '
  }

  /** No space follows a space. */
  predicate NoDoubleSpace(t: string)
  {
    forall i, j :: 0 <= i < |t| && 0 <= j < |t| && j == i + 1 ==> t[i] != ' ' || t[j] != ' '
  }

  /**
   * Every maximal run of characters other than ASCII letters and digits
   * replaced by one space. The result uses only letters, digits and
   * spaces, never two spaces in a row, is empty exactly when the input is,
   * and starts with the input's first character or a space for a run.
   */
  function Normalize(s: string): (r: string)
    ensures InAlphabet(r) && NoDoubleSpace(r)
    ensures r == [] <==> s == []
    ensures s != [] ==> r[0] == if IsAlnum(s[0]) then s[0] else ' '
    decreases |s|
  {
    if s == [] then []
    else if IsAlnum(s[0]) then
      var rest := Normalize(s[1..]);
      PrependKeepsNormalForm(s[0], rest);
      [s[0]] + rest
    else
      var tail := SkipSeparators(s[1..]);
      var rest := Normalize(tail);
      assert rest == [] || rest[0] == tail[0];
      PrependKeepsNormalForm(' ', rest);
      [' '] + rest
  }

  /** Putting a letter, a digit, or a space before a text that does not start with one, keeps the normal form. */
  lemma PrependKeepsNormalForm(c: char, t: string)
    requires IsAlnum(c) || c == ' '
    requires InAlphabet(t) && NoDoubleSpace(t)
    requires c == ' ' && t != [] ==> t[0] != ' '
    ensures InAlphabet([c] + t) && NoDoubleSpace([c] + t)
  {
    var r := [c] + t;
    assert forall i :: 1 <= i < |r| ==> r[i] == t[i - 1];
  }

  /** The ASCII letters and digits of a text, in order. */
  function Alphanumerics(s: string): string
  {
    if s == [] then [] else (if IsAlnum(s[0]) then [s[0]] else []) + Alphanumerics(s[1..])
  }

  lemma {:induction false} SkipKeepsAlphanumerics(s: string)
    ensures Alphanumerics(SkipSeparators(s)) == Alphanumerics(s)
  {
    if s != [] && !IsAlnum(s[0]) {
      SkipKeepsAlphanumerics(s[1..]);
    }
  }

  /** Cleaning keeps every letter and digit, in order, and adds none. */
  lemma {:induction false} NormalizeKeepsAlphanumerics(s: string)
    ensures Alphanumerics(Normalize(s)) == Alphanumerics(s)
    decreases |s|
  {
    if s != [] {
      if IsAlnum(s[0]) {
        NormalizeKeepsAlphanumerics(s[1..]);
        assert ([s[0]] + Normalize(s[1..]))[1..] == Normalize(s[1..]);
      } else {
        var rest := SkipSeparators(s[1..]);
        NormalizeKeepsAlphanumerics(rest);
        SkipKeepsAlphanumerics(s[1..]);
        assert ([' '] + Normalize(rest))[1..] == Normalize(rest);
      }
    }
  }

  /** A text already in the cleaned form is left as it is. */
  lemma {:induction false} NormalFormIsFixed(t: string)
    requires InAlphabet(t) && NoDoubleSpace(t)
    ensures Normalize(t) == t
    decreases |t|
  {
    if t != [] {
      var rest := t[1..];
      assert InAlphabet(rest) by {
        forall i | 0 <= i < |rest| ensures IsAlnum(rest[i]) || rest[i] == ' ' {
          assert rest[i] == t[i + 1];
        }
      }
      assert NoDoubleSpace(rest) by {
        forall i, j | 0 <= i < j < |rest| && j == i + 1 ensures rest[i] != ' ' || rest[j] != ' ' {
          assert rest[i] == t[i + 1] && rest[j] == t[j + 1];
        }
      }
      if !IsAlnum(t[0]) {
        assert t[0] == ' ';
        if rest != [] {
          assert rest[0] == t[1] && t[1] != ' ';
        }
        assert SkipSeparators(rest) == rest;
      }
      NormalFormIsFixed(rest);
    }
  }

  /** Letters and digits pass through cleaning unchanged and in place. */
  lemma {:induction false} NormalizeKeepsWord(word: string, s: string)
    requires forall i :: 0 <= i < |word| ==> IsAlnum(word[i])
    ensures Normalize(word + s) == word + Normalize(s)
    decreases |word|
  {
    if word != [] {
      HeadTail(word, s);
      WordHead(word + s);
      calc {
        Normalize(word + s);
        [word[0]] + Normalize(word[1..] + s);
        { NormalizeKeepsWord(word[1..], s); }
        [word[0]] + (word[1..] + Normalize(s));
        word + Normalize(s);
      }
    } else {
      assert word + s == s;
    }
  }

  /** Skipping separators in front of text that still holds a letter or digit stops before the appended tail. */
  lemma {:induction false} SkipBeforeAppend(t: string, tail: string)
    requires t != [] && IsAlnum(t[|t| - 1])
    ensures SkipSeparators(t + tail) == SkipSeparators(t) + tail
    decreases |t|
  {
    if !IsAlnum(t[0]) {
      assert (t + tail)[1..] == t[1..] + tail;
      SkipBeforeAppend(t[1..], tail);
    }
  }

  /**
   * A run of separators between two words becomes exactly one space in the
   * same place: the text on either side is cleaned on its own.
   */
  lemma {:induction false} NormalizeSeparatorRun(a: string, sep: string, b: string)
    requires sep != [] && forall i :: 0 <= i < |sep| ==> !IsAlnum(sep[i])
    requires a == [] || IsAlnum(a[|a| - 1])
    requires b == [] || IsAlnum(b[0])
    ensures Normalize(a + sep + b) == Normalize(a) + " " + Normalize(b)
    decreases |a|
  {
    if a == [] {
      EmptyFront(a, sep, Normalize(a), Normalize(b));
      LeadingRun(sep, b);
    } else if IsAlnum(a[0]) {
      NormalizeSeparatorRun(a[1..], sep, b);
      WordBeforeRun(a, sep, b);
    } else {
      SkipKeepsLast(a[1..]);
      NormalizeSeparatorRun(SkipSeparators(a[1..]), sep, b);
      RunBeforeWord(a, sep, b);
    }
  }

  /** A leading run of separators becomes one space. */
  lemma LeadingRun(sep: string, b: string)
    requires sep != [] && forall i :: 0 <= i < |sep| ==> !IsAlnum(sep[i])
    requires b == [] || IsAlnum(b[0])
    ensures Normalize(sep + b) == " " + Normalize(b)
  {
    HeadTail(sep, b);
    SkipWholeRun(sep[1..], b);
    RunHead(sep + b);
  }

  /** Skipping separators never passes the last letter or digit. */
  lemma SkipKeepsLast(t: string)
    requires t != [] && IsAlnum(t[|t| - 1])
    ensures var t' := SkipSeparators(t); t' != [] && IsAlnum(t'[|t'| - 1])
  {
    var t' := SkipSeparators(t);
    assert t' == t[|t| - |t'|..];
  }

  /** The step of `NormalizeSeparatorRun` for a text that starts with a letter or digit. */
  lemma WordBeforeRun(a: string, sep: string, b: string)
    requires a != [] && IsAlnum(a[0])
    requires Normalize(a[1..] + sep + b) == Normalize(a[1..]) + " " + Normalize(b)
    ensures Normalize(a + sep + b) == Normalize(a) + " " + Normalize(b)
  {
    TailOfAppend(a, sep, b);
    WordHead(a + sep + b);
    WordHead(a);
    AppendAssociates([a[0]], Normalize(a[1..]), Normalize(b));
  }

  /** The step of `NormalizeSeparatorRun` for a text that starts with a separator and holds a letter or digit later. */
  lemma RunBeforeWord(a: string, sep: string, b: string)
    requires a != [] && !IsAlnum(a[0]) && IsAlnum(a[|a| - 1])
    requires var t' := SkipSeparators(a[1..]);
             Normalize(t' + sep + b) == Normalize(t') + " " + Normalize(b)
    ensures Normalize(a + sep + b) == Normalize(a) + " " + Normalize(b)
  {
    FrontRunStep(a, sep, b);
    RunHead(a);
    AppendAssociates([' '], Normalize(SkipSeparators(a[1..])), Normalize(b));
  }

  /** Cleaning a text that starts with a separator run inside the front part. */
  lemma FrontRunStep(a: string, sep: string, b: string)
    requires a != [] && !IsAlnum(a[0]) && IsAlnum(a[|a| - 1])
    ensures Normalize(a + sep + b) == [' '] + Normalize(SkipSeparators(a[1..]) + sep + b)
  {
    TailOfAppend(a, sep, b);
    SkipPastFront(a, sep, b);
    RunHead(a + sep + b);
  }

  /** After a leading separator, the skip stops inside the front text, before the appended tail. */
  lemma SkipPastFront(a: string, sep: string, b: string)
    requires a != [] && !IsAlnum(a[0]) && IsAlnum(a[|a| - 1])
    ensures SkipSeparators((a + sep + b)[1..]) == SkipSeparators(a[1..]) + sep + b
  {
    var t := a[1..];
    TailOfAppend(a, sep, b);
    Regroup(t, sep, b);
    SkipBeforeAppend(t, sep + b);
    Regroup(SkipSeparators(t), sep, b);
  }

  /** A whole run of separators is skipped, up to the next letter or digit. */
  lemma {:induction false} SkipWholeRun(sep: string, b: string)
    requires forall i :: 0 <= i < |sep| ==> !IsAlnum(sep[i])
    requires b == [] || IsAlnum(b[0])
    ensures SkipSeparators(sep + b) == b
    decreases |sep|
  {
    if sep != [] {
      assert (sep + b)[1..] == sep[1..] + b;
      SkipWholeRun(sep[1..], b);
    } else {
      assert sep + b == b;
    }
  }

  // Proof steps for `NormalizeKeepsWord` and `NormalizeSeparatorRun`: single
  // unfoldings of `Normalize` and regroupings of concatenated texts, each
  // stated on its own so that the inductive proofs only chain equalities.

  /** The first character and the rest of a text followed by another. */
  lemma HeadTail(p: string, q: string)
    requires p != []
    ensures (p + q)[0] == p[0] && (p + q)[1..] == p[1..] + q
  {
  }

  /** The first character and the rest of a text followed by two more. */
  lemma TailOfAppend(a: string, sep: string, b: string)
    requires a != []
    ensures (a + sep + b)[0] == a[0] && (a + sep + b)[1..] == a[1..] + sep + b
  {
  }

  /** An empty front adds nothing, and neither does its cleaned form. */
  lemma EmptyFront(a: string, sep: string, n: string, m: string)
    requires a == [] && n == []
    ensures a + sep == sep && n + " " + m == " " + m
  {
  }

  /** Concatenation of three texts regroups. */
  lemma Regroup(p: string, q: string, r: string)
    ensures p + q + r == p + (q + r)
  {
  }

  /** Regrouping a text around one space. */
  lemma AppendAssociates(p: string, n: string, m: string)
    ensures p + (n + " " + m) == (p + n) + " " + m
  {
  }

  /** One step of cleaning on a leading letter or digit: it is kept. */
  lemma WordHead(s: string)
    requires s != [] && IsAlnum(s[0])
    ensures Normalize(s) == [s[0]] + Normalize(s[1..])
  {
  }

  /** One step of cleaning on a leading separator: its whole run becomes one space. */
  lemma RunHead(s: string)
    requires s != [] && !IsAlnum(s[0])
    ensures Normalize(s) == [' '] + Normalize(SkipSeparators(s[1..]))
  {
  }

  /** Cleaning twice is cleaning once. */
  lemma NormalizeIdempotent(s: string)
    ensures Normalize(Normalize(s)) == Normalize(s)
  {
    NormalFormIsFixed(Normalize(s));
  }

  // Entities.

  predicate IsPlace(e: Entity)
  {
    e.entityType == Address || e.entityType == Location
  }

  /** What one entity adds to the query: its name and a space, when it is an ADDRESS or a LOCATION. */
  function AddressPiece(e: Entity): string
  {
    if IsPlace(e) then e.name + " " else ""
  }

  /** The query that `_analyze_entities` accumulates. */
  function Addresses(entities: seq<Entity>): string
  {
    Concat(entities, AddressPiece)
  }

  /** The ADDRESS and LOCATION entities, in order. */
  function Places(entities: seq<Entity>): (r: seq<Entity>)
    ensures forall e :: e in r <==> e in entities && IsPlace(e)
    ensures |r| <= |entities|
  {
    if entities == [] then []
    else
      var last := entities[|entities| - 1];
      Places(entities[..|entities| - 1]) + (if IsPlace(last) then [last] else [])
  }

  function NameAndSpace(e: Entity): string { e.name + " " }

  /**
   * The query is `name + ' '` over exactly the ADDRESS and LOCATION
   * entities, in their order; every other entity is dropped.
   */
  lemma {:induction false} AddressesArePlaces(entities: seq<Entity>)
    ensures Addresses(entities) == Concat(Places(entities), NameAndSpace)
    decreases |entities|
  {
    if entities != [] {
      var n := |entities| - 1;
      var last := entities[n];
      AddressesArePlaces(entities[..n]);
      var tail := if IsPlace(last) then [last] else [];
      ConcatAppend(Places(entities[..n]), tail, NameAndSpace);
      assert Concat(tail, NameAndSpace) == AddressPiece(last) by {
        if IsPlace(last) {
          assert [last][..0] == [];
        }
      }
    }
  }

  /** The query is empty exactly when there is no ADDRESS or LOCATION entity. */
  lemma AddressesEmptyIff(entities: seq<Entity>)
    ensures Addresses(entities) == [] <==> Places(entities) == []
  {
    AddressesArePlaces(entities);
    var ps := Places(entities);
    if ps != [] {
      ConcatAppend(ps[..|ps| - 1], [ps[|ps| - 1]], NameAndSpace);
      assert ps[..|ps| - 1] + [ps[|ps| - 1]] == ps;
      assert [ps[|ps| - 1]][..0] == [];
    }
  }

  /** `_analyze_entities`: the entity loop over the extractor's answer for `text`. */
  method AnalyzeEntities(g: Geolocalizer, text: string) returns (addresses: string)
    ensures addresses == Addresses(g.nlp(text))
  {
    var entities := g.nlp(text);
    addresses := "";
    var i := 0;
    while i < |entities|
      invariant 0 <= i <= |entities|
      invariant addresses == Concat(entities[..i], AddressPiece)
    {
      var entity := entities[i];
      if entity.entityType == Address || entity.entityType == Location {
        addresses := addresses + entity.name + " ";
      }
      ConcatStep(entities, i, AddressPiece);
      i := i + 1;
    }
    assert entities[..i] == entities;
  }

  /**
   * What `_process_and_combine_texts` returns: nothing without a page or
   * when the corpus is empty, otherwise the query built from the cleaned
   * corpus.
   */
  function TextBlob(g: Geolocalizer, texts: Option<Page>): (r: Option<string>)
    ensures r.None? <==> texts.None? || PageCorpus(texts.value) == []
  {
    if texts.None? then None
    else
      var words := Normalize(PageCorpus(texts.value));
      if words == [] then None else Some(Addresses(g.nlp(words)))
  }

  method ProcessAndCombineTexts(g: Geolocalizer, texts: Option<Page>) returns (r: Option<string>)
    ensures r == TextBlob(g, texts)
  {
    if texts.None? {
      return None;
    }
    var words := CombineTexts(texts.value);
    words := Normalize(words);
    if words == [] {
      return None;
    }
    var addresses := AnalyzeEntities(g, words);
    return Some(addresses);
  }

  // Geocoding.

  /** The `geometry.location` of every result, in order. */
  function Locations(results: seq<GeocodeResult>): (locations: seq<LatLng>)
    ensures |locations| == |results|
    ensures forall i :: 0 <= i < |results| ==> locations[i] == results[i].geometry.location
  {
    if results == [] then []
    else Locations(results[..|results| - 1]) + [results[|results| - 1].geometry.location]
  }

  /** What `_geocode` returns: nothing for an absent or empty query or no results, else every result's location. */
  function Candidates(g: Geolocalizer, text: Option<string>): (r: Option<seq<LatLng>>)
    ensures r.Some? <==> text.Some? && text.value != [] && g.geocoder(text.value) != []
  {
    if text.None? || text.value == [] then None
    else
      var results := g.geocoder(text.value);
      if results == [] then None else Some(Locations(results))
  }

  method Geocode(g: Geolocalizer, text: Option<string>) returns (candidates: Option<seq<LatLng>>)
    ensures candidates == Candidates(g, text)
  {
    if text.None? || text.value == [] {
      return None;
    }
    var results := g.geocoder(text.value);
    if results == [] {
      return None;
    }
    var locations: seq<LatLng> := [];
    var i := 0;
    while i < |results|
      invariant 0 <= i <= |results|
      invariant locations == Locations(results[..i])
    {
      locations := locations + [results[i].geometry.location];
      assert results[..i + 1][..i] == results[..i];
      i := i + 1;
    }
    assert results[..i] == results;
    return Some(locations);
  }

  /** `geolocalize`: detection, corpus and query, then geocoding, in sequence; a detection error is raised. */
  method Geolocalize(g: Geolocalizer, uri: string)
    returns (r: Result<(Option<string>, Option<seq<LatLng>>), GeoError>)
    ensures DetectTexts(g, uri).Failure? ==> r == Failure(DetectTexts(g, uri).error)
    ensures DetectTexts(g, uri).Success? ==>
            var blob := TextBlob(g, DetectTexts(g, uri).value);
            r == Success((blob, Candidates(g, blob)))
  {
    var texts :- DetectTexts(g, uri);
    var textBlob := ProcessAndCombineTexts(g, texts);
    var candidates := Geocode(g, textBlob);
    return Success((textBlob, candidates));
  }

  /**
   * Candidates are only ever produced from a page whose corpus holds at
   * least one ADDRESS or LOCATION entity according to the extractor.
   */
  lemma CandidatesNeedPlaces(g: Geolocalizer, texts: Option<Page>)
    requires Candidates(g, TextBlob(g, texts)).Some?
    ensures texts.Some?
    ensures exists e :: e in g.nlp(Normalize(PageCorpus(texts.value))) && IsPlace(e)
  {
    var entities := g.nlp(Normalize(PageCorpus(texts.value)));
    AddressesEmptyIff(entities);
    var ps := Places(entities);
    assert ps[0] in ps;
  }
}
