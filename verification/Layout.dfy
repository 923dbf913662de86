/**
 * The canonical text of a paper and the reader that takes it apart again.
 *
 * LayOut prints headings and paragraphs with exact offsets; Blocks splits the printed text at blank lines.  The two
 * meet in BlocksRecoverExactly: the reader gives back the printed pieces if and only if no piece contains a blank
 * line and none but the last ends in a newline.
 */
module Layout {
  import opened Documents

  /** A labelled range of the canonical text. */
  datatype Range = Range(name: string, start: nat, end: nat)

  /** The text printed so far, with the ranges of its sentences and of its headings. */
  datatype Page = Page(text: string, spans: seq<Range>, heads: seq<Range>)

  const PARAGRAPH_SEP := "\n\n"

  // ----- what is printed -------------------------------------------------------------------------------------------

  function AddSentences(p: Page, head: string, para: seq<string>, n: nat): Page
    requires n <= |para|
  {
    if n == 0 then p
    else AddSentence(AddSentences(p, head, para, n - 1), n == 1, head, para[n - 1])
  }

  function AddSentence(p: Page, first: bool, head: string, sentence: string): Page {
    var before := p.text + if first then "" else " ";
    Page(before + sentence, p.spans + [Range(head, |before|, |before| + |sentence|)], p.heads)
  }

  function AddParagraphs(p: Page, s: Section, n: nat): Page
    requires n <= |s.paragraphs|
  {
    if n == 0 then p
    else
      var q := AddParagraphs(p, s, n - 1);
      AddSentences(Page(q.text + PARAGRAPH_SEP, q.spans, q.heads), s.head, s.paragraphs[n - 1], |s.paragraphs[n - 1]|)
  }

  function AddHead(p: Page, first: bool, head: string): Page {
    var before := p.text + if first then "" else PARAGRAPH_SEP;
    Page(before + head, p.spans, p.heads + [Range(head, |before|, |before| + |head|)])
  }

  function AddSections(sections: seq<Section>, n: nat): Page
    requires n <= |sections|
  {
    if n == 0 then Page("", [], [])
    else
      AddParagraphs(AddHead(AddSections(sections, n - 1), n == 1, sections[n - 1].head),
                    sections[n - 1], |sections[n - 1].paragraphs|)
  }

  function Printed(sections: seq<Section>): Page { AddSections(sections, |sections|) }

  // ----- the printer -----------------------------------------------------------------------------------------------

  function Concat(parts: seq<string>): string {
    if parts == [] then "" else Concat(parts[..|parts| - 1]) + parts[|parts| - 1]
  }

  lemma {:induction false} ConcatAdds(parts: seq<string>, s: string)
    ensures Concat(parts + [s]) == Concat(parts) + s
  {
    assert (parts + [s])[..|parts|] == parts;
  }

  /** The text pieces in order, joined once at the end; `pos` is the length of what has been added. */
  method LayOut(sections: seq<Section>) returns (text: string, spans: seq<Range>, heads: seq<Range>)
    ensures Page(text, spans, heads) == Printed(sections)
  {
    var parts: seq<string> := [];
    var pos := 0;
    spans, heads := [], [];
    var k := 0;
    while k < |sections|
      invariant 0 <= k <= |sections| && pos == |Concat(parts)|
      invariant Page(Concat(parts), spans, heads) == AddSections(sections, k)
      invariant parts == [] <==> k == 0
    {
      var head, paragraphs := sections[k].head, sections[k].paragraphs;
      if parts != [] {
        ConcatAdds(parts, PARAGRAPH_SEP);
        parts, pos := parts + [PARAGRAPH_SEP], pos + |PARAGRAPH_SEP|;
      }
      ConcatAdds(parts, head);
      heads := heads + [Range(head, pos, pos + |head|)];
      parts, pos := parts + [head], pos + |head|;
      ghost var page := Page(Concat(parts), spans, heads);
      assert page == AddHead(AddSections(sections, k), k == 0, head);
      var j := 0;
      while j < |paragraphs|
        invariant 0 <= j <= |paragraphs| && pos == |Concat(parts)| && parts != []
        invariant Page(Concat(parts), spans, heads) == AddParagraphs(page, sections[k], j)
      {
        ConcatAdds(parts, PARAGRAPH_SEP);
        parts, pos := parts + [PARAGRAPH_SEP], pos + |PARAGRAPH_SEP|;
        parts, pos, spans := AddParagraph(parts, pos, spans, heads, head, paragraphs[j]);
        j := j + 1;
      }
      k := k + 1;
    }
    text := Concat(parts);
  }

  method AddParagraph(parts0: seq<string>, pos0: nat, spans0: seq<Range>, ghost heads: seq<Range>,
                      head: string, para: seq<string>)
    returns (parts: seq<string>, pos: nat, spans: seq<Range>)
    requires pos0 == |Concat(parts0)|
    ensures pos == |Concat(parts)| && (parts0 != [] ==> parts != [])
    ensures Page(Concat(parts), spans, heads)
         == AddSentences(Page(Concat(parts0), spans0, heads), head, para, |para|)
  {
    parts, pos, spans := parts0, pos0, spans0;
    var i := 0;
    while i < |para|
      invariant 0 <= i <= |para| && pos == |Concat(parts)| && (parts0 != [] ==> parts != [])
      invariant Page(Concat(parts), spans, heads)
             == AddSentences(Page(Concat(parts0), spans0, heads), head, para, i)
    {
      if i > 0 {
        ConcatAdds(parts, " ");
        parts, pos := parts + [" "], pos + 1;
      }
      ConcatAdds(parts, para[i]);
      spans := spans + [Range(head, pos, pos + |para[i]|)];
      parts, pos := parts + [para[i]], pos + |para[i]|;
      i := i + 1;
    }
  }

  // ----- offsets are exact -----------------------------------------------------------------------------------------

  /** Every sentence of the document in order, with its section's heading. */
  function Labelled(head: string, para: seq<string>, n: nat): seq<(string, string)>
    requires n <= |para|
  {
    if n == 0 then [] else Labelled(head, para, n - 1) + [(head, para[n - 1])]
  }

  function SectionSentences(s: Section, n: nat): seq<(string, string)>
    requires n <= |s.paragraphs|
  {
    if n == 0 then []
    else SectionSentences(s, n - 1) + Labelled(s.head, s.paragraphs[n - 1], |s.paragraphs[n - 1]|)
  }

  function Sentences(sections: seq<Section>, n: nat): seq<(string, string)>
    requires n <= |sections|
  {
    if n == 0 then []
    else Sentences(sections, n - 1) + SectionSentences(sections[n - 1], |sections[n - 1].paragraphs|)
  }

  ghost predicate SliceIs(text: string, r: Range, name: string, s: string) {
    r.name == name && r.start <= r.end <= |text| && text[r.start..r.end] == s
  }

  /** The spans are the sentences, in order, apart from each other, and each slices back to its sentence. */
  ghost predicate Exact(p: Page, sentences: seq<(string, string)>) {
    && |p.spans| == |sentences|
    && (forall i :: 0 <= i < |sentences| ==> SliceIs(p.text, p.spans[i], sentences[i].0, sentences[i].1))
    && (forall i :: 0 <= i < |sentences| - 1 ==> p.spans[i].end < p.spans[i + 1].start)
  }

  lemma {:induction false} ExactExtends(p: Page, sentences: seq<(string, string)>, more: string)
    requires Exact(p, sentences)
    ensures Exact(Page(p.text + more, p.spans, p.heads), sentences)
  {}

  lemma {:induction false} ExactAdds(p: Page, sentences: seq<(string, string)>, first: bool, head: string, s: string)
    requires Exact(p, sentences) && (if first then Open(p) else sentences != [])
    ensures Exact(AddSentence(p, first, head, s), sentences + [(head, s)])
  {
    if !first { LastSpanEnds(p, sentences); }
    var gap := if first then "" else " ";
    var before := p.text + gap;
    ExactExtends(p, sentences, gap + s);
    assert p.text + (gap + s) == before + s;
    SliceAtEnd(before, s);
    OneMoreSpan(Page(before + s, p.spans, p.heads), sentences, Range(head, |before|, |before| + |s|), s);
  }

  lemma {:induction false} SliceAtEnd(before: string, s: string)
    ensures (before + s)[|before|..|before| + |s|] == s
  {}

  lemma {:induction false} OneMoreSpan(p: Page, sentences: seq<(string, string)>, r: Range, s: string)
    requires Exact(p, sentences) && SliceIs(p.text, r, r.name, s)
    requires p.spans == [] || p.spans[|p.spans| - 1].end < r.start
    ensures Exact(Page(p.text, p.spans + [r], p.heads), sentences + [(r.name, s)])
  {}

  /** A page whose last span, if any, ends before the end of the text. */
  ghost predicate Open(p: Page) { p.spans == [] || p.spans[|p.spans| - 1].end < |p.text| }

  lemma {:induction false} SentencesExact(p: Page, known: seq<(string, string)>, head: string, para: seq<string>,
      n: nat)
    requires n <= |para| && Exact(p, known) && Open(p)
    ensures Exact(AddSentences(p, head, para, n), known + Labelled(head, para, n))
  {
    if n == 0 {
      assert known + [] == known;
    } else {
      SentencesExact(p, known, head, para, n - 1);
      var q, so := AddSentences(p, head, para, n - 1), known + Labelled(head, para, n - 1);
      assert known + Labelled(head, para, n) == so + [(head, para[n - 1])];
      ExactAdds(q, so, n == 1, head, para[n - 1]);
    }
  }

  lemma {:induction false} LastSpanEnds(p: Page, sentences: seq<(string, string)>)
    requires Exact(p, sentences) && sentences != []
    ensures p.spans != [] && p.spans[|p.spans| - 1].end <= |p.text|
  {
    var m := |sentences| - 1;
    assert SliceIs(p.text, p.spans[m], sentences[m].0, sentences[m].1);
  }

  lemma {:induction false} ParagraphsExact(p: Page, known: seq<(string, string)>, s: Section, n: nat)
    requires n <= |s.paragraphs| && Exact(p, known)
    ensures Exact(AddParagraphs(p, s, n), known + SectionSentences(s, n))
  {
    if n == 0 {
      assert known + [] == known;
    } else {
      ParagraphsExact(p, known, s, n - 1);
      var q, so := AddParagraphs(p, s, n - 1), known + SectionSentences(s, n - 1);
      var next, para := Page(q.text + PARAGRAPH_SEP, q.spans, q.heads), s.paragraphs[n - 1];
      ExactExtends(q, so, PARAGRAPH_SEP);
      if so != [] { LastSpanEnds(q, so); }
      SentencesExact(next, so, s.head, para, |para|);
      assert so + Labelled(s.head, para, |para|) == known + SectionSentences(s, n);
    }
  }

  lemma {:induction false} HeadExact(p: Page, first: bool, head: string, known: seq<(string, string)>)
    requires Exact(p, known)
    ensures Exact(AddHead(p, first, head), known)
  {
    var gap := if first then "" else PARAGRAPH_SEP;
    ExactExtends(p, known, gap + head);
    assert AddHead(p, first, head).text == p.text + (gap + head);
  }

  /** Every sentence span of the printed page slices back to its sentence, and the spans follow one another. */
  lemma {:induction false} PageIsExact(sections: seq<Section>, n: nat)
    requires n <= |sections|
    ensures Exact(AddSections(sections, n), Sentences(sections, n))
  {
    if n > 0 {
      PageIsExact(sections, n - 1);
      var p, s := AddSections(sections, n - 1), sections[n - 1];
      HeadExact(p, n == 1, s.head, Sentences(sections, n - 1));
      ParagraphsExact(AddHead(p, n == 1, s.head), Sentences(sections, n - 1), s, |s.paragraphs|);
    }
  }

  // ----- pieces: what the reader should find -----------------------------------------------------------------------

  /** One block of the printed text. */
  datatype Piece = Piece(text: string, heading: bool)

  function JoinSentences(para: seq<string>, n: nat): string
    requires n <= |para|
  {
    if n == 0 then "" else JoinSentences(para, n - 1) + (if n == 1 then "" else " ") + para[n - 1]
  }

  function ParagraphPieces(s: Section, n: nat): seq<Piece>
    requires n <= |s.paragraphs|
  {
    if n == 0 then []
    else ParagraphPieces(s, n - 1) + [Piece(JoinSentences(s.paragraphs[n - 1], |s.paragraphs[n - 1]|), false)]
  }

  function Pieces(sections: seq<Section>, n: nat): seq<Piece>
    requires n <= |sections|
  {
    if n == 0 then []
    else
      Pieces(sections, n - 1) + [Piece(sections[n - 1].head, true)]
        + ParagraphPieces(sections[n - 1], |sections[n - 1].paragraphs|)
  }

  function Joined(pieces: seq<Piece>): string {
    if pieces == [] then ""
    else if |pieces| == 1 then pieces[0].text
    else Joined(pieces[..|pieces| - 1]) + PARAGRAPH_SEP + pieces[|pieces| - 1].text
  }

  /** Where piece i starts in the joined text. */
  function Offset(pieces: seq<Piece>, i: nat): nat
    requires i <= |pieces|
  {
    if i == 0 then 0 else Offset(pieces, i - 1) + |pieces[i - 1].text| + |PARAGRAPH_SEP|
  }

  /** The ranges of the headings among the first n pieces. */
  function HeadRanges(pieces: seq<Piece>, n: nat): seq<Range>
    requires n <= |pieces|
  {
    if n == 0 then []
    else
      var x, start := pieces[n - 1], Offset(pieces, n - 1);
      HeadRanges(pieces, n - 1) + if x.heading then [Range(x.text, start, start + |x.text|)] else []
  }

  lemma {:induction false} SentencesJoin(p: Page, head: string, para: seq<string>, n: nat)
    requires n <= |para|
    ensures AddSentences(p, head, para, n).text == p.text + JoinSentences(para, n)
    ensures AddSentences(p, head, para, n).heads == p.heads
  {
    if n > 0 {
      SentencesJoin(p, head, para, n - 1);
      assert AddSentences(p, head, para, n).text == p.text + JoinSentences(para, n);
    }
  }

  lemma {:induction false} JoinPiece(pieces: seq<Piece>, x: Piece)
    ensures Joined(pieces + [x]) == (if pieces == [] then "" else Joined(pieces) + PARAGRAPH_SEP) + x.text
  {
    assert (pieces + [x])[..|pieces|] == pieces;
  }

  lemma {:induction false} OffsetOfMore(pieces: seq<Piece>, more: seq<Piece>, i: nat)
    requires i <= |pieces|
    ensures Offset(pieces + more, i) == Offset(pieces, i)
  {
    if i > 0 { OffsetOfMore(pieces, more, i - 1); }
  }

  lemma {:induction false} HeadsOfMore(pieces: seq<Piece>, more: seq<Piece>, n: nat)
    requires n <= |pieces|
    ensures HeadRanges(pieces + more, n) == HeadRanges(pieces, n)
  {
    if n > 0 {
      HeadsOfMore(pieces, more, n - 1);
      OffsetOfMore(pieces, more, n - 1);
    }
  }

  lemma {:induction false} OffsetIsLength(pieces: seq<Piece>)
    ensures Offset(pieces, |pieces|) == if pieces == [] then 0 else |Joined(pieces)| + |PARAGRAPH_SEP|
  {
    if pieces != [] {
      var init, last := pieces[..|pieces| - 1], pieces[|pieces| - 1];
      OffsetIsLength(init);
      OffsetOfMore(init, [last], |init|);
      assert init + [last] == pieces;
    }
  }

  lemma {:induction false} HeadPiece(pieces: seq<Piece>, x: Piece)
    ensures var start := if pieces == [] then 0 else |Joined(pieces)| + |PARAGRAPH_SEP|;
            HeadRanges(pieces + [x], |pieces| + 1) == HeadRanges(pieces, |pieces|)
              + if x.heading then [Range(x.text, start, start + |x.text|)] else []
  {
    HeadsOfMore(pieces, [x], |pieces|);
    OffsetOfMore(pieces, [x], |pieces|);
    OffsetIsLength(pieces);
  }

  /** The page shows exactly these pieces. */
  ghost predicate Shows(p: Page, pieces: seq<Piece>) {
    p.text == Joined(pieces) && p.heads == HeadRanges(pieces, |pieces|)
  }

  lemma {:induction false} ShowsMore(p: Page, pieces: seq<Piece>, x: Piece, q: Page)
    requires Shows(p, pieces)
    requires var start := if pieces == [] then 0 else |p.text| + |PARAGRAPH_SEP|;
             && q.text == p.text + (if pieces == [] then "" else PARAGRAPH_SEP) + x.text
             && q.heads == p.heads + if x.heading then [Range(x.text, start, start + |x.text|)] else []
    ensures Shows(q, pieces + [x])
  {
    JoinPiece(pieces, x);
    HeadPiece(pieces, x);
  }

  lemma {:induction false} ParagraphsJoin(p: Page, before: seq<Piece>, s: Section, n: nat)
    requires n <= |s.paragraphs| && before != [] && Shows(p, before)
    ensures Shows(AddParagraphs(p, s, n), before + ParagraphPieces(s, n))
  {
    if n == 0 {
      assert before + [] == before;
    } else {
      ParagraphsJoin(p, before, s, n - 1);
      var q, para, done := AddParagraphs(p, s, n - 1), s.paragraphs[n - 1], before + ParagraphPieces(s, n - 1);
      var x := Piece(JoinSentences(para, |para|), false);
      SentencesJoin(Page(q.text + PARAGRAPH_SEP, q.spans, q.heads), s.head, para, |para|);
      assert before + ParagraphPieces(s, n) == done + [x];
      ShowsMore(q, done, x, AddParagraphs(p, s, n));
    }
  }

  /** The printed page is its pieces joined by blank lines, with the heading ranges where the headings are. */
  lemma {:induction false} PageIsPieces(sections: seq<Section>, n: nat)
    requires n <= |sections|
    ensures Shows(AddSections(sections, n), Pieces(sections, n))
    ensures n > 0 <==> Pieces(sections, n) != []
  {
    if n > 0 {
      PageIsPieces(sections, n - 1);
      var s, p, done := sections[n - 1], AddSections(sections, n - 1), Pieces(sections, n - 1);
      var q := AddHead(p, n == 1, s.head);
      ShowsMore(p, done, Piece(s.head, true), q);
      ParagraphsJoin(q, done + [Piece(s.head, true)], s, |s.paragraphs|);
    }
  }

  // ----- the reader ------------------------------------------------------------------------------------------------

  datatype Block = Block(start: nat, end: nat, heading: bool)

  predicate SepAt(cps: string, i: nat) { i + 1 < |cps| && cps[i] == '\n' && cps[i + 1] == '\n' }

  /** The blocks from `start` on when the scan has reached i. */
  function Scan(cps: string, headings: set<nat>, start: nat, i: nat): seq<Block>
    requires start <= i <= |cps|
    decreases |cps| - i
  {
    if i == |cps| then [Block(start, i, start in headings)]
    else if SepAt(cps, i) then [Block(start, i, start in headings)] + Scan(cps, headings, i + 2, i + 2)
    else Scan(cps, headings, start, i + 1)
  }

  method Blocks(cps: string, heads: seq<Range>) returns (out: seq<Block>)
    ensures out == Scan(cps, Starts(heads), 0, 0)
  {
    var headingStarts := Starts(heads);
    out := [];
    var start, i := 0, 0;
    while i <= |cps|
      invariant 0 <= start && i <= |cps| + 1
      invariant i <= |cps| ==> start <= i
      invariant if i <= |cps| then out + Scan(cps, headingStarts, start, i) == Scan(cps, headingStarts, 0, 0)
                else out == Scan(cps, headingStarts, 0, 0)
    {
      var atSep := i + 1 < |cps| && cps[i] == '\n' && cps[i + 1] == '\n';
      if atSep || i == |cps| {
        out := out + [Block(start, i, start in headingStarts)];
        if atSep {
          start := i + 2;
          i := i + 1;
        }
      }
      i := i + 1;
    }
  }

  function Starts(heads: seq<Range>): set<nat> { set r | r in heads :: r.start }

  /** No blank line inside s, and s does not run into the separator that follows it. */
  predicate Unbroken(s: string, last: bool) {
    && (forall i :: 0 <= i < |s| - 1 ==> !(s[i] == '\n' && s[i + 1] == '\n'))
    && (last || s == "" || s[|s| - 1] != '\n')
  }

  predicate Clean(pieces: seq<Piece>) {
    forall i :: 0 <= i < |pieces| ==> Unbroken(pieces[i].text, i == |pieces| - 1)
  }

  /** The pieces from i on, joined. */
  function Rest(pieces: seq<Piece>, i: nat): string
    requires i < |pieces|
    decreases |pieces| - i
  {
    if i == |pieces| - 1 then pieces[i].text else pieces[i].text + PARAGRAPH_SEP + Rest(pieces, i + 1)
  }

  lemma {:induction false} RestOfInit(pieces: seq<Piece>, i: nat)
    requires i < |pieces| - 1
    ensures Rest(pieces, i) == Rest(pieces[..|pieces| - 1], i) + PARAGRAPH_SEP + pieces[|pieces| - 1].text
    decreases |pieces| - i
  {
    if i < |pieces| - 2 { RestOfInit(pieces, i + 1); }
  }

  lemma {:induction false} RestIsJoined(pieces: seq<Piece>)
    requires pieces != []
    ensures Rest(pieces, 0) == Joined(pieces)
  {
    if |pieces| > 1 {
      RestIsJoined(pieces[..|pieces| - 1]);
      RestOfInit(pieces, 0);
    }
  }

  /** Scanning over an unbroken stretch finds no separator. */
  lemma {:induction false} ScanSkips(cps: string, headings: set<nat>, start: nat, i: nat, j: nat)
    requires start <= i <= j <= |cps| && forall k :: i <= k < j ==> !SepAt(cps, k)
    ensures Scan(cps, headings, start, i) == Scan(cps, headings, start, j)
    decreases j - i
  {
    if i < j { ScanSkips(cps, headings, start, i + 1, j); }
  }

  /** The block of piece i. */
  ghost predicate BlockOf(cps: string, b: Block, p: Piece) {
    b.start <= b.end <= |cps| && cps[b.start..b.end] == p.text
  }

  /** Scanning the joined pieces from piece i yields its block first, then the blocks of the later pieces. */
  lemma {:induction false} FirstBlock(cps: string, headings: set<nat>, pieces: seq<Piece>, i: nat, start: nat)
    requires Clean(pieces) && i < |pieces| && start <= |cps| && cps[start..] == Rest(pieces, i)
    ensures var end := start + |pieces[i].text|;
            && end <= |cps| && cps[start..end] == pieces[i].text
            && (i < |pieces| - 1 ==> end + 2 <= |cps| && cps[end + 2..] == Rest(pieces, i + 1))
            && Scan(cps, headings, start, start)
                 == [Block(start, end, start in headings)]
                      + if i < |pieces| - 1 then Scan(cps, headings, end + 2, end + 2) else []
  {
    var s, last, end := pieces[i].text, i == |pieces| - 1, start + |pieces[i].text|;
    assert Unbroken(s, last);
    assert cps[start..][..|s|] == s;
    assert cps[start..end] == s;
    if !last {
      assert cps[start..][|s|..|s| + 2] == PARAGRAPH_SEP;
      assert cps[end..end + 2] == PARAGRAPH_SEP;
      assert cps[end] == cps[end..end + 2][0] && cps[end + 1] == cps[end..end + 2][1];
      assert cps[start..][|s| + 2..] == cps[end + 2..];
    }
    forall k | start <= k < end ensures !SepAt(cps, k) {
      assert cps[k] == cps[start..end][k - start];
      if k + 1 < end { assert cps[k + 1] == cps[start..end][k + 1 - start]; }
    }
    ScanSkips(cps, headings, start, start, end);
  }

  lemma {:induction false} CleanScan(cps: string, headings: set<nat>, pieces: seq<Piece>, i: nat, start: nat)
    requires Clean(pieces) && i < |pieces| && start <= |cps| && cps[start..] == Rest(pieces, i)
    ensures |Scan(cps, headings, start, start)| == |pieces| - i
    ensures forall k :: i <= k < |pieces| ==> BlockOf(cps, Scan(cps, headings, start, start)[k - i], pieces[k])
  {
    ScanSize(cps, headings, pieces, i, start);
    forall k | i <= k < |pieces| ensures BlockOf(cps, Scan(cps, headings, start, start)[k - i], pieces[k]) {
      ScanAt(cps, headings, pieces, i, start, k);
    }
  }

  lemma {:induction false} ScanSize(cps: string, headings: set<nat>, pieces: seq<Piece>, i: nat, start: nat)
    requires Clean(pieces) && i < |pieces| && start <= |cps| && cps[start..] == Rest(pieces, i)
    ensures |Scan(cps, headings, start, start)| == |pieces| - i
    decreases |pieces| - i
  {
    FirstBlock(cps, headings, pieces, i, start);
    if i < |pieces| - 1 { ScanSize(cps, headings, pieces, i + 1, start + |pieces[i].text| + 2); }
  }

  lemma {:induction false} ScanAt(cps: string, headings: set<nat>, pieces: seq<Piece>, i: nat, start: nat, k: nat)
    requires Clean(pieces) && i <= k < |pieces| && start <= |cps| && cps[start..] == Rest(pieces, i)
    requires |Scan(cps, headings, start, start)| == |pieces| - i
    ensures BlockOf(cps, Scan(cps, headings, start, start)[k - i], pieces[k])
    decreases |pieces| - i
  {
    FirstBlock(cps, headings, pieces, i, start);
    if k > i { ScanAt(cps, headings, pieces, i + 1, start + |pieces[i].text| + 2, k); }
  }

  /** A block is marked by the offset it starts at. */
  lemma {:induction false} ScanMarks(cps: string, headings: set<nat>, start: nat, i: nat, j: nat)
    requires start <= i <= |cps| && j < |Scan(cps, headings, start, i)|
    ensures var b := Scan(cps, headings, start, i)[j];
            b.heading <==> b.start in headings
    decreases |cps| - i
  {
    if i < |cps| {
      if !SepAt(cps, i) {
        ScanMarks(cps, headings, start, i + 1, j);
      } else if j > 0 {
        ScanMarks(cps, headings, i + 2, i + 2, j - 1);
      }
    }
  }

  /** What the scan returns is always clean: blocks hold no blank line and none but the last ends in a newline. */
  lemma {:induction false} ScanIsClean(cps: string, headings: set<nat>, start: nat, i: nat)
    requires start <= i <= |cps| && forall k :: start <= k < i ==> !SepAt(cps, k)
    ensures var bs := Scan(cps, headings, start, i);
            && bs != []
            && forall k :: 0 <= k < |bs| ==>
                 bs[k].start <= bs[k].end <= |cps| && Unbroken(cps[bs[k].start..bs[k].end], k == |bs| - 1)
    decreases |cps| - i
  {
    if i == |cps| || SepAt(cps, i) {
      var s := cps[start..i];
      forall k | 0 <= k < |s| - 1 ensures !(s[k] == '\n' && s[k + 1] == '\n') {
        assert !SepAt(cps, start + k);
      }
      if i < |cps| {
        if s != [] && s[|s| - 1] == '\n' { assert SepAt(cps, i - 1); }
        ScanIsClean(cps, headings, i + 2, i + 2);
      }
    } else {
      ScanIsClean(cps, headings, start, i + 1);
    }
  }

  /** The blocks read back the texts of these pieces, in order. */
  ghost predicate ReadsBack(cps: string, bs: seq<Block>, pieces: seq<Piece>) {
    |bs| == |pieces| && forall k :: 0 <= k < |bs| ==> BlockOf(cps, bs[k], pieces[k])
  }

  /** The reader recovers the pieces exactly when there is one and they are clean. */
  lemma {:induction false} BlocksRecoverExactly(pieces: seq<Piece>, headings: set<nat>)
    ensures var cps := Joined(pieces);
            ReadsBack(cps, Scan(cps, headings, 0, 0), pieces) <==> pieces != [] && Clean(pieces)
  {
    var cps := Joined(pieces);
    if pieces != [] && Clean(pieces) {
      RestIsJoined(pieces);
      assert cps[0..] == cps;
      CleanScan(cps, headings, pieces, 0, 0);
    }
    ScanIsClean(cps, headings, 0, 0);
  }

  // ----- heading flags ---------------------------------------------------------------------------------------------

  lemma {:induction false} HeadStarts(pieces: seq<Piece>, n: nat, x: nat)
    requires n <= |pieces|
    ensures x in Starts(HeadRanges(pieces, n))
       <==> exists i :: 0 <= i < n && pieces[i].heading && x == Offset(pieces, i)
  {
    if n > 0 {
      HeadStarts(pieces, n - 1, x);
      StartsOfMore(HeadRanges(pieces, n - 1),
        if pieces[n - 1].heading
        then [Range(pieces[n - 1].text, Offset(pieces, n - 1), Offset(pieces, n - 1) + |pieces[n - 1].text|)]
            else [], x);
    }
  }

  lemma {:induction false} StartsOfMore(a: seq<Range>, b: seq<Range>, x: nat)
    ensures x in Starts(a + b) <==> x in Starts(a) || x in Starts(b)
  {
    if x in Starts(a) {
      var r :| r in a && r.start == x;
      assert r in a + b;
    }
    if x in Starts(b) {
      var r :| r in b && r.start == x;
      assert r in a + b;
    }
  }

  lemma {:induction false} OffsetsGrow(pieces: seq<Piece>, i: nat, j: nat)
    requires i < j <= |pieces|
    ensures Offset(pieces, i) < Offset(pieces, j)
    decreases j
  {
    if i < j - 1 { OffsetsGrow(pieces, i, j - 1); }
  }

  /** A clean scan's blocks start at the offsets of their pieces. */
  lemma {:induction false} BlockStarts(cps: string, headings: set<nat>, pieces: seq<Piece>, i: nat, start: nat, k: nat)
    requires Clean(pieces) && i <= k < |pieces| && start <= |cps| && cps[start..] == Rest(pieces, i)
    requires start == Offset(pieces, i) && |Scan(cps, headings, start, start)| == |pieces| - i
    ensures Scan(cps, headings, start, start)[k - i].start == Offset(pieces, k)
    decreases |pieces| - i
  {
    FirstBlock(cps, headings, pieces, i, start);
    if k > i {
      BlockStarts(cps, headings, pieces, i + 1, start + |pieces[i].text| + 2, k);
    }
  }

  /**
   * The round trip: for a non-empty document whose headings and sentences contain no newline, the reader recovers
   * the headings and paragraphs in order and flags exactly the headings.
   */
  lemma {:induction false} ReaderRoundTrip(sections: seq<Section>)
    requires sections != [] && NewlineFree(sections)
    ensures var page, pieces := Printed(sections), Pieces(sections, |sections|);
            var bs := Scan(page.text, Starts(page.heads), 0, 0);
            && ReadsBack(page.text, bs, pieces)
            && forall k :: 0 <= k < |bs| ==> bs[k].heading == pieces[k].heading
  {
    var page, pieces := Printed(sections), Pieces(sections, |sections|);
    PageIsPieces(sections, |sections|);
    PiecesAreClean(sections, |sections|);
    BlocksRecoverExactly(pieces, Starts(page.heads));
    FlagsAreExact(pieces);
  }

  lemma {:induction false} FlagsAreExact(pieces: seq<Piece>)
    requires pieces != [] && Clean(pieces)
    ensures var bs := Scan(Joined(pieces), Starts(HeadRanges(pieces, |pieces|)), 0, 0);
            |bs| == |pieces| && forall k :: 0 <= k < |bs| ==> bs[k].heading == pieces[k].heading
  {
    var cps, headings := Joined(pieces), Starts(HeadRanges(pieces, |pieces|));
    RestIsJoined(pieces);
    assert cps[0..] == cps;
    ScanSize(cps, headings, pieces, 0, 0);
    forall k | 0 <= k < |pieces| ensures Scan(cps, headings, 0, 0)[k].heading == pieces[k].heading {
      BlockStarts(cps, headings, pieces, 0, 0, k);
      ScanMarks(cps, headings, 0, 0, k);
      HeadingAt(pieces, k);
    }
  }

  lemma {:induction false} HeadingAt(pieces: seq<Piece>, k: nat)
    requires k < |pieces|
    ensures Offset(pieces, k) in Starts(HeadRanges(pieces, |pieces|)) <==> pieces[k].heading
  {
    HeadStarts(pieces, |pieces|, Offset(pieces, k));
    if i :| 0 <= i < |pieces| && pieces[i].heading && Offset(pieces, k) == Offset(pieces, i) {
      if i < k { OffsetsGrow(pieces, i, k); } else if k < i { OffsetsGrow(pieces, k, i); }
    }
  }

  predicate NewlineFree(sections: seq<Section>) {
    forall s :: s in sections ==>
      '\n' !in s.head && forall para :: para in s.paragraphs ==> forall x :: x in para ==> '\n' !in x
  }

  lemma {:induction false} JoinNewlineFree(para: seq<string>, n: nat)
    requires n <= |para| && forall x :: x in para ==> '\n' !in x
    ensures '\n' !in JoinSentences(para, n)
  {
    if n > 0 {
      JoinNewlineFree(para, n - 1);
      assert para[n - 1] in para;
    }
  }

  lemma {:induction false} ParagraphsAreClean(s: Section, n: nat)
    requires n <= |s.paragraphs| && forall para :: para in s.paragraphs ==> forall x :: x in para ==> '\n' !in x
    ensures forall p :: p in ParagraphPieces(s, n) ==> '\n' !in p.text
  {
    if n > 0 {
      ParagraphsAreClean(s, n - 1);
      assert s.paragraphs[n - 1] in s.paragraphs;
      JoinNewlineFree(s.paragraphs[n - 1], |s.paragraphs[n - 1]|);
    }
  }

  lemma {:induction false} PiecesAreClean(sections: seq<Section>, n: nat)
    requires n <= |sections| && NewlineFree(sections)
    ensures forall p :: p in Pieces(sections, n) ==> '\n' !in p.text
    ensures Clean(Pieces(sections, n))
  {
    if n > 0 {
      PiecesAreClean(sections, n - 1);
      assert sections[n - 1] in sections;
      ParagraphsAreClean(sections[n - 1], |sections[n - 1].paragraphs|);
    }
    var pieces := Pieces(sections, n);
    forall i | 0 <= i < |pieces| ensures Unbroken(pieces[i].text, i == |pieces| - 1) {
      assert pieces[i] in pieces;
    }
  }
}
