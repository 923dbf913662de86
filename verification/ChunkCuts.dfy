/**
 * Where the chunker cuts: which sentences it splits and into what, and why each chunk ends where it does.
 */
module ChunkCuts {
  import opened Chunking
  import opened Chunks
  import Layout

  // ----- chunks ----------------------------------------------------------------------------------------------------

  /**
   * spans[hi] must not join the chunk spans[lo..hi]: it would not fit, or the chunk is large enough and either would
   * pass its target size or the section ends.
   */
  predicate Due(spans: seq<Span>, lo: nat, hi: nat, c: Config)
    requires lo < hi < |spans|
  {
    var n := Tokens(spans[lo..hi]);
    || n + spans[hi].tokens > c.max
    || (n >= c.min && (n + spans[hi].tokens > c.target || spans[hi].section != spans[hi - 1].section))
  }

  lemma {:induction false} CutIsDue(spans: seq<Span>, lo: nat, hi: nat, c: Config)
    requires lo < hi < |spans|
    ensures Cut(spans[lo..hi], spans[hi], c) <==> Due(spans, lo, hi, c)
  {}

  lemma {:induction false} GrewWithoutCut(spans: seq<Span>, ws: seq<Window>, w: Window, c: Config, m: nat)
    requires Follows(spans, ws, w, c) && EndOf(ws) < m < w.hi
    ensures w.lo < m < |spans| && !Due(spans, w.lo, m, c)
    decreases w.hi
  {
    if m == w.hi - 1 { CutIsDue(spans, w.lo, m, c); } else { GrewWithoutCut(spans, ws, Window(w.lo, w.hi - 1), c, m); }
  }

  /**
   * A chunk ends exactly at the first of its new spans after which a cut is due; the last one that is not merged, where
   * the spans end.
   */
  lemma {:induction false} EndsAtFirstDueCut(spans: seq<Span>, ws: seq<Window>, cut: nat, c: Config, k: nat)
    requires Windows(spans, ws, cut, c) && k < |ws|
    ensures var w := Unmerged(ws, cut, k);
            && w.lo <= EndOf(ws[..k]) < w.hi <= |spans|
            && (w.hi < |spans| ==> Due(spans, w.lo, w.hi, c))
            && (w.hi == |spans| ==> k == |ws| - 1)
            && forall m :: EndOf(ws[..k]) < m < w.hi ==> w.lo < m < |spans| && !Due(spans, w.lo, m, c)
  {
    var w := Unmerged(ws, cut, k);
    WindowAt(spans, ws, cut, c, k);
    WindowBounds(spans, ws, cut, c, k);
    if w.hi < |spans| { CutIsDue(spans, w.lo, w.hi, c); }
    forall m | EndOf(ws[..k]) < m < w.hi ensures w.lo < m < |spans| && !Due(spans, w.lo, m, c) {
      GrewWithoutCut(spans, ws[..k], w, c, m);
    }
  }

  /** The spans left after the last cut join the chunk before them exactly if they are few and fit. */
  lemma {:induction false} MergedIffSmall(spans: seq<Span>, ws: seq<Window>, cut: nat, c: Config)
    requires Windows(spans, ws, cut, c) && ws != []
    ensures var k := |ws| - 1;
            && ws[k].lo < cut <= |spans|
            && (cut < |spans| ==>
                  Tokens(spans[cut..]) < c.min && Tokens(spans[ws[k].lo..cut]) + Tokens(spans[cut..]) <= c.max)
            && (cut == |spans| && k > 0 ==>
                  && ws[k - 1].lo <= ws[k - 1].hi <= |spans|
                  && (|| Tokens(spans[ws[k - 1].hi..]) >= c.min
                      || Tokens(spans[ws[k - 1].lo..ws[k - 1].hi]) + Tokens(spans[ws[k - 1].hi..]) > c.max))
  {
    var k := |ws| - 1;
    WindowBounds(spans, ws, cut, c, k);
    if k > 0 { WindowBounds(spans, ws, cut, c, k - 1); }
    if cut < |spans| { IsMerged(spans, ws, cut, c); } else if k > 0 { assert ws[..k][k - 1] == ws[k - 1]; }
  }

  lemma {:induction false} IsMerged(spans: seq<Span>, ws: seq<Window>, cut: nat, c: Config)
    requires Windows(spans, ws, cut, c) && ws != [] && cut != |spans|
    ensures Merges(spans, ws[..|ws| - 1] + [Window(ws[|ws| - 1].lo, cut)], c)
  {}

  // ----- sentences -------------------------------------------------------------------------------------------------

  /** q is a / b rounded up. */
  predicate RoundsUp(q: nat, a: nat, b: nat) { q * b >= a && (q > 0 ==> (q - 1) * b < a) }

  lemma {:induction false} CeilIs(a: nat, b: nat)
    requires b > 0
    ensures RoundsUp(CeilDiv(a, b), a, b)
  {
    CeilDivRoundsUp(a, b);
    if CeilDiv(a, b) > 0 { OneLess(CeilDiv(a, b), b); }
  }

  lemma {:induction false} OneLess(q: nat, b: nat)
    requires q > 0
    ensures (q - 1) * b == q * b - b
  {}

  /** split(" ") gives the words between the spaces: joined with spaces they are the text again. */
  lemma {:induction false} WordsAreSplit(s: string)
    ensures Unwords(Words(s)) == s
    ensures forall w :: w in Words(s) ==> ' ' !in w
  {
    UnwordsWords(s);
    NoSpaces(s);
  }

  lemma {:induction false} NoSpaces(s: string)
    ensures forall w :: w in Words(s) ==> ' ' !in w
  {
    if s != "" {
      NoSpaces(s[1..]);
      var w := Words(s[1..]);
      assert w[0] in w;
      forall x | x in Words(s) ensures ' ' !in x { if x != Words(s)[0] { assert x in w; } }
    }
  }

  /** The n-th of the pieces of `per` words. */
  function Piece(words: seq<string>, per: nat, n: nat): string
    requires n * per <= |words|
  {
    Unwords(words[n * per..if n * per + per <= |words| then n * per + per else |words|])
  }

  /** p is the next `per` words from words[from] on, or as many as there are. */
  ghost predicate IsWords(
      text: string, section: string, words: seq<string>, per: nat, share: nat -> nat, from: nat, p: Span)
  {
    && from < |words| && p.start <= p.end <= |text| && p.section == section && p.tokens == share(p.end - p.start)
    && text[p.start..p.end] == Unwords(words[from..if from + per <= |words| then from + per else |words|])
  }

  lemma {:induction false} FirstPiece(
      text: string, section: string, words: seq<string>, per: nat, share: nat -> nat, i: nat, offset: nat, end: nat)
    requires per > 0 && i < |words| && offset <= end <= |text| && text[offset..end] == Unwords(words[i..])
    ensures IsWords(text, section, words, per, share, i, PiecesFrom(section, words, per, share, i, offset)[0])
  {
    var j := if i + per <= |words| then i + per else |words|;
    if j < |words| { FrontOf(text, words, i, j, offset, end); } else { assert words[i..j] == words[i..]; }
  }

  lemma {:induction false} PiecesAre(
      text: string, section: string, words: seq<string>, per: nat, share: nat -> nat, i: nat, offset: nat, end: nat,
      k: nat, from: nat, p: Span)
    requires per > 0 && i < |words| && offset <= end <= |text| && text[offset..end] == Unwords(words[i..])
    requires k < |PiecesFrom(section, words, per, share, i, offset)|
    requires from == After(i, per, k) && p == PiecesFrom(section, words, per, share, i, offset)[k]
    ensures IsWords(text, section, words, per, share, from, p)
    decreases |words| - i
  {
    if k == 0 {
      FirstPiece(text, section, words, per, share, i, offset, end);
    } else {
      MorePieces(section, words, per, share, i, offset, k);
      RestStarts(text, words, per, i, offset, end);
      PiecesAre(text, section, words, per, share, i + per, NextStart(words, per, i, offset), end, k - 1, from, p);
    }
  }

  /** Where the piece after that of words[i..i + per] starts. */
  function NextStart(words: seq<string>, per: nat, i: nat, offset: nat): nat
    requires i + per <= |words|
  {
    offset + |Unwords(words[i..i + per])| + 1
  }

  lemma {:induction false} RestStarts(text: string, words: seq<string>, per: nat, i: nat, offset: nat, end: nat)
    requires per > 0 && i + per < |words| && offset <= end <= |text| && text[offset..end] == Unwords(words[i..])
    ensures var next := NextStart(words, per, i, offset); next <= end && text[next..end] == Unwords(words[i + per..])
  {
    SplitsAt(text, words, i, i + per, offset, end);
  }

  /** i + k * per */
  function After(i: nat, per: nat, k: nat): nat
    decreases k
  {
    if k == 0 then i else After(i + per, per, k - 1)
  }

  lemma {:induction false} AfterIs(i: nat, per: nat, k: nat)
    ensures After(i, per, k) == i + k * per
    decreases k
  {
    if k > 0 {
      AfterIs(i + per, per, k - 1);
      OneLess(k, per);
    }
  }

  lemma {:induction false} MorePieces(
      section: string, words: seq<string>, per: nat, share: nat -> nat, i: nat, offset: nat, k: nat)
    requires per > 0 && i < |words| && 0 < k < |PiecesFrom(section, words, per, share, i, offset)|
    ensures i + per < |words|
    ensures var rest := PiecesFrom(section, words, per, share, i + per, NextStart(words, per, i, offset));
            k - 1 < |rest| && PiecesFrom(section, words, per, share, i, offset)[k] == rest[k - 1]
  {}

  lemma {:induction false} FrontOf(text: string, words: seq<string>, i: nat, j: nat, offset: nat, end: nat)
    requires i < j < |words| && offset <= end <= |text| && text[offset..end] == Unwords(words[i..])
    ensures var n := |Unwords(words[i..j])|; offset + n <= |text| && text[offset..offset + n] == Unwords(words[i..j])
  {
    var piece := Unwords(words[i..j]);
    UnwordsSplit(words[i..], j - i);
    assert words[i..][..j - i] == words[i..j] && words[i..][j - i..] == words[j..];
    assert text[offset..end][..|piece|] == piece;
  }

  lemma {:induction false} PieceCount(
      section: string, words: seq<string>, per: nat, share: nat -> nat, i: nat, offset: nat)
    requires per > 0 && i <= |words|
    ensures RoundsUp(|PiecesFrom(section, words, per, share, i, offset)|, |words| - i, per)
    decreases |words| - i
  {
    if i < |words| {
      var j := if i + per <= |words| then i + per else |words|;
      var next := offset + |Unwords(words[i..j])| + 1;
      PieceCount(section, words, per, share, j, next);
      var n := |PiecesFrom(section, words, per, share, j, next)|;
      OneLess(n + 1, per);
      if n > 0 { OneLess(n, per); }
    }
  }

  /** What an over-long sentence is split into. */
  ghost predicate Splits(text: string, s: Span, max: nat, pieces: seq<Span>, m: nat, per: nat)
    requires s.start <= s.end <= |text|
  {
    var words := Words(text[s.start..s.end]);
    && RoundsUp(m, s.tokens, max)
    && per > 0 && RoundsUp(per, |words|, m + 1)
    && RoundsUp(|pieces|, |words|, per)
    && forall k :: 0 <= k < |pieces| ==> IsPiece(text, s, pieces[k], words, per, k)
  }

  /** The k-th piece is the k-th `per` words, with its part of the tokens, rounded up. */
  ghost predicate IsPiece(text: string, s: Span, p: Span, words: seq<string>, per: nat, k: nat)
    requires s.start <= s.end <= |text|
  {
    && p.section == s.section && k * per <= |words| && p.start <= p.end <= |text|
    && text[p.start..p.end] == Piece(words, per, k)
    && RoundsUp(p.tokens, s.tokens * (p.end - p.start), if s.end > s.start then s.end - s.start else 1)
  }

  /**
   * An over-long sentence is split into pieces of equally many words, but for the last: as many words as make one piece
   * more than its tokens fill chunks.
   */
  lemma {:induction false} SplitEvenly(text: string, s: Span, max: nat) returns (m: nat, per: nat)
    requires s.start <= s.end <= |text| && max > 0
    ensures Splits(text, s, max, SplitLong(text, s, max), m, per)
  {
    var words := Words(text[s.start..s.end]);
    m := CeilDiv(s.tokens, max);
    per := CeilDiv(|words|, m + 1);
    CeilIs(s.tokens, max);
    CeilIs(|words|, m + 1);
    var length := if s.end > s.start then s.end - s.start else 1;
    PieceCount(s.section, words, per, Share(s.tokens, length), 0, s.start);
    forall k | 0 <= k < |SplitLong(text, s, max)|
      ensures IsPiece(text, s, SplitLong(text, s, max)[k], words, per, k)
    {
      PieceOf(text, s, words, per, length, k);
    }
  }

  lemma {:induction false} PieceOf(text: string, s: Span, words: seq<string>, per: nat, length: nat, k: nat)
    requires s.start <= s.end <= |text| && words == Words(text[s.start..s.end]) && per > 0
    requires length == if s.end > s.start then s.end - s.start else 1
    requires k < |PiecesFrom(s.section, words, per, Share(s.tokens, length), 0, s.start)|
    ensures IsPiece(text, s, PiecesFrom(s.section, words, per, Share(s.tokens, length), 0, s.start)[k], words, per, k)
  {
    var share := Share(s.tokens, length);
    var p := PiecesFrom(s.section, words, per, share, 0, s.start)[k];
    UnwordsWords(text[s.start..s.end]);
    assert words[0..] == words;
    PiecesAre(text, s.section, words, per, share, 0, s.start, s.end, k, After(0, per, k), p);
    AfterIs(0, per, k);
    WordsArePiece(text, s, words, per, length, k, p);
  }

  lemma {:induction false} WordsArePiece(
      text: string, s: Span, words: seq<string>, per: nat, length: nat, k: nat, p: Span)
    requires s.start <= s.end <= |text| && length == if s.end > s.start then s.end - s.start else 1
    requires IsWords(text, s.section, words, per, Share(s.tokens, length), k * per, p)
    ensures IsPiece(text, s, p, words, per, k)
  {
    CeilIs(s.tokens * (p.end - p.start), length);
  }

  /** What a sentence becomes: one span if it fits, and otherwise its pieces. */
  ghost predicate Becomes(text: string, r: Layout.Range, count: string -> nat, max: nat, spans: seq<Span>) {
    && max > 0 && r.start <= r.end <= |text|
    && var s := Span(r.name, r.start, r.end, count(text[r.start..r.end]));
       (s.tokens <= max ==> spans == [s]) && (s.tokens > max ==> spans == SplitLong(text, s, max))
  }

  function Flat(parts: seq<seq<Span>>): seq<Span> {
    if parts == [] then [] else Flat(parts[..|parts| - 1]) + parts[|parts| - 1]
  }

  /** The spans of a document are what its sentences become, one after the other. */
  lemma {:induction false} SpansAreSentences(
      text: string, raw: seq<Layout.Range>, count: string -> nat, max: nat, n: nat) returns (parts: seq<seq<Span>>)
    requires n <= |raw| && max > 0 && forall r :: r in raw ==> r.start <= r.end <= |text|
    ensures |parts| == n && SpansOf(text, raw, count, max, n) == Flat(parts)
    ensures forall i :: 0 <= i < n ==> Becomes(text, raw[i], count, max, parts[i])
  {
    parts := [];
    if n > 0 {
      var before := SpansAreSentences(text, raw, count, max, n - 1);
      var part := LastSentence(text, raw, count, max, n);
      parts := before + [part];
      assert parts[..n - 1] == before;
    }
  }

  lemma {:induction false} LastSentence(
      text: string, raw: seq<Layout.Range>, count: string -> nat, max: nat, n: nat) returns (part: seq<Span>)
    requires 0 < n <= |raw| && max > 0 && forall r :: r in raw ==> r.start <= r.end <= |text|
    ensures Becomes(text, raw[n - 1], count, max, part)
    ensures SpansOf(text, raw, count, max, n) == SpansOf(text, raw, count, max, n - 1) + part
  {
    assert raw[n - 1] in raw;
    var r := raw[n - 1];
    var s := Span(r.name, r.start, r.end, count(text[r.start..r.end]));
    part := if s.tokens > max then SplitLong(text, s, max) else [s];
  }
}
