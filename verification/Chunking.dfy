/**
 * Sentence-aligned chunks: sliding windows over the sentence spans of a paper's canonical text.
 *
 * The window loop is described exactly by where each window starts and ends (Windows): a window ends at the first
 * span that must not join it, and the next one starts at the overlap that still fits.  What a reader of the chunks
 * relies on (no sentence lost, none duplicated outside the overlap, size limits) is derived from that description.
 */
module Chunking {
  import opened Common
  import Layout

  datatype Config = Config(target: int, max: int, overlap: int, min: int)

  datatype Span = Span(section: string, start: nat, end: nat, tokens: nat)

  datatype Chunk = Chunk(section: string, position: nat, text: string, tokenCount: nat, charStart: nat, charEnd: nat)

  function Tokens(s: seq<Span>): nat {
    if s == [] then 0 else Tokens(s[..|s| - 1]) + s[|s| - 1].tokens
  }

  lemma {:induction false} TokensAdd(s: seq<Span>, x: Span)
    ensures Tokens(s + [x]) == Tokens(s) + x.tokens
  {
    assert (s + [x])[..|s|] == s;
  }

  // ----- splitting an over-long sentence ---------------------------------------------------------------------------

  /** a / b rounded up, counted off in steps of b. */
  function CeilDiv(a: nat, b: nat): nat
    requires b > 0
  {
    if a == 0 then 0 else if a <= b then 1 else 1 + CeilDiv(a - b, b)
  }

  lemma {:induction false} CeilDivRoundsUp(a: nat, b: nat)
    requires b > 0
    ensures a <= CeilDiv(a, b) * b < a + b
  {
    if a > b { CeilDivRoundsUp(a - b, b); }
  }

  /** str.split(" "): never empty, and runs of spaces give empty words. */
  function Words(s: string): (w: seq<string>)
    ensures w != []
  {
    if s == "" then [""]
    else if s[0] == ' ' then [""] + Words(s[1..])
    else var w := Words(s[1..]); [[s[0]] + w[0]] + w[1..]
  }

  function Unwords(w: seq<string>): string {
    if w == [] then "" else if |w| == 1 then w[0] else w[0] + " " + Unwords(w[1..])
  }

  lemma {:induction false} UnwordsWords(s: string)
    ensures Unwords(Words(s)) == s
  {
    if s != "" {
      UnwordsWords(s[1..]);
      var w := Words(s[1..]);
      if s[0] == ' ' {
        assert ([""] + w)[1..] == w;
      } else {
        var v := [[s[0]] + w[0]] + w[1..];
        assert v[1..] == w[1..];
        assert s == [s[0]] + s[1..];
        if |w| > 1 { assert [s[0]] + (w[0] + " " + Unwords(w[1..])) == ([s[0]] + w[0]) + " " + Unwords(w[1..]); }
      }
    }
  }

  lemma {:induction false} UnwordsSplit(w: seq<string>, i: nat)
    requires 0 < i < |w|
    ensures Unwords(w) == Unwords(w[..i]) + " " + Unwords(w[i..])
  {
    if i == 1 {
      assert w[..1] == [w[0]];
    } else {
      UnwordsSplit(w[1..], i - 1);
      assert w[..i][1..] == w[1..][..i - 1] && w[i..] == w[1..][i - 1..];
      assert w[0] + " " + (Unwords(w[..i][1..]) + " " + Unwords(w[i..]))
          == (w[0] + " " + Unwords(w[..i][1..])) + " " + Unwords(w[i..]);
    }
  }

  /** The pieces cover text[start..end], one space between neighbours. */
  ghost predicate Covers(text: string, section: string, pieces: seq<Span>, start: nat, end: nat) {
    && pieces != [] && pieces[0].section == section && start == pieces[0].start <= pieces[0].end <= end <= |text|
    && if |pieces| == 1 then pieces[0].end == end
       else pieces[0].end < end && text[pieces[0].end] == ' '
            && Covers(text, section, pieces[1..], pieces[0].end + 1, end)
  }

  /** Pieces still to come, when words[i..] starts at `offset`; a piece of n characters gets share(n) tokens. */
  function PiecesFrom(section: string, words: seq<string>, per: nat, share: nat -> nat, i: nat, offset: nat): seq<Span>
    requires per > 0 && i <= |words|
    decreases |words| - i
  {
    if i == |words| then []
    else
      var j := Min(i + per, |words|);
      var piece := Unwords(words[i..j]);
      [Span(section, offset, offset + |piece|, share(|piece|))]
        + PiecesFrom(section, words, per, share, j, offset + |piece| + 1)
  }

  /** The part of a sentence's tokens that n of its `length` characters stand for, rounded up. */
  function Share(tokens: nat, length: nat): nat -> nat
    requires length > 0
  {
    (n: nat) => CeilDiv(tokens * n, length)
  }

  /** The split of one over-long sentence into about ceil(tokens / max) + 1 pieces of equally many words. */
  function SplitLong(text: string, s: Span, max: nat): seq<Span>
    requires s.start <= s.end <= |text| && max > 0
  {
    var words := Words(text[s.start..s.end]);
    var per := Max(1, CeilDiv(|words|, CeilDiv(s.tokens, max) + 1));
    PiecesFrom(s.section, words, per, Share(s.tokens, Max(1, s.end - s.start)), 0, s.start)
  }

  method SplitLongSentence(text: string, s: Span, max: nat) returns (out: seq<Span>)
    requires s.start <= s.end <= |text| && max > 0
    ensures out == SplitLong(text, s, max)
  {
    var words := Words(text[s.start..s.end]);
    var nPieces := CeilDiv(s.tokens, max) + 1;
    var per := Max(1, CeilDiv(|words|, nPieces));
    var share := Share(s.tokens, Max(1, s.end - s.start));
    out := CutWords(s.section, words, per, share, s.start);
  }

  method CutWords(section: string, words: seq<string>, per: nat, share: nat -> nat, start: nat)
    returns (out: seq<Span>)
    requires per > 0
    ensures out == PiecesFrom(section, words, per, share, 0, start)
  {
    ghost var all := PiecesFrom(section, words, per, share, 0, start);
    out := [];
    var offset: nat, i := start, 0;
    while i < |words|
      invariant 0 <= i <= |words|
      invariant out + PiecesFrom(section, words, per, share, i, offset) == all
    {
      var j := Min(i + per, |words|);
      var piece := Unwords(words[i..j]);
      var next := Span(section, offset, offset + |piece|, share(|piece|));
      assert PiecesFrom(section, words, per, share, i, offset)
          == [next] + PiecesFrom(section, words, per, share, j, offset + |piece| + 1);
      out := out + [next];
      offset := offset + |piece| + 1;
      i := j;
    }
  }

  lemma {:induction false} PiecesCover(
      text: string, section: string, words: seq<string>, per: nat, share: nat -> nat, i: nat, offset: nat, end: nat)
    requires per > 0 && i < |words| && offset <= end <= |text| && text[offset..end] == Unwords(words[i..])
    ensures Covers(text, section, PiecesFrom(section, words, per, share, i, offset), offset, end)
    decreases |words| - i
  {
    var j := Min(i + per, |words|);
    var piece := Unwords(words[i..j]);
    var pieces := PiecesFrom(section, words, per, share, i, offset);
    if j == |words| {
      assert words[i..j] == words[i..];
      assert |pieces| == 1;
    } else {
      var next := offset + |piece| + 1;
      SplitsAt(text, words, i, j, offset, end);
      PiecesCover(text, section, words, per, share, j, next, end);
      assert pieces[1..] == PiecesFrom(section, words, per, share, j, next);
    }
  }

  lemma {:induction false} SplitsAt(text: string, words: seq<string>, i: nat, j: nat, offset: nat, end: nat)
    requires i < j < |words| && offset <= end <= |text| && text[offset..end] == Unwords(words[i..])
    ensures var next := offset + |Unwords(words[i..j])| + 1;
            next <= end && text[next - 1] == ' ' && text[next..end] == Unwords(words[j..])
  {
    var piece, rest := Unwords(words[i..j]), Unwords(words[j..]);
    UnwordsSplit(words[i..], j - i);
    assert words[i..][..j - i] == words[i..j] && words[i..][j - i..] == words[j..];
    var t := text[offset..end];
    assert t == piece + " " + rest;
    assert t[|piece|] == ' ';
    assert t[|piece| + 1..] == rest;
    assert text[offset + |piece| + 1..end] == t[|piece| + 1..];
  }

  /** Splitting a sentence drops nothing but the single spaces between its pieces. */
  lemma {:induction false} SplitCovers(text: string, s: Span, max: nat)
    requires s.start <= s.end <= |text| && max > 0
    ensures Covers(text, s.section, SplitLong(text, s, max), s.start, s.end)
  {
    var words := Words(text[s.start..s.end]);
    UnwordsWords(text[s.start..s.end]);
    assert words[0..] == words;
    PiecesCover(text, s.section, words, Max(1, CeilDiv(|words|, CeilDiv(s.tokens, max) + 1)),
                Share(s.tokens, Max(1, s.end - s.start)), 0, s.start, s.end);
  }

  // ----- the spans of a document -----------------------------------------------------------------------------------

  /** Spans in reading order: each ends before the next one starts. */
  ghost predicate InOrder(text: string, spans: seq<Span>) {
    if spans == [] then true
    else
      var k := |spans| - 1;
      && InOrder(text, spans[..k]) && spans[k].start <= spans[k].end <= |text|
      && (k > 0 ==> spans[k - 1].end < spans[k].start)
  }

  lemma {:induction false} InOrderAdds(text: string, spans: seq<Span>, x: Span)
    requires InOrder(text, spans) && x.start <= x.end <= |text|
    requires spans != [] ==> spans[|spans| - 1].end < x.start
    ensures InOrder(text, spans + [x])
  {
    assert (spans + [x])[..|spans|] == spans;
  }

  lemma {:induction false} CoversInOrder(
      text: string, spans: seq<Span>, section: string, pieces: seq<Span>, start: nat, end: nat)
    requires InOrder(text, spans) && Covers(text, section, pieces, start, end)
    requires spans != [] ==> spans[|spans| - 1].end < start
    ensures InOrder(text, spans + pieces) && pieces[|pieces| - 1].end == end
    decreases |pieces|
  {
    InOrderAdds(text, spans, pieces[0]);
    if |pieces| == 1 {
      assert pieces == [pieces[0]];
    } else {
      var more, rest := spans + [pieces[0]], pieces[1..];
      CoversInOrder(text, more, section, rest, pieces[0].end + 1, end);
      assert more + rest == spans + pieces;
    }
  }

  function SpansOf(text: string, raw: seq<Layout.Range>, count: string -> nat, max: nat, n: nat): seq<Span>
    requires n <= |raw| && max > 0 && forall r :: r in raw ==> r.start <= r.end <= |text|
  {
    if n == 0 then []
    else
      assert raw[n - 1] in raw;
      var r := raw[n - 1];
      var s := Span(r.name, r.start, r.end, count(text[r.start..r.end]));
      SpansOf(text, raw, count, max, n - 1) + if s.tokens > max then SplitLong(text, s, max) else [s]
  }

  lemma {:induction false} SpansInOrder(text: string, raw: seq<Layout.Range>, count: string -> nat, max: nat, n: nat)
    requires n <= |raw| && max > 0 && forall r :: r in raw ==> r.start <= r.end <= |text|
    requires forall i :: 0 <= i < |raw| - 1 ==> raw[i].end < raw[i + 1].start
    ensures var spans := SpansOf(text, raw, count, max, n);
            InOrder(text, spans) && (n > 0 ==> spans != [] && spans[|spans| - 1].end == raw[n - 1].end)
  {
    if n > 0 {
      SpansInOrder(text, raw, count, max, n - 1);
      assert raw[n - 1] in raw;
      var r := raw[n - 1];
      if n > 1 { assert raw[n - 2].end < raw[n - 2 + 1].start; }
      SentenceInOrder(text, SpansOf(text, raw, count, max, n - 1),
                      Span(r.name, r.start, r.end, count(text[r.start..r.end])), max);
    }
  }

  lemma {:induction false} SentenceInOrder(text: string, before: seq<Span>, s: Span, max: nat)
    requires s.start <= s.end <= |text| && max > 0
    requires InOrder(text, before) && (before != [] ==> before[|before| - 1].end < s.start)
    ensures var spans := before + if s.tokens > max then SplitLong(text, s, max) else [s];
            InOrder(text, spans) && spans != [] && spans[|spans| - 1].end == s.end
  {
    if s.tokens > max {
      SplitCovers(text, s, max);
      CoversInOrder(text, before, s.section, SplitLong(text, s, max), s.start, s.end);
    } else {
      InOrderAdds(text, before, s);
    }
  }

  // ----- windows ---------------------------------------------------------------------------------------------------

  /** The overlap carried into the next chunk: trailing spans of all but the first, up to `limit` tokens. */
  function OverlapFrom(group: seq<Span>, limit: int, i: nat, total: nat): (j: nat)
    requires i <= |group|
    ensures j <= i
  {
    if i <= 1 || total + group[i - 1].tokens > limit then i
    else OverlapFrom(group, limit, i - 1, total + group[i - 1].tokens)
  }

  function Overlap(group: seq<Span>, limit: int): seq<Span> {
    group[OverlapFrom(group, limit, |group|, 0)..]
  }

  method TakeOverlap(group: seq<Span>, limit: int) returns (out: seq<Span>)
    requires group != []
    ensures out == Overlap(group, limit)
  {
    out := [];
    var total: nat := 0;
    var i := |group|;
    while i > 1
      invariant 1 <= i <= |group| && out == group[i..]
      invariant OverlapFrom(group, limit, i, total) == OverlapFrom(group, limit, |group|, 0)
    {
      var span := group[i - 1];
      if total + span.tokens > limit { break; }
      out := [span] + out;
      total := total + span.tokens;
      i := i - 1;
    }
  }

  /** Tokens of s[j..], counted from the front. */
  function TokensFrom(s: seq<Span>, j: nat): nat
    requires j <= |s|
    decreases |s| - j
  {
    if j == |s| then 0 else s[j].tokens + TokensFrom(s, j + 1)
  }

  lemma {:induction false} TokensCons(x: Span, s: seq<Span>)
    ensures Tokens([x] + s) == x.tokens + Tokens(s)
  {
    if s != [] {
      TokensCons(x, s[..|s| - 1]);
      assert ([x] + s)[..|s|] == [x] + s[..|s| - 1];
    } else {
      assert [x] + s == [x];
      assert [x][..0] == [];
    }
  }

  lemma {:induction false} TokensFromIs(s: seq<Span>, j: nat)
    requires j <= |s|
    ensures TokensFrom(s, j) == Tokens(s[j..])
    decreases |s| - j
  {
    if j < |s| {
      assert s[j..] == [s[j]] + s[j + 1..];
      TokensCons(s[j], s[j + 1..]);
      TokensFromIs(s, j + 1);
    }
  }

  lemma {:induction false} OverlapIs(group: seq<Span>, limit: int, i: nat, total: nat)
    requires 1 <= i <= |group| && total == TokensFrom(group, i)
    requires i == |group| || total <= limit
    ensures var j := OverlapFrom(group, limit, i, total);
            && 1 <= j
            && (j == |group| || TokensFrom(group, j) <= limit)
            && (j == 1 || TokensFrom(group, j - 1) > limit)
    decreases i
  {
    if i > 1 && total + group[i - 1].tokens <= limit { OverlapIs(group, limit, i - 1, total + group[i - 1].tokens); }
  }

  /** The overlap is a proper suffix within the limit, and the longest such. */
  lemma {:induction false} OverlapIsLongest(group: seq<Span>, limit: int)
    requires group != []
    ensures var j := OverlapFrom(group, limit, |group|, 0);
            && 1 <= j <= |group| && Overlap(group, limit) == group[j..]
            && (j == |group| || Tokens(group[j..]) <= limit)
            && (j == 1 || Tokens(group[j - 1..]) > limit)
  {
    OverlapIs(group, limit, |group|, 0);
    var j := OverlapFrom(group, limit, |group|, 0);
    TokensFromIs(group, j);
    TokensFromIs(group, j - 1);
  }

  /** Whether `next` must start a new chunk after `group`. */
  predicate Cut(group: seq<Span>, next: Span, c: Config)
    requires group != []
  {
    var tokens := Tokens(group);
    || (tokens + next.tokens > c.target && tokens >= c.min)
    || tokens + next.tokens > c.max
    || (next.section != group[|group| - 1].section && tokens >= c.min)
  }

  /** What of `group` is carried into the chunk that starts with `next`. */
  function Carried(group: seq<Span>, next: Span, c: Config): seq<Span>
    requires group != []
  {
    var kept := if next.section != group[|group| - 1].section then [] else Overlap(group, c.overlap);
    if Tokens(kept) + next.tokens > c.max then [] else kept
  }

  /** spans[lo..hi] */
  datatype Window = Window(lo: nat, hi: nat)

  /** Where the new spans of the window after these start. */
  function EndOf(ws: seq<Window>): nat { if ws == [] then 0 else ws[|ws| - 1].hi }

  /** A window after `ws` starts with what the last of them hands over. */
  ghost predicate StartsRight(spans: seq<Span>, ws: seq<Window>, lo: nat, c: Config) {
    if ws == [] then lo == 0
    else
      var p := ws[|ws| - 1];
      && p.lo < p.hi < |spans| && lo <= p.hi
      && spans[lo..p.hi] == Carried(spans[p.lo..p.hi], spans[p.hi], c)
  }

  /** After the windows `ws`, this one starts right and grew to where it is without a cut. */
  ghost predicate Follows(spans: seq<Span>, ws: seq<Window>, w: Window, c: Config)
    decreases w.hi
  {
    && w.lo <= EndOf(ws) < w.hi <= |spans|
    && if w.hi == EndOf(ws) + 1 then StartsRight(spans, ws, w.lo, c)
       else Follows(spans, ws, Window(w.lo, w.hi - 1), c) && !Cut(spans[w.lo..w.hi - 1], spans[w.hi - 1], c)
  }

  /** Each of these windows starts where it must and is closed by a cut at its end. */
  ghost predicate Closed(spans: seq<Span>, ws: seq<Window>, c: Config) {
    if ws == [] then true
    else
      var before, w := ws[..|ws| - 1], ws[|ws| - 1];
      && Closed(spans, before, c) && Follows(spans, before, w, c)
      && w.hi < |spans| && Cut(spans[w.lo..w.hi], spans[w.hi], c)
  }

  /** The spans left over are too few for a chunk of their own and fit into the last closed window. */
  ghost predicate Merges(spans: seq<Span>, ws: seq<Window>, c: Config) {
    && ws != [] && ws[|ws| - 1].lo <= EndOf(ws) <= |spans|
    && Tokens(spans[EndOf(ws)..]) < c.min
    && Tokens(spans[ws[|ws| - 1].lo..EndOf(ws)]) + Tokens(spans[EndOf(ws)..]) <= c.max
  }

  /**
   * The windows of the whole list: all but the last are closed by a cut; the last grew to the end, unless what was
   * left was small enough to be merged into the window before it, which ended at `cut`.
   */
  ghost predicate Windows(spans: seq<Span>, ws: seq<Window>, cut: nat, c: Config) {
    if spans == [] then ws == []
    else
      && ws != []
      && var done, last := ws[..|ws| - 1], ws[|ws| - 1];
         && last.hi == |spans|
         && if cut == |spans| then Closed(spans, done, c) && Follows(spans, done, last, c) && !Merges(spans, done, c)
            else var closed := done + [Window(last.lo, cut)];
                 Closed(spans, closed, c) && Merges(spans, closed, c)
  }

  /** The groups are the windows' spans. */
  ghost predicate Shows(spans: seq<Span>, ws: seq<Window>, groups: seq<seq<Span>>) {
    && |groups| == |ws|
    && (ws == []
        || (var k := |ws| - 1;
            && Shows(spans, ws[..k], groups[..k])
            && ws[k].lo <= ws[k].hi <= |spans| && groups[k] == spans[ws[k].lo..ws[k].hi]))
  }

  /** What the next chunk starts with, after `current` was closed because of `span`. */
  method Restart(current: seq<Span>, span: Span, c: Config) returns (kept: seq<Span>, tokens: nat)
    requires current != []
    ensures kept == Carried(current, span, c) && tokens == Tokens(kept)
  {
    if span.section != current[|current| - 1].section { kept := []; } else { kept := TakeOverlap(current, c.overlap); }
    tokens := Tokens(kept);
    if tokens + span.tokens > c.max { kept, tokens := [], 0; }
  }

  /** The chunk in progress is closed before spans[i], and the next one starts with its overlap. */
  method CloseChunk(spans: seq<Span>, i: nat, groups0: seq<seq<Span>>, current0: seq<Span>, c: Config,
                    ghost ws0: seq<Window>, ghost lo0: nat)
    returns (groups: seq<seq<Span>>, current: seq<Span>, tokens: nat, ghost ws: seq<Window>, ghost lo: nat)
    requires lo0 < i < |spans| && current0 == spans[lo0..i] && Cut(current0, spans[i], c)
    requires Closed(spans, ws0, c) && Shows(spans, ws0, groups0) && Follows(spans, ws0, Window(lo0, i), c)
    ensures Closed(spans, ws, c) && Shows(spans, ws, groups) && EndOf(ws) == i
    ensures lo <= i && current == spans[lo..i] && tokens == Tokens(current) && Follows(spans, ws, Window(lo, i + 1), c)
  {
    groups := groups0 + [current0];
    Closes(spans, ws0, Window(lo0, i), c);
    ShowsOneMore(spans, ws0, groups0, Window(lo0, i));
    ws := ws0 + [Window(lo0, i)];
    current, tokens := Restart(current0, spans[i], c);
    CarriedIsSuffix(current0, spans[i], c);
    lo := i - |current|;
    HandsOver(spans, Window(lo0, i), lo, c);
    Starts(spans, ws, lo, c);
  }

  /** Where chunk_document is before spans[i]: the closed groups, and the chunk in progress with its `added` spans. */
  ghost predicate Building(spans: seq<Span>, i: nat, b: Build, ws: seq<Window>, lo: nat, c: Config) {
    && lo <= i <= |spans| && b.current == spans[lo..i] && b.tokens == Tokens(b.current)
    && b.added <= |b.current| && EndOf(ws) == i - b.added && (b.added == 0 <==> i == 0)
    && Closed(spans, ws, c) && Shows(spans, ws, b.groups)
    && (i == 0 ==> ws == [] && lo == 0)
    && (i > 0 ==> Follows(spans, ws, Window(lo, i), c))
  }

  datatype Build = Build(groups: seq<seq<Span>>, current: seq<Span>, tokens: nat, added: nat)

  /** Room for spans[i]: the chunk in progress, or what a new one starts with. */
  ghost predicate Room(spans: seq<Span>, i: nat, b: Build, ws: seq<Window>, lo: nat, c: Config) {
    && lo <= i < |spans| && b.current == spans[lo..i] && b.tokens == Tokens(b.current)
    && b.added <= |b.current| && EndOf(ws) == i - b.added
    && Closed(spans, ws, c) && Shows(spans, ws, b.groups) && Follows(spans, ws, Window(lo, i + 1), c)
  }

  method MakeRoom(spans: seq<Span>, i: nat, b: Build, c: Config, ghost ws0: seq<Window>, ghost lo0: nat)
    returns (room: Build, ghost ws: seq<Window>, ghost lo: nat)
    requires i < |spans| && Building(spans, i, b, ws0, lo0, c)
    ensures Room(spans, i, room, ws, lo, c)
  {
    var span := spans[i];
    var groups, current, tokens, added := b.groups, b.current, b.tokens, b.added;
    var sectionChange := current != [] && span.section != current[|current| - 1].section;
    var tooBig := tokens + span.tokens > c.target && tokens >= c.min;
    var overMax := tokens + span.tokens > c.max;
    ws, lo := ws0, lo0;
    if added > 0 && (tooBig || overMax || (sectionChange && tokens >= c.min)) {
      groups, current, tokens, ws, lo := CloseChunk(spans, i, groups, current, c, ws, lo);
      added := 0;
    } else if added == 0 && overMax {
      current, tokens := [], 0;
    }
    if added == 0 && i == 0 { Begins(spans, c); } else if added > 0 { GoesOn(spans, ws, lo, i, c); }
    room := Build(groups, current, tokens, added);
  }

  method Advance(spans: seq<Span>, i: nat, b0: Build, c: Config, ghost ws0: seq<Window>, ghost lo0: nat)
    returns (b: Build, ghost ws: seq<Window>, ghost lo: nat)
    requires i < |spans| && Building(spans, i, b0, ws0, lo0, c)
    ensures Building(spans, i + 1, b, ws, lo, c)
  {
    var span := spans[i];
    var room: Build;
    room, ws, lo := MakeRoom(spans, i, b0, c, ws0, lo0);
    b := Build(room.groups, room.current + [span], room.tokens + span.tokens, room.added + 1);
    Adds(spans, i, room, ws, lo, c);
  }

  /** The loop of chunk_document. */
  method Group(spans: seq<Span>, c: Config) returns (groups: seq<seq<Span>>, ghost ws: seq<Window>, ghost cut: nat)
    ensures Windows(spans, ws, cut, c) && Shows(spans, ws, groups)
  {
    var b := Build([], [], 0, 0);
    ghost var lo: nat := 0;
    ws := [];
    for i := 0 to |spans|
      invariant Building(spans, i, b, ws, lo, c)
    {
      b, ws, lo := Advance(spans, i, b, c, ws, lo);
    }
    groups, ws, cut := Finish(spans, b.groups, b.current, b.added, ws, lo, c);
  }

  /** The end of chunk_document: the spans after the last cut, as a chunk of their own or merged into the last one. */
  method Finish(spans: seq<Span>, groups0: seq<seq<Span>>, current: seq<Span>, added: nat,
                ghost ws0: seq<Window>, ghost lo: nat, c: Config)
    returns (groups: seq<seq<Span>>, ghost ws: seq<Window>, ghost cut: nat)
    requires Closed(spans, ws0, c) && Shows(spans, ws0, groups0)
    requires lo <= |spans| && current == spans[lo..] && added <= |current| && EndOf(ws0) == |spans| - added
    requires if spans == [] then ws0 == [] else added > 0 && Follows(spans, ws0, Window(lo, |spans|), c)
    ensures Windows(spans, ws, cut, c) && Shows(spans, ws, groups)
  {
    groups, ws, cut := groups0, ws0, |spans|;
    if added > 0 {
      var left := current[|current| - added..];
      assert left == spans[EndOf(ws)..];
      if groups != [] && Tokens(left) < c.min && Tokens(groups[|groups| - 1]) + Tokens(left) <= c.max {
        cut := EndOf(ws);
        Joins(spans, ws, c);
        JoinsShow(spans, ws, groups, left);
        groups := groups[|groups| - 1 := groups[|groups| - 1] + left];
        ws := ws[|ws| - 1 := Window(ws[|ws| - 1].lo, |spans|)];
      } else {
        ShowsOneMore(spans, ws0, groups0, Window(lo, |spans|));
        assert spans[lo..|spans|] == current;
        groups := groups + [current];
        ws := ws + [Window(lo, |spans|)];
        assert ws[..|ws| - 1] == ws0;
      }
    }
  }

  lemma {:induction false} Adds(spans: seq<Span>, i: nat, b: Build, ws: seq<Window>, lo: nat, c: Config)
    requires Room(spans, i, b, ws, lo, c)
    ensures var x := spans[i];
            Building(spans, i + 1, Build(b.groups, b.current + [x], b.tokens + x.tokens, b.added + 1), ws, lo, c)
  {
    TokensAdd(b.current, spans[i]);
    assert spans[lo..i + 1] == spans[lo..i] + [spans[i]];
  }

  lemma {:induction false} Begins(spans: seq<Span>, c: Config)
    requires spans != []
    ensures Follows(spans, [], Window(0, 1), c)
  {}

  lemma {:induction false} GoesOn(spans: seq<Span>, ws: seq<Window>, lo: nat, i: nat, c: Config)
    requires lo < i < |spans| && Follows(spans, ws, Window(lo, i), c) && !Cut(spans[lo..i], spans[i], c)
    ensures Follows(spans, ws, Window(lo, i + 1), c)
  {}

  lemma {:induction false} SuffixSlice(s: seq<Span>, a: nat, lo: nat, b: nat)
    requires a <= lo <= b <= |s|
    ensures s[lo..b] == s[a..b][|s[a..b]| - (b - lo)..]
  {}

  lemma {:induction false} HandsOver(spans: seq<Span>, p: Window, lo: nat, c: Config)
    requires p.lo < p.hi < |spans| && lo == p.hi - |Carried(spans[p.lo..p.hi], spans[p.hi], c)|
    ensures p.lo < lo <= p.hi && spans[lo..p.hi] == Carried(spans[p.lo..p.hi], spans[p.hi], c)
  {
    CarriedIsSuffix(spans[p.lo..p.hi], spans[p.hi], c);
    SuffixSlice(spans, p.lo, lo, p.hi);
  }

  lemma {:induction false} Starts(spans: seq<Span>, ws: seq<Window>, lo: nat, c: Config)
    requires ws != [] && StartsRight(spans, ws, lo, c)
    ensures Follows(spans, ws, Window(lo, EndOf(ws) + 1), c)
  {}

  lemma {:induction false} Joins(spans: seq<Span>, ws: seq<Window>, c: Config)
    requires ws != [] && Closed(spans, ws, c) && Merges(spans, ws, c)
    ensures var k := |ws| - 1;
            Windows(spans, ws[k := Window(ws[k].lo, |spans|)], EndOf(ws), c)
  {
    var k := |ws| - 1;
    var joined := ws[k := Window(ws[k].lo, |spans|)];
    assert joined[..k] + [Window(ws[k].lo, EndOf(ws))] == ws;
  }

  lemma {:induction false} JoinsShow(spans: seq<Span>, ws: seq<Window>, groups: seq<seq<Span>>, left: seq<Span>)
    requires ws != [] && Shows(spans, ws, groups) && EndOf(ws) <= |spans| && left == spans[EndOf(ws)..]
    ensures var k := |ws| - 1;
            Shows(spans, ws[k := Window(ws[k].lo, |spans|)], groups[k := groups[k] + left])
  {
    var k := |ws| - 1;
    var joined, all := ws[k := Window(ws[k].lo, |spans|)], groups[k := groups[k] + left];
    assert joined[..k] == ws[..k] && all[..k] == groups[..k];
    assert spans[ws[k].lo..] == spans[ws[k].lo..ws[k].hi] + left;
  }

  lemma {:induction false} Closes(spans: seq<Span>, ws: seq<Window>, w: Window, c: Config)
    requires Closed(spans, ws, c) && Follows(spans, ws, w, c)
    requires w.hi < |spans| && Cut(spans[w.lo..w.hi], spans[w.hi], c)
    ensures Closed(spans, ws + [w], c)
  {
    assert (ws + [w])[..|ws|] == ws;
  }

  lemma {:induction false} ShowsOneMore(spans: seq<Span>, ws: seq<Window>, groups: seq<seq<Span>>, w: Window)
    requires Shows(spans, ws, groups) && w.lo <= w.hi <= |spans|
    ensures Shows(spans, ws + [w], groups + [spans[w.lo..w.hi]])
  {
    assert (ws + [w])[..|ws|] == ws;
    assert (groups + [spans[w.lo..w.hi]])[..|ws|] == groups;
  }

  lemma {:induction false} CarriedIsSuffix(group: seq<Span>, next: Span, c: Config)
    requires group != []
    ensures var kept := Carried(group, next, c);
            |kept| < |group| && group[|group| - |kept|..] == kept
  {
    OverlapIsLongest(group, c.overlap);
  }
}
