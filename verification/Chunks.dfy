/**
 * What the windows of the chunker promise, and the chunks of a whole document: nothing is lost between neighbours, they
 * share only the overlap, they fit, and one is short only where the next span would not have fitted.
 */
module Chunks {
  import opened Documents
  import opened Chunking
  import Layout

  // ----- what the windows promise ----------------------------------------------------------------------------------

  lemma {:induction false} ClosedAt(spans: seq<Span>, ws: seq<Window>, c: Config, k: nat)
    requires Closed(spans, ws, c) && k < |ws|
    ensures Closed(spans, ws[..k], c) && Follows(spans, ws[..k], ws[k], c)
    ensures ws[k].hi < |spans| && Cut(spans[ws[k].lo..ws[k].hi], spans[ws[k].hi], c)
  {
    if k < |ws| - 1 {
      ClosedAt(spans, ws[..|ws| - 1], c, k);
      assert ws[..|ws| - 1][..k] == ws[..k];
    }
  }

  /** The window without what was merged into it at the very end. */
  function Unmerged(ws: seq<Window>, cut: nat, k: nat): Window
    requires k < |ws|
  {
    if k == |ws| - 1 then Window(ws[k].lo, cut) else ws[k]
  }

  lemma {:induction false} WindowAt(spans: seq<Span>, ws: seq<Window>, cut: nat, c: Config, k: nat)
    requires Windows(spans, ws, cut, c) && k < |ws|
    ensures var w := Unmerged(ws, cut, k);
            && Closed(spans, ws[..k], c) && Follows(spans, ws[..k], w, c)
            && (k < |ws| - 1 || cut < |spans| ==> w.hi < |spans| && Cut(spans[w.lo..w.hi], spans[w.hi], c))
  {
    var done, last := ws[..|ws| - 1], ws[|ws| - 1];
    if k < |ws| - 1 {
      assert done[..k] == ws[..k];
      if cut == |spans| {
        ClosedAt(spans, done, c, k);
      } else {
        var closed := done + [Window(last.lo, cut)];
        assert closed[..k] == ws[..k];
        ClosedAt(spans, closed, c, k);
      }
    } else if cut != |spans| {
      var closed := done + [Window(last.lo, cut)];
      assert closed[..k] == done;
      ClosedAt(spans, closed, c, k);
    }
  }

  lemma {:induction false} FollowsStarts(spans: seq<Span>, ws: seq<Window>, w: Window, c: Config)
    requires Follows(spans, ws, w, c)
    ensures w.lo <= EndOf(ws) < w.hi <= |spans| && StartsRight(spans, ws, w.lo, c)
    decreases w.hi
  {
    if w.hi > EndOf(ws) + 1 { FollowsStarts(spans, ws, Window(w.lo, w.hi - 1), c); }
  }

  /** What a window shares with the one before: a proper suffix of it, within the overlap limit and the same section. */
  ghost predicate SharesSuffix(group: seq<Span>, shared: seq<Span>, next: Span, c: Config) {
    && |shared| < |group| && shared == group[|group| - |shared|..]
    && (shared != [] ==> Tokens(shared) <= c.overlap && Tokens(shared) + next.tokens <= c.max
                         && group[|group| - 1].section == next.section)
  }

  /** And it is as long as it can be: one span more would be the whole chunk or too much overlap. */
  ghost predicate SharesMost(group: seq<Span>, shared: seq<Span>, next: Span, c: Config) {
    var rest := |group| - |shared|;
    || rest <= 1 || next.section != group[|group| - 1].section
    || Tokens(group[rest - 1..]) > c.overlap
    || (shared == [] && Tokens(Overlap(group, c.overlap)) + next.tokens > c.max)
  }

  lemma {:induction false} CarriedShares(group: seq<Span>, next: Span, c: Config)
    requires group != []
    ensures SharesSuffix(group, Carried(group, next, c), next, c)
    ensures SharesMost(group, Carried(group, next, c), next, c)
  {
    OverlapIsLongest(group, c.overlap);
    CarriedIsSuffix(group, next, c);
  }

  lemma {:induction false} SharedAt(spans: seq<Span>, ws: seq<Window>, lo: nat, c: Config)
    requires ws != [] && StartsRight(spans, ws, lo, c)
    ensures var p := ws[|ws| - 1];
            && p.lo < lo <= p.hi < |spans|
            && SharesSuffix(spans[p.lo..p.hi], spans[lo..p.hi], spans[p.hi], c)
            && SharesMost(spans[p.lo..p.hi], spans[lo..p.hi], spans[p.hi], c)
  {
    var p := ws[|ws| - 1];
    CarriedShares(spans[p.lo..p.hi], spans[p.hi], c);
  }

  lemma {:induction false} WindowBounds(spans: seq<Span>, ws: seq<Window>, cut: nat, c: Config, k: nat)
    requires Windows(spans, ws, cut, c) && k < |ws|
    ensures ws[k].lo <= EndOf(ws[..k]) < ws[k].hi <= |spans| && StartsRight(spans, ws[..k], ws[k].lo, c)
    ensures k == |ws| - 1 ==> ws[k].hi == |spans| && EndOf(ws[..k]) < cut <= |spans|
  {
    WindowAt(spans, ws, cut, c, k);
    FollowsStarts(spans, ws[..k], Unmerged(ws, cut, k), c);
  }

  /** Consecutive chunks: no span between them is lost, they share only the overlap, and each starts later. */
  lemma {:induction false} NeighboursShareTheOverlap(spans: seq<Span>, ws: seq<Window>, cut: nat, c: Config, k: nat)
    requires Windows(spans, ws, cut, c) && k + 1 < |ws|
    ensures ws[k].lo < ws[k + 1].lo <= ws[k].hi < ws[k + 1].hi <= |spans|
    ensures SharesSuffix(spans[ws[k].lo..ws[k].hi], spans[ws[k + 1].lo..ws[k].hi], spans[ws[k].hi], c)
    ensures SharesMost(spans[ws[k].lo..ws[k].hi], spans[ws[k + 1].lo..ws[k].hi], spans[ws[k].hi], c)
  {
    WindowBounds(spans, ws, cut, c, k + 1);
    SharedAt(spans, ws[..k + 1], ws[k + 1].lo, c);
  }

  /** The chunks' new parts, those not shared with the chunk before, one after the other. */
  function NewParts(groups: seq<seq<Span>>, ws: seq<Window>, n: nat): seq<Span>
    requires n <= |groups| == |ws|
  {
    if n == 0 then []
    else
      var k := n - 1;
      var shared := EndOf(ws[..k]) - ws[k].lo;
      NewParts(groups, ws, k) + if 0 <= shared <= |groups[k]| then groups[k][shared..] else []
  }

  lemma {:induction false} ShowsAt(spans: seq<Span>, ws: seq<Window>, groups: seq<seq<Span>>, k: nat)
    requires Shows(spans, ws, groups) && k < |ws|
    ensures |groups| == |ws| && ws[k].lo <= ws[k].hi <= |spans| && groups[k] == spans[ws[k].lo..ws[k].hi]
  {
    var m := |ws| - 1;
    if k < m { ShowsAt(spans, ws[..m], groups[..m], k); }
  }

  lemma {:induction false} NewPart(spans: seq<Span>, lo: nat, end: nat, hi: nat)
    requires lo <= end <= hi <= |spans|
    ensures spans[lo..hi][end - lo..] == spans[end..hi] && spans[..end] + spans[end..hi] == spans[..hi]
  {}

  lemma {:induction false} EndWithin(spans: seq<Span>, ws: seq<Window>, cut: nat, c: Config, n: nat)
    requires Windows(spans, ws, cut, c) && n <= |ws|
    ensures EndOf(ws[..n]) <= |spans|
  {
    if n > 0 { WindowBounds(spans, ws, cut, c, n - 1); }
  }

  lemma {:induction false} NewPartsUpTo(
      spans: seq<Span>, ws: seq<Window>, groups: seq<seq<Span>>, cut: nat, c: Config, n: nat)
    requires Windows(spans, ws, cut, c) && Shows(spans, ws, groups) && n <= |ws| == |groups|
    requires EndOf(ws[..n]) <= |spans|
    ensures NewParts(groups, ws, n) == spans[..EndOf(ws[..n])]
  {
    if n > 0 {
      var k := n - 1;
      EndWithin(spans, ws, cut, c, k);
      NewPartsUpTo(spans, ws, groups, cut, c, k);
      WindowBounds(spans, ws, cut, c, k);
      ShowsAt(spans, ws, groups, k);
      NewPart(spans, ws[k].lo, EndOf(ws[..k]), ws[k].hi);
      assert EndOf(ws[..n]) == ws[k].hi;
    }
  }

  /** Nothing is lost, repeated or reordered: the new parts in order are exactly the spans. */
  lemma {:induction false} NewPartsAreTheSpans(
      spans: seq<Span>, ws: seq<Window>, groups: seq<seq<Span>>, cut: nat, c: Config)
    requires Windows(spans, ws, cut, c) && Shows(spans, ws, groups)
    ensures |groups| == |ws| && NewParts(groups, ws, |ws|) == spans
  {
    EndWithin(spans, ws, cut, c, |ws|);
    NewPartsUpTo(spans, ws, groups, cut, c, |ws|);
    assert ws[..|ws|] == ws;
  }

  lemma {:induction false} LastToken(spans: seq<Span>, lo: nat, hi: nat)
    requires lo < hi <= |spans|
    ensures Tokens(spans[lo..hi]) == Tokens(spans[lo..hi - 1]) + spans[hi - 1].tokens
  {
    assert spans[lo..hi] == spans[lo..hi - 1] + [spans[hi - 1]];
    TokensAdd(spans[lo..hi - 1], spans[hi - 1]);
  }

  lemma {:induction false} OpeningFits(spans: seq<Span>, ws: seq<Window>, lo: nat, c: Config)
    requires ws != [] && StartsRight(spans, ws, lo, c)
    ensures lo <= EndOf(ws) < |spans| && (lo == EndOf(ws) || Tokens(spans[lo..EndOf(ws) + 1]) <= c.max)
  {
    SharedAt(spans, ws, lo, c);
    LastToken(spans, lo, EndOf(ws) + 1);
  }

  lemma {:induction false} FollowsFits(spans: seq<Span>, ws: seq<Window>, w: Window, c: Config)
    requires Follows(spans, ws, w, c)
    ensures w.lo < w.hi <= |spans| && (Tokens(spans[w.lo..w.hi]) <= c.max || w.hi == w.lo + 1)
    decreases w.hi
  {
    if w.hi > EndOf(ws) + 1 {
      LastToken(spans, w.lo, w.hi);
    } else if ws != [] {
      OpeningFits(spans, ws, w.lo, c);
    }
  }

  /** No chunk is longer than the limit, unless it is one over-long span. */
  lemma {:induction false} ChunksFit(spans: seq<Span>, ws: seq<Window>, cut: nat, c: Config, k: nat)
    requires Windows(spans, ws, cut, c) && k < |ws|
    ensures ws[k].lo < ws[k].hi <= |spans|
    ensures Tokens(spans[ws[k].lo..ws[k].hi]) <= c.max || ws[k].hi == ws[k].lo + 1
  {
    BoundsOnly(spans, ws, cut, c, k);
    if k == |ws| - 1 && cut != |spans| {
      MergedFits(spans, ws, cut, c);
      assert spans[ws[k].lo..ws[k].hi] == spans[ws[k].lo..];
    } else {
      UnmergedFollows(spans, ws, cut, c, k);
      FollowsFits(spans, ws[..k], ws[k], c);
    }
  }

  lemma {:induction false} BoundsOnly(spans: seq<Span>, ws: seq<Window>, cut: nat, c: Config, k: nat)
    requires Windows(spans, ws, cut, c) && k < |ws|
    ensures ws[k].lo < ws[k].hi <= |spans| && (k == |ws| - 1 ==> ws[k].hi == |spans|)
  {
    WindowBounds(spans, ws, cut, c, k);
  }

  lemma {:induction false} UnmergedFollows(spans: seq<Span>, ws: seq<Window>, cut: nat, c: Config, k: nat)
    requires Windows(spans, ws, cut, c) && k < |ws| && (k < |ws| - 1 || cut == |spans|)
    ensures Follows(spans, ws[..k], ws[k], c)
  {
    BoundsOnly(spans, ws, cut, c, k);
    WindowAt(spans, ws, cut, c, k);
    assert Unmerged(ws, cut, k) == ws[k];
  }

  lemma {:induction false} TokensJoin(spans: seq<Span>, lo: nat, mid: nat)
    requires lo <= mid <= |spans|
    ensures Tokens(spans[lo..]) == Tokens(spans[lo..mid]) + Tokens(spans[mid..])
  {
    TokensConcat(spans[lo..mid], spans[mid..]);
    assert spans[lo..] == spans[lo..mid] + spans[mid..];
  }

  lemma {:induction false} MergedFits(spans: seq<Span>, ws: seq<Window>, cut: nat, c: Config)
    requires Windows(spans, ws, cut, c) && ws != [] && cut != |spans|
    ensures ws[|ws| - 1].lo <= |spans| && Tokens(spans[ws[|ws| - 1].lo..]) <= c.max
  {
    var k := |ws| - 1;
    var lo := ws[k].lo;
    WindowBounds(spans, ws, cut, c, k);
    MergesWithin(spans, ws[..k], lo, cut, c);
    TokensJoin(spans, lo, cut);
  }

  lemma {:induction false} MergesWithin(spans: seq<Span>, ws: seq<Window>, lo: nat, cut: nat, c: Config)
    requires Merges(spans, ws + [Window(lo, cut)], c)
    ensures lo <= cut <= |spans| && Tokens(spans[lo..cut]) + Tokens(spans[cut..]) <= c.max
  {}

  lemma {:induction false} TokensConcat(a: seq<Span>, b: seq<Span>)
    ensures Tokens(a + b) == Tokens(a) + Tokens(b)
  {
    if b == [] {
      assert a + b == a;
    } else {
      var m := |b| - 1;
      assert (a + b)[..|a + b| - 1] == a + b[..m];
      TokensConcat(a, b[..m]);
    }
  }

  /** A chunk that another one follows is too short only if the next span would not have fit. */
  lemma {:induction false} ShortChunksAreFull(spans: seq<Span>, ws: seq<Window>, cut: nat, c: Config, k: nat)
    requires Windows(spans, ws, cut, c) && k + 1 < |ws|
    ensures ws[k].lo <= ws[k].hi < |spans|
    ensures var group := spans[ws[k].lo..ws[k].hi];
            Tokens(group) < c.min ==> Tokens(group) + spans[ws[k].hi].tokens > c.max
  {
    WindowAt(spans, ws, cut, c, k);
    WindowBounds(spans, ws, cut, c, k);
  }

  // ----- a whole document ------------------------------------------------------------------------------------------

  ghost predicate IsChunk(text: string, group: seq<Span>, position: nat, chunk: Chunk) {
    && group != [] && chunk.position == position && chunk.tokenCount == Tokens(group)
    && chunk.section == group[0].section && chunk.charStart == group[0].start
    && chunk.charEnd == group[|group| - 1].end
    && chunk.charStart <= chunk.charEnd <= |text| && chunk.text == text[chunk.charStart..chunk.charEnd]
  }

  /** The first n chunks describe the first n groups. */
  ghost predicate AreChunks(text: string, groups: seq<seq<Span>>, chunks: seq<Chunk>, n: nat) {
    n == 0 || (n <= |groups| && n <= |chunks| && IsChunk(text, groups[n - 1], n - 1, chunks[n - 1])
               && AreChunks(text, groups, chunks, n - 1))
  }

  lemma {:induction false} ChunkAt(text: string, groups: seq<seq<Span>>, chunks: seq<Chunk>, n: nat, k: nat)
    requires AreChunks(text, groups, chunks, n) && k < n
    ensures k < |groups| && k < |chunks| && IsChunk(text, groups[k], k, chunks[k])
  {
    if k < n - 1 { ChunkAt(text, groups, chunks, n - 1, k); }
  }

  lemma {:induction false} ChunksGrow(text: string, groups: seq<seq<Span>>, chunks: seq<Chunk>, n: nat, x: Chunk)
    requires AreChunks(text, groups, chunks, n)
    ensures AreChunks(text, groups, chunks + [x], n)
  {
    if n > 0 { ChunksGrow(text, groups, chunks, n - 1, x); }
  }

  method Describe(text: string, g: seq<Span>, position: nat) returns (chunk: Chunk)
    requires g != [] && g[0].start <= g[|g| - 1].end <= |text|
    ensures IsChunk(text, g, position, chunk)
  {
    var last := g[|g| - 1];
    chunk := Chunk(g[0].section, position, text[g[0].start..last.end], Tokens(g), g[0].start, last.end);
  }

  lemma {:induction false} InOrderAt(text: string, spans: seq<Span>, i: nat, j: nat)
    requires InOrder(text, spans) && i <= j < |spans|
    ensures spans[i].start <= spans[i].end <= |text| && spans[j].start <= spans[j].end <= |text|
    ensures if i == j then spans[i].start <= spans[j].end else spans[i].end < spans[j].start
    decreases |spans|, j - i
  {
    var k := |spans| - 1;
    if j < k {
      InOrderAt(text, spans[..k], i, j);
    } else if i < j {
      InOrderAt(text, spans[..k], i, k - 1);
    }
  }

  lemma {:induction false} NeighboursAdvance(spans: seq<Span>, ws: seq<Window>, cut: nat, c: Config, k: nat)
    requires Windows(spans, ws, cut, c) && k + 1 < |ws|
    ensures ws[k].lo < ws[k + 1].lo <= ws[k].hi < ws[k + 1].hi <= |spans|
  {
    NeighboursShareTheOverlap(spans, ws, cut, c, k);
  }

  /** Chunk starts strictly increase. */
  lemma {:induction false} StartsIncrease(
      text: string, spans: seq<Span>, ws: seq<Window>, groups: seq<seq<Span>>, chunks: seq<Chunk>, cut: nat,
      c: Config, k: nat)
    requires InOrder(text, spans) && Windows(spans, ws, cut, c) && Shows(spans, ws, groups)
    requires k + 1 < |ws| == |chunks| == |groups| && AreChunks(text, groups, chunks, |groups|)
    ensures chunks[k].charStart < chunks[k + 1].charStart && chunks[k].charEnd < chunks[k + 1].charEnd
  {
    NeighboursAdvance(spans, ws, cut, c, k);
    ShowsAt(spans, ws, groups, k);
    ShowsAt(spans, ws, groups, k + 1);
    LaterRun(text, spans, ws[k], ws[k + 1]);
    ChunkAt(text, groups, chunks, |groups|, k);
    ChunkAt(text, groups, chunks, |groups|, k + 1);
  }

  lemma {:induction false} LaterRun(text: string, spans: seq<Span>, v: Window, w: Window)
    requires InOrder(text, spans) && v.lo < w.lo < w.hi <= |spans| && v.lo < v.hi < w.hi
    ensures var g, h := spans[v.lo..v.hi], spans[w.lo..w.hi];
            g[0].start < h[0].start && g[|g| - 1].end < h[|h| - 1].end
  {
    InOrderAt(text, spans, v.lo, w.lo);
    InOrderAt(text, spans, v.hi - 1, w.hi - 1);
  }

  /** The spans of the printed text: one per sentence, or several where a sentence is over-long. */
  method FindSpans(text: string, raw: seq<Layout.Range>, count: string -> nat, max: nat) returns (spans: seq<Span>)
    requires max > 0 && forall r :: r in raw ==> r.start <= r.end <= |text|
    ensures spans == SpansOf(text, raw, count, max, |raw|)
  {
    spans := [];
    for i := 0 to |raw|
      invariant spans == SpansOf(text, raw, count, max, i)
    {
      assert raw[i] in raw;
      var s := Span(raw[i].name, raw[i].start, raw[i].end, count(text[raw[i].start..raw[i].end]));
      if s.tokens > max {
        var pieces := SplitLongSentence(text, s, max);
        spans := spans + pieces;
      } else {
        spans := spans + [s];
      }
    }
  }

  lemma {:induction false} GroupIsRun(text: string, spans: seq<Span>, ws: seq<Window>, groups: seq<seq<Span>>,
                                      cut: nat, c: Config, k: nat)
    requires InOrder(text, spans) && Windows(spans, ws, cut, c) && Shows(spans, ws, groups) && k < |ws|
    ensures |groups| == |ws| && var g := groups[k]; g != [] && g[0].start <= g[|g| - 1].end <= |text|
  {
    WindowBounds(spans, ws, cut, c, k);
    ShowsAt(spans, ws, groups, k);
    InOrderRun(text, spans, ws[k].lo, ws[k].hi);
  }

  lemma {:induction false} InOrderRun(text: string, spans: seq<Span>, lo: nat, hi: nat)
    requires InOrder(text, spans) && lo < hi <= |spans|
    ensures var g := spans[lo..hi]; g[0].start <= g[|g| - 1].end <= |text|
  {
    InOrderAt(text, spans, lo, hi - 1);
  }

  method ChunkDocument(doc: ParsedDoc, count: string -> nat, c: Config)
    returns (text: string, chunks: seq<Chunk>,
             ghost spans: seq<Span>, ghost groups: seq<seq<Span>>, ghost ws: seq<Window>, ghost cut: nat)
    requires c.max > 0
    ensures text == Layout.Printed(doc.sections).text
    ensures forall r :: r in Layout.Printed(doc.sections).spans ==> r.start <= r.end <= |text|
    ensures var raw := Layout.Printed(doc.sections).spans; spans == SpansOf(text, raw, count, c.max, |raw|)
    ensures InOrder(text, spans) && Windows(spans, ws, cut, c) && Shows(spans, ws, groups)
    ensures |chunks| == |groups| && AreChunks(text, groups, chunks, |groups|)
  {
    var raw, heads;
    text, raw, heads := Layout.LayOut(doc.sections);
    RangesFit(doc.sections);
    var found := FindSpans(text, raw, count, c.max);
    SpansInOrder(text, raw, count, c.max, |raw|);
    var gs;
    gs, ws, cut := Group(found, c);
    spans, groups := found, gs;
    chunks := DescribeAll(text, found, gs, ws, cut, c);
  }

  method DescribeAll(text: string, spans: seq<Span>, groups: seq<seq<Span>>, ghost ws: seq<Window>, ghost cut: nat,
      c: Config)
    returns (chunks: seq<Chunk>)
    requires InOrder(text, spans) && Windows(spans, ws, cut, c) && Shows(spans, ws, groups)
    ensures |chunks| == |groups| && AreChunks(text, groups, chunks, |groups|)
  {
    chunks := [];
    for i := 0 to |groups|
      invariant |chunks| == i && AreChunks(text, groups, chunks, i)
    {
      GroupIsRun(text, spans, ws, groups, cut, c, i);
      var chunk := Describe(text, groups[i], i);
      ChunksGrow(text, groups, chunks, i, chunk);
      chunks := chunks + [chunk];
    }
  }

  lemma {:induction false} RangesFit(sections: seq<Section>)
    ensures var p := Layout.Printed(sections);
            && (forall r :: r in p.spans ==> r.start <= r.end <= |p.text|)
            && (forall i :: 0 <= i < |p.spans| - 1 ==> p.spans[i].end < p.spans[i + 1].start)
  {
    Layout.PageIsExact(sections, |sections|);
  }
}
