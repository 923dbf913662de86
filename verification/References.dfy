/**
 * The citation graph: raw references, the edges and counts derived from them, and stubs for papers outside the corpus.
 *
 * citation_edges and the counts are a cache of references_raw.  Resolving one paper can rewrite other papers' rows
 * (when a stub is created for a title they share), so the cache is kept by re-deriving every paper that was touched.
 */
module References {
  import opened Common
  import opened Documents

  type Id = string

  /** What an edge points to: a paper's arXiv id (known here or not), or a stub. */
  datatype Node = Paper(id: Id) | Stub(n: nat)

  datatype Ref = Ref(titleNorm: Option<string>, year: Option<int>, found: Option<Id>, resolved: Option<Node>)

  datatype PaperRow = PaperRow(titleNorm: string, year: Option<int>, count: nat)

  datatype StubRow = StubRow(n: nat, count: nat)

  type Refs = map<(Id, nat), Ref>

  datatype Db = Db(
    papers: map<Id, PaperRow>, refs: Refs, edges: set<(Id, Node)>, stubs: map<string, StubRow>, nextStub: nat)

  const MIN_TITLE_NORM_CHARS := 10

  // ----- edges and counts ------------------------------------------------------------------------------------------

  /** The distinct resolved ids of a paper's references, other than itself. */
  function Targets(refs: Refs, c: Id): set<Node> {
    set k | k in refs && k.0 == c && refs[k].resolved.Some? && refs[k].resolved.value != Paper(c)
      :: refs[k].resolved.value
  }

  function EdgesOf(edges: set<(Id, Node)>, c: Id): set<Node> {
    set e | e in edges && e.0 == c :: e.1
  }

  function Citers(edges: set<(Id, Node)>, n: Node): set<Id> {
    set e | e in edges && e.1 == n :: e.0
  }

  /** A paper's edges say what its references say. */
  ghost predicate Synced(db: Db, c: Id) {
    EdgesOf(db.edges, c) == Targets(db.refs, c)
  }

  /** A node whose stored count is not its number of citing papers. */
  predicate Wrong(db: Db, n: Node) {
    match n
    case Paper(p) => p in db.papers && db.papers[p].count != |Citers(db.edges, n)|
    case Stub(k) => exists t :: t in db.stubs && db.stubs[t].n == k && db.stubs[t].count != |Citers(db.edges, n)|
  }

  function Recount(db: Db, ids: set<Node>): Db {
    db.(papers := map p | p in db.papers ::
                    if Paper(p) in ids then db.papers[p].(count := |Citers(db.edges, Paper(p))|) else db.papers[p],
        stubs := map t | t in db.stubs ::
                   if Stub(db.stubs[t].n) in ids then db.stubs[t].(count := |Citers(db.edges, Stub(db.stubs[t].n))|)
                   else db.stubs[t])
  }

  function Reedged(db: Db, c: Id): set<(Id, Node)> {
    (set e | e in db.edges && e.0 != c) + (set n | n in Targets(db.refs, c) :: (c, n))
  }

  /** rebuild_edges */
  function Rebuilt(db: Db, c: Id): Db {
    Recount(db.(edges := Reedged(db, c)), EdgesOf(db.edges, c) + Targets(db.refs, c))
  }

  lemma {:induction false} ReedgedOf(db: Db, c: Id, d: Id)
    ensures EdgesOf(Reedged(db, c), d) == if d == c then Targets(db.refs, c) else EdgesOf(db.edges, d)
  {
    var edges := Reedged(db, c);
    forall n | n in Targets(db.refs, c) ensures (c, n) in edges {}
    if d == c {
      forall n | n in Targets(db.refs, c) ensures n in EdgesOf(edges, c) { assert (c, n) in edges; }
      forall n | n in EdgesOf(edges, c) ensures n in Targets(db.refs, c) {}
    } else {
      forall n | n in EdgesOf(db.edges, d) ensures n in EdgesOf(edges, d) { assert (d, n) in edges; }
      forall n | n in EdgesOf(edges, d) ensures n in EdgesOf(db.edges, d) { assert (d, n) in db.edges; }
    }
  }

  lemma {:induction false} CitersUntouched(db: Db, c: Id, n: Node)
    requires n !in EdgesOf(db.edges, c) + Targets(db.refs, c)
    ensures Citers(Reedged(db, c), n) == Citers(db.edges, n)
  {
    var edges := Reedged(db, c);
    forall d | d in Citers(edges, n) ensures d in Citers(db.edges, n) { assert (d, n) in edges; }
    forall d | d in Citers(db.edges, n) ensures d in Citers(edges, n) {
      assert (d, n) in db.edges;
      assert d == c ==> n in EdgesOf(db.edges, c);
    }
  }

  /** Rebuilding a paper's edges puts it in step with its references and leaves every other paper's edges alone. */
  lemma {:induction false} RebuildSyncs(db: Db, c: Id, d: Id)
    ensures Synced(Rebuilt(db, c), c)
    ensures Rebuilt(db, c).refs == db.refs
    ensures d != c ==> EdgesOf(Rebuilt(db, c).edges, d) == EdgesOf(db.edges, d)
  {
    ReedgedOf(db, c, c);
    ReedgedOf(db, c, d);
  }

  /** It corrects the counts of the nodes the paper cites or cited, and makes no count wrong. */
  lemma {:induction false} RebuildCorrects(db: Db, c: Id, n: Node)
    ensures Wrong(Rebuilt(db, c), n) <==> Wrong(db, n) && n !in EdgesOf(db.edges, c) + Targets(db.refs, c)
  {
    var t := Rebuilt(db, c);
    if n !in EdgesOf(db.edges, c) + Targets(db.refs, c) { CitersUntouched(db, c, n); }
    if n.Stub? {
      if title :| title in t.stubs && t.stubs[title].n == n.n && t.stubs[title].count != |Citers(t.edges, n)| {
        assert title in db.stubs && db.stubs[title].n == n.n;
      }
      if title :| title in db.stubs && db.stubs[title].n == n.n && db.stubs[title].count != |Citers(db.edges, n)| {
        assert title in t.stubs && t.stubs[title].n == n.n;
      }
    }
  }

  /** Rebuilding several papers, in any order. */
  function RebuiltAll(db: Db, citers: seq<Id>): Db
    decreases |citers|
  {
    if citers == [] then db else Rebuilt(RebuiltAll(db, citers[..|citers| - 1]), citers[|citers| - 1])
  }

  lemma {:induction false} RebuiltAllSyncs(db: Db, citers: seq<Id>, d: Id)
    ensures RebuiltAll(db, citers).refs == db.refs
    ensures d in citers ==> Synced(RebuiltAll(db, citers), d)
    ensures d !in citers ==> EdgesOf(RebuiltAll(db, citers).edges, d) == EdgesOf(db.edges, d)
    decreases |citers|
  {
    if citers != [] {
      var k := |citers| - 1;
      RebuiltAllSyncs(db, citers[..k], d);
      RebuildSyncs(RebuiltAll(db, citers[..k]), citers[k], d);
      assert citers == citers[..k] + [citers[k]];
    }
  }

  lemma {:induction false} RebuiltAllCorrects(db: Db, citers: seq<Id>, n: Node)
    ensures Wrong(RebuiltAll(db, citers), n) ==> Wrong(db, n)
    decreases |citers|
  {
    if citers != [] {
      var k := |citers| - 1;
      RebuiltAllCorrects(db, citers[..k], n);
      RebuildCorrects(RebuiltAll(db, citers[..k]), citers[k], n);
    }
  }

  // ----- matching one reference ------------------------------------------------------------------------------------

  datatype Candidate = Candidate(id: Id, year: Option<int>)

  /** What the papers table and the arXiv catalogue answer; both are fixed while one paper is resolved. */
  datatype Lookup = Lookup(
    exact: string -> seq<Candidate>, trigram: (string, int) -> Option<Id>,
    catalogExact: string -> seq<Candidate>, catalogTrigram: (string, int) -> Option<Id>)

  predicate Usable(title: Option<string>) {
    title.Some? && |title.value| >= MIN_TITLE_NORM_CHARS
  }

  /** A candidate without a year counts as year 0. */
  function Distance(x: Candidate, year: int): nat {
    var y := if x.year.Some? then x.year.value else 0;
    if y < year then year - y else y - year
  }

  function Closest(cands: seq<Candidate>, year: int): (best: Candidate)
    requires cands != []
    ensures best in cands && forall x :: x in cands ==> Distance(best, year) <= Distance(x, year)
  {
    if |cands| == 1 then cands[0]
    else
      var best := Closest(cands[1..], year);
      assert cands == [cands[0]] + cands[1..];
      if Distance(cands[0], year) <= Distance(best, year) then cands[0] else best
  }

  function Pick(cands: seq<Candidate>, year: Option<int>): Id
    requires cands != []
  {
    if year.None? || |cands| == 1 then cands[0].id else Closest(cands, year.value).id
  }

  function Other(x: Option<Id>, citing: Id): Option<Id> {
    if x.Some? && x.value != citing then x else None
  }

  function ByTitle(r: Ref, cands: seq<Candidate>, citing: Id): Option<Id> {
    if cands == [] then None else Other(Some(Pick(cands, r.year)), citing)
  }

  function ByTrigram(r: Ref, trigram: (string, int) -> Option<Id>, citing: Id): Option<Id> {
    if Usable(r.titleNorm) && r.year.Some? then Other(trigram(r.titleNorm.value, r.year.value), citing) else None
  }

  /** An empty id counts as none; so does the paper's own. */
  function ById(r: Ref, citing: Id): Option<Id> {
    if r.found == Some("") then None else Other(r.found, citing)
  }

  function Or(x: Option<Id>, y: Option<Id>): Option<Id> { if x.Some? then x else y }

  /** The first of the five methods that gives a paper other than the citing one. */
  function Match(look: Lookup, citing: Id, r: Ref): Option<Id> {
    if ById(r, citing).Some? then ById(r, citing)
    else if !Usable(r.titleNorm) then None
    else
      var t := r.titleNorm.value;
      Or(Or(ByTitle(r, look.exact(t), citing), ByTrigram(r, look.trigram, citing)),
         Or(ByTitle(r, look.catalogExact(t), citing), ByTrigram(r, look.catalogTrigram, citing)))
  }

  // ----- resolving one paper ---------------------------------------------------------------------------------------

  function AsNode(m: Option<Id>): Option<Node> { if m.Some? then Some(Paper(m.value)) else None }

  /** The rows of the citing paper after matching: stub-resolved rows are reset. */
  function Matched(refs: Refs, look: Lookup, citing: Id): Refs {
    map k | k in refs ::
      if k.0 == citing then refs[k].(resolved := AsNode(Match(look, citing, refs[k]))) else refs[k]
  }

  /** The titles of its references that nothing matched. */
  function Unresolved(refs: Refs, look: Lookup, citing: Id): set<string> {
    set k | k in refs && k.0 == citing && Match(look, citing, refs[k]).None? && Usable(refs[k].titleNorm)
      :: refs[k].titleNorm.value
  }

  /** The papers with a reference of this title that is unresolved or points to a stub. */
  function Waiting(refs: Refs, t: string): set<Id> {
    set k | k in refs && refs[k].titleNorm == Some(t) && (refs[k].resolved.None? || refs[k].resolved.value.Stub?) :: k.0
  }

  function Assigned(refs: Refs, t: string, n: nat): Refs {
    map k | k in refs ::
      if refs[k].titleNorm == Some(t) && refs[k].resolved.None? then refs[k].(resolved := Some(Stub(n))) else refs[k]
  }

  /** The papers whose rows that changes. */
  function Touched(refs: Refs, t: string): set<Id> {
    set k | k in refs && refs[k].titleNorm == Some(t) && refs[k].resolved.None? :: k.0
  }

  /** One title: an existing stub is used, a new one is made once enough papers cite the title. */
  function Stubbed(db: Db, t: string, stubMin: int): Db {
    if t in db.stubs then db.(refs := Assigned(db.refs, t, db.stubs[t].n))
    else if |Waiting(db.refs, t)| < stubMin then db
    else db.(refs := Assigned(db.refs, t, db.nextStub), stubs := db.stubs[t := StubRow(db.nextStub, 0)],
             nextStub := db.nextStub + 1)
  }

  predicate Stubs(db: Db, t: string, stubMin: int) {
    t in db.stubs || |Waiting(db.refs, t)| >= stubMin
  }

  function StubbedAll(db: Db, titles: seq<string>, stubMin: int): Db
    decreases |titles|
  {
    if titles == [] then db else Stubbed(StubbedAll(db, titles[..|titles| - 1], stubMin), titles[|titles| - 1], stubMin)
  }

  function TouchedAll(db: Db, titles: seq<string>, stubMin: int): set<Id>
    decreases |titles|
  {
    if titles == [] then {}
    else
      var before, t := StubbedAll(db, titles[..|titles| - 1], stubMin), titles[|titles| - 1];
      TouchedAll(db, titles[..|titles| - 1], stubMin) + if Stubs(before, t, stubMin) then Touched(before.refs, t)
          else {}
  }

  ghost predicate Lists<T(!new)>(order: seq<T>, s: set<T>) {
    (forall i, j :: 0 <= i < j < |order| ==> order[i] != order[j]) && forall x :: x in order <==> x in s
  }

  /** The matched rows with their stubs, before any edge is rebuilt. */
  function WithStubs(db: Db, look: Lookup, citing: Id, stubMin: int, titles: seq<string>): Db {
    StubbedAll(db.(refs := Matched(db.refs, look, citing)), titles, stubMin)
  }

  /** resolve_for_paper, with the titles and the other touched papers in any order. */
  function Resolved(db: Db, look: Lookup, citing: Id, stubMin: int, titles: seq<string>, others: seq<Id>): Db {
    Rebuilt(RebuiltAll(WithStubs(db, look, citing, stubMin, titles), others), citing)
  }

  ghost predicate Orders(db: Db, look: Lookup, citing: Id, stubMin: int, titles: seq<string>, others: seq<Id>) {
    && Lists(titles, Unresolved(db.refs, look, citing))
    && Lists(others, TouchedAll(db.(refs := Matched(db.refs, look, citing)), titles, stubMin) - {citing})
  }

  // ----- what the stub pass does, row by row -----------------------------------------------------------------------

  /** The parts of a reference that matching looks at. */
  predicate SameText(r: Ref, q: Ref) { r.titleNorm == q.titleNorm && r.year == q.year && r.found == q.found }

  /** Row k after the pass: it points to the stub of its title if it pointed nowhere and the title has one now. */
  lemma {:induction false} StubbedRow(db: Db, titles: seq<string>, stubMin: int, k: (Id, nat))
    requires k in db.refs
    ensures var out := StubbedAll(db, titles, stubMin);
            && k in out.refs && SameText(out.refs[k], db.refs[k])
            && var r := db.refs[k];
               out.refs[k].resolved ==
                 if r.resolved.None? && r.titleNorm.Some? && r.titleNorm.value in titles &&
                     r.titleNorm.value in out.stubs
                 then Some(Stub(out.stubs[r.titleNorm.value].n)) else r.resolved
    decreases |titles|
  {
    if titles != [] {
      var m := |titles| - 1;
      StubbedRow(db, titles[..m], stubMin, k);
      assert titles == titles[..m] + [titles[m]];
      RowStubbed(StubbedAll(db, titles[..m], stubMin), titles[m], stubMin, k);
      if db.refs[k].titleNorm.Some? { StubStays(db, titles, stubMin, db.refs[k].titleNorm.value); }
    }
  }

  /** The same for one title. */
  lemma {:induction false} RowStubbed(db: Db, t: string, stubMin: int, k: (Id, nat))
    requires k in db.refs
    ensures var out := Stubbed(db, t, stubMin);
            && k in out.refs && SameText(out.refs[k], db.refs[k])
            && out.refs[k].resolved ==
                 if db.refs[k].resolved.None? && db.refs[k].titleNorm == Some(t) && t in out.stubs
                 then Some(Stub(out.stubs[t].n)) else db.refs[k].resolved
  {}

  lemma {:induction false} StubStays(db: Db, titles: seq<string>, stubMin: int, t: string)
    requires titles != []
    ensures var before, out := StubbedAll(db, titles[..|titles| - 1], stubMin), StubbedAll(db, titles, stubMin);
            && (t in before.stubs ==> t in out.stubs && out.stubs[t] == before.stubs[t])
            && (t in out.stubs && t != titles[|titles| - 1] ==> t in before.stubs)
  {}

  /** It touches no other table but the stubs, and no other row. */
  lemma {:induction false} StubbedElsewhere(db: Db, titles: seq<string>, stubMin: int)
    ensures var out := StubbedAll(db, titles, stubMin);
            out.papers == db.papers && out.edges == db.edges && out.refs.Keys == db.refs.Keys
    decreases |titles|
  {
    if titles != [] { StubbedElsewhere(db, titles[..|titles| - 1], stubMin); }
  }

  lemma {:induction false} UntouchedRow(db: Db, titles: seq<string>, stubMin: int, k: (Id, nat))
    requires k in db.refs && k.0 !in TouchedAll(db, titles, stubMin)
    ensures k in StubbedAll(db, titles, stubMin).refs && StubbedAll(db, titles, stubMin).refs[k] == db.refs[k]
    decreases |titles|
  {
    if titles != [] {
      var before, t := StubbedAll(db, titles[..|titles| - 1], stubMin), titles[|titles| - 1];
      UntouchedRow(db, titles[..|titles| - 1], stubMin, k);
      if Stubs(before, t, stubMin) { assert k.0 !in Touched(before.refs, t); }
    }
  }

  lemma {:induction false} UntouchedTargets(db: Db, titles: seq<string>, stubMin: int, d: Id)
    requires d !in TouchedAll(db, titles, stubMin)
    ensures Targets(StubbedAll(db, titles, stubMin).refs, d) == Targets(db.refs, d)
  {
    var out := StubbedAll(db, titles, stubMin);
    StubbedElsewhere(db, titles, stubMin);
    forall k | k in db.refs && k.0 == d ensures out.refs[k] == db.refs[k] { UntouchedRow(db, titles, stubMin, k); }
    forall n | n in Targets(db.refs, d) ensures n in Targets(out.refs, d) {
      var k :| k in db.refs && k.0 == d && db.refs[k].resolved == Some(n);
      assert out.refs[k] == db.refs[k];
    }
    forall n | n in Targets(out.refs, d) ensures n in Targets(db.refs, d) {
      var k :| k in out.refs && k.0 == d && out.refs[k].resolved == Some(n);
      assert out.refs[k] == db.refs[k];
    }
  }

  // ----- the edges stay in step ------------------------------------------------------------------------------------

  lemma {:induction false} MatchedTargets(refs: Refs, look: Lookup, citing: Id, d: Id)
    requires d != citing
    ensures Targets(Matched(refs, look, citing), d) == Targets(refs, d)
  {
    var m := Matched(refs, look, citing);
    forall n | n in Targets(refs, d) ensures n in Targets(m, d) {
      var k :| k in refs && k.0 == d && refs[k].resolved == Some(n);
      assert k in m && m[k] == refs[k];
    }
    forall n | n in Targets(m, d) ensures n in Targets(refs, d) {
      var k :| k in m && k.0 == d && m[k].resolved == Some(n);
      assert m[k] == refs[k];
    }
  }

  /** Resolving one paper syncs it, syncs every paper whose rows it rewrote, and unsyncs none. */
  lemma {:induction false} ResolvedSyncs(
      db: Db, look: Lookup, citing: Id, stubMin: int, titles: seq<string>, others: seq<Id>, d: Id)
    requires Orders(db, look, citing, stubMin, titles, others)
    ensures var out := Resolved(db, look, citing, stubMin, titles, others);
            && Synced(out, citing)
            && (Synced(db, d) || d in others ==> Synced(out, d))
  {
    var matched := db.(refs := Matched(db.refs, look, citing));
    var stubbed := StubbedAll(matched, titles, stubMin);
    var spread := RebuiltAll(stubbed, others);
    RebuildSyncs(spread, citing, d);
    RebuiltAllSyncs(stubbed, others, d);
    if d != citing && d !in others {
      StubbedElsewhere(matched, titles, stubMin);
      UntouchedTargets(matched, titles, stubMin, d);
      MatchedTargets(db.refs, look, citing, d);
    }
  }

  // ----- no count goes wrong ---------------------------------------------------------------------------------------

  /** Stub numbers are handed out upwards. */
  ghost predicate Numbered(db: Db) {
    && (forall e :: e in db.edges && e.1.Stub? ==> e.1.n < db.nextStub)
    && (forall k :: k in db.refs && db.refs[k].resolved.Some? && db.refs[k].resolved.value.Stub? ==>
          db.refs[k].resolved.value.n < db.nextStub)
    && (forall t :: t in db.stubs ==> db.stubs[t].n < db.nextStub)
  }

  lemma {:induction false} StubbedNumbered(db: Db, t: string, stubMin: int)
    requires Numbered(db)
    ensures Numbered(Stubbed(db, t, stubMin))
  {}

  lemma {:induction false} NobodyCites(db: Db, n: Node)
    requires Numbered(db) && n.Stub? && n.n >= db.nextStub
    ensures Citers(db.edges, n) == {}
  {}

  lemma {:induction false} StubbedCorrects(db: Db, t: string, stubMin: int, n: Node)
    requires Numbered(db) && Wrong(Stubbed(db, t, stubMin), n)
    ensures Wrong(db, n)
  {
    var out := Stubbed(db, t, stubMin);
    if n.Stub? {
      if n.n == db.nextStub { NobodyCites(db, n); }
      var u :| u in out.stubs && out.stubs[u].n == n.n && out.stubs[u].count != |Citers(db.edges, n)|;
      assert u in db.stubs;
    }
  }

  lemma {:induction false} StubbedAllCorrects(db: Db, titles: seq<string>, stubMin: int, n: Node)
    requires Numbered(db)
    ensures Numbered(StubbedAll(db, titles, stubMin))
    ensures Wrong(StubbedAll(db, titles, stubMin), n) ==> Wrong(db, n)
    decreases |titles|
  {
    if titles != [] {
      var before, t := StubbedAll(db, titles[..|titles| - 1], stubMin), titles[|titles| - 1];
      StubbedAllCorrects(db, titles[..|titles| - 1], stubMin, n);
      StubbedNumbered(before, t, stubMin);
      if Wrong(Stubbed(before, t, stubMin), n) { StubbedCorrects(before, t, stubMin, n); }
    }
  }

  lemma {:induction false} RebuildNumbered(db: Db, c: Id)
    requires Numbered(db)
    ensures Numbered(Rebuilt(db, c))
  {
    var out := Rebuilt(db, c);
    forall e | e in out.edges && e.1.Stub? ensures e.1.n < out.nextStub {
      if e !in db.edges { assert e.1 in Targets(db.refs, c); }
    }
  }

  lemma {:induction false} RebuiltAllNumbered(db: Db, citers: seq<Id>)
    requires Numbered(db)
    ensures Numbered(RebuiltAll(db, citers))
    decreases |citers|
  {
    if citers != [] {
      RebuiltAllNumbered(db, citers[..|citers| - 1]);
      RebuildNumbered(RebuiltAll(db, citers[..|citers| - 1]), citers[|citers| - 1]);
    }
  }

  /** Resolving one paper makes no count wrong, and every count of a node it cites right. */
  lemma {:induction false} ResolvedCorrects(
      db: Db, look: Lookup, citing: Id, stubMin: int, titles: seq<string>, others: seq<Id>, n: Node)
    requires Numbered(db)
    ensures var out := Resolved(db, look, citing, stubMin, titles, others);
            && Numbered(out)
            && (Wrong(out, n) ==> Wrong(db, n) && n !in EdgesOf(out.edges, citing))
  {
    var matched := db.(refs := Matched(db.refs, look, citing));
    assert Numbered(matched);
    var stubbed := StubbedAll(matched, titles, stubMin);
    StubbedAllCorrects(matched, titles, stubMin, n);
    var spread := RebuiltAll(stubbed, others);
    RebuiltAllCorrects(stubbed, others, n);
    RebuiltAllNumbered(stubbed, others);
    RebuildNumbered(spread, citing);
    RebuildCorrects(spread, citing, n);
    RebuildSyncs(spread, citing, citing);
  }

  // ----- resolving twice -------------------------------------------------------------------------------------------

  lemma {:induction false} RebuildTwice(db: Db, c: Id)
    ensures Rebuilt(Rebuilt(db, c), c) == Rebuilt(db, c)
  {
    var once := Rebuilt(db, c);
    var twice := Rebuilt(once, c);
    RebuildSyncs(db, c, c);
    forall e | e in once.edges ensures e in twice.edges { if e.0 == c { assert e.1 in EdgesOf(once.edges, c); } }
    forall e | e in twice.edges ensures e in once.edges {
      if e.0 == c {
        assert e.1 in EdgesOf(once.edges, c);
        assert e == (c, e.1);
      }
    }
    assert twice.edges == once.edges;
    assert twice.papers == once.papers;
    assert twice.stubs == once.stubs;
  }

  /** A title without a stub afterwards is still too rare. */
  lemma {:induction false} StillRare(db: Db, titles: seq<string>, stubMin: int, t: string)
    requires t in titles && t !in StubbedAll(db, titles, stubMin).stubs
    ensures |Waiting(StubbedAll(db, titles, stubMin).refs, t)| < stubMin
    decreases |titles|
  {
    var m := |titles| - 1;
    var before, out := StubbedAll(db, titles[..m], stubMin), StubbedAll(db, titles, stubMin);
    assert titles == titles[..m] + [titles[m]];
    StubStays(db, titles, stubMin, t);
    if titles[m] == t {
      assert out == before;
    } else {
      StillRare(db, titles[..m], stubMin, t);
      SameWaiting(before.refs, out.refs, t);
    }
  }

  lemma {:induction false} SameWaiting(r: Refs, q: Refs, t: string)
    requires r.Keys == q.Keys
    requires forall k :: k in r ==> r[k].titleNorm == q[k].titleNorm && (r[k].titleNorm == Some(t) ==> r[k] == q[k])
    ensures Waiting(r, t) == Waiting(q, t)
  {
    forall c | c in Waiting(r, t) ensures c in Waiting(q, t) {
      var k :| k in r && k.0 == c && r[k].titleNorm == Some(t) && (r[k].resolved.None? || r[k].resolved.value.Stub?);
      assert q[k] == r[k];
    }
    forall c | c in Waiting(q, t) ensures c in Waiting(r, t) {
      var k :| k in q && k.0 == c && q[k].titleNorm == Some(t) && (q[k].resolved.None? || q[k].resolved.value.Stub?);
      assert q[k] == r[k];
    }
  }

  /** A state a second run would find: the rows of the citing paper are as the first run leaves them. */
  ghost predicate Settled(db: Db, look: Lookup, citing: Id, stubMin: int) {
    && (forall k :: k in db.refs && k.0 == citing ==> SettledRow(db, look, citing, k))
    && (forall t :: t in Unresolved(db.refs, look, citing) ==> SettledTitle(db, stubMin, t))
  }

  ghost predicate SettledRow(db: Db, look: Lookup, citing: Id, k: (Id, nat))
    requires k in db.refs
  {
    var r := db.refs[k];
    r.resolved ==
      if Match(look, citing, r).Some? then Some(Paper(Match(look, citing, r).value))
      else if Usable(r.titleNorm) && r.titleNorm.value in db.stubs then Some(Stub(db.stubs[r.titleNorm.value].n))
      else None
  }

  ghost predicate SettledTitle(db: Db, stubMin: int, t: string) {
    if t in db.stubs then forall k :: k in db.refs && db.refs[k].titleNorm == Some(t) ==> db.refs[k].resolved.Some?
    else |Waiting(db.refs, t)| < stubMin
  }

  lemma {:induction false} MatchIgnoresResolved(look: Lookup, citing: Id, r: Ref, q: Ref)
    requires SameText(r, q)
    ensures Match(look, citing, r) == Match(look, citing, q)
  {}

  lemma {:induction false} StubsSettle(db: Db, look: Lookup, citing: Id, stubMin: int, titles: seq<string>)
    requires Lists(titles, Unresolved(db.refs, look, citing))
    ensures Settled(WithStubs(db, look, citing, stubMin, titles), look, citing, stubMin)
  {
    var matched := db.(refs := Matched(db.refs, look, citing));
    var out := StubbedAll(matched, titles, stubMin);
    StubbedElsewhere(matched, titles, stubMin);
    forall k | k in out.refs && k.0 == citing ensures SettledRow(out, look, citing, k) {
      StubbedRow(matched, titles, stubMin, k);
      MatchIgnoresResolved(look, citing, db.refs[k], out.refs[k]);
      var r := db.refs[k];
      if Match(look, citing, r).None? && Usable(r.titleNorm) {
        assert r.titleNorm.value in Unresolved(db.refs, look, citing);
      } else if r.titleNorm.Some? && r.titleNorm.value in titles {
        UsableTitles(db.refs, look, citing, r.titleNorm.value);
      }
    }
    forall t | t in Unresolved(out.refs, look, citing) ensures SettledTitle(out, stubMin, t) {
      SameUnresolved(db, look, citing, stubMin, titles, t);
      if t in out.stubs {
        forall k | k in out.refs && out.refs[k].titleNorm == Some(t) ensures out.refs[k].resolved.Some? {
          StubbedRow(matched, titles, stubMin, k);
        }
      } else {
        StillRare(matched, titles, stubMin, t);
      }
    }
  }

  lemma {:induction false} UsableTitles(refs: Refs, look: Lookup, citing: Id, t: string)
    requires t in Unresolved(refs, look, citing)
    ensures Usable(Some(t))
  {}

  lemma {:induction false} SameUnresolved(db: Db, look: Lookup, citing: Id, stubMin: int, titles: seq<string>,
      t: string)
    ensures t in Unresolved(WithStubs(db, look, citing, stubMin, titles).refs, look, citing)
       <==> t in Unresolved(db.refs, look, citing)
  {
    var matched := db.(refs := Matched(db.refs, look, citing));
    var out := StubbedAll(matched, titles, stubMin);
    StubbedElsewhere(matched, titles, stubMin);
    forall k | k in db.refs && k.0 == citing
      ensures k in out.refs && out.refs[k].titleNorm == db.refs[k].titleNorm
           && Match(look, citing, out.refs[k]) == Match(look, citing, db.refs[k])
    {
      StubbedRow(matched, titles, stubMin, k);
      MatchIgnoresResolved(look, citing, db.refs[k], out.refs[k]);
    }
  }

  /** The rows part of the way through a second run: those of the titles already treated are back. */
  ghost predicate Returning(db: Db, look: Lookup, citing: Id, mid: Db, titles: seq<string>) {
    && mid.papers == db.papers && mid.edges == db.edges && mid.stubs == db.stubs && mid.nextStub == db.nextStub
    && mid.refs.Keys == db.refs.Keys
    && forall k :: k in db.refs ==>
         mid.refs[k] == if db.refs[k].titleNorm.Some? && db.refs[k].titleNorm.value in titles then db.refs[k]
                        else Matched(db.refs, look, citing)[k]
  }

  lemma {:induction false} SecondRunTitle(
      db: Db, look: Lookup, citing: Id, stubMin: int, mid: Db, done: seq<string>, t: string)
    requires Settled(db, look, citing, stubMin) && Returning(db, look, citing, mid, done)
    requires t in Unresolved(db.refs, look, citing)
    ensures Returning(db, look, citing, Stubbed(mid, t, stubMin), done + [t])
    ensures Stubs(mid, t, stubMin) ==> Touched(mid.refs, t) <= {citing}
  {
    assert SettledTitle(db, stubMin, t);
    UsableTitles(db.refs, look, citing, t);
    forall k | k in db.refs && db.refs[k].titleNorm == Some(t)
      ensures k.0 != citing ==> mid.refs[k] == db.refs[k]
      ensures k.0 == citing ==> SettledRow(db, look, citing, k)
    {}
    if t !in db.stubs {
      forall k | k in db.refs && db.refs[k].titleNorm == Some(t) ensures mid.refs[k] == db.refs[k] {
        if k.0 == citing { assert SettledRow(db, look, citing, k); }
      }
      SameWaiting(db.refs, mid.refs, t);
    }
  }

  lemma {:induction false} SecondRunTitles(db: Db, look: Lookup, citing: Id, stubMin: int, titles: seq<string>)
    requires Settled(db, look, citing, stubMin)
    requires forall t :: t in titles ==> t in Unresolved(db.refs, look, citing)
    ensures Returning(db, look, citing, WithStubs(db, look, citing, stubMin, titles), titles)
    ensures TouchedAll(db.(refs := Matched(db.refs, look, citing)), titles, stubMin) <= {citing}
    decreases |titles|
  {
    if titles != [] {
      var m := |titles| - 1;
      assert titles == titles[..m] + [titles[m]];
      SecondRunTitles(db, look, citing, stubMin, titles[..m]);
      SecondRunTitle(db, look, citing, stubMin, WithStubs(db, look, citing, stubMin, titles[..m]), titles[..m],
          titles[m]);
    }
  }

  lemma {:induction false} SecondRunRestoresRows(db: Db, look: Lookup, citing: Id, stubMin: int, titles: seq<string>)
    requires Settled(db, look, citing, stubMin) && Lists(titles, Unresolved(db.refs, look, citing))
    ensures WithStubs(db, look, citing, stubMin, titles) == db
  {
    SecondRunTitles(db, look, citing, stubMin, titles);
    var out := WithStubs(db, look, citing, stubMin, titles);
    forall k | k in db.refs ensures out.refs[k] == db.refs[k] {
      if k.0 == citing {
        assert SettledRow(db, look, citing, k);
        var r := db.refs[k];
        if Match(look, citing, r).None? && Usable(r.titleNorm) {
          assert r.titleNorm.value in Unresolved(db.refs, look, citing);
        }
      }
    }
    assert out.refs == db.refs;
  }

  /**
   * resolve_for_paper is idempotent: whatever the state before, and in whatever order titles and other papers are
   * taken in either run, a second run changes no row, no edge, no stub and no count.
   */
  lemma {:induction false} ResolvingTwice(
      db: Db, look: Lookup, citing: Id, stubMin: int,
      titles: seq<string>, others: seq<Id>, titlesAgain: seq<string>, othersAgain: seq<Id>)
    requires Orders(db, look, citing, stubMin, titles, others)
    requires Orders(Resolved(db, look, citing, stubMin, titles, others), look, citing, stubMin, titlesAgain,
        othersAgain)
    ensures var once := Resolved(db, look, citing, stubMin, titles, others);
            Resolved(once, look, citing, stubMin, titlesAgain, othersAgain) == once
  {
    var stubbed := WithStubs(db, look, citing, stubMin, titles);
    var spread := RebuiltAll(stubbed, others);
    var once := Rebuilt(spread, citing);
    StubsSettle(db, look, citing, stubMin, titles);
    RebuiltAllSyncs(stubbed, others, citing);
    RebuildSyncs(spread, citing, citing);
    RebuildKeepsStubs(stubbed, others, citing);
    StaysSettled(stubbed, once, look, citing, stubMin);
    SecondRunRestoresRows(once, look, citing, stubMin, titlesAgain);
    SecondRunTitles(once, look, citing, stubMin, titlesAgain);
    assert forall d :: d !in othersAgain;
    if othersAgain != [] { Somebody(othersAgain); }
    RebuildTwice(spread, citing);
  }

  lemma {:induction false} Somebody(s: seq<Id>)
    requires s != []
    ensures exists d :: d in s
  {
    assert s[0] in s;
  }

  lemma {:induction false} RebuildKeepsStubs(db: Db, others: seq<Id>, citing: Id)
    ensures var out := Rebuilt(RebuiltAll(db, others), citing);
            out.stubs.Keys == db.stubs.Keys && forall t :: t in db.stubs ==> out.stubs[t].n == db.stubs[t].n
    decreases |others|
  {
    if others != [] { RebuildKeepsStubs(db, others[..|others| - 1], others[|others| - 1]); }
  }

  lemma {:induction false} StaysSettled(db: Db, out: Db, look: Lookup, citing: Id, stubMin: int)
    requires Settled(db, look, citing, stubMin) && out.refs == db.refs && out.stubs.Keys == db.stubs.Keys
    requires forall t :: t in db.stubs ==> out.stubs[t].n == db.stubs[t].n
    ensures Settled(out, look, citing, stubMin)
  {
    forall k | k in out.refs && k.0 == citing ensures SettledRow(out, look, citing, k) {
      assert SettledRow(db, look, citing, k);
    }
    forall t | t in Unresolved(out.refs, look, citing) ensures SettledTitle(out, stubMin, t) {
      assert SettledTitle(db, stubMin, t);
    }
  }

  // ----- the other writers -----------------------------------------------------------------------------------------

  /** The row of a freshly parsed reference: an empty title counts as none. */
  function FreshRow(r: Reference, normalize: string -> string): Ref {
    Ref(if r.title.Some? && r.title.value != "" then Some(normalize(r.title.value)) else None, r.year, r.arxivId, None)
  }

  ghost predicate DistinctPositions(rs: seq<Reference>) {
    forall i, j :: 0 <= i < j < |rs| ==> rs[i].position != rs[j].position
  }

  function FreshRows(c: Id, rs: seq<Reference>, normalize: string -> string): Refs
    decreases |rs|
  {
    if rs == [] then map[]
    else
      var last := rs[|rs| - 1];
      FreshRows(c, rs[..|rs| - 1], normalize)[(c, last.position) := FreshRow(last, normalize)]
  }

  /** store_references */
  function Restored(db: Db, c: Id, rs: seq<Reference>, normalize: string -> string): Db {
    db.(refs := (map k | k in db.refs && k.0 != c :: db.refs[k]) + FreshRows(c, rs, normalize))
  }

  lemma {:induction false} FreshRowsAre(c: Id, rs: seq<Reference>, normalize: string -> string, k: (Id, nat))
    requires k in FreshRows(c, rs, normalize)
    ensures k.0 == c && FreshRows(c, rs, normalize)[k].resolved.None?
    decreases |rs|
  {
    var last := rs[|rs| - 1];
    if k != (c, last.position) { FreshRowsAre(c, rs[..|rs| - 1], normalize, k); }
  }

  lemma {:induction false} RestoredElsewhere(db: Db, c: Id, rs: seq<Reference>, normalize: string -> string, d: Id)
    ensures Numbered(db) ==> Numbered(Restored(db, c, rs, normalize))
    ensures d != c ==> Targets(Restored(db, c, rs, normalize).refs, d) == Targets(db.refs, d)
  {
    var out := Restored(db, c, rs, normalize);
    forall k | k in out.refs
      ensures k.0 != c ==> k in db.refs && out.refs[k] == db.refs[k]
      ensures k.0 == c ==> out.refs[k].resolved.None?
    {
      if k in FreshRows(c, rs, normalize) { FreshRowsAre(c, rs, normalize, k); }
    }
    if d != c {
      forall k | k in db.refs && k.0 == d ensures k in out.refs && out.refs[k] == db.refs[k] {
        if k in FreshRows(c, rs, normalize) { FreshRowsAre(c, rs, normalize, k); }
      }
      SameTargets(db.refs, out.refs, d);
    }
  }

  lemma {:induction false} SameTargets(r: Refs, q: Refs, d: Id)
    requires forall k: (Id, nat) :: k.0 == d ==> (k in r <==> k in q) && (k in r ==> r[k] == q[k])
    ensures Targets(r, d) == Targets(q, d)
  {
    forall n | n in Targets(r, d) ensures n in Targets(q, d) {
      var k :| k in r && k.0 == d && r[k].resolved == Some(n);
      assert k in q && q[k] == r[k];
    }
    forall n | n in Targets(q, d) ensures n in Targets(r, d) {
      var k :| k in q && k.0 == d && q[k].resolved == Some(n);
      assert k in r && q[k] == r[k];
    }
  }

  /** A new paper whose title is that of an unresolved reference of another paper. */
  predicate Claims(db: Db, ids: set<Id>, k: (Id, nat), p: Id) {
    && k in db.refs && p in ids && p in db.papers && p != k.0
    && db.refs[k].resolved.None? && db.refs[k].titleNorm == Some(db.papers[p].titleNorm)
    && |db.papers[p].titleNorm| >= MIN_TITLE_NORM_CHARS
  }

  /** Which of several claiming papers the UPDATE takes is up to the database. */
  ghost predicate Chooses(db: Db, ids: set<Id>, choice: ((Id, nat)) -> Id) {
    forall k, p {:trigger Claims(db, ids, k, p)} :: Claims(db, ids, k, p) ==> Claims(db, ids, k, choice(k))
  }

  function Claimed(db: Db, ids: set<Id>, choice: ((Id, nat)) -> Id): Refs {
    map k | k in db.refs ::
      if Claims(db, ids, k, choice(k)) then db.refs[k].(resolved := Some(Paper(choice(k)))) else db.refs[k]
  }

  function ClaimCiters(db: Db, ids: set<Id>, choice: ((Id, nat)) -> Id): set<Id> {
    set k | k in db.refs && Claims(db, ids, k, choice(k)) :: k.0
  }

  /** resolve_new_papers */
  function Newly(db: Db, ids: set<Id>, choice: ((Id, nat)) -> Id, citers: seq<Id>): Db {
    RebuiltAll(db.(refs := Claimed(db, ids, choice)), citers)
  }

  lemma {:induction false} NewlySyncs(db: Db, ids: set<Id>, choice: ((Id, nat)) -> Id, citers: seq<Id>, d: Id)
    requires Lists(citers, ClaimCiters(db, ids, choice))
    ensures Synced(db, d) || d in citers ==> Synced(Newly(db, ids, choice, citers), d)
  {
    var claimed := db.(refs := Claimed(db, ids, choice));
    RebuiltAllSyncs(claimed, citers, d);
    if d !in citers {
      forall k | k in db.refs && k.0 == d ensures claimed.refs[k] == db.refs[k] {
        assert k.0 !in ClaimCiters(db, ids, choice);
      }
      SameTargets(db.refs, claimed.refs, d);
    }
  }

  /** No reference is left unresolved for which one of the new papers has the title. */
  lemma {:induction false} NewlyLeavesNoClaim(db: Db, ids: set<Id>, choice: ((Id, nat)) -> Id, citers: seq<Id>,
                                              k: (Id, nat), p: Id)
    requires Chooses(db, ids, choice)
    ensures !Claims(Newly(db, ids, choice, citers), ids, k, p)
  {
    var claimed := db.(refs := Claimed(db, ids, choice));
    RebuiltAllSyncs(claimed, citers, k.0);
    RebuiltAllTitles(claimed, citers);
    var out := Newly(db, ids, choice, citers);
    if Claims(out, ids, k, p) { assert Claims(db, ids, k, p); }
  }

  lemma {:induction false} RebuiltAllTitles(db: Db, citers: seq<Id>)
    ensures RebuiltAll(db, citers).papers.Keys == db.papers.Keys
    ensures forall p :: p in db.papers ==> RebuiltAll(db, citers).papers[p].titleNorm == db.papers[p].titleNorm
    decreases |citers|
  {
    if citers != [] { RebuiltAllTitles(db, citers[..|citers| - 1]); }
  }

  lemma {:induction false} NewlyCorrects(db: Db, ids: set<Id>, choice: ((Id, nat)) -> Id, citers: seq<Id>, n: Node)
    requires Numbered(db)
    ensures Numbered(Newly(db, ids, choice, citers))
    ensures Wrong(Newly(db, ids, choice, citers), n) ==> Wrong(db, n)
  {
    var claimed := db.(refs := Claimed(db, ids, choice));
    RebuiltAllNumbered(claimed, citers);
    RebuiltAllCorrects(claimed, citers, n);
  }

  /** The INSERT of fetch_meta: rows already there are left alone, new ones start with count 0. */
  function Inserted(db: Db, rows: map<Id, PaperRow>): Db {
    db.(papers := (map p | p in rows :: rows[p].(count := 0)) + db.papers)
  }

  /** The only counts an insertion makes wrong are those of new papers that edges already point at. */
  lemma {:induction false} InsertedCounts(db: Db, rows: map<Id, PaperRow>, n: Node)
    ensures Wrong(Inserted(db, rows), n) <==>
              Wrong(db, n) || (n.Paper? && n.id in rows && n.id !in db.papers && Citers(db.edges, n) != {})
  {
    var out := Inserted(db, rows);
    if n.Stub? {
      assert out.stubs == db.stubs && out.edges == db.edges;
    } else if n.id in rows && n.id !in db.papers {
      assert out.papers[n.id].count == 0;
      assert Citers(db.edges, n) != {} ==> |Citers(db.edges, n)| != 0;
    }
  }

  // ----- any sequence of writers -----------------------------------------------------------------------------------

  datatype Op =
    | Store(c: Id, rs: seq<Reference>, normalize: string -> string)
    | Resolve(look: Lookup, citing: Id, stubMin: int, titles: seq<string>, others: seq<Id>)
    | Claim(ids: set<Id>, choice: ((Id, nat)) -> Id, citers: seq<Id>)
    | Insert(rows: map<Id, PaperRow>)

  ghost predicate Doable(db: Db, op: Op) {
    match op
    case Store(_, rs, _) => DistinctPositions(rs)
    case Resolve(look, citing, stubMin, titles, others) => Orders(db, look, citing, stubMin, titles, others)
    case Claim(ids, choice, citers) => Chooses(db, ids, choice) && Lists(citers, ClaimCiters(db, ids, choice))
    case Insert(_) => true
  }

  function Done(db: Db, op: Op): Db {
    match op
    case Store(c, rs, normalize) => Restored(db, c, rs, normalize)
    case Resolve(look, citing, stubMin, titles, others) => Resolved(db, look, citing, stubMin, titles, others)
    case Claim(ids, choice, citers) => Newly(db, ids, choice, citers)
    case Insert(rows) => Inserted(db, rows)
  }

  ghost predicate AllDoable(db: Db, ops: seq<Op>)
    decreases |ops|
  {
    ops == [] || (Doable(db, ops[0]) && AllDoable(Done(db, ops[0]), ops[1..]))
  }

  function AllDone(db: Db, ops: seq<Op>): Db
    decreases |ops|
  {
    if ops == [] then db else AllDone(Done(db, ops[0]), ops[1..])
  }

  /** The papers re-stored and not resolved since. */
  function Dirty(dirty: set<Id>, ops: seq<Op>): set<Id>
    decreases |ops|
  {
    if ops == [] then dirty
    else if ops[0].Store? then Dirty(dirty + {ops[0].c}, ops[1..])
    else if ops[0].Resolve? then Dirty(dirty - {ops[0].citing}, ops[1..])
    else Dirty(dirty, ops[1..])
  }

  /** Some insertion added the paper when edges already pointed at it. */
  ghost predicate InsertedLate(db: Db, ops: seq<Op>, n: Node)
    decreases |ops|
  {
    ops != []
    && ((ops[0].Insert? && n.Paper? && n.id in ops[0].rows && n.id !in db.papers && Citers(db.edges, n) != {})
        || InsertedLate(Done(db, ops[0]), ops[1..], n))
  }

  /**
   * Over any sequence of operations, a paper's edges are the distinct ids its references resolve to, other than
   * itself, unless its references were stored again and not resolved since.
   */
  lemma {:induction false} EdgesFollowReferences(db: Db, ops: seq<Op>, dirty: set<Id>, d: Id)
    requires AllDoable(db, ops) && (d in dirty || Synced(db, d))
    ensures d in Dirty(dirty, ops) || Synced(AllDone(db, ops), d)
    decreases |ops|
  {
    if ops != [] {
      match ops[0]
      case Store(c, rs, normalize) =>
        RestoredElsewhere(db, c, rs, normalize, d);
        EdgesFollowReferences(Done(db, ops[0]), ops[1..], dirty + {c}, d);
      case Resolve(look, citing, stubMin, titles, others) =>
        ResolvedSyncs(db, look, citing, stubMin, titles, others, d);
        EdgesFollowReferences(Done(db, ops[0]), ops[1..], dirty - {citing}, d);
      case Claim(ids, choice, citers) =>
        NewlySyncs(db, ids, choice, citers, d);
        EdgesFollowReferences(Done(db, ops[0]), ops[1..], dirty, d);
      case Insert(rows) =>
        EdgesFollowReferences(Done(db, ops[0]), ops[1..], dirty, d);
    }
  }

  /**
   * Over any sequence of operations, no stored count goes wrong, except that of a paper inserted after it was cited.
   */
  lemma {:induction false} CountsStayRight(db: Db, ops: seq<Op>, n: Node)
    requires AllDoable(db, ops) && Numbered(db)
    ensures Numbered(AllDone(db, ops))
    ensures Wrong(AllDone(db, ops), n) ==> Wrong(db, n) || InsertedLate(db, ops, n)
    decreases |ops|
  {
    if ops != [] {
      match ops[0] {
        case Store(c, rs, normalize) => RestoredElsewhere(db, c, rs, normalize, c);
        case Resolve(look, citing, stubMin, titles, others) =>
          ResolvedCorrects(db, look, citing, stubMin, titles, others, n);
        case Claim(ids, choice, citers) => NewlyCorrects(db, ids, choice, citers, n);
        case Insert(rows) => InsertedCounts(db, rows, n);
      }
      CountsStayRight(Done(db, ops[0]), ops[1..], n);
    }
  }

  // ----- the tables, changed in place ------------------------------------------------------------------------------

  class Graph {
    var db: Db

    constructor ()
      ensures db == Db(map[], map[], {}, map[], 0)
    {
      db := Db(map[], map[], {}, map[], 0);
    }

    method StoreReferences(c: Id, rs: seq<Reference>, normalize: string -> string)
      requires DistinctPositions(rs)
      modifies this
      ensures db == Restored(old(db), c, rs, normalize)
    {
      db := db.(refs := map k | k in db.refs && k.0 != c :: db.refs[k]);
      ghost var kept := db.refs;
      for i := 0 to |rs|
        invariant db == old(db).(refs := kept + FreshRows(c, rs[..i], normalize))
      {
        assert rs[..i + 1][..i] == rs[..i];
        db := db.(refs := db.refs[(c, rs[i].position) := FreshRow(rs[i], normalize)]);
      }
      assert rs[..|rs|] == rs;
    }

    method RefreshCounts(ids: set<Node>)
      modifies this
      ensures db == Recount(old(db), ids)
    {
      db := db.(papers := map p | p in db.papers ::
                            if Paper(p) in ids then db.papers[p].(count := |Citers(db.edges, Paper(p))|)
                                else db.papers[p]);
      db := db.(stubs := map t | t in db.stubs ::
                           if Stub(db.stubs[t].n) in ids
                           then db.stubs[t].(count := |Citers(db.edges, Stub(db.stubs[t].n))|) else db.stubs[t]);
    }

    method RebuildEdges(c: Id)
      modifies this
      ensures db == Rebuilt(old(db), c)
    {
      var before := EdgesOf(db.edges, c);
      db := db.(edges := set e | e in db.edges && e.0 != c);
      db := db.(edges := db.edges + set n | n in Targets(db.refs, c) :: (c, n));
      ReedgedOf(old(db), c, c);
      assert db.edges == Reedged(old(db), c);
      var after := EdgesOf(db.edges, c);
      RefreshCounts(before + after);
    }

    method RebuildEach(citers: set<Id>) returns (ghost order: seq<Id>)
      modifies this
      ensures Lists(order, citers) && db == RebuiltAll(old(db), order)
    {
      order := [];
      var left := citers;
      while left != {}
        invariant left <= citers && Lists(order, citers - left) && db == RebuiltAll(old(db), order)
        decreases |left|
      {
        var c :| c in left;
        RebuildEdges(c);
        left := left - {c};
        assert (order + [c])[..|order|] == order;
        order := order + [c];
      }
    }

    /** One of the five passes over the references: those still unresolved are looked up. */
    method Pass(citing: Id, rows: seq<nat>, resolved: map<nat, Id>, how: Ref -> Option<Id>, ghost so: Ref -> Option<Id>)
      returns (more: map<nat, Id>)
      requires forall i :: i in rows ==> (citing, i) in db.refs
      requires forall i :: i in rows ==> Holds(resolved, i, so(db.refs[(citing, i)]))
      ensures forall i :: i in rows ==>
                Holds(more, i, Or(so(db.refs[(citing, i)]), how(db.refs[(citing, i)])))
    {
      more := resolved;
      for j := 0 to |rows|
        invariant forall i :: i in rows && i !in rows[..j] ==> Holds(more, i, so(db.refs[(citing, i)]))
        invariant forall i :: i in rows[..j] ==>
                    Holds(more, i, Or(so(db.refs[(citing, i)]), how(db.refs[(citing, i)])))
      {
        var i := rows[j];
        assert rows[..j + 1] == rows[..j] + [i];
        if i !in more {
          var m := how(db.refs[(citing, i)]);
          if m.Some? { more := more[i := m.value]; }
        }
      }
      assert rows[..|rows|] == rows;
    }

    method MatchReferences(citing: Id, look: Lookup, rows: seq<nat>) returns (resolved: map<nat, Id>)
      requires forall i :: i in rows ==> (citing, i) in db.refs
      ensures forall i :: i in rows ==> Holds(resolved, i, Match(look, citing, db.refs[(citing, i)]))
    {
      var none := (r: Ref) => None;
      var byId := (r: Ref) => ById(r, citing);
      var exact := (r: Ref) => ByUsableTitle(r, look.exact, citing);
      var trigram := (r: Ref) => ByTrigram(r, look.trigram, citing);
      var catalogExact := (r: Ref) => ByUsableTitle(r, look.catalogExact, citing);
      var catalogTrigram := (r: Ref) => ByTrigram(r, look.catalogTrigram, citing);
      resolved := Pass(citing, rows, map[], byId, none);
      resolved := Pass(citing, rows, resolved, exact, byId);
      ghost var two := (r: Ref) => Or(byId(r), exact(r));
      resolved := Pass(citing, rows, resolved, trigram, two);
      ghost var three := (r: Ref) => Or(two(r), trigram(r));
      resolved := Pass(citing, rows, resolved, catalogExact, three);
      ghost var four := (r: Ref) => Or(three(r), catalogExact(r));
      resolved := Pass(citing, rows, resolved, catalogTrigram, four);
    }

    method TreatTitle(t: string, existing: Option<nat>, count: nat, stubMin: int) returns (touched: set<Id>)
      requires existing == if t in db.stubs then Some(db.stubs[t].n) else None
      requires count == |Waiting(db.refs, t)|
      modifies this
      ensures db == Stubbed(old(db), t, stubMin)
      ensures touched == if Stubs(old(db), t, stubMin) then Touched(old(db).refs, t) else {}
    {
      if existing.None? && count < stubMin { return {}; }
      var n := db.nextStub;
      if existing.Some? {
        n := existing.value;
      } else {
        db := db.(stubs := db.stubs[t := StubRow(n, 0)], nextStub := n + 1);
      }
      touched := Touched(db.refs, t);
      db := db.(refs := Assigned(db.refs, t, n));
    }

    /** _resolve_stubs: counts and existing stubs are read once, before the first title is treated. */
    method ResolveStubs(citing: Id, titles: set<string>, stubMin: int)
      returns (ghost order: seq<string>, ghost others: seq<Id>)
      modifies this
      ensures Lists(order, titles)
      ensures Lists(others, TouchedAll(old(db), order, stubMin) - {citing})
      ensures db == RebuiltAll(StubbedAll(old(db), order, stubMin), others)
    {
      var counts := map t | t in titles :: |Waiting(db.refs, t)|;
      var existing := map t | t in titles && t in db.stubs :: db.stubs[t].n;
      var left, touched := titles, {};
      order := [];
      while left != {}
        invariant left <= titles && Lists(order, titles - left)
        invariant db == StubbedAll(old(db), order, stubMin) && touched == TouchedAll(old(db), order, stubMin)
        invariant Planned(db, left, existing, counts)
        decreases |left|
      {
        var t :| t in left;
        ghost var before := db;
        var more := TreatTitle(t, if t in existing then Some(existing[t]) else None, counts[t], stubMin);
        touched := touched + more;
        OneMoreTitle(old(db), order, t, stubMin);
        ListsOneMore(order, titles, left, t);
        left := left - {t};
        StillPlanned(before, t, stubMin, left, existing, counts);
        order := order + [t];
      }
      others := RebuildEach(touched - {citing});
    }

    /** resolve_for_paper */
    method ResolveForPaper(citing: Id, look: Lookup, stubMin: int, rows: seq<nat>)
      returns (ghost titles: seq<string>, ghost others: seq<Id>)
      requires forall i: nat :: i in rows <==> (citing, i) in db.refs
      modifies this
      ensures Orders(old(db), look, citing, stubMin, titles, others)
      ensures db == Resolved(old(db), look, citing, stubMin, titles, others)
    {
      var resolved := MatchReferences(citing, look, rows);
      var unresolved := set i | i in rows && i !in resolved && Usable(db.refs[(citing, i)].titleNorm)
        :: db.refs[(citing, i)].titleNorm.value;
      assert unresolved == Unresolved(db.refs, look, citing);
      db := db.(refs := map k | k in db.refs ::
                          if k.0 == citing
                          then db.refs[k].(resolved := if k.1 in resolved then Some(Paper(resolved[k.1])) else None)
                          else db.refs[k]);
      assert db.refs == Matched(old(db).refs, look, citing);
      titles, others := ResolveStubs(citing, unresolved, stubMin);
      RebuildEdges(citing);
    }

    /** resolve_new_papers */
    method ResolveNewPapers(ids: set<Id>, choice: ((Id, nat)) -> Id) returns (ghost citers: seq<Id>)
      requires Chooses(db, ids, choice)
      modifies this
      ensures Lists(citers, ClaimCiters(old(db), ids, choice)) && db == Newly(old(db), ids, choice, citers)
    {
      var touched := ClaimCiters(db, ids, choice);
      db := db.(refs := Claimed(db, ids, choice));
      citers := RebuildEach(touched);
    }
  }

  lemma {:induction false} OneMoreTitle(db: Db, order: seq<string>, t: string, stubMin: int)
    ensures var before := StubbedAll(db, order, stubMin);
            && StubbedAll(db, order + [t], stubMin) == Stubbed(before, t, stubMin)
            && TouchedAll(db, order + [t], stubMin)
               == TouchedAll(db, order, stubMin) + if Stubs(before, t, stubMin) then Touched(before.refs, t) else {}
  {
    assert (order + [t])[..|order|] == order;
  }

  lemma {:induction false} ListsOneMore(order: seq<string>, titles: set<string>, left: set<string>, t: string)
    requires left <= titles && Lists(order, titles - left) && t in left
    ensures Lists(order + [t], titles - (left - {t}))
  {}

  /** Treating one title leaves the counts and stubs of the others as they were read. */
  lemma {:induction false} OtherTitles(db: Db, t: string, stubMin: int, others: set<string>)
    requires t !in others
    ensures var out := Stubbed(db, t, stubMin);
            forall u :: u in others ==>
              && Waiting(out.refs, u) == Waiting(db.refs, u)
              && (u in out.stubs <==> u in db.stubs) && (u in db.stubs ==> out.stubs[u] == db.stubs[u])
  {
    var out := Stubbed(db, t, stubMin);
    forall u | u in others ensures Waiting(out.refs, u) == Waiting(db.refs, u) { SameWaiting(db.refs, out.refs, u); }
  }

  /** What was read before the loop still holds for the titles that are left. */
  ghost predicate Planned(db: Db, left: set<string>, existing: map<string, nat>, counts: map<string, nat>) {
    forall t :: t in left ==>
      && (t in db.stubs <==> t in existing) && (t in existing ==> existing[t] == db.stubs[t].n)
      && t in counts && |Waiting(db.refs, t)| == counts[t]
  }

  lemma {:induction false} StillPlanned(
      db: Db, t: string, stubMin: int, left: set<string>, existing: map<string, nat>, counts: map<string, nat>)
    requires t !in left && Planned(db, left, existing, counts)
    ensures Planned(Stubbed(db, t, stubMin), left, existing, counts)
  {
    OtherTitles(db, t, stubMin, left);
  }

  predicate Holds(resolved: map<nat, Id>, i: nat, m: Option<Id>) {
    if m.Some? then i in resolved && resolved[i] == m.value else i !in resolved
  }

  function ByUsableTitle(r: Ref, exact: string -> seq<Candidate>, citing: Id): Option<Id> {
    if Usable(r.titleNorm) then ByTitle(r, exact(r.titleNorm.value), citing) else None
  }
}
