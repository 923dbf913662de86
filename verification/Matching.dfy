/**
 * What the writers of references_raw leave in each row, said from the lookups and the row's own fields.
 */
module Matching {
  import opened Common
  import opened Documents
  import opened References

  // ----- the five answers ------------------------------------------------------------------------------------------

  predicate Titled(r: Ref) { r.titleNorm.Some? && |r.titleNorm.value| >= 10 }

  function YearsApart(x: Candidate, year: int): int {
    var y := match x.year case Some(own) => own case None => 0;
    if y >= year then y - year else year - y
  }

  /** The candidate taken: the first without a year, the first of the nearest with one. */
  predicate Nearest(cands: seq<Candidate>, year: Option<int>, i: nat) {
    i < |cands|
    && match year
       case None => i == 0
       case Some(y) =>
         forall j :: 0 <= j < |cands| ==>
           && YearsApart(cands[i], y) <= YearsApart(cands[j], y)
           && (j < i ==> YearsApart(cands[i], y) < YearsApart(cands[j], y))
  }

  /** The k-th of the five ways to resolve a reference gives paper x. */
  ghost predicate Gives(look: Lookup, r: Ref, k: nat, x: Id) {
    match k
    case 0 => r.found == Some(x) && x != ""
    case 1 => Titled(r) && Taken(look.exact(r.titleNorm.value), r.year, x)
    case 2 => Titled(r) && r.year.Some? && look.trigram(r.titleNorm.value, r.year.value) == Some(x)
    case 3 => Titled(r) && Taken(look.catalogExact(r.titleNorm.value), r.year, x)
    case 4 => Titled(r) && r.year.Some? && look.catalogTrigram(r.titleNorm.value, r.year.value) == Some(x)
    case _ => false
  }

  ghost predicate Taken(cands: seq<Candidate>, year: Option<int>, x: Id) {
    exists i: nat :: Nearest(cands, year, i) && cands[i].id == x
  }

  /** Paper x comes first among the answers other than the citing paper. */
  ghost predicate Resolves(look: Lookup, citing: Id, r: Ref, x: Id) {
    x != citing && exists k :: Gives(look, r, k, x) && OnlyItself(look, citing, r, k)
  }

  ghost predicate OnlyItself(look: Lookup, citing: Id, r: Ref, k: nat) {
    forall j: nat, y :: j < k && Gives(look, r, j, y) ==> y == citing
  }

  lemma {:induction false} ClosestIsFirst(cands: seq<Candidate>, year: int) returns (i: nat)
    requires cands != []
    ensures Nearest(cands, Some(year), i) && cands[i] == Closest(cands, year)
  {
    i := 0;
    if |cands| > 1 {
      var k := ClosestIsFirst(cands[1..], year);
      NearestOfMore(cands, year, k);
      SameDistance(cands[0], year);
      SameDistance(cands[1..][k], year);
      if YearsApart(cands[0], year) > YearsApart(cands[k + 1], year) { i := k + 1; }
    } else {
      OnlyOne(cands, year);
    }
  }

  lemma {:induction false} SameDistance(x: Candidate, year: int)
    ensures Distance(x, year) == YearsApart(x, year)
  {}

  lemma {:induction false} OnlyOne(cands: seq<Candidate>, year: int)
    requires |cands| == 1
    ensures Nearest(cands, Some(year), 0)
  {}

  lemma {:induction false} NearestOfMore(cands: seq<Candidate>, year: int, k: nat)
    requires cands != [] && Nearest(cands[1..], Some(year), k)
    ensures Nearest(cands, Some(year), if YearsApart(cands[0], year) > YearsApart(cands[k + 1], year) then k + 1 else 0)
  {
    forall j | 0 < j < |cands|
      ensures YearsApart(cands[k + 1], year) <= YearsApart(cands[j], year)
      ensures j - 1 < k ==> YearsApart(cands[k + 1], year) < YearsApart(cands[j], year)
    {
      assert cands[j] == cands[1..][j - 1];
    }
  }

  lemma {:induction false} PickIsTaken(cands: seq<Candidate>, year: Option<int>, x: Id)
    requires cands != []
    ensures Taken(cands, year, x) <==> Pick(cands, year) == x
  {
    var i: nat := 0;
    if year.Some? && |cands| > 1 { i := ClosestIsFirst(cands, year.value); }
    assert Nearest(cands, year, i);
    forall j: nat | Nearest(cands, year, j) ensures j == i {}
  }

  /** The k-th answer, as a value. */
  function Answer(look: Lookup, r: Ref, k: nat): Option<Id> {
    if k == 0 then if r.found == Some("") then None else r.found
    else if !Titled(r) then None
    else if k == 1 then First(look.exact(r.titleNorm.value), r.year)
    else if k == 3 then First(look.catalogExact(r.titleNorm.value), r.year)
    else if r.year.None? then None
    else if k == 2 then look.trigram(r.titleNorm.value, r.year.value)
    else if k == 4 then look.catalogTrigram(r.titleNorm.value, r.year.value)
    else None
  }

  function First(cands: seq<Candidate>, year: Option<int>): Option<Id> {
    if cands == [] then None else Some(Pick(cands, year))
  }

  lemma {:induction false} GivesIsAnswer(look: Lookup, r: Ref, k: nat, x: Id)
    ensures Gives(look, r, k, x) <==> Answer(look, r, k) == Some(x)
  {
    if Titled(r) {
      var t := r.titleNorm.value;
      if look.exact(t) != [] { PickIsTaken(look.exact(t), r.year, x); }
      if look.catalogExact(t) != [] { PickIsTaken(look.catalogExact(t), r.year, x); }
    }
  }

  function Foreign(look: Lookup, citing: Id, r: Ref, k: nat): bool {
    Answer(look, r, k).Some? && Answer(look, r, k).value != citing
  }

  lemma {:induction false} MatchIsFirstForeign(look: Lookup, citing: Id, r: Ref)
    ensures Match(look, citing, r)
         == if Foreign(look, citing, r, 0) then Answer(look, r, 0)
            else if Foreign(look, citing, r, 1) then Answer(look, r, 1)
            else if Foreign(look, citing, r, 2) then Answer(look, r, 2)
            else if Foreign(look, citing, r, 3) then Answer(look, r, 3)
            else if Foreign(look, citing, r, 4) then Answer(look, r, 4) else None
  {}

  lemma {:induction false} OnlyItselfIs(look: Lookup, citing: Id, r: Ref, k: nat)
    ensures OnlyItself(look, citing, r, k) <==> forall j: nat :: j < k ==> !Foreign(look, citing, r, j)
  {
    forall j: nat, y ensures Gives(look, r, j, y) <==> Answer(look, r, j) == Some(y) { GivesIsAnswer(look, r, j, y); }
    if j: nat :| j < k && Foreign(look, citing, r, j) { assert Gives(look, r, j, Answer(look, r, j).value); }
    if j: nat, y :| j < k && Gives(look, r, j, y) && y != citing { assert Foreign(look, citing, r, j); }
  }

  /** Matching finds x exactly if x is the first of the five answers that is not the citing paper. */
  lemma {:induction false} MatchResolves(look: Lookup, citing: Id, r: Ref, x: Id)
    ensures Match(look, citing, r) == Some(x) <==> Resolves(look, citing, r, x)
  {
    MatchIsFirstForeign(look, citing, r);
    forall k: nat
      ensures Gives(look, r, k, x) <==> Answer(look, r, k) == Some(x)
      ensures OnlyItself(look, citing, r, k) <==> forall j: nat :: j < k ==> !Foreign(look, citing, r, j)
    {
      GivesIsAnswer(look, r, k, x);
      OnlyItselfIs(look, citing, r, k);
    }
    if Match(look, citing, r) == Some(x) {
      var k :=
        if Foreign(look, citing, r, 0) then 0 else if Foreign(look, citing, r, 1) then 1
        else if Foreign(look, citing, r, 2) then 2 else if Foreign(look, citing, r, 3) then 3 else 4;
      assert Gives(look, r, k, x) && OnlyItself(look, citing, r, k);
    }
    if Resolves(look, citing, r, x) {
      var k :| Gives(look, r, k, x) && OnlyItself(look, citing, r, k);
      assert Foreign(look, citing, r, k) && k <= 4;
    }
  }

  /** Some way gives a paper other than the citing one. */
  ghost predicate Known(look: Lookup, citing: Id, r: Ref) {
    exists k, x :: Gives(look, r, k, x) && x != citing
  }

  lemma {:induction false} MatchKnows(look: Lookup, citing: Id, r: Ref)
    ensures Match(look, citing, r).Some? <==> Known(look, citing, r)
  {
    MatchIsFirstForeign(look, citing, r);
    if k, x :| Gives(look, r, k, x) && x != citing {
      GivesIsAnswer(look, r, k, x);
      assert Foreign(look, citing, r, k) && k <= 4;
    }
    if Match(look, citing, r).Some? {
      var x := Match(look, citing, r).value;
      MatchResolves(look, citing, r, x);
    }
  }

  // ----- resolve_for_paper -----------------------------------------------------------------------------------------

  lemma {:induction false} RowIsSettled(
      db: Db, look: Lookup, citing: Id, stubMin: int, titles: seq<string>, others: seq<Id>, k: (Id, nat))
    requires Orders(db, look, citing, stubMin, titles, others)
    requires k in db.refs && k.0 == citing
    ensures var out := Resolved(db, look, citing, stubMin, titles, others);
            k in out.refs && SameText(out.refs[k], db.refs[k]) && SettledRow(out, look, citing, k)
  {
    var stubbed := WithStubs(db, look, citing, stubMin, titles);
    var spread := RebuiltAll(stubbed, others);
    StubsSettle(db, look, citing, stubMin, titles);
    StubbedRow(db.(refs := Matched(db.refs, look, citing)), titles, stubMin, k);
    RebuiltAllSyncs(stubbed, others, citing);
    RebuildSyncs(spread, citing, citing);
    RebuildKeepsStubs(stubbed, others, citing);
    assert SettledRow(stubbed, look, citing, k);
  }

  /** A row of the citing paper: which paper it points to, or which stub, or nothing. */
  lemma {:induction false} ResolvedRow(
      db: Db, look: Lookup, citing: Id, stubMin: int, titles: seq<string>, others: seq<Id>, k: (Id, nat))
    requires Orders(db, look, citing, stubMin, titles, others)
    requires k in db.refs && k.0 == citing
    ensures var out, r := Resolved(db, look, citing, stubMin, titles, others), db.refs[k];
            && k in out.refs
            && (forall x :: out.refs[k].resolved == Some(Paper(x)) <==> Resolves(look, citing, r, x))
            && (out.refs[k].resolved.Some? && out.refs[k].resolved.value.Paper? <==> Known(look, citing, r))
            && (forall n :: out.refs[k].resolved == Some(Stub(n)) <==>
                  !Known(look, citing, r) && Titled(r)
                  && r.titleNorm.value in out.stubs && out.stubs[r.titleNorm.value].n == n)
  {
    RowIsSettled(db, look, citing, stubMin, titles, others, k);
    var out, r := Resolved(db, look, citing, stubMin, titles, others), db.refs[k];
    MatchIgnoresResolved(look, citing, r, out.refs[k]);
    MatchKnows(look, citing, r);
    forall x ensures out.refs[k].resolved == Some(Paper(x)) <==> Resolves(look, citing, r, x) {
      MatchResolves(look, citing, r, x);
    }
  }

  /**
   * The edges written: the citing paper cites exactly the papers that its references resolve to.  An arXiv id other
   * than its own settles a reference whatever the titles say.
   */
  lemma {:induction false} ResolvedEdges(
      db: Db, look: Lookup, citing: Id, stubMin: int, titles: seq<string>, others: seq<Id>, x: Id)
    requires Orders(db, look, citing, stubMin, titles, others)
    ensures var out := Resolved(db, look, citing, stubMin, titles, others);
            && ((citing, Paper(x)) in out.edges
                <==> exists k :: k in db.refs && k.0 == citing && Resolves(look, citing, db.refs[k], x))
            && (forall k :: k in db.refs && k.0 == citing && db.refs[k].found == Some(x) && x != "" && x != citing ==>
                  k in out.refs && out.refs[k].resolved == Some(Paper(x)) && (citing, Paper(x)) in out.edges)
  {
    var out := Resolved(db, look, citing, stubMin, titles, others);
    ResolvedSyncs(db, look, citing, stubMin, titles, others, citing);
    SameRows(db, look, citing, stubMin, titles, others);
    forall k | k in db.refs && k.0 == citing
      ensures out.refs[k].resolved == Some(Paper(x)) <==> Resolves(look, citing, db.refs[k], x)
      ensures db.refs[k].found == Some(x) && x != "" && x != citing ==> Resolves(look, citing, db.refs[k], x)
    {
      ResolvedRow(db, look, citing, stubMin, titles, others, k);
      if db.refs[k].found == Some(x) && x != "" { assert Gives(look, db.refs[k], 0, x); }
    }
    assert (citing, Paper(x)) in out.edges <==> Paper(x) in EdgesOf(out.edges, citing);
  }

  lemma {:induction false} SameRows(
      db: Db, look: Lookup, citing: Id, stubMin: int, titles: seq<string>, others: seq<Id>)
    ensures Resolved(db, look, citing, stubMin, titles, others).refs
         == WithStubs(db, look, citing, stubMin, titles).refs
    ensures Resolved(db, look, citing, stubMin, titles, others).refs.Keys == db.refs.Keys
  {
    var stubbed := WithStubs(db, look, citing, stubMin, titles);
    RebuiltAllSyncs(stubbed, others, citing);
    RebuildSyncs(RebuiltAll(stubbed, others), citing, citing);
    StubbedElsewhere(db.(refs := Matched(db.refs, look, citing)), titles, stubMin);
  }

  /** A reference of the citing paper, or one of another paper as it stands, that has title t and no paper. */
  ghost predicate Lacks(db: Db, look: Lookup, citing: Id, t: string, k: (Id, nat))
    requires k in db.refs
  {
    var r := db.refs[k];
    r.titleNorm == Some(t)
    && if k.0 == citing then !Known(look, citing, r) else r.resolved.None? || r.resolved.value.Stub?
  }

  ghost function Lacking(db: Db, look: Lookup, citing: Id, t: string): set<Id> {
    set k | k in db.refs && Lacks(db, look, citing, t, k) :: k.0
  }

  lemma {:induction false} LackingWait(db: Db, look: Lookup, citing: Id, t: string)
    ensures Lacking(db, look, citing, t) == Waiting(Matched(db.refs, look, citing), t)
  {
    var m := Matched(db.refs, look, citing);
    forall k | k in db.refs
      ensures Lacks(db, look, citing, t, k)
         <==> m[k].titleNorm == Some(t) && (m[k].resolved.None? || m[k].resolved.value.Stub?)
    {
      MatchKnows(look, citing, db.refs[k]);
    }
  }

  lemma {:induction false} StubMadeIff(db: Db, titles: seq<string>, stubMin: int, t: string)
    requires forall i, j :: 0 <= i < j < |titles| ==> titles[i] != titles[j]
    ensures t in StubbedAll(db, titles, stubMin).stubs
       <==> t in db.stubs || (t in titles && |Waiting(db.refs, t)| >= stubMin)
    ensures t !in titles ==> Waiting(StubbedAll(db, titles, stubMin).refs, t) == Waiting(db.refs, t)
    decreases |titles|
  {
    if titles != [] {
      var m := |titles| - 1;
      var before, out := StubbedAll(db, titles[..m], stubMin), StubbedAll(db, titles, stubMin);
      assert titles == titles[..m] + [titles[m]];
      StubMadeIff(db, titles[..m], stubMin, t);
      if t != titles[m] { SameWaiting(before.refs, out.refs, t); }
    }
  }

  /**
   * Which titles have a stub afterwards: those that had one, and the usable titles of references of the citing paper
   * that no way resolves, once enough distinct papers lack a paper for them.
   */
  lemma {:induction false} StubIff(
      db: Db, look: Lookup, citing: Id, stubMin: int, titles: seq<string>, others: seq<Id>, t: string)
    requires Orders(db, look, citing, stubMin, titles, others)
    ensures t in Resolved(db, look, citing, stubMin, titles, others).stubs
       <==> || t in db.stubs
            || (|t| >= 10 && |Lacking(db, look, citing, t)| >= stubMin
                && exists k :: k in db.refs && k.0 == citing && Lacks(db, look, citing, t, k))
  {
    var matched := db.(refs := Matched(db.refs, look, citing));
    StubMadeIff(matched, titles, stubMin, t);
    RebuildKeepsStubs(WithStubs(db, look, citing, stubMin, titles), others, citing);
    LackingWait(db, look, citing, t);
    forall k | k in db.refs && k.0 == citing
      ensures Match(look, citing, db.refs[k]).Some? <==> Known(look, citing, db.refs[k])
    {
      MatchKnows(look, citing, db.refs[k]);
    }
    assert t in titles <==> t in Unresolved(db.refs, look, citing);
  }

  /**
   * A row of another paper changes only from nothing to the stub of a title that the citing paper lacks a paper for.
   */
  lemma {:induction false} OtherRow(
      db: Db, look: Lookup, citing: Id, stubMin: int, titles: seq<string>, others: seq<Id>, k: (Id, nat))
    requires Orders(db, look, citing, stubMin, titles, others) && k in db.refs && k.0 != citing
    ensures var out, r := Resolved(db, look, citing, stubMin, titles, others), db.refs[k];
            && k in out.refs
            && out.refs[k].resolved ==
                 if r.resolved.None? && Titled(r) && r.titleNorm.value in out.stubs
                    && (exists j :: j in db.refs && j.0 == citing && Lacks(db, look, citing, r.titleNorm.value, j))
                 then Some(Stub(out.stubs[r.titleNorm.value].n)) else r.resolved
  {
    var r := db.refs[k];
    SameRows(db, look, citing, stubMin, titles, others);
    StubbedRow(db.(refs := Matched(db.refs, look, citing)), titles, stubMin, k);
    RebuildKeepsStubs(WithStubs(db, look, citing, stubMin, titles), others, citing);
    forall j | j in db.refs && j.0 == citing
      ensures Match(look, citing, db.refs[j]).Some? <==> Known(look, citing, db.refs[j])
    {
      MatchKnows(look, citing, db.refs[j]);
    }
    assert r.titleNorm.Some? ==>
      (r.titleNorm.value in titles <==> r.titleNorm.value in Unresolved(db.refs, look, citing));
  }

  // ----- the other writers -----------------------------------------------------------------------------------------

  /** The new paper p, other than the citing one, has the usable title of reference r. */
  predicate Fits(db: Db, ids: set<Id>, citing: Id, r: Ref, p: Id) {
    p in ids && p in db.papers && p != citing && Titled(r) && r.titleNorm.value == db.papers[p].titleNorm
  }

  /** resolve_new_papers turns the null rows that some new paper fits, to one that fits, and no other row. */
  lemma {:induction false} NewlyRow(db: Db, ids: set<Id>, choice: ((Id, nat)) -> Id, citers: seq<Id>, k: (Id, nat))
    requires Chooses(db, ids, choice) && k in db.refs
    ensures var out, r := Newly(db, ids, choice, citers), db.refs[k];
            && k in out.refs
            && if r.resolved.None? && exists p :: Fits(db, ids, k.0, r, p)
               then exists p :: Fits(db, ids, k.0, r, p) && out.refs[k] == r.(resolved := Some(Paper(p)))
               else out.refs[k] == r
  {
    var r := db.refs[k];
    RebuiltAllSyncs(db.(refs := Claimed(db, ids, choice)), citers, k.0);
    if r.resolved.None? {
      forall p ensures Fits(db, ids, k.0, r, p) <==> Claims(db, ids, k, p) {}
      if p :| Fits(db, ids, k.0, r, p) {
        assert Claims(db, ids, k, p);
        assert Fits(db, ids, k.0, r, choice(k));
      }
    }
  }

  lemma {:induction false} FreshRowAt(c: Id, rs: seq<Reference>, normalize: string -> string, i: nat)
    requires DistinctPositions(rs) && i < |rs|
    ensures var rows, k := FreshRows(c, rs, normalize), (c, rs[i].position);
            k in rows && rows[k] == FreshRow(rs[i], normalize)
    decreases |rs|
  {
    var m := |rs| - 1;
    if i < m {
      assert rs[..m][i] == rs[i];
      FreshRowAt(c, rs[..m], normalize, i);
    }
  }

  lemma {:induction false} FreshRowsOf(c: Id, rs: seq<Reference>, normalize: string -> string, k: (Id, nat))
    ensures k in FreshRows(c, rs, normalize) <==> k.0 == c && exists i :: 0 <= i < |rs| && rs[i].position == k.1
    decreases |rs|
  {
    if rs != [] {
      var m := |rs| - 1;
      FreshRowsOf(c, rs[..m], normalize, k);
      forall i | 0 <= i < m ensures rs[..m][i] == rs[i] {}
      if k == (c, rs[m].position) { assert rs[m].position == k.1; }
    }
  }

  /**
   * The rows that store_references leaves: one per reference of the paper, with its normalized title unless that is
   * missing or empty, resolved to nothing; and those of the other papers as they were.
   */
  lemma {:induction false} StoredRow(db: Db, c: Id, rs: seq<Reference>, normalize: string -> string, k: (Id, nat))
    requires DistinctPositions(rs)
    ensures var out := Restored(db, c, rs, normalize);
            && (k.0 == c ==> (k in out.refs <==> exists i :: 0 <= i < |rs| && rs[i].position == k.1))
            && (k.0 != c ==> (k in out.refs <==> k in db.refs) && (k in db.refs ==> out.refs[k] == db.refs[k]))
            && forall i :: 0 <= i < |rs| && k == (c, rs[i].position) ==>
                 && k in out.refs && out.refs[k].resolved == None
                 && out.refs[k].year == rs[i].year && out.refs[k].found == rs[i].arxivId
                 && match rs[i].title
                    case None => out.refs[k].titleNorm == None
                    case Some(t) => out.refs[k].titleNorm == if |t| > 0 then Some(normalize(t)) else None
  {
    FreshRowsOf(c, rs, normalize, k);
    forall i | 0 <= i < |rs| && k == (c, rs[i].position)
      ensures k in FreshRows(c, rs, normalize) && FreshRows(c, rs, normalize)[k] == FreshRow(rs[i], normalize)
    {
      FreshRowAt(c, rs, normalize, i);
    }
  }
}
