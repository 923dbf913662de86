/**
 * Where the rank goes in one step of the iteration, paper by paper, read off the citations alone: a paper shares its
 * rank among the papers it cites, and a paper that cites nothing among all.
 */
module RankFlow {
  import opened PageRank

  /** The places of the citations that paper i makes. */
  function Citations(edges: seq<(nat, nat)>, i: nat): set<nat> { set k | 0 <= k < |edges| && edges[k].0 == i }

  /** What the first m citations bring to paper j: each brings an equal share of the citing paper's rank. */
  function Received(g: Graph, rank: Vector, j: nat, m: nat): real
    requires g.Valid() && |rank| == g.n && m <= |g.edges|
  {
    if m == 0 then 0.0
    else
      var (citing, cited) := g.edges[m - 1];
      CitesSomething(g.edges, m - 1);
      Received(g, rank, j, m - 1) + if cited == j then rank[citing] / |Citations(g.edges, citing)| as real else 0.0
  }

  lemma {:induction false} CitesSomething(edges: seq<(nat, nat)>, k: nat)
    requires k < |edges|
    ensures |Citations(edges, edges[k].0)| > 0
  {
    assert k in Citations(edges, edges[k].0);
  }

  /** The rank of the papers among the first m that cite nothing. */
  function Uncommitted(g: Graph, rank: Vector, m: nat): real
    requires m <= |rank|
  {
    if m == 0 then 0.0
    else Uncommitted(g, rank, m - 1) + if Citations(g.edges, m - 1) == {} then rank[m - 1] else 0.0
  }

  lemma {:induction false} DegreeIs(edges: seq<(nat, nat)>, i: nat)
    ensures OutDegree(edges, i) == |Citations(edges, i)|
  {
    if edges != [] {
      var k := |edges| - 1;
      DegreeIs(edges[..k], i);
      OneMoreCitation(edges, i);
    } else {
      assert Citations(edges, i) == {};
    }
  }

  lemma {:induction false} OneMoreCitation(edges: seq<(nat, nat)>, i: nat)
    requires edges != []
    ensures var k := |edges| - 1;
            |Citations(edges, i)| == |Citations(edges[..k], i)| + if edges[k].0 == i then 1 else 0
  {
    var k := |edges| - 1;
    var before, all := Citations(edges[..k], i), Citations(edges, i);
    forall j: nat ensures j in all <==> j in before || (j == k && edges[k].0 == i) {
      if j < k { assert edges[..k][j] == edges[j]; }
    }
    if edges[k].0 == i { assert all == before + {k}; } else { assert all == before; }
  }

  lemma {:induction false} ShareIs(g: Graph, rank: Vector, k: nat)
    requires g.Valid() && |rank| == g.n && k < |g.edges|
    ensures |Citations(g.edges, g.edges[k].0)| > 0
    ensures Shares(g, rank)[g.edges[k].0] == rank[g.edges[k].0] / |Citations(g.edges, g.edges[k].0)| as real
  {
    SharesAt(g.edges, rank, g.n, g.edges[k].0);
    DegreeIs(g.edges, g.edges[k].0);
    CitesSomething(g.edges, k);
  }

  lemma {:induction false} InflowIs(g: Graph, rank: Vector, j: nat, m: nat)
    requires g.Valid() && |rank| == g.n && j < g.n && m <= |g.edges|
    ensures Graph(g.n, g.edges[..m]).Valid()
    ensures Inflow(g.n, g.edges[..m], Shares(g, rank))[j] == Received(g, rank, j, m)
  {
    if m > 0 {
      InflowIs(g, rank, j, m - 1);
      assert g.edges[..m][..m - 1] == g.edges[..m - 1];
      ShareIs(g, rank, m - 1);
    }
  }

  lemma {:induction false} DanglingIs(g: Graph, rank: Vector, m: nat)
    requires |rank| == g.n && m <= g.n
    ensures Sum(Dangling(g, rank)[..m]) == Uncommitted(g, rank, m)
  {
    if m > 0 {
      DanglingIs(g, rank, m - 1);
      assert Dangling(g, rank)[..m][..m - 1] == Dangling(g, rank)[..m - 1];
      DegreeIs(g.edges, m - 1);
    }
  }

  /**
   * The new rank of paper j: 0.85 of what the citations of j bring it, plus 0.85 of an even share of the rank of papers
   * that cite nothing, plus an even share of 0.15.
   */
  lemma {:induction false} StepAt(g: Graph, rank: Vector, j: nat)
    requires g.Valid() && |rank| == g.n && j < g.n
    ensures Step(g, rank)[j]
         == 0.85 * (Received(g, rank, j, |g.edges|) + Uncommitted(g, rank, g.n) / g.n as real) + 0.15 / g.n as real
  {
    var inflow, held := Inflow(g.n, g.edges, Shares(g, rank)), Sum(Dangling(g, rank));
    BlendsAt(inflow, held, g.n, j);
    InflowIs(g, rank, j, |g.edges|);
    assert g.edges[..|g.edges|] == g.edges;
    DanglingIs(g, rank, g.n);
    assert Dangling(g, rank)[..g.n] == Dangling(g, rank);
  }

  predicate CitedBy(g: Graph, i: nat, j: nat) { exists k :: 0 <= k < |g.edges| && g.edges[k] == (i, j) }

  lemma {:induction false} NothingReceived(g: Graph, rank: Vector, j: nat, m: nat)
    requires g.Valid() && |rank| == g.n && m <= |g.edges| && forall k :: 0 <= k < m ==> g.edges[k].1 != j
    ensures Received(g, rank, j, m) == 0.0
  {
    if m > 0 { NothingReceived(g, rank, j, m - 1); }
  }

  lemma {:induction false} SomethingReceived(g: Graph, rank: Vector, j: nat, m: nat)
    requires g.Valid() && |rank| == g.n && m <= |g.edges| && NonNegative(rank)
    ensures Received(g, rank, j, m) >= 0.0
    ensures (exists k :: 0 <= k < m && g.edges[k].1 == j && rank[g.edges[k].0] > 0.0) ==> Received(g, rank, j, m) > 0.0
  {
    if m > 0 {
      SomethingReceived(g, rank, j, m - 1);
      CitesSomething(g.edges, m - 1);
      PositiveQuotient(rank[g.edges[m - 1].0], |Citations(g.edges, g.edges[m - 1].0)| as real);
    }
  }

  lemma {:induction false} PositiveQuotient(x: real, d: real)
    requires x >= 0.0 && d > 0.0
    ensures x / d >= 0.0 && (x > 0.0 ==> x / d > 0.0)
  {
    Quotient(x, d);
    DivideBack(x, d);
  }

  /** The part of its new rank that every paper gets. */
  function Even(g: Graph, rank: Vector): real
    requires |rank| == g.n > 0
  {
    0.85 * (Uncommitted(g, rank, g.n) / g.n as real) + 0.15 / g.n as real
  }

  /** Rank flows from citing to cited papers: an uncited paper gets the even part and no more. */
  lemma {:induction false} UncitedGetsTheEvenPart(g: Graph, rank: Vector, j: nat)
    requires g.Valid() && |rank| == g.n && j < g.n && forall i: nat :: !CitedBy(g, i, j)
    ensures Step(g, rank)[j] == Even(g, rank)
  {
    StepAt(g, rank, j);
    forall k | 0 <= k < |g.edges| ensures g.edges[k].1 != j {
      if g.edges[k].1 == j { assert CitedBy(g, g.edges[k].0, j); }
    }
    NothingReceived(g, rank, j, |g.edges|);
  }

  /** A paper cited by one of positive rank gets more. */
  lemma {:induction false} CitedGetsMore(g: Graph, rank: Vector, i: nat, j: nat)
    requires g.Valid() && |rank| == g.n && NonNegative(rank) && CitedBy(g, i, j) && j < g.n && i < g.n && rank[i] > 0.0
    ensures Step(g, rank)[j] > Even(g, rank)
  {
    StepAt(g, rank, j);
    SomethingReceived(g, rank, j, |g.edges|);
    Positive(Received(g, rank, j, |g.edges|), Uncommitted(g, rank, g.n) / g.n as real);
  }

  lemma {:induction false} Positive(x: real, y: real)
    requires x > 0.0
    ensures 0.85 * (x + y) > 0.85 * y
  {}

  /** From equal ranks on, the step is repeated until the ranks change by less than 1e-10 in all; no round more. */
  lemma {:induction false} StopsAtTheFirstSmallChange(g: Graph, rank: Vector)
    requires g.Valid() && g.n > 0 && Returned(g, rank)
    ensures exists k: nat :: k < 200 && rank == Iterate(g, k + 1) && IsFirstSmallChange(g, k)
  {
    ToleranceIsReached(g);
    assert !(forall j: nat :: j < MAX_ITER ==> Change(g, j) >= TOL);
    var k: nat :| k < MAX_ITER && Change(g, k) < TOL && rank == Iterate(g, k + 1)
               && forall j: nat :: j < k ==> Change(g, j) >= TOL;
    assert IsFirstSmallChange(g, k);
  }

  lemma {:induction false} StartsEven(g: Graph, i: nat)
    requires g.Valid() && i < g.n
    ensures Iterate(g, 0)[i] == 1.0 / g.n as real
  {}

  predicate IsFirstSmallChange(g: Graph, k: nat)
    requires g.Valid() && g.n > 0
  {
    Change(g, k) < 0.0000000001 && forall j :: 0 <= j < k ==> Change(g, j) >= 0.0000000001
  }
}
