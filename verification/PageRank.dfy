/**
 * PageRank over the citation edges by power iteration, in real arithmetic.
 *
 * One step is an L1 contraction by the damping factor on every graph, dangling nodes included.  From that follow the
 * three things the code relies on: the scores stay a probability vector, the tolerance exit is always taken long
 * before the iteration cap, and what is returned is close to the one and only stationary vector.
 */
module PageRank {
  const DAMPING := 0.85
  const TOL := 0.0000000001
  const MAX_ITER := 200

  type Vector = seq<real>

  /** A citation graph: nodes 0..n and edges (citing, cited). */
  datatype Graph = Graph(n: nat, edges: seq<(nat, nat)>) {
    predicate Valid() {
      forall i :: 0 <= i < |edges| ==> edges[i].0 < n && edges[i].1 < n
    }
  }

  // ----- sums ------------------------------------------------------------------------------------------------------

  function Abs(x: real): real { if x < 0.0 then -x else x }

  function Sum(v: Vector): real {
    if v == [] then 0.0 else Sum(v[..|v| - 1]) + v[|v| - 1]
  }

  function Constant(n: nat, x: real): Vector { seq(n, _ => x) }

  lemma {:induction false} SumUpdate(v: Vector, i: nat, x: real)
    requires i < |v|
    ensures Sum(v[i := x]) == Sum(v) - v[i] + x
  {
    var w := v[i := x];
    if i == |v| - 1 {
      assert w[..|v| - 1] == v[..|v| - 1];
    } else {
      SumUpdate(v[..|v| - 1], i, x);
      assert w[..|v| - 1] == v[..|v| - 1][i := x];
    }
  }

  lemma {:induction false} SumAtMost(u: Vector, v: Vector)
    requires |u| == |v| && forall i :: 0 <= i < |u| ==> u[i] <= v[i]
    ensures Sum(u) <= Sum(v)
  {
    if u != [] { SumAtMost(u[..|u| - 1], v[..|v| - 1]); }
  }

  lemma {:induction false} SumPlus(u: Vector, v: Vector, w: Vector)
    requires |u| == |v| == |w| && forall i :: 0 <= i < |u| ==> w[i] == u[i] + v[i]
    ensures Sum(w) == Sum(u) + Sum(v)
  {
    if u != [] { SumPlus(u[..|u| - 1], v[..|v| - 1], w[..|w| - 1]); }
  }

  lemma {:induction false} SumConstant(n: nat, x: real)
    ensures Sum(Constant(n, x)) == x * n as real
  {
    if n > 0 {
      SumConstant(n - 1, x);
      assert Constant(n, x)[..n - 1] == Constant(n - 1, x);
      assert x * n as real == x * (n - 1) as real + x;
    }
  }

  /** The L1 distance. */
  function Apart(u: Vector, v: Vector): Vector
    requires |u| == |v|
  {
    seq(|u|, i requires 0 <= i < |u| => Abs(u[i] - v[i]))
  }

  function Dist(u: Vector, v: Vector): real
    requires |u| == |v|
  {
    Sum(Apart(u, v))
  }

  lemma {:induction false} DistNonNegative(u: Vector, v: Vector)
    requires |u| == |v|
    ensures Dist(u, v) >= 0.0
  {
    SumConstant(|u|, 0.0);
    SumAtMost(Constant(|u|, 0.0), Apart(u, v));
  }

  lemma {:induction false} DistSymmetric(u: Vector, v: Vector)
    requires |u| == |v|
    ensures Dist(u, v) == Dist(v, u)
  {
    assert Apart(u, v) == Apart(v, u);
  }

  lemma {:induction false} Triangle(u: Vector, v: Vector, w: Vector)
    requires |u| == |v| == |w|
    ensures Dist(u, w) <= Dist(u, v) + Dist(v, w)
  {
    var s := seq(|u|, i requires 0 <= i < |u| => Apart(u, v)[i] + Apart(v, w)[i]);
    SumPlus(Apart(u, v), Apart(v, w), s);
    SumAtMost(Apart(u, w), s);
  }

  lemma {:induction false} DistZero(u: Vector, v: Vector)
    requires |u| == |v| && Dist(u, v) <= 0.0
    ensures u == v
  {
    if u != [] {
      var m := |u| - 1;
      assert Apart(u, v)[..m] == Apart(u[..m], v[..m]);
      DistNonNegative(u[..m], v[..m]);
      DistZero(u[..m], v[..m]);
      assert u == u[..m] + [u[m]] && v == v[..m] + [v[m]];
    }
  }

  // ----- one step of the iteration ---------------------------------------------------------------------------------

  /** The out-degrees: np.bincount over the sources. */
  function OutDegree(edges: seq<(nat, nat)>, i: nat): nat {
    if edges == [] then 0
    else OutDegree(edges[..|edges| - 1], i) + if edges[|edges| - 1].0 == i then 1 else 0
  }

  function Share(x: real, degree: nat): real { if degree == 0 then 0.0 else x / degree as real }

  function SharesTo(edges: seq<(nat, nat)>, rank: Vector, m: nat): (v: Vector)
    requires m <= |rank|
    ensures |v| == m
  {
    if m == 0 then [] else SharesTo(edges, rank, m - 1) + [Share(rank[m - 1], OutDegree(edges, m - 1))]
  }

  lemma {:induction false} SharesAt(edges: seq<(nat, nat)>, rank: Vector, m: nat, i: nat)
    requires i < m <= |rank|
    ensures SharesTo(edges, rank, m)[i] == Share(rank[i], OutDegree(edges, i))
  {
    if i < m - 1 { SharesAt(edges, rank, m - 1, i); }
  }

  /** What each node hands to each paper it cites. */
  function Shares(g: Graph, rank: Vector): (v: Vector)
    requires |rank| == g.n
    ensures |v| == g.n
  {
    SharesTo(g.edges, rank, g.n)
  }

  /** The sparse product m @ rank: every edge adds its source's share to its target. */
  function Inflow(n: nat, edges: seq<(nat, nat)>, share: Vector): (v: Vector)
    requires Graph(n, edges).Valid() && |share| == n
    ensures |v| == n
  {
    if edges == [] then Constant(n, 0.0)
    else
      var v, e := Inflow(n, edges[..|edges| - 1], share), edges[|edges| - 1];
      v[e.1 := v[e.1] + share[e.0]]
  }

  /** The rank held by nodes without outgoing edges. */
  function Dangling(g: Graph, rank: Vector): Vector
    requires |rank| == g.n
  {
    seq(g.n, i requires 0 <= i < g.n => if OutDegree(g.edges, i) == 0 then rank[i] else 0.0)
  }

  /** The new rank of one node: damped inflow and dangling share, plus the teleport share. */
  function Blend(inflow: real, held: real, n: nat): real
    requires n > 0
  {
    DAMPING * (inflow + held / n as real) + (1.0 - DAMPING) / n as real
  }

  /** The first m entries of the next rank vector. */
  function Blends(inflow: Vector, held: real, m: nat): (v: Vector)
    requires m <= |inflow|
    ensures |v| == m
  {
    if m == 0 then [] else Blends(inflow, held, m - 1) + [Blend(inflow[m - 1], held, |inflow|)]
  }

  function Step(g: Graph, rank: Vector): Vector
    requires g.Valid() && |rank| == g.n > 0
  {
    Blends(Inflow(g.n, g.edges, Shares(g, rank)), Sum(Dangling(g, rank)), g.n)
  }

  lemma {:induction false} BlendsAt(inflow: Vector, held: real, m: nat, j: nat)
    requires j < m <= |inflow|
    ensures Blends(inflow, held, m)[j] == Blend(inflow[j], held, |inflow|)
  {
    if j < m - 1 { BlendsAt(inflow, held, m - 1, j); }
  }

  // ----- mass is neither lost nor created --------------------------------------------------------------------------

  /** The same scatter, but back to the source: what every node gives away in total. */
  function Outflow(n: nat, edges: seq<(nat, nat)>, share: Vector): (v: Vector)
    requires Graph(n, edges).Valid() && |share| == n
    ensures |v| == n
  {
    if edges == [] then Constant(n, 0.0)
    else
      var v, e := Outflow(n, edges[..|edges| - 1], share), edges[|edges| - 1];
      v[e.0 := v[e.0] + share[e.0]]
  }

  lemma {:induction false} FlowsBalance(n: nat, edges: seq<(nat, nat)>, share: Vector)
    requires Graph(n, edges).Valid() && |share| == n
    ensures Sum(Inflow(n, edges, share)) == Sum(Outflow(n, edges, share))
  {
    if edges != [] {
      var init, e := edges[..|edges| - 1], edges[|edges| - 1];
      FlowsBalance(n, init, share);
      var a, b := Inflow(n, init, share), Outflow(n, init, share);
      SumUpdate(a, e.1, a[e.1] + share[e.0]);
      SumUpdate(b, e.0, b[e.0] + share[e.0]);
    }
  }

  lemma {:induction false} OutflowIs(n: nat, edges: seq<(nat, nat)>, share: Vector, i: nat)
    requires Graph(n, edges).Valid() && |share| == n && i < n
    ensures Outflow(n, edges, share)[i] == OutDegree(edges, i) as real * share[i]
  {
    if edges != [] {
      var init := edges[..|edges| - 1];
      OutflowIs(n, init, share, i);
      var d := OutDegree(init, i) as real;
      assert (d + 1.0) * share[i] == d * share[i] + share[i];
    }
  }

  lemma {:induction false} DivideBack(x: real, d: real)
    requires d > 0.0
    ensures d * (x / d) == x
  {}

  lemma {:induction false} FlowAt(g: Graph, rank: Vector, i: nat)
    requires g.Valid() && |rank| == g.n && i < g.n
    ensures Outflow(g.n, g.edges, Shares(g, rank))[i] + Dangling(g, rank)[i] == rank[i]
  {
    OutflowIs(g.n, g.edges, Shares(g, rank), i);
    SharesAt(g.edges, rank, g.n, i);
    var d := OutDegree(g.edges, i);
    if d > 0 { DivideBack(rank[i], d as real); }
  }

  /** What flows along edges plus what dangling nodes hold is the whole rank. */
  lemma {:induction false} FlowPlusDangling(g: Graph, rank: Vector)
    requires g.Valid() && |rank| == g.n
    ensures Sum(Inflow(g.n, g.edges, Shares(g, rank))) + Sum(Dangling(g, rank)) == Sum(rank)
  {
    var out, held := Outflow(g.n, g.edges, Shares(g, rank)), Dangling(g, rank);
    FlowsBalance(g.n, g.edges, Shares(g, rank));
    forall i | 0 <= i < g.n ensures rank[i] == out[i] + held[i] { FlowAt(g, rank, i); }
    SumPlus(out, held, rank);
  }

  /** The sum of the first m blended entries. */
  function BlendTotal(inflow: Vector, held: real, m: nat): real
    requires m <= |inflow| && inflow != []
  {
    var n := |inflow| as real;
    DAMPING * Sum(inflow[..m]) + m as real * (DAMPING * (held / n) + (1.0 - DAMPING) / n)
  }

  lemma {:induction false} BlendTotalGrows(inflow: Vector, held: real, m: nat)
    requires m < |inflow|
    ensures BlendTotal(inflow, held, m + 1)
         == BlendTotal(inflow, held, m) + Blend(inflow[m], held, |inflow|)
  {
    var h, t := held / |inflow| as real, (1.0 - DAMPING) / |inflow| as real;
    var rest, total, x := DAMPING * h + t, Sum(inflow[..m]), inflow[m];
    assert inflow[..m + 1][..m] == inflow[..m];
    assert DAMPING * (x + h) == DAMPING * x + DAMPING * h;
    assert DAMPING * (total + x) == DAMPING * total + DAMPING * x;
    assert (m as real + 1.0) * rest == m as real * rest + rest;
  }

  lemma {:induction false} BlendsSum(inflow: Vector, held: real, m: nat)
    requires m <= |inflow| && inflow != []
    ensures Sum(Blends(inflow, held, m)) == BlendTotal(inflow, held, m)
  {
    if m > 0 {
      BlendsSum(inflow, held, m - 1);
      BlendTotalGrows(inflow, held, m - 1);
    }
  }

  lemma {:induction false} BlendTotalIsOne(inflow: Vector, held: real)
    requires inflow != [] && Sum(inflow) + held == 1.0
    ensures BlendTotal(inflow, held, |inflow|) == 1.0
  {
    var n := |inflow| as real;
    var h, t := held / n, (1.0 - DAMPING) / n;
    assert inflow[..|inflow|] == inflow;
    DivideBack(held, n);
    DivideBack(1.0 - DAMPING, n);
    assert n * (DAMPING * h + t) == DAMPING * (n * h) + n * t;
    assert DAMPING * Sum(inflow) + DAMPING * held == DAMPING * (Sum(inflow) + held);
  }

  lemma {:induction false} BlendsMass(inflow: Vector, held: real)
    requires inflow != [] && Sum(inflow) + held == 1.0
    ensures Sum(Blends(inflow, held, |inflow|)) == 1.0
  {
    BlendsSum(inflow, held, |inflow|);
    BlendTotalIsOne(inflow, held);
  }

  lemma {:induction false} StepPreservesMass(g: Graph, rank: Vector)
    requires g.Valid() && |rank| == g.n > 0 && Sum(rank) == 1.0
    ensures Sum(Step(g, rank)) == 1.0
  {
    FlowPlusDangling(g, rank);
    BlendsMass(Inflow(g.n, g.edges, Shares(g, rank)), Sum(Dangling(g, rank)));
  }

  predicate NonNegative(v: Vector) { forall i :: 0 <= i < |v| ==> v[i] >= 0.0 }

  lemma {:induction false} InflowNonNegative(n: nat, edges: seq<(nat, nat)>, share: Vector)
    requires Graph(n, edges).Valid() && |share| == n && NonNegative(share)
    ensures NonNegative(Inflow(n, edges, share))
  {
    if edges != [] { InflowNonNegative(n, edges[..|edges| - 1], share); }
  }

  lemma {:induction false} Quotient(x: real, d: real)
    requires x >= 0.0 && d > 0.0
    ensures x / d >= 0.0
  {}

  lemma {:induction false} SharesNonNegative(g: Graph, rank: Vector)
    requires |rank| == g.n && NonNegative(rank)
    ensures NonNegative(Shares(g, rank))
  {
    forall i | 0 <= i < g.n ensures Shares(g, rank)[i] >= 0.0 {
      SharesAt(g.edges, rank, g.n, i);
      if OutDegree(g.edges, i) > 0 { Quotient(rank[i], OutDegree(g.edges, i) as real); }
    }
  }

  lemma {:induction false} BlendNonNegative(inflow: real, held: real, n: nat)
    requires n > 0 && inflow >= 0.0 && held >= 0.0
    ensures Blend(inflow, held, n) >= 0.0
  {
    Quotient(held, n as real);
    Quotient(1.0 - DAMPING, n as real);
    ProductNonNegative(DAMPING, inflow + held / n as real);
  }

  lemma {:induction false} StepNonNegative(g: Graph, rank: Vector)
    requires g.Valid() && |rank| == g.n > 0 && NonNegative(rank)
    ensures NonNegative(Step(g, rank))
  {
    var inflow, held := Inflow(g.n, g.edges, Shares(g, rank)), Sum(Dangling(g, rank));
    SharesNonNegative(g, rank);
    InflowNonNegative(g.n, g.edges, Shares(g, rank));
    SumConstant(g.n, 0.0);
    SumAtMost(Constant(g.n, 0.0), Dangling(g, rank));
    forall j | 0 <= j < g.n ensures Step(g, rank)[j] >= 0.0 {
      BlendsAt(inflow, held, g.n, j);
      BlendNonNegative(inflow[j], held, g.n);
    }
  }

  lemma {:induction false} ProductNonNegative(x: real, y: real)
    requires x >= 0.0 && y >= 0.0
    ensures x * y >= 0.0
  {}

  // ----- contraction -----------------------------------------------------------------------------------------------

  lemma {:induction false} InflowApart(n: nat, edges: seq<(nat, nat)>, s: Vector, t: Vector, j: nat)
    requires Graph(n, edges).Valid() && |s| == |t| == n && j < n
    ensures Abs(Inflow(n, edges, s)[j] - Inflow(n, edges, t)[j]) <= Inflow(n, edges, Apart(s, t))[j]
  {
    if edges != [] { InflowApart(n, edges[..|edges| - 1], s, t, j); }
  }

  lemma {:induction false} QuotientApart(x: real, y: real, d: real)
    requires d > 0.0
    ensures Abs(x / d - y / d) == Abs(x - y) / d
  {
    assert x / d - y / d == (x - y) / d;
    if x - y < 0.0 {
      NegativeQuotient(y - x, d);
    } else {
      Quotient(x - y, d);
    }
  }

  lemma {:induction false} NegativeQuotient(x: real, d: real)
    requires d > 0.0 && x > 0.0
    ensures (-x) / d == -(x / d) && x / d > 0.0
  {
    DivideBack(x, d);
    if x / d <= 0.0 { ProductNonNegative(d, -(x / d)); }
  }

  lemma {:induction false} SharesApart(g: Graph, x: Vector, y: Vector)
    requires |x| == |y| == g.n
    ensures Apart(Shares(g, x), Shares(g, y)) == Shares(g, Apart(x, y))
  {
    forall i | 0 <= i < g.n ensures Apart(Shares(g, x), Shares(g, y))[i] == Shares(g, Apart(x, y))[i] {
      SharesAt(g.edges, x, g.n, i);
      SharesAt(g.edges, y, g.n, i);
      SharesAt(g.edges, Apart(x, y), g.n, i);
      if OutDegree(g.edges, i) > 0 { QuotientApart(x[i], y[i], OutDegree(g.edges, i) as real); }
    }
  }

  lemma {:induction false} SumApart(u: Vector, v: Vector)
    requires |u| == |v|
    ensures Abs(Sum(u) - Sum(v)) <= Dist(u, v)
  {
    if u != [] {
      var m := |u| - 1;
      SumApart(u[..m], v[..m]);
      assert Apart(u, v)[..m] == Apart(u[..m], v[..m]);
    }
  }

  lemma {:induction false} DanglingApart(g: Graph, x: Vector, y: Vector)
    requires |x| == |y| == g.n
    ensures Abs(Sum(Dangling(g, x)) - Sum(Dangling(g, y))) <= Sum(Dangling(g, Apart(x, y)))
  {
    SumApart(Dangling(g, x), Dangling(g, y));
    assert Apart(Dangling(g, x), Dangling(g, y)) == Dangling(g, Apart(x, y));
  }

  lemma {:induction false} BlendApart(a: real, b: real, c: real, p: real, q: real, r: real, n: nat)
    requires n > 0 && Abs(a - b) <= c && Abs(p - q) <= r
    ensures Abs(Blend(a, p, n) - Blend(b, q, n)) <= DAMPING * c + DAMPING * (r / n as real)
  {
    QuotientApart(p, q, n as real);
    QuotientAtMost(Abs(p - q), r, n as real);
    var x, y, z := p / n as real, q / n as real, r / n as real;
    ScaledApart(DAMPING, a + x, b + y, c + z);
    assert DAMPING * (c + z) == DAMPING * c + DAMPING * z;
  }

  lemma {:induction false} GapAdds(rest: real, total: real, c: real, dist: real, gap: real, m: real)
    requires dist <= DAMPING * total + m * rest && gap <= DAMPING * c + rest
    ensures dist + gap <= DAMPING * (total + c) + (m + 1.0) * rest
  {
    assert DAMPING * (total + c) == DAMPING * total + DAMPING * c;
    assert (m + 1.0) * rest == m * rest + rest;
  }

  /** The first m entries of a and b differ by at most those of c. */
  ghost predicate Within(a: Vector, b: Vector, c: Vector, m: nat)
    requires m <= |a| == |b| == |c|
  {
    m == 0 || (Within(a, b, c, m - 1) && Abs(a[m - 1] - b[m - 1]) <= c[m - 1])
  }

  /** How far apart m blended entries can be when their inputs differ by c and r. */
  function Bound(c: Vector, r: real, n: nat, m: nat): real
    requires m <= |c| && n > 0
  {
    DAMPING * Sum(c[..m]) + m as real * (DAMPING * (r / n as real))
  }

  lemma {:induction false} BoundGrows(c: Vector, r: real, n: nat, m: nat, dist: real, gap: real)
    requires m < |c| && n > 0
    requires dist <= Bound(c, r, n, m) && gap <= DAMPING * c[m] + DAMPING * (r / n as real)
    ensures dist + gap <= Bound(c, r, n, m + 1)
  {
    assert c[..m + 1][..m] == c[..m];
    assert Sum(c[..m + 1]) == Sum(c[..m]) + c[m];
    GapAdds(DAMPING * (r / n as real), Sum(c[..m]), c[m], dist, gap, m as real);
  }

  /** Two blended vectors are at most as far apart as their blended differences. */
  lemma {:induction false} BlendsApart(
      a: Vector, b: Vector, c: Vector, p: real, q: real, r: real, m: nat)
    requires m <= |a| == |b| == |c| && Within(a, b, c, m) && |a| > 0 && Abs(p - q) <= r
    ensures Dist(Blends(a, p, m), Blends(b, q, m)) <= Bound(c, r, |a|, m)
  {
    if m > 0 {
      var k, n := m - 1, |a|;
      BlendsApart(a, b, c, p, q, r, k);
      var u, v := Blends(a, p, k), Blends(b, q, k);
      var x, y := Blend(a[k], p, n), Blend(b[k], q, n);
      DistGrows(u, v, x, y);
      BlendApart(a[k], b[k], c[k], p, q, r, n);
      BoundGrows(c, r, n, k, Dist(u, v), Abs(x - y));
    }
  }

  lemma {:induction false} DistGrows(u: Vector, v: Vector, x: real, y: real)
    requires |u| == |v|
    ensures Dist(u + [x], v + [y]) == Dist(u, v) + Abs(x - y)
  {
    assert Apart(u + [x], v + [y])[..|u|] == Apart(u, v);
  }

  lemma {:induction false} QuotientAtMost(x: real, y: real, d: real)
    requires d > 0.0 && x <= y
    ensures x / d <= y / d
  {
    Quotient(y - x, d);
    assert y / d - x / d == (y - x) / d;
  }

  lemma {:induction false} ScaledApart(k: real, x: real, y: real, bound: real)
    requires k >= 0.0 && Abs(x - y) <= bound
    ensures Abs(k * x - k * y) <= k * bound
  {
    assert k * x - k * y == k * (x - y);
    ProductNonNegative(k, bound - (x - y));
    ProductNonNegative(k, bound + (x - y));
    assert k * (bound - (x - y)) == k * bound - k * (x - y);
    assert k * (bound + (x - y)) == k * bound + k * (x - y);
  }

  lemma {:induction false} BoundTotal(c: Vector, r: real, total: real)
    requires c != [] && Sum(c) + r == total
    ensures Bound(c, r, |c|, |c|) == DAMPING * total
  {
    var n := |c| as real;
    var h, inflow := r / n, Sum(c);
    assert c[..|c|] == c;
    DivideBack(r, n);
    assert n * (DAMPING * h) == DAMPING * (n * h);
    assert DAMPING * inflow + DAMPING * r == DAMPING * (inflow + r);
  }

  lemma {:induction false} BlendsContract(
      a: Vector, b: Vector, c: Vector, p: real, q: real, r: real, total: real)
    requires |a| == |b| == |c| && Within(a, b, c, |a|) && a != []
    requires Abs(p - q) <= r && Sum(c) + r == total
    ensures Dist(Blends(a, p, |a|), Blends(b, q, |a|)) <= DAMPING * total
  {
    BlendsApart(a, b, c, p, q, r, |a|);
    BoundTotal(c, r, total);
  }

  lemma {:induction false} InflowsWithin(g: Graph, x: Vector, y: Vector, m: nat)
    requires g.Valid() && m <= |x| == |y| == g.n
    ensures Within(Inflow(g.n, g.edges, Shares(g, x)), Inflow(g.n, g.edges, Shares(g, y)),
                   Inflow(g.n, g.edges, Shares(g, Apart(x, y))), m)
  {
    if m > 0 {
      InflowsWithin(g, x, y, m - 1);
      SharesApart(g, x, y);
      InflowApart(g.n, g.edges, Shares(g, x), Shares(g, y), m - 1);
    }
  }

  /** The step brings any two vectors closer by the damping factor, whatever the graph. */
  lemma {:induction false} StepContracts(g: Graph, x: Vector, y: Vector)
    requires g.Valid() && |x| == |y| == g.n > 0
    ensures Dist(Step(g, x), Step(g, y)) <= DAMPING * Dist(x, y)
  {
    var z := Apart(x, y);
    var c, r := Inflow(g.n, g.edges, Shares(g, z)), Sum(Dangling(g, z));
    InflowsWithin(g, x, y, g.n);
    DanglingApart(g, x, y);
    FlowPlusDangling(g, z);
    BlendsContract(Inflow(g.n, g.edges, Shares(g, x)), Inflow(g.n, g.edges, Shares(g, y)), c,
                   Sum(Dangling(g, x)), Sum(Dangling(g, y)), r, Dist(x, y));
  }

  // ----- the iteration ---------------------------------------------------------------------------------------------

  function Uniform(n: nat): Vector
    requires n > 0
  {
    Constant(n, 1.0 / n as real)
  }

  function Iterate(g: Graph, k: nat): (v: Vector)
    requires g.Valid() && g.n > 0
    ensures |v| == g.n
  {
    if k == 0 then Uniform(g.n) else Step(g, Iterate(g, k - 1))
  }

  function Change(g: Graph, k: nat): real
    requires g.Valid() && g.n > 0
  {
    Dist(Iterate(g, k + 1), Iterate(g, k))
  }

  function Pow(k: nat): real { if k == 0 then 1.0 else DAMPING * Pow(k - 1) }

  lemma {:induction false} UniformIsProbability(n: nat)
    requires n > 0
    ensures NonNegative(Uniform(n)) && Sum(Uniform(n)) == 1.0
  {
    var share := 1.0 / n as real;
    DivideBack(1.0, n as real);
    Quotient(1.0, n as real);
    SumConstant(n, share);
  }

  /** Every iterate is a probability vector. */
  lemma {:induction false} IteratesAreProbabilities(g: Graph, k: nat)
    requires g.Valid() && g.n > 0
    ensures NonNegative(Iterate(g, k)) && Sum(Iterate(g, k)) == 1.0
  {
    if k == 0 {
      UniformIsProbability(g.n);
    } else {
      IteratesAreProbabilities(g, k - 1);
      StepPreservesMass(g, Iterate(g, k - 1));
      StepNonNegative(g, Iterate(g, k - 1));
    }
  }

  lemma {:induction false} ProbabilitiesAtMostTwoApart(u: Vector, v: Vector)
    requires |u| == |v| && NonNegative(u) && NonNegative(v) && Sum(u) == 1.0 == Sum(v)
    ensures Dist(u, v) <= 2.0
  {
    var w := seq(|u|, i requires 0 <= i < |u| => u[i] + v[i]);
    SumPlus(u, v, w);
    SumAtMost(Apart(u, v), w);
  }

  lemma {:induction false} HalfStep(change: real, power: real)
    requires change <= 2.0 * power
    ensures DAMPING * change <= 2.0 * (DAMPING * power)
  {
    ProductNonNegative(DAMPING, 2.0 * power - change);
    assert DAMPING * (2.0 * power - change) == 2.0 * (DAMPING * power) - DAMPING * change;
  }

  lemma {:induction false} ChangeContracts(g: Graph, k: nat)
    requires g.Valid() && g.n > 0
    ensures Change(g, k + 1) <= DAMPING * Change(g, k)
  {
    StepContracts(g, Iterate(g, k + 1), Iterate(g, k));
  }

  lemma {:induction false} ChangeShrinks(g: Graph, k: nat)
    requires g.Valid() && g.n > 0
    ensures Change(g, k) <= 2.0 * Pow(k)
  {
    if k == 0 {
      IteratesAreProbabilities(g, 0);
      IteratesAreProbabilities(g, 1);
      ProbabilitiesAtMostTwoApart(Iterate(g, 1), Iterate(g, 0));
    } else {
      ChangeShrinks(g, k - 1);
      ChangeContracts(g, k - 1);
      HalfStep(Change(g, k - 1), Pow(k - 1));
    }
  }

  lemma {:induction false} PowAdds(j: nat, k: nat)
    ensures Pow(j + k) == Pow(j) * Pow(k)
  {
    if j > 0 {
      PowAdds(j - 1, k);
      assert DAMPING * (Pow(j - 1) * Pow(k)) == (DAMPING * Pow(j - 1)) * Pow(k);
    }
  }

  lemma {:induction false} ProductAtMost(a: real, b: real, x: real, y: real)
    requires 0.0 <= a <= x && 0.0 <= b <= y
    ensures 0.0 <= a * b <= x * y
  {
    ProductNonNegative(x - a, b);
    ProductNonNegative(x, y - b);
    ProductNonNegative(a, b);
    assert (x - a) * b == x * b - a * b && x * (y - b) == x * y - x * b;
  }

  lemma {:induction false} PowCombines(j: nat, k: nat, x: real, y: real, product: real)
    requires 0.0 <= Pow(j) <= x && 0.0 <= Pow(k) <= y && x * y <= product
    ensures 0.0 <= Pow(j + k) <= product
  {
    PowAdds(j, k);
    ProductAtMost(Pow(j), Pow(k), x, y);
  }

  lemma {:induction false} PowDoubles(k: nat, bound: real, square: real)
    requires 0.0 <= Pow(k) <= bound && bound * bound <= square
    ensures 0.0 <= Pow(k + k) <= square
  {
    PowCombines(k, k, bound, bound, square);
  }

  /** After this many rounds the change is below the tolerance, on every graph. */
  const ROUNDS: nat := 146

  const EIGHTH: nat := 8

  lemma {:induction false} PowEighth()
    ensures 0.0 <= Pow(EIGHTH) <= 0.272492 && 0.0 <= Pow(EIGHTH + EIGHTH + 2) <= 0.053647
  {
    PowDoubles(EIGHTH, 0.272492, 0.0742519);
    PowCombines(EIGHTH + EIGHTH, 2, 0.0742519, 0.7225, 0.053647);
  }

  /** 0.85 to the 146th is under half the tolerance. */
  lemma {:induction false} DampingPower()
    ensures 2.0 * Pow(ROUNDS) < TOL
  {
    var e := EIGHTH;
    PowEighth();
    PowDoubles(e, 0.272492, 0.0742519);
    PowDoubles(e + e, 0.0742519, 0.00551335);
    var f := e + e + e + e;
    PowDoubles(f, 0.00551335, 0.0000303971);
    PowDoubles(f + f, 0.0000303971, 0.000000000923985);
    PowCombines(f + f + f + f, e + e + 2, 0.000000000923985, 0.053647, 0.0000000000496);
    assert f + f + f + f + (e + e + 2) == ROUNDS;
  }

  /** On every graph the change falls below the tolerance by the 147th of the 200 rounds. */
  lemma {:induction false} ToleranceIsReached(g: Graph)
    requires g.Valid() && g.n > 0
    ensures Change(g, ROUNDS) < TOL && ROUNDS < MAX_ITER
  {
    ChangeShrinks(g, ROUNDS);
    DampingPower();
  }

  ghost predicate Stationary(g: Graph, x: Vector)
    requires g.Valid()
  {
    |x| == g.n > 0 && Step(g, x) == x
  }

  /** There is at most one stationary vector. */
  lemma {:induction false} StationaryUnique(g: Graph, x: Vector, y: Vector)
    requires g.Valid() && Stationary(g, x) && Stationary(g, y)
    ensures x == y
  {
    StepContracts(g, x, y);
    assert Dist(Step(g, x), Step(g, y)) == Dist(x, y);
    DistNonNegative(x, y);
    NothingShrinksLess(Dist(x, y), DAMPING * Dist(x, y));
    DistZero(x, y);
  }

  lemma {:induction false} NothingShrinksLess(d: real, shrunk: real)
    requires d >= 0.0 && shrunk == DAMPING * d && d <= shrunk
    ensures d == 0.0
  {
    assert (1.0 - DAMPING) * d == d - DAMPING * d;
    if d > 0.0 { PositiveProduct(1.0 - DAMPING, d); }
  }

  lemma {:induction false} PositiveProduct(x: real, y: real)
    requires x > 0.0 && y > 0.0
    ensures x * y > 0.0
  {}

  lemma {:induction false} CloseArithmetic(moved: real, off: real, before: real)
    requires off <= DAMPING * before && before <= moved + off
    ensures (1.0 - DAMPING) * off <= DAMPING * moved
  {
    ProductNonNegative(DAMPING, moved + off - before);
    assert DAMPING * (moved + off - before) == DAMPING * moved + DAMPING * off - DAMPING * before;
    assert (1.0 - DAMPING) * off == off - DAMPING * off;
  }

  /** A step that changed little has landed close to the stationary vector. */
  lemma {:induction false} SmallChangeIsClose(g: Graph, rank: Vector, x: Vector)
    requires g.Valid() && |rank| == g.n && Stationary(g, x)
    ensures (1.0 - DAMPING) * Dist(Step(g, rank), x) <= DAMPING * Dist(Step(g, rank), rank)
  {
    var next := Step(g, rank);
    StepContracts(g, rank, x);
    Triangle(rank, next, x);
    DistSymmetric(rank, next);
    CloseArithmetic(Dist(next, rank), Dist(next, x), Dist(rank, x));
  }

  /** The iterate the loop returns: the first one whose change is below the tolerance, else the last. */
  ghost predicate Returned(g: Graph, rank: Vector)
    requires g.Valid() && g.n > 0
  {
    || (exists k: nat :: k < MAX_ITER && Change(g, k) < TOL && rank == Iterate(g, k + 1)
          && forall j: nat :: j < k ==> Change(g, j) >= TOL)
    || (rank == Iterate(g, MAX_ITER) && forall j: nat :: j < MAX_ITER ==> Change(g, j) >= TOL)
  }

  method Pagerank(g: Graph) returns (rank: Vector)
    requires g.Valid()
    ensures |rank| == g.n
    ensures g.n > 0 ==> Returned(g, rank)
  {
    if g.n == 0 { return []; }
    rank := Uniform(g.n);
    var k := 0;
    while k < MAX_ITER
      invariant 0 <= k <= MAX_ITER && rank == Iterate(g, k)
      invariant forall j: nat :: j < k ==> Change(g, j) >= TOL
    {
      var next := Step(g, rank);
      if Dist(next, rank) < TOL {
        assert Change(g, k) < TOL && next == Iterate(g, k + 1);
        return next;
      }
      rank := next;
      k := k + 1;
    }
  }

  /**
   * On every non-empty graph: the result is a probability vector, the loop left by
   * the tolerance exit, and the stationary vector is within 0.85 / 0.15 tolerances of what was returned.
   */
  lemma {:induction false} PagerankConverges(g: Graph, rank: Vector)
    requires g.Valid() && g.n > 0 && Returned(g, rank)
    ensures NonNegative(rank) && Sum(rank) == 1.0
    ensures exists k: nat :: k <= ROUNDS && Change(g, k) < TOL && rank == Iterate(g, k + 1)
    ensures forall x :: Stationary(g, x) ==> 0.15 * Dist(rank, x) <= 0.85 * TOL
  {
    ToleranceIsReached(g);
    assert !(forall j: nat :: j < MAX_ITER ==> Change(g, j) >= TOL);
    var k: nat :| k < MAX_ITER && Change(g, k) < TOL && rank == Iterate(g, k + 1)
               && forall j: nat :: j < k ==> Change(g, j) >= TOL;
    assert k <= ROUNDS;
    IteratesAreProbabilities(g, k + 1);
    forall x | Stationary(g, x) ensures 0.15 * Dist(rank, x) <= 0.85 * TOL {
      SmallChangeIsClose(g, Iterate(g, k), x);
    }
  }

  // ----- storing the scores ----------------------------------------------------------------------------------------

  predicate IsStub(id: string) { "stub:" <= id }

  ghost function Endpoints(edges: seq<(string, string)>): set<string> {
    if edges == [] then {}
    else Endpoints(edges[..|edges| - 1]) + {edges[|edges| - 1].0} + {edges[|edges| - 1].1}
  }

  /** Node numbers are dense: each number below the count belongs to exactly one id. */
  ghost predicate Dense(nodes: map<string, nat>) {
    && (forall a :: a in nodes ==> nodes[a] < |nodes|)
    && (forall a, b :: a in nodes && b in nodes && nodes[a] == nodes[b] ==> a == b)
  }

  method NumberOf(nodes: map<string, nat>, id: string) returns (nodes': map<string, nat>, i: nat)
    requires Dense(nodes)
    ensures Dense(nodes') && nodes'.Keys == nodes.Keys + {id} && nodes'[id] == i
    ensures forall a :: a in nodes ==> nodes'[a] == nodes[a]
  {
    if id in nodes {
      nodes', i := nodes, nodes[id];
      assert nodes.Keys == nodes.Keys + {id};
    } else {
      i := |nodes|;
      nodes' := nodes[id := i];
      assert nodes'.Keys == nodes.Keys + {id};
      assert |nodes'| == |nodes'.Keys| && |nodes| == |nodes.Keys|;
    }
  }

  ghost predicate Links(edges: seq<(string, string)>, nodes: map<string, nat>, links: seq<(nat, nat)>) {
    && |links| == |edges|
    && forall i :: 0 <= i < |edges| ==>
         edges[i].0 in nodes && edges[i].1 in nodes && links[i] == (nodes[edges[i].0], nodes[edges[i].1])
  }

  method AddEdge(nodes: map<string, nat>, links: seq<(nat, nat)>, ghost edges: seq<(string, string)>,
      e: (string, string))
    returns (nodes': map<string, nat>, links': seq<(nat, nat)>)
    requires Dense(nodes) && Links(edges, nodes, links)
    ensures Dense(nodes') && Links(edges + [e], nodes', links')
    ensures nodes'.Keys == nodes.Keys + {e.0} + {e.1}
  {
    var s, t;
    nodes', s := NumberOf(nodes, e.0);
    nodes', t := NumberOf(nodes', e.1);
    links' := links + [(s, t)];
  }

  method IndexNodes(edges: seq<(string, string)>) returns (nodes: map<string, nat>, links: seq<(nat, nat)>)
    ensures Dense(nodes) && nodes.Keys == Endpoints(edges)
    ensures Links(edges, nodes, links) && Graph(|nodes|, links).Valid()
  {
    nodes, links := map[], [];
    var k := 0;
    while k < |edges|
      invariant 0 <= k <= |edges| && Dense(nodes)
      invariant nodes.Keys == Endpoints(edges[..k])
      invariant Links(edges[..k], nodes, links)
    {
      OneMore(edges, k);
      nodes, links := AddEdge(nodes, links, edges[..k], edges[k]);
      k := k + 1;
    }
    assert edges[..k] == edges;
    LinksAreValid(edges, nodes, links);
  }

  lemma {:induction false} OneMore(edges: seq<(string, string)>, k: nat)
    requires k < |edges|
    ensures edges[..k + 1] == edges[..k] + [edges[k]]
    ensures Endpoints(edges[..k + 1]) == Endpoints(edges[..k]) + {edges[k].0} + {edges[k].1}
  {
    assert edges[..k + 1][..k] == edges[..k];
  }

  lemma {:induction false} LinksAreValid(edges: seq<(string, string)>, nodes: map<string, nat>, links: seq<(nat, nat)>)
    requires Dense(nodes) && Links(edges, nodes, links)
    ensures Graph(|nodes|, links).Valid()
  {
    forall i | 0 <= i < |links| ensures links[i].0 < |nodes| && links[i].1 < |nodes| {
      assert edges[i].0 in nodes && edges[i].1 in nodes;
    }
  }

  datatype Score = Null | Score(value: real)

  /** The `pagerank` column of the papers table. */
  class Papers {
    var pagerank: map<string, Score>

    constructor (rows: map<string, Score>)
      ensures pagerank == rows
    {
      pagerank := rows;
    }

    /**
     * Afterwards exactly the papers that some edge cites carry a score, and it is the score of their own node;
     * stubs and papers only citing others carry none.
     */
    method Recompute(edges: seq<(string, string)>)
      returns (ghost nodes: map<string, nat>, ghost links: seq<(nat, nat)>, ghost rank: Vector)
      modifies this
      ensures Dense(nodes) && nodes.Keys == Endpoints(edges) && Links(edges, nodes, links)
      ensures Graph(|nodes|, links).Valid() && |rank| == |nodes|
      ensures |nodes| > 0 ==> Returned(Graph(|nodes|, links), rank)
      ensures pagerank.Keys == old(pagerank.Keys)
      ensures forall p :: p in pagerank ==>
                pagerank[p] == if !IsStub(p) && Cited(edges, p) && p in nodes then Score(rank[nodes[p]]) else Null
      ensures forall p :: Cited(edges, p) ==> p in nodes
    {
      var index, pairs := IndexNodes(edges);
      var scores := Pagerank(Graph(|index|, pairs));
      nodes, links, rank := index, pairs, scores;
      var cited := Targets(pairs);
      forall p | p in index ensures index[p] in cited <==> Cited(edges, p) { CitedByNumber(edges, index, pairs, p); }
      pagerank := map p | p in pagerank ::
        if p in index && index[p] in cited && !IsStub(p) then Score(scores[index[p]]) else Null;
    }
  }

  ghost predicate Cited(edges: seq<(string, string)>, p: string) { exists i :: 0 <= i < |edges| && edges[i].1 == p }

  function Targets(links: seq<(nat, nat)>): set<nat> { set i | 0 <= i < |links| :: links[i].1 }

  lemma {:induction false} CitedByNumber(edges: seq<(string, string)>, nodes: map<string, nat>,
      links: seq<(nat, nat)>, p: string)
    requires Dense(nodes) && Links(edges, nodes, links) && p in nodes
    ensures nodes[p] in Targets(links) <==> Cited(edges, p)
  {
    if nodes[p] in Targets(links) {
      var i :| 0 <= i < |links| && links[i].1 == nodes[p];
      assert edges[i].1 == p;
    }
    if Cited(edges, p) {
      var i :| 0 <= i < |edges| && edges[i].1 == p;
      assert links[i].1 == nodes[p];
    }
  }
}
