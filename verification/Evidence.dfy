/**
 * Evidence selection for an answer: a three-phase greedy under a per-paper cap and an overall cap.
 *
 * Every phase is the same greedy pass over the passages in rank order.  What makes the greedy worth having is
 * that a per-paper cap and an overall cap form a (truncated) partition matroid, so no other admissible choice can
 * beat it at any rank: PassIsOptimal proves that for an arbitrary pass, and the three phases instantiate it.
 */
module Evidence {
  import opened Common

  datatype Passage = Passage(arxivId: string, chunkId: int, score: real)

  datatype Config = Config(
    maxPerPaper: int, forAnswer: int, minScore: real, detailMinScore: real, detailMax: int, minKept: int)

  datatype Counts = Counts(relevant: int, detail: int, filled: int, dropped: int)

  // ----- ranking: a stable sort by decreasing score ----------------------------------------------------------------

  function Insert(p: Passage, s: seq<Passage>): seq<Passage> {
    if s == [] || s[0].score <= p.score then [p] + s else [s[0]] + Insert(p, s[1..])
  }

  function Ranked(s: seq<Passage>): seq<Passage> {
    if s == [] then [] else Insert(s[0], Ranked(s[1..]))
  }

  predicate Descending(s: seq<Passage>) {
    forall i, j :: 0 <= i < j < |s| ==> s[i].score >= s[j].score
  }

  function WithScore(s: seq<Passage>, x: real): seq<Passage> {
    if s == [] then [] else (if s[0].score == x then [s[0]] else []) + WithScore(s[1..], x)
  }

  lemma {:induction false} InsertAdds(p: Passage, s: seq<Passage>)
    ensures multiset(Insert(p, s)) == multiset(s) + multiset{p}
  {
    if s != [] && s[0].score > p.score {
      InsertAdds(p, s[1..]);
      assert s == [s[0]] + s[1..];
    }
  }

  lemma {:induction false} InsertKeepsOrder(p: Passage, s: seq<Passage>)
    requires Descending(s)
    ensures Descending(Insert(p, s))
  {
    if s != [] && s[0].score > p.score {
      InsertKeepsOrder(p, s[1..]);
      var rest := Insert(p, s[1..]);
      assert rest[0] == p || (s[1..] != [] && rest[0] == s[1]);
    }
  }

  lemma {:induction false} WithScoreCons(p: Passage, s: seq<Passage>, x: real)
    ensures WithScore([p] + s, x) == (if p.score == x then [p] else []) + WithScore(s, x)
  {
    assert ([p] + s)[1..] == s;
  }

  lemma {:induction false} InsertIsStable(p: Passage, s: seq<Passage>, x: real)
    ensures WithScore(Insert(p, s), x) == (if p.score == x then [p] else []) + WithScore(s, x)
  {
    if s != [] && s[0].score > p.score {
      InsertIsStable(p, s[1..], x);
      WithScoreCons(s[0], Insert(p, s[1..]), x);
    } else {
      WithScoreCons(p, s, x);
    }
  }

  /** Ranking reorders the passages by decreasing score... */
  lemma {:induction false} RankedSorts(s: seq<Passage>)
    ensures Descending(Ranked(s))
    ensures multiset(Ranked(s)) == multiset(s) && |Ranked(s)| == |s|
  {
    if s != [] {
      RankedSorts(s[1..]);
      InsertAdds(s[0], Ranked(s[1..]));
      InsertKeepsOrder(s[0], Ranked(s[1..]));
      assert s == [s[0]] + s[1..];
      assert |multiset(Ranked(s))| == |multiset(s)|;
    }
  }

  /** ...and keeps the given order among equal scores. */
  lemma {:induction false} RankedIsStable(s: seq<Passage>, x: real)
    ensures WithScore(Ranked(s), x) == WithScore(s, x)
  {
    if s != [] {
      RankedIsStable(s[1..], x);
      InsertIsStable(s[0], Ranked(s[1..]), x);
    }
  }

  // ----- one greedy pass -------------------------------------------------------------------------------------------

  function Of(ranked: seq<Passage>, chosen: set<nat>, paper: string): set<nat> {
    set i | i in chosen && i < |ranked| && ranked[i].arxivId == paper
  }

  /** How many of the first n passages are chosen and of this paper. */
  function Load(ranked: seq<Passage>, chosen: set<nat>, paper: string, n: nat): nat
    requires n <= |ranked|
  {
    if n == 0 then 0
    else Load(ranked, chosen, paper, n - 1) + if n - 1 in chosen && ranked[n - 1].arxivId == paper then 1 else 0
  }

  predicate Room(ranked: seq<Passage>, chosen: set<nat>, cap: int, i: nat)
    requires i < |ranked|
  {
    i !in chosen && Load(ranked, chosen, ranked[i].arxivId, |ranked|) < cap
  }

  lemma {:induction false} LoadCounts(ranked: seq<Passage>, chosen: set<nat>, paper: string, n: nat)
    requires n <= |ranked|
    ensures Load(ranked, chosen, paper, n) == |set i | i in Of(ranked, chosen, paper) && i < n|
  {
    var these := set i | i in Of(ranked, chosen, paper) && i < n;
    if n == 0 {
      assert these == {};
    } else {
      LoadCounts(ranked, chosen, paper, n - 1);
      assert these == (set i | i in Of(ranked, chosen, paper) && i < n - 1)
                    + if n - 1 in chosen && ranked[n - 1].arxivId == paper then {n - 1} else {};
    }
  }

  lemma {:induction false} RoomMeans(ranked: seq<Passage>, chosen: set<nat>, cap: int, i: nat)
    requires i < |ranked|
    ensures Room(ranked, chosen, cap, i) == (i !in chosen && |Of(ranked, chosen, ranked[i].arxivId)| < cap)
  {
    LoadCounts(ranked, chosen, ranked[i].arxivId, |ranked|);
    var of := Of(ranked, chosen, ranked[i].arxivId);
    assert (set k | k in of && k < |ranked|) == of;
  }

  /** The effect of looking at passage i: take it if it is eligible, there is room, and the limit is not reached. */
  function Visit(ranked: seq<Passage>, eligible: set<nat>, chosen: set<nat>, limit: int, cap: int, i: nat): set<nat>
    requires i < |ranked|
  {
    if |chosen| < limit && i in eligible && Room(ranked, chosen, cap, i) then chosen + {i} else chosen
  }

  /** A greedy pass over the passages from index i on, until `limit` passages are chosen in all. */
  function Pass(ranked: seq<Passage>, eligible: set<nat>, chosen: set<nat>, limit: int, cap: int, i: nat): set<nat>
    requires i <= |ranked|
    decreases |ranked| - i
  {
    if i == |ranked| then chosen
    else Pass(ranked, eligible, Visit(ranked, eligible, chosen, limit, cap, i), limit, cap, i + 1)
  }

  function Below(s: set<nat>, n: nat): set<nat> { set i | i in s && i < n }

  lemma {:induction false} OfGrows(ranked: seq<Passage>, a: set<nat>, b: set<nat>, paper: string)
    requires a <= b
    ensures |Of(ranked, a, paper)| <= |Of(ranked, b, paper)|
  {
    SubsetSize(Of(ranked, a, paper), Of(ranked, b, paper));
  }

  lemma {:induction false} OfTaking(ranked: seq<Passage>, chosen: set<nat>, i: nat, paper: string)
    requires i < |ranked| && i !in chosen
    ensures |Of(ranked, chosen + {i}, paper)|
         == |Of(ranked, chosen, paper)| + if paper == ranked[i].arxivId then 1 else 0
  {
    if paper == ranked[i].arxivId {
      assert Of(ranked, chosen + {i}, paper) == Of(ranked, chosen, paper) + {i};
    } else {
      assert Of(ranked, chosen + {i}, paper) == Of(ranked, chosen, paper);
    }
  }

  lemma {:induction false} SubsetSize(a: set<nat>, b: set<nat>)
    requires a <= b
    ensures |a| <= |b|
  {
    assert b == a + (b - a);
  }

  lemma {:induction false} OfSplits(ranked: seq<Passage>, base: set<nat>, chosen: set<nat>, paper: string)
    requires base <= chosen
    ensures |Of(ranked, chosen, paper)| == |Of(ranked, base, paper)| + |Of(ranked, chosen - base, paper)|
  {
    assert Of(ranked, chosen, paper) == Of(ranked, base, paper) + Of(ranked, chosen - base, paper);
  }

  lemma {:induction false} PassGrows(
      ranked: seq<Passage>, eligible: set<nat>, chosen: set<nat>, limit: int, cap: int, i: nat)
    requires i <= |ranked|
    ensures chosen <= Pass(ranked, eligible, chosen, limit, cap, i)
    ensures |Pass(ranked, eligible, chosen, limit, cap, i)| <= Max(|chosen|, limit)
    decreases |ranked| - i
  {
    if i < |ranked| {
      PassGrows(ranked, eligible, Visit(ranked, eligible, chosen, limit, cap, i), limit, cap, i + 1);
    }
  }

  lemma {:induction false} PassStops(
      ranked: seq<Passage>, eligible: set<nat>, chosen: set<nat>, limit: int, cap: int, i: nat)
    requires i <= |ranked|
    requires |chosen| >= limit || forall k :: i <= k < |ranked| ==> k !in eligible
    ensures Pass(ranked, eligible, chosen, limit, cap, i) == chosen
    decreases |ranked| - i
  {
    if i < |ranked| { PassStops(ranked, eligible, chosen, limit, cap, i + 1); }
  }

  /** Whatever a pass adds is eligible, comes from index i on, and is of a paper that had room before. */
  lemma {:induction false} PassAdds(
      ranked: seq<Passage>, eligible: set<nat>, chosen: set<nat>, limit: int, cap: int, i: nat, k: nat)
    requires i <= |ranked|
    requires k in Pass(ranked, eligible, chosen, limit, cap, i) && k !in chosen
    ensures i <= k < |ranked| && k in eligible && |Of(ranked, chosen, ranked[k].arxivId)| < cap
    decreases |ranked| - i
  {
    RoomMeans(ranked, chosen, cap, i);
    var next := Visit(ranked, eligible, chosen, limit, cap, i);
    if k !in next {
      PassAdds(ranked, eligible, next, limit, cap, i + 1, k);
      OfGrows(ranked, chosen, next, ranked[k].arxivId);
    }
  }

  /** A pass never takes a paper past its cap. */
  lemma {:induction false} PassCaps(
      ranked: seq<Passage>, eligible: set<nat>, chosen: set<nat>, limit: int, cap: int, i: nat, paper: string)
    requires i <= |ranked|
    ensures |Of(ranked, Pass(ranked, eligible, chosen, limit, cap, i), paper)| <= Max(cap, |Of(ranked, chosen, paper)|)
    decreases |ranked| - i
  {
    if i < |ranked| {
      var next := Visit(ranked, eligible, chosen, limit, cap, i);
      PassCaps(ranked, eligible, next, limit, cap, i + 1, paper);
      if next != chosen {
        RoomMeans(ranked, chosen, cap, i);
        OfTaking(ranked, chosen, i, paper);
      }
    }
  }

  /** With g chosen below n, either the limit is reached or every eligible passage left out is of a full paper. */
  ghost predicate Greedy(ranked: seq<Passage>, eligible: set<nat>, g: set<nat>, limit: int, cap: int, n: nat)
    requires n <= |ranked|
  {
    || |g| >= limit
    || forall e :: e in eligible && e < n && e !in g ==> |Of(ranked, g, ranked[e].arxivId)| >= cap
  }

  /** The pass is greedy at every prefix of the ranking, not only at its end. */
  lemma {:induction false} PassIsGreedy(
      ranked: seq<Passage>, eligible: set<nat>, base: set<nat>, chosen: set<nat>, limit: int, cap: int, i: nat, n: nat)
    requires i <= n <= |ranked| && base <= chosen
    requires forall k :: k in chosen ==> k in base || k < i
    requires Greedy(ranked, eligible, chosen, limit, cap, i)
    ensures var g := base + Below(Pass(ranked, eligible, chosen, limit, cap, i), n);
            Greedy(ranked, eligible, g, limit, cap, n)
    decreases |ranked| - i
  {
    if i == n {
      var r := Pass(ranked, eligible, chosen, limit, cap, i);
      PassGrows(ranked, eligible, chosen, limit, cap, i);
      forall k | k in Below(r, n) ensures k in chosen {
        if k !in chosen { PassAdds(ranked, eligible, chosen, limit, cap, i, k); }
      }
      assert base + Below(r, n) == chosen;
    } else {
      var next := Visit(ranked, eligible, chosen, limit, cap, i);
      VisitIsGreedy(ranked, eligible, chosen, limit, cap, i);
      PassIsGreedy(ranked, eligible, base, next, limit, cap, i + 1, n);
    }
  }

  lemma {:induction false} VisitIsGreedy(ranked: seq<Passage>, eligible: set<nat>, chosen: set<nat>, limit: int,
      cap: int, i: nat)
    requires i < |ranked| && Greedy(ranked, eligible, chosen, limit, cap, i)
    ensures Greedy(ranked, eligible, Visit(ranked, eligible, chosen, limit, cap, i), limit, cap, i + 1)
  {
    RoomMeans(ranked, chosen, cap, i);
    var next := Visit(ranked, eligible, chosen, limit, cap, i);
    if |chosen| < limit {
      forall e | e in eligible && e < i + 1 && e !in next ensures |Of(ranked, next, ranked[e].arxivId)| >= cap {
        OfGrows(ranked, chosen, next, ranked[e].arxivId);
      }
    }
  }

  // ----- optimality: no admissible rival beats the pass at any rank ------------------------------------------------

  /** A rival extends `base` with eligible passages, within the overall limit and the per-paper cap. */
  ghost predicate Admissible(
      ranked: seq<Passage>, eligible: set<nat>, base: set<nat>, rival: set<nat>, limit: int, cap: int)
  {
    && rival <= eligible && rival !! base && |base| + |rival| <= limit
    && (forall k :: k in rival ==> k < |ranked|)
    && (forall k :: k in rival ==> |Of(ranked, base + rival, ranked[k].arxivId)| <= cap)
  }

  lemma {:induction false} NoFewerPerPaper(ranked: seq<Passage>, a: set<nat>, b: set<nat>)
    requires forall k :: k in a ==>
        k < |ranked| && |Of(ranked, a, ranked[k].arxivId)| <= |Of(ranked, b, ranked[k].arxivId)|
    ensures |a| <= |b|
    decreases |a|
  {
    if a != {} {
      var k :| k in a;
      var paper := ranked[k].arxivId;
      var oa, ob := Of(ranked, a, paper), Of(ranked, b, paper);
      assert k in oa;
      assert a == oa + (a - oa) && b == ob + (b - ob);
      forall j | j in a - oa
        ensures |Of(ranked, a - oa, ranked[j].arxivId)| <= |Of(ranked, b - ob, ranked[j].arxivId)|
      {
        assert Of(ranked, a - oa, ranked[j].arxivId) == Of(ranked, a, ranked[j].arxivId);
        assert Of(ranked, b - ob, ranked[j].arxivId) == Of(ranked, b, ranked[j].arxivId);
      }
      NoFewerPerPaper(ranked, a - oa, b - ob);
    }
  }

  lemma {:induction false} PrefixDominates(
      ranked: seq<Passage>, eligible: set<nat>, base: set<nat>, mine: set<nat>, rival: set<nat>,
      limit: int, cap: int, n: nat)
    requires n <= |ranked| && mine !! base && Greedy(ranked, eligible, base + mine, limit, cap, n)
    requires Admissible(ranked, eligible, base, rival, limit, cap)
    ensures |Below(rival, n)| <= |mine|
  {
    var g, theirs := base + mine, Below(rival, n);
    SubsetSize(theirs, rival);
    if |g| < limit {
      forall k | k in theirs
        ensures k < |ranked| && |Of(ranked, theirs, ranked[k].arxivId)| <= |Of(ranked, mine, ranked[k].arxivId)|
      {
        var paper := ranked[k].arxivId;
        if exists e :: e in Of(ranked, theirs, paper) && e !in g {
          OfSplits(ranked, base, g, paper);
          OfSplits(ranked, base, base + rival, paper);
          assert g - base == mine && (base + rival) - base == rival;
          OfGrows(ranked, theirs, rival, paper);
        } else {
          SubsetSize(Of(ranked, theirs, paper), Of(ranked, mine, paper));
        }
      }
      NoFewerPerPaper(ranked, theirs, mine);
    }
  }

  /** The members of s below n, in increasing order. */
  function Ascending(s: set<nat>, n: nat): seq<nat> {
    if n == 0 then [] else Ascending(s, n - 1) + if n - 1 in s then [n - 1] else []
  }

  lemma {:induction false} AscendingMembers(s: set<nat>, n: nat, k: nat)
    ensures k in Ascending(s, n) <==> k in s && k < n
  {
    if n > 0 { AscendingMembers(s, n - 1, k); }
  }

  lemma {:induction false} AscendingSize(s: set<nat>, n: nat)
    ensures |Ascending(s, n)| == |Below(s, n)|
  {
    if n == 0 {
      assert Below(s, 0) == {};
    } else {
      AscendingSize(s, n - 1);
      assert Below(s, n) == Below(s, n - 1) + if n - 1 in s then {n - 1} else {};
    }
  }

  lemma {:induction false} AscendingOrder(s: set<nat>, n: nat)
    ensures forall j :: 0 <= j < |Ascending(s, n)| ==> Ascending(s, n)[j] < n
    ensures forall j, k :: 0 <= j < k < |Ascending(s, n)| ==> Ascending(s, n)[j] < Ascending(s, n)[k]
  {
    if n > 0 { AscendingOrder(s, n - 1); }
  }

  lemma {:induction false} AscendingLists(s: set<nat>, n: nat)
    ensures |Ascending(s, n)| == |Below(s, n)|
    ensures forall j :: 0 <= j < |Ascending(s, n)| ==> Ascending(s, n)[j] < n
    ensures forall j, k :: 0 <= j < k < |Ascending(s, n)| ==> Ascending(s, n)[j] < Ascending(s, n)[k]
    ensures forall k: nat :: k in Ascending(s, n) <==> k in Below(s, n)
  {
    AscendingSize(s, n);
    AscendingOrder(s, n);
    forall k: nat ensures k in Ascending(s, n) <==> k in Below(s, n) { AscendingMembers(s, n, k); }
  }

  lemma {:induction false} AscendingPrefix(s: set<nat>, m: nat, n: nat)
    requires m <= n
    ensures Ascending(s, m) <= Ascending(s, n)
    decreases n
  {
    if m < n { AscendingPrefix(s, m, n - 1); }
  }

  lemma {:induction false} AscendingReaches(s: set<nat>, m: nat, n: nat, j: nat)
    requires m <= n && j < |Ascending(s, n)| && Ascending(s, n)[j] < m
    ensures j < |Ascending(s, m)|
  {
    AscendingPrefix(s, m, n);
    AscendingLists(s, n);
    AscendingLists(s, m);
    var x := Ascending(s, n)[j];
    assert x in Below(s, n);
    assert x in Below(s, m);
    var k :| 0 <= k < |Ascending(s, m)| && Ascending(s, m)[k] == x;
    assert Ascending(s, n)[k] == x;
  }

  /** a is at least as long as b, and each of its entries comes no later in the ranking. */
  ghost predicate Dominates(a: seq<nat>, b: seq<nat>) {
    |b| <= |a| && forall j :: 0 <= j < |b| ==> a[j] <= b[j]
  }

  lemma {:induction false} CountsGiveDominance(mine: set<nat>, theirs: set<nat>, n: nat)
    requires forall m: nat :: m <= n ==> |Below(theirs, m)| <= |Below(mine, m)|
    ensures Dominates(Ascending(mine, n), Ascending(theirs, n))
  {
    var a, b := Ascending(mine, n), Ascending(theirs, n);
    AscendingLists(mine, n);
    AscendingLists(theirs, n);
    forall j | 0 <= j < |b| ensures a[j] <= b[j] {
      var m := b[j] + 1;
      AscendingPrefix(theirs, m, n);
      AscendingPrefix(mine, m, n);
      AscendingLists(theirs, m);
      AscendingLists(mine, m);
      AscendingReaches(theirs, m, n, j);
      assert a[j] == Ascending(mine, m)[j];
    }
  }

  /**
   * The exchange argument: whatever an admissible rival picks, the pass picks at least as many passages, and its
   * j-th pick is ranked at least as high as the rival's j-th pick.
   */
  lemma {:induction false} PassIsOptimal(
      ranked: seq<Passage>, eligible: set<nat>, base: set<nat>, rival: set<nat>, limit: int, cap: int)
    requires Admissible(ranked, eligible, base, rival, limit, cap)
    ensures var r := Pass(ranked, eligible, base, limit, cap, 0);
            Dominates(Ascending(r - base, |ranked|), Ascending(rival, |ranked|))
  {
    var r := Pass(ranked, eligible, base, limit, cap, 0);
    forall n: nat | n <= |ranked| ensures |Below(rival, n)| <= |Below(r - base, n)| {
      PassIsGreedy(ranked, eligible, base, base, limit, cap, 0, n);
      assert base + Below(r, n) == base + Below(r - base, n);
      PrefixDominates(ranked, eligible, base, Below(r - base, n), rival, limit, cap, n);
    }
    CountsGiveDominance(r - base, rival, |ranked|);
  }

  // ----- the three phases ------------------------------------------------------------------------------------------

  function Relevant(ranked: seq<Passage>, c: Config): set<nat> {
    set i | 0 <= i < |ranked| && ranked[i].score >= c.minScore
  }

  function Papers(ranked: seq<Passage>, chosen: set<nat>): set<string> {
    set i | i in chosen && i < |ranked| :: ranked[i].arxivId
  }

  function Detailed(ranked: seq<Passage>, c: Config, papers: set<string>): set<nat> {
    set i | 0 <= i < |ranked| && ranked[i].arxivId in papers && ranked[i].score >= c.detailMinScore
  }

  function Upto(n: nat): (s: set<nat>)
    ensures |s| == n && forall k: nat :: k in s <==> k < n
  {
    if n == 0 then {} else Upto(n - 1) + {n - 1}
  }

  function All(ranked: seq<Passage>): set<nat> { Upto(|ranked|) }

  function Phase1(ranked: seq<Passage>, c: Config): set<nat> {
    Pass(ranked, Relevant(ranked, c), {}, c.forAnswer, c.maxPerPaper, 0)
  }

  function DetailLimit(c: Config, relevant: nat): int { Min(relevant + c.detailMax, c.forAnswer) }

  function Phase2(ranked: seq<Passage>, c: Config): set<nat> {
    var first := Phase1(ranked, c);
    Pass(ranked, Detailed(ranked, c, Papers(ranked, first)), first, DetailLimit(c, |first|), c.maxPerPaper, 0)
  }

  function FillLimit(c: Config): int { Min(c.minKept, c.forAnswer) }

  function Phase3(ranked: seq<Passage>, c: Config): set<nat> {
    Pass(ranked, All(ranked), Phase2(ranked, c), FillLimit(c), c.maxPerPaper, 0)
  }

  /** The chosen passages in rank order. */
  function Best(ranked: seq<Passage>, chosen: set<nat>, n: nat): seq<Passage>
    requires n <= |ranked|
  {
    if n == 0 then [] else Best(ranked, chosen, n - 1) + if n - 1 in chosen then [ranked[n - 1]] else []
  }

  lemma {:induction false} PhasesGrow(ranked: seq<Passage>, c: Config)
    ensures Phase1(ranked, c) <= Phase2(ranked, c) <= Phase3(ranked, c) <= All(ranked)
    ensures |Phase1(ranked, c)| <= |Phase2(ranked, c)| <= |Phase3(ranked, c)| <= |ranked|
    ensures |Phase3(ranked, c)| <= Max(0, c.forAnswer)
    ensures forall paper :: |Of(ranked, Phase3(ranked, c), paper)| <= Max(0, c.maxPerPaper)
  {
    var first, second, third := Phase1(ranked, c), Phase2(ranked, c), Phase3(ranked, c);
    PassGrows(ranked, Relevant(ranked, c), {}, c.forAnswer, c.maxPerPaper, 0);
    var detailed := Detailed(ranked, c, Papers(ranked, first));
    PassGrows(ranked, detailed, first, DetailLimit(c, |first|), c.maxPerPaper, 0);
    PassGrows(ranked, All(ranked), second, FillLimit(c), c.maxPerPaper, 0);
    forall paper ensures |Of(ranked, third, paper)| <= Max(0, c.maxPerPaper) {
      assert Of(ranked, {}, paper) == {};
      PassCaps(ranked, Relevant(ranked, c), {}, c.forAnswer, c.maxPerPaper, 0, paper);
      PassCaps(ranked, detailed, first, DetailLimit(c, |first|), c.maxPerPaper, 0, paper);
      PassCaps(ranked, All(ranked), second, FillLimit(c), c.maxPerPaper, 0, paper);
    }
    forall k | k in third ensures k in All(ranked) {
      if k !in second { PassAdds(ranked, All(ranked), second, FillLimit(c), c.maxPerPaper, 0, k); }
      else if k !in first { PassAdds(ranked, detailed, first, DetailLimit(c, |first|), c.maxPerPaper, 0, k); }
      else { PassAdds(ranked, Relevant(ranked, c), {}, c.forAnswer, c.maxPerPaper, 0, k); }
    }
    SubsetSize(first, second);
    SubsetSize(second, third);
    SubsetSize(third, All(ranked));
  }

  /**
   * The answer's passages, stated by what they are rather than by how they are found: the first phase is optimal
   * among all relevant selections under both caps; the second adds only passages below the relevance threshold, of
   * papers with a relevant one, and is optimal given the first; the third is optimal given both, and when the
   * minimum is still missed every passage left out belongs to a paper at its cap.
   */
  lemma {:induction false} RelevantPhaseOptimal(passages: seq<Passage>, c: Config, rival: set<nat>)
    requires Admissible(Ranked(passages), Relevant(Ranked(passages), c), {}, rival, c.forAnswer, c.maxPerPaper)
    ensures var ranked := Ranked(passages);
            var mine, theirs := Ascending(Phase1(ranked, c), |ranked|), Ascending(rival, |ranked|);
            && |rival| == |theirs| <= |mine| == |Phase1(ranked, c)|
            && forall j :: 0 <= j < |theirs| ==>
                 mine[j] <= theirs[j] < |ranked| && ranked[mine[j]].score >= ranked[theirs[j]].score
  {
    var ranked := Ranked(passages);
    RankedSorts(passages);
    RelevantDominates(ranked, c, rival);
    ListsAll(ranked, rival);
    PhasesGrow(ranked, c);
    ListsAll(ranked, Phase1(ranked, c));
    forall j | 0 <= j < |Ascending(rival, |ranked|)|
      ensures ranked[Ascending(Phase1(ranked, c), |ranked|)[j]].score >= ranked[Ascending(rival, |ranked|)[j]].score
    {
      NoWorse(ranked, Phase1(ranked, c), rival, j);
    }
  }

  lemma {:induction false} RelevantDominates(ranked: seq<Passage>, c: Config, rival: set<nat>)
    requires Admissible(ranked, Relevant(ranked, c), {}, rival, c.forAnswer, c.maxPerPaper)
    ensures Dominates(Ascending(Phase1(ranked, c), |ranked|), Ascending(rival, |ranked|))
  {
    PassIsOptimal(ranked, Relevant(ranked, c), {}, rival, c.forAnswer, c.maxPerPaper);
    assert Phase1(ranked, c) - {} == Phase1(ranked, c);
  }

  lemma {:induction false} ListsAll(ranked: seq<Passage>, s: set<nat>)
    requires forall k :: k in s ==> k < |ranked|
    ensures |Ascending(s, |ranked|)| == |s|
    ensures forall j :: 0 <= j < |Ascending(s, |ranked|)| ==> Ascending(s, |ranked|)[j] < |ranked|
  {
    AscendingLists(s, |ranked|);
    assert Below(s, |ranked|) == s;
  }

  lemma {:induction false} NoWorse(ranked: seq<Passage>, mine: set<nat>, theirs: set<nat>, j: nat)
    requires Descending(ranked)
    requires var a, b := Ascending(mine, |ranked|), Ascending(theirs, |ranked|);
             j < |a| && j < |b| && a[j] <= b[j] < |ranked|
    ensures ranked[Ascending(mine, |ranked|)[j]].score >= ranked[Ascending(theirs, |ranked|)[j]].score
  {
  }

  lemma {:induction false} DetailPhaseOptimal(ranked: seq<Passage>, c: Config, rival: set<nat>)
    requires var first := Phase1(ranked, c);
             Admissible(ranked, Detailed(ranked, c, Papers(ranked, first)), first, rival,
                        DetailLimit(c, |first|), c.maxPerPaper)
    ensures Dominates(Ascending(Phase2(ranked, c) - Phase1(ranked, c), |ranked|), Ascending(rival, |ranked|))
  {
    var first := Phase1(ranked, c);
    PassIsOptimal(ranked, Detailed(ranked, c, Papers(ranked, first)), first, rival,
                  DetailLimit(c, |first|), c.maxPerPaper);
  }

  lemma {:induction false} FillPhaseOptimal(ranked: seq<Passage>, c: Config, rival: set<nat>)
    requires Admissible(ranked, All(ranked), Phase2(ranked, c), rival, FillLimit(c), c.maxPerPaper)
    ensures Dominates(Ascending(Phase3(ranked, c) - Phase2(ranked, c), |ranked|), Ascending(rival, |ranked|))
  {
    PassIsOptimal(ranked, All(ranked), Phase2(ranked, c), rival, FillLimit(c), c.maxPerPaper);
  }

  /** Everything the second phase adds is below the relevance threshold, and of a paper with a relevant passage. */
  lemma {:induction false} DetailIsWeaker(ranked: seq<Passage>, c: Config, k: nat)
    requires k in Phase2(ranked, c) && k !in Phase1(ranked, c)
    ensures k < |ranked| && c.detailMinScore <= ranked[k].score < c.minScore
    ensures ranked[k].arxivId in Papers(ranked, Phase1(ranked, c))
    ensures |Phase2(ranked, c)| <= |Phase1(ranked, c)| + Max(0, c.detailMax)
  {
    var first, second := Phase1(ranked, c), Phase2(ranked, c);
    var detailed := Detailed(ranked, c, Papers(ranked, first));
    PassAdds(ranked, detailed, first, DetailLimit(c, |first|), c.maxPerPaper, 0, k);
    PassGrows(ranked, detailed, first, DetailLimit(c, |first|), c.maxPerPaper, 0);
    if |first| >= c.forAnswer {
      PassStops(ranked, detailed, first, DetailLimit(c, |first|), c.maxPerPaper, 0);
    }
    PassIsGreedy(ranked, Relevant(ranked, c), {}, {}, c.forAnswer, c.maxPerPaper, 0, |ranked|);
    PhasesGrow(ranked, c);
    assert {} + Below(first, |ranked|) == first;
  }

  /** Missing the minimum is possible only when nothing else fits: every passage left out is at its paper's cap. */
  lemma {:induction false} BelowMinimumMeansFull(ranked: seq<Passage>, c: Config, k: nat)
    requires |Phase3(ranked, c)| < FillLimit(c)
    requires k < |ranked| && k !in Phase3(ranked, c)
    ensures |Of(ranked, Phase3(ranked, c), ranked[k].arxivId)| >= c.maxPerPaper
  {
    var second, third := Phase2(ranked, c), Phase3(ranked, c);
    PhasesGrow(ranked, c);
    PassIsGreedy(ranked, All(ranked), second, second, FillLimit(c), c.maxPerPaper, 0, |ranked|);
    assert second + Below(third, |ranked|) == third;
  }

  lemma {:induction false} BestFollowsRank(ranked: seq<Passage>, chosen: set<nat>, n: nat)
    requires n <= |ranked|
    ensures |Best(ranked, chosen, n)| == |Ascending(chosen, n)|
    ensures forall j :: 0 <= j < |Best(ranked, chosen, n)| ==>
              Ascending(chosen, n)[j] < n && Best(ranked, chosen, n)[j] == ranked[Ascending(chosen, n)[j]]
  {
    if n > 0 { BestFollowsRank(ranked, chosen, n - 1); }
  }

  // ----- the procedure ---------------------------------------------------------------------------------------------

  function TakenFrom(taken: map<string, int>, paper: string): int { if paper in taken then taken[paper] else 0 }

  /** `chosen` lists the members of s without repetition, and `taken` counts them per paper. */
  ghost predicate Tally(ranked: seq<Passage>, s: set<nat>, chosen: seq<nat>, taken: map<string, int>) {
    && (forall k :: k in s <==> k in chosen)
    && |chosen| == |s|
    && (forall p :: TakenFrom(taken, p) == Load(ranked, s, p, |ranked|))
  }

  lemma {:induction false} LoadTaking(ranked: seq<Passage>, s: set<nat>, i: nat, paper: string)
    requires i < |ranked| && i !in s
    ensures Load(ranked, s + {i}, paper, |ranked|)
         == Load(ranked, s, paper, |ranked|) + if paper == ranked[i].arxivId then 1 else 0
  {
    LoadCounts(ranked, s, paper, |ranked|);
    LoadCounts(ranked, s + {i}, paper, |ranked|);
    OfTaking(ranked, s, i, paper);
    var a, b := Of(ranked, s, paper), Of(ranked, s + {i}, paper);
    assert (set k | k in a && k < |ranked|) == a && (set k | k in b && k < |ranked|) == b;
  }

  lemma {:induction false} LoadOfNone(ranked: seq<Passage>, paper: string, n: nat)
    requires n <= |ranked|
    ensures Load(ranked, {}, paper, n) == 0
  {
    if n > 0 { LoadOfNone(ranked, paper, n - 1); }
  }

  /** Takes passage i if its paper has room. */
  method TryTake(ranked: seq<Passage>, ghost s: set<nat>, chosen: seq<nat>, taken: map<string, int>, cap: int, i: nat)
    returns (ghost s': set<nat>, chosen': seq<nat>, taken': map<string, int>)
    requires i < |ranked| && Tally(ranked, s, chosen, taken)
    ensures Tally(ranked, s', chosen', taken')
    ensures if Room(ranked, s, cap, i) then chosen' == chosen + [i] && s' == s + {i} else chosen' == chosen && s' == s
  {
    s', chosen', taken' := s, chosen, taken;
    var p := ranked[i].arxivId;
    if i !in chosen && TakenFrom(taken, p) < cap {
      s', chosen' := s + {i}, chosen + [i];
      taken' := taken[p := TakenFrom(taken, p) + 1];
      forall q ensures TakenFrom(taken', q) == Load(ranked, s', q, |ranked|) {
        LoadTaking(ranked, s, i, q);
      }
    }
  }

  method TakeRelevant(ranked: seq<Passage>, c: Config)
    returns (ghost s: set<nat>, chosen: seq<nat>, taken: map<string, int>)
    requires Descending(ranked)
    ensures s == Pass(ranked, Relevant(ranked, c), {}, c.forAnswer, c.maxPerPaper, 0)
    ensures Tally(ranked, s, chosen, taken)
  {
    s, chosen, taken := {}, [], map[];
    forall p ensures Load(ranked, {}, p, |ranked|) == 0 { LoadOfNone(ranked, p, |ranked|); }
    ghost var eligible := Relevant(ranked, c);
    ghost var goal := Pass(ranked, eligible, {}, c.forAnswer, c.maxPerPaper, 0);
    var i := 0;
    while i < |ranked|
      invariant 0 <= i <= |ranked| && Tally(ranked, s, chosen, taken)
      invariant goal == Pass(ranked, eligible, s, c.forAnswer, c.maxPerPaper, i)
    {
      if |chosen| >= c.forAnswer || ranked[i].score < c.minScore {
        PassStops(ranked, eligible, s, c.forAnswer, c.maxPerPaper, i);
        return;
      }
      assert i in eligible;
      s, chosen, taken := TryTake(ranked, s, chosen, taken, c.maxPerPaper, i);
      i := i + 1;
    }
  }

  function PapersOf(ranked: seq<Passage>, chosen: seq<nat>): set<string> {
    set k | k in chosen && k < |ranked| :: ranked[k].arxivId
  }

  method TakeDetail(ranked: seq<Passage>, c: Config, ghost s0: set<nat>, relevant: seq<nat>, taken0: map<string, int>)
    returns (ghost s: set<nat>, chosen: seq<nat>, taken: map<string, int>, detail: int)
    requires Tally(ranked, s0, relevant, taken0)
    ensures s == Pass(ranked, Detailed(ranked, c, Papers(ranked, s0)), s0,
                      DetailLimit(c, |s0|), c.maxPerPaper, 0)
    ensures Tally(ranked, s, chosen, taken) && detail == |chosen| - |relevant|
  {
    s, chosen, taken, detail := s0, relevant, taken0, 0;
    var withRelevant := PapersOf(ranked, chosen);
    assert withRelevant == Papers(ranked, s0);
    ghost var eligible, limit := Detailed(ranked, c, withRelevant), DetailLimit(c, |relevant|);
    ghost var goal := Pass(ranked, eligible, s0, limit, c.maxPerPaper, 0);
    var i := 0;
    while i < |ranked|
      invariant 0 <= i <= |ranked| && Tally(ranked, s, chosen, taken) && detail == |chosen| - |relevant|
      invariant goal == Pass(ranked, eligible, s, limit, c.maxPerPaper, i)
    {
      if detail >= c.detailMax || |chosen| >= c.forAnswer {
        PassStops(ranked, eligible, s, limit, c.maxPerPaper, i);
        return;
      }
      if ranked[i].arxivId in withRelevant && ranked[i].score >= c.detailMinScore {
        var before := |chosen|;
        s, chosen, taken := TryTake(ranked, s, chosen, taken, c.maxPerPaper, i);
        if |chosen| > before { detail := detail + 1; }
      }
      i := i + 1;
    }
  }

  method Fill(ranked: seq<Passage>, c: Config, ghost s0: set<nat>, start: seq<nat>, taken0: map<string, int>)
    returns (ghost s: set<nat>, chosen: seq<nat>, filled: int)
    requires Tally(ranked, s0, start, taken0)
    ensures s == Pass(ranked, All(ranked), s0, FillLimit(c), c.maxPerPaper, 0)
    ensures (forall k :: k in s <==> k in chosen) && |chosen| == |s| && filled == |chosen| - |start|
  {
    var taken := taken0;
    s, chosen, filled := s0, start, 0;
    ghost var eligible, limit := All(ranked), FillLimit(c);
    ghost var goal := Pass(ranked, eligible, s0, limit, c.maxPerPaper, 0);
    var i := 0;
    while i < |ranked|
      invariant 0 <= i <= |ranked| && Tally(ranked, s, chosen, taken) && filled == |chosen| - |start|
      invariant goal == Pass(ranked, eligible, s, limit, c.maxPerPaper, i)
    {
      if |chosen| >= Min(c.minKept, c.forAnswer) {
        PassStops(ranked, eligible, s, limit, c.maxPerPaper, i);
        return;
      }
      var before := |chosen|;
      s, chosen, taken := TryTake(ranked, s, chosen, taken, c.maxPerPaper, i);
      if |chosen| > before { filled := filled + 1; }
      i := i + 1;
    }
  }

  /** The chosen passages, best first, and how many each phase contributed. */
  method SelectEvidence(passages: seq<Passage>, c: Config) returns (result: seq<Passage>, counts: Counts)
    ensures var ranked := Ranked(passages);
            && result == Best(ranked, Phase3(ranked, c), |ranked|)
            && Descending(result) && |result| == |Phase3(ranked, c)| <= Max(0, c.forAnswer)
            && counts == Counts(|Phase1(ranked, c)|, |Phase2(ranked, c)| - |Phase1(ranked, c)|,
                                |Phase3(ranked, c)| - |Phase2(ranked, c)|, |passages| - |result|)
  {
    var ranked := Ranked(passages);
    RankedSorts(passages);
    ghost var first, second, third;
    var chosen, taken, detail, filled;
    first, chosen, taken := TakeRelevant(ranked, c);
    var relevant := |chosen|;
    second, chosen, taken, detail := TakeDetail(ranked, c, first, chosen, taken);
    third, chosen, filled := Fill(ranked, c, second, chosen, taken);
    counts := Counts(relevant, detail, filled, |ranked| - |chosen|);
    PhasesGrow(ranked, c);
    result := InRankOrder(ranked, third, chosen);
  }

  /** The passages at the chosen indices, sorted by index. */
  method InRankOrder(ranked: seq<Passage>, ghost s: set<nat>, chosen: seq<nat>) returns (result: seq<Passage>)
    requires Descending(ranked) && (forall k :: k in s <==> k in chosen) && (forall k :: k in s ==> k < |ranked|)
    ensures result == Best(ranked, s, |ranked|) && Descending(result) && |result| == |s|
  {
    var members := set k | k in chosen;
    assert members == s;
    var sorted := Ascending(members, |ranked|);
    assert Below(s, |ranked|) == s;
    AscendingLists(s, |ranked|);
    BestFollowsRank(ranked, s, |ranked|);
    assert forall j :: 0 <= j < |sorted| ==> sorted[j] < |ranked|;
    result := seq(|sorted|, j requires 0 <= j < |sorted| => ranked[sorted[j]]);
    assert result == Best(ranked, s, |ranked|);
  }
}
