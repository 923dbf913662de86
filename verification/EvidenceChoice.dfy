/**
 * Which passages each of the three loops of the evidence selection takes, passage by passage.
 */
module EvidenceChoice {
  import opened Evidence

  /** A pass takes a passage exactly if it is eligible and those taken before it leave room for it. */
  lemma {:induction false} PassTakes(
      ranked: seq<Passage>, eligible: set<nat>, base: set<nat>, chosen: set<nat>, limit: int, cap: int, i: nat, k: nat)
    requires i <= k < |ranked| && k !in base && base <= chosen
    requires forall j :: j in chosen ==> j in base || j < i
    ensures var r := Pass(ranked, eligible, chosen, limit, cap, i);
            var before := base + Below(r, k);
            k in r <==> k in eligible && |before| < limit && |Of(ranked, before, ranked[k].arxivId)| < cap
    decreases |ranked| - i
  {
    var next := Visit(ranked, eligible, chosen, limit, cap, i);
    if i < k {
      PassTakes(ranked, eligible, base, next, limit, cap, i + 1, k);
    } else {
      BeforeIs(ranked, eligible, base, chosen, limit, cap, i);
      RoomMeans(ranked, chosen, cap, k);
      TakenNowOrNever(ranked, eligible, next, limit, cap, k);
    }
  }

  lemma {:induction false} BeforeIs(
      ranked: seq<Passage>, eligible: set<nat>, base: set<nat>, chosen: set<nat>, limit: int, cap: int, i: nat)
    requires i <= |ranked| && base <= chosen && forall j :: j in chosen ==> j in base || j < i
    ensures base + Below(Pass(ranked, eligible, chosen, limit, cap, i), i) == chosen
  {
    var r := Pass(ranked, eligible, chosen, limit, cap, i);
    PassGrows(ranked, eligible, chosen, limit, cap, i);
    forall j | j in Below(r, i) ensures j in chosen {
      if j !in chosen { PassAdds(ranked, eligible, chosen, limit, cap, i, j); }
    }
  }

  lemma {:induction false} TakenNowOrNever(
      ranked: seq<Passage>, eligible: set<nat>, chosen: set<nat>, limit: int, cap: int, k: nat)
    requires k < |ranked|
    ensures k in Pass(ranked, eligible, chosen, limit, cap, k + 1) <==> k in chosen
  {
    PassGrows(ranked, eligible, chosen, limit, cap, k + 1);
    if k in Pass(ranked, eligible, chosen, limit, cap, k + 1) && k !in chosen {
      PassAdds(ranked, eligible, chosen, limit, cap, k + 1, k);
    }
  }

  /** The members of s before k. */
  function Earlier(s: set<nat>, k: nat): set<nat> { set i | i in s && i < k }

  /** How many passages of a set are of this paper. */
  function OfPaper(ranked: seq<Passage>, s: set<nat>, paper: string): nat {
    |set i | i in s && i < |ranked| && ranked[i].arxivId == paper|
  }

  /** The first loop takes passages that are relevant while neither the answer nor their paper is full. */
  lemma {:induction false} FirstTakes(ranked: seq<Passage>, c: Config, k: nat)
    requires k < |ranked|
    ensures var before := Earlier(Phase1(ranked, c), k);
            k in Phase1(ranked, c) <==>
              && ranked[k].score >= c.minScore
              && |before| < c.forAnswer && OfPaper(ranked, before, ranked[k].arxivId) < c.maxPerPaper
  {
    PassTakes(ranked, Relevant(ranked, c), {}, {}, c.forAnswer, c.maxPerPaper, 0, k);
    assert {} + Below(Phase1(ranked, c), k) == Earlier(Phase1(ranked, c), k);
  }

  /**
   * The second takes weaker passages of papers that the first took one of, at most detailMax of them, again while
   * neither the answer nor their paper is full.
   */
  lemma {:induction false} DetailTakes(ranked: seq<Passage>, c: Config, k: nat)
    requires k < |ranked|
    ensures var first := Phase1(ranked, c);
            var more := Earlier(Phase2(ranked, c) - first, k);
            k in Phase2(ranked, c) <==>
              || k in first
              || (&& (exists i :: i in first && i < |ranked| && ranked[i].arxivId == ranked[k].arxivId)
                  && ranked[k].score >= c.detailMinScore
                  && |more| < c.detailMax && |first| + |more| < c.forAnswer
                  && OfPaper(ranked, first + more, ranked[k].arxivId) < c.maxPerPaper)
  {
    var first, second := Phase1(ranked, c), Phase2(ranked, c);
    PhasesGrow(ranked, c);
    if k !in first {
      var eligible := Detailed(ranked, c, Papers(ranked, first));
      PassTakes(ranked, eligible, first, first, DetailLimit(c, |first|), c.maxPerPaper, 0, k);
      Together(first, second, k);
    }
  }

  /** The third takes any passage, while fewer than minKept are chosen, and neither the answer nor its paper is full. */
  lemma {:induction false} FillTakes(ranked: seq<Passage>, c: Config, k: nat)
    requires k < |ranked|
    ensures var second := Phase2(ranked, c);
            var more := Earlier(Phase3(ranked, c) - second, k);
            k in Phase3(ranked, c) <==>
              || k in second
              || (&& |second| + |more| < c.minKept && |second| + |more| < c.forAnswer
                  && OfPaper(ranked, second + more, ranked[k].arxivId) < c.maxPerPaper)
  {
    var second, third := Phase2(ranked, c), Phase3(ranked, c);
    PhasesGrow(ranked, c);
    if k !in second {
      PassTakes(ranked, All(ranked), second, second, FillLimit(c), c.maxPerPaper, 0, k);
      Together(second, third, k);
    }
  }

  lemma {:induction false} Together(base: set<nat>, all: set<nat>, k: nat)
    ensures base + Below(all, k) == base + Earlier(all - base, k)
    ensures |base + Below(all, k)| == |base| + |Earlier(all - base, k)|
  {}
}
