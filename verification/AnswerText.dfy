/**
 * The tags of an answer and the numbers of its citations.
 */
module AnswerText {
  import opened Common

  /** What is an arXiv id, and its normal form if it has one. */
  datatype ArxivIds = ArxivIds(isId: string -> bool, normal: string -> Option<string>)

  /** tag.partition(":"): what is before the first colon, and what is after it. */
  function Kind(tag: string): string {
    if tag == "" || tag[0] == ':' then "" else [tag[0]] + Kind(tag[1..])
  }

  function Ident(tag: string): string {
    if tag == "" then "" else if tag[0] == ':' then tag[1..] else Ident(tag[1..])
  }

  lemma {:induction false} KindAndIdent(tag: string)
    ensures ':' !in Kind(tag)
    ensures ':' in tag ==> tag == Kind(tag) + ":" + Ident(tag)
    ensures ':' !in tag ==> Kind(tag) == tag && Ident(tag) == ""
  {
    if tag != "" && tag[0] != ':' {
      KindAndIdent(tag[1..]);
      assert tag == [tag[0]] + tag[1..];
      Regroup([tag[0]], Kind(tag[1..]), ":", Ident(tag[1..]));
    }
  }

  lemma {:induction false} Regroup(a: string, b: string, c: string, d: string)
    ensures a + (b + c + d) == (a + b) + c + d
  {}

  /** repair_tag: a chunk tag that holds an arXiv id names that paper's abstract, if it was offered. */
  function Repaired(ids: ArxivIds, tag: string, allowed: set<string>): Option<string> {
    var ident := Ident(tag);
    if Kind(tag) != "c" || !ids.isId(ident) then None
    else
      var normal := ids.normal(ident);
      var fixed := "a:" + if normal.Some? && normal.value != "" then normal.value else ident;
      if fixed in allowed then Some(fixed) else None
  }

  /** The tag a writer's tag stands for, if it stands for an offered source. */
  function Meant(ids: ArxivIds, tag: string, allowed: set<string>): Option<string> {
    if tag in allowed then Some(tag) else Repaired(ids, tag, allowed)
  }

  /** Tag x is offered, and is what the writer wrote, or is the abstract of the paper named as if by a chunk number. */
  ghost predicate StandsFor(ids: ArxivIds, tag: string, allowed: set<string>, x: string) {
    && x in allowed
    && (|| tag == x
        || (tag !in allowed && exists ident :: NamesPaper(ids, tag, ident) && x == "a:" + Normal(ids, ident)))
  }

  predicate NamesPaper(ids: ArxivIds, tag: string, ident: string) {
    ids.isId(ident) && (tag == "c:" + ident || (tag == "c" && ident == ""))
  }

  function Normal(ids: ArxivIds, ident: string): string {
    match ids.normal(ident)
    case Some(normal) => if |normal| > 0 then normal else ident
    case None => ident
  }

  lemma {:induction false} MeantIs(ids: ArxivIds, tag: string, allowed: set<string>, x: string)
    ensures Meant(ids, tag, allowed) == Some(x) <==> StandsFor(ids, tag, allowed, x)
  {
    KindAndIdent(tag);
    forall ident ensures NamesPaper(ids, tag, ident) <==>
        Kind(tag) == "c" && ident == Ident(tag) && ids.isId(ident)
    {
      if tag == "c:" + ident { Splits("c", ident); }
    }
    assert NamesPaper(ids, tag, Ident(tag)) <==> Kind(tag) == "c" && ids.isId(Ident(tag));
  }

  lemma {:induction false} Splits(kind: string, ident: string)
    requires ':' !in kind
    ensures Kind(kind + ":" + ident) == kind && Ident(kind + ":" + ident) == ident
  {
    var tag := kind + ":" + ident;
    if kind == "" {
      assert tag == ":" + ident;
    } else {
      Splits(kind[1..], ident);
      assert tag[1..] == kind[1..] + ":" + ident;
      assert kind == [kind[0]] + kind[1..];
    }
  }

  /** The valid tags of a sentence, each once, in the order in which the writer first meant them. */
  function Good(ids: ArxivIds, tags: seq<string>, allowed: set<string>): seq<string> {
    if tags == [] then []
    else
      var before, m := Good(ids, tags[..|tags| - 1], allowed), Meant(ids, tags[|tags| - 1], allowed);
      if m.Some? && m.value !in before then before + [m.value] else before
  }

  /** The tag loop of _parse_paragraph. */
  method FilterTags(ids: ArxivIds, tags: seq<string>, allowed: set<string>)
    returns (good: seq<string>, invalid: seq<string>, repaired: seq<(string, string)>)
    ensures good == Good(ids, tags, allowed)
    ensures forall t :: t in invalid <==> t in tags && Meant(ids, t, allowed).None?
    ensures forall r :: r in repaired ==>
        r.0 in tags && r.0 !in allowed && Meant(ids, r.0, allowed) == Some(r.1) && r.1 in good
  {
    good, invalid, repaired := [], [], [];
    for i := 0 to |tags|
      invariant good == Good(ids, tags[..i], allowed)
      invariant forall t :: t in invalid <==> t in tags[..i] && Meant(ids, t, allowed).None?
      invariant forall r :: r in repaired ==>
                  r.0 in tags && r.0 !in allowed && Meant(ids, r.0, allowed) == Some(r.1) && r.1 in good
    {
      var t := tags[i];
      assert tags[..i + 1] == tags[..i] + [t] && tags[..i + 1][..i] == tags[..i];
      var fixed := if t in allowed then Some(t) else Repaired(ids, t, allowed);
      if fixed.None? {
        invalid := invalid + [t];
      } else if fixed.value !in good {
        good := good + [fixed.value];
        if fixed.value != t { repaired := repaired + [(t, fixed.value)]; }
      }
    }
    assert tags[..|tags|] == tags;
  }

  /** Valid tags are offered sources, none twice, and they are exactly what the writer's tags stand for. */
  lemma {:induction false} GoodTags(ids: ArxivIds, tags: seq<string>, allowed: set<string>, x: string)
    ensures Distinct(Good(ids, tags, allowed))
    ensures x in Good(ids, tags, allowed) <==> exists t :: t in tags && Meant(ids, t, allowed) == Some(x)
    ensures x in Good(ids, tags, allowed) ==> x in allowed
  {
    if tags != [] {
      var k := |tags| - 1;
      assert tags == tags[..k] + [tags[k]];
      GoodTags(ids, tags[..k], allowed, x);
      if x !in Good(ids, tags[..k], allowed) && Meant(ids, tags[k], allowed) == Some(x) { assert tags[k] in tags; }
    }
  }

  /** Tag x is meant at place k for the first time. */
  ghost predicate FirstMeant(ids: ArxivIds, tags: seq<string>, allowed: set<string>, x: string, k: nat) {
    k < |tags| && StandsFor(ids, tags[k], allowed, x) && forall l :: 0 <= l < k ==> !StandsFor(ids, tags[l], allowed, x)
  }

  /** The kept tags come in the order in which they are first meant. */
  lemma {:induction false} GoodInOrder(
      ids: ArxivIds, tags: seq<string>, allowed: set<string>, i: nat, j: nat, a: nat, b: nat)
    requires i < j < |Good(ids, tags, allowed)|
    requires FirstMeant(ids, tags, allowed, Good(ids, tags, allowed)[i], a)
    requires FirstMeant(ids, tags, allowed, Good(ids, tags, allowed)[j], b)
    ensures a < b
  {
    var k := |tags| - 1;
    var before := Good(ids, tags[..k], allowed);
    MeantBefore(ids, tags, allowed, before[i], a);
    if j < |before| {
      MeantBefore(ids, tags, allowed, before[j], b);
      GoodInOrder(ids, tags[..k], allowed, i, j, a, b);
    } else {
      var x := Good(ids, tags, allowed)[j];
      MeantIs(ids, tags[b], allowed, x);
      NotGood(ids, tags[..k], allowed, x, b);
    }
  }

  lemma {:induction false} NotGood(ids: ArxivIds, tags: seq<string>, allowed: set<string>, x: string, b: nat)
    requires x !in Good(ids, tags, allowed)
    ensures b < |tags| ==> Meant(ids, tags[b], allowed) != Some(x)
  {
    GoodTags(ids, tags, allowed, x);
    if b < |tags| { assert tags[b] in tags; }
  }

  lemma {:induction false} MeantBefore(ids: ArxivIds, tags: seq<string>, allowed: set<string>, x: string, a: nat)
    requires tags != [] && FirstMeant(ids, tags, allowed, x, a) && x in Good(ids, tags[..|tags| - 1], allowed)
    ensures FirstMeant(ids, tags[..|tags| - 1], allowed, x, a)
  {
    var k := |tags| - 1;
    GoodTags(ids, tags[..k], allowed, x);
    var t :| t in tags[..k] && Meant(ids, t, allowed) == Some(x);
    var l :| 0 <= l < k && tags[l] == t;
    MeantIs(ids, t, allowed, x);
    assert a <= l;
  }

  // ----- citation numbers ------------------------------------------------------------------------------------------

  predicate Tops(top: nat, numbers: map<string, nat>) {
    (forall p :: p in numbers ==> numbers[p] <= top) && (numbers == map[] ==> top == 0)
    && (numbers != map[] ==> exists p :: p in numbers && numbers[p] == top)
  }

  /** No two papers have the same number. */
  ghost predicate Apart(numbers: map<string, nat>) {
    forall p, q :: p in numbers && q in numbers && numbers[p] == numbers[q] ==> p == q
  }

  /** The papers without a number, each once, in order. */
  function NewPapers(existing: map<string, nat>, cited: seq<string>): seq<string> {
    if cited == [] then []
    else
      var before, p := NewPapers(existing, cited[..|cited| - 1]), cited[|cited| - 1];
      if p in existing || p in before then before else before + [p]
  }

  /**
   * number_citations: papers keep their numbers, and the new ones get the next numbers without a gap, in the order of
   * their first citation.  `top` is the highest number in use, or 0.
   */
  method NumberCitations(existing: map<string, nat>, top: nat, cited: seq<string>) returns (numbers: map<string, nat>)
    requires Tops(top, existing)
    ensures forall p :: p in existing ==> p in numbers && numbers[p] == existing[p]
    ensures forall p :: p in numbers <==> p in existing || p in cited
    ensures forall i :: 0 <= i < |NewPapers(existing, cited)| ==>
              && NewPapers(existing, cited)[i] !in existing
              && NewPapers(existing, cited)[i] in numbers && numbers[NewPapers(existing, cited)[i]] == top + 1 + i
    ensures Apart(existing) ==> Apart(numbers)
  {
    numbers := existing;
    var next := top + 1;
    for k := 0 to |cited|
      invariant next == top + 1 + |NewPapers(existing, cited[..k])|
      invariant forall p :: p in existing ==> p in numbers && numbers[p] == existing[p]
      invariant forall p :: p in numbers <==> p in existing || p in NewPapers(existing, cited[..k])
      invariant forall i :: 0 <= i < |NewPapers(existing, cited[..k])| ==>
                  var p := NewPapers(existing, cited[..k])[i];
                  p !in existing && p in numbers && numbers[p] == top + 1 + i
    {
      assert cited[..k + 1][..k] == cited[..k];
      if cited[k] !in numbers {
        numbers := numbers[cited[k] := next];
        next := next + 1;
      }
    }
    assert cited[..|cited|] == cited;
    forall p ensures p in NewPapers(existing, cited) <==> p in cited && p !in existing {
      NewPapersAre(existing, cited, p);
    }
    if Apart(existing) { NumbersApart(existing, top, NewPapers(existing, cited), numbers); }
  }

  lemma {:induction false} NumbersApart(
      existing: map<string, nat>, top: nat, added: seq<string>, numbers: map<string, nat>)
    requires Tops(top, existing) && forall p :: p in existing ==> p in numbers && numbers[p] == existing[p]
    requires forall p :: p in numbers ==> p in existing || p in added
    requires forall i :: 0 <= i < |added| ==> added[i] in numbers && numbers[added[i]] == top + 1 + i
    requires Apart(existing)
    ensures Apart(numbers)
  {
    forall p, q | p in numbers && q in numbers && numbers[p] == numbers[q] ensures p == q {
      if p !in existing { NumberOfNew(existing, added, top, numbers, p); }
      if q !in existing { NumberOfNew(existing, added, top, numbers, q); }
    }
  }

  lemma {:induction false} NumberOfNew(
      existing: map<string, nat>, added: seq<string>, top: nat, numbers: map<string, nat>, p: string)
    requires p in numbers && p !in existing && p in added
    requires forall i :: 0 <= i < |added| ==> added[i] in numbers && numbers[added[i]] == top + 1 + i
    ensures top < numbers[p] <= top + |added| && added[numbers[p] - top - 1] == p
  {
    var i :| 0 <= i < |added| && added[i] == p;
  }

  /** p is cited at place k for the first time. */
  predicate FirstCited(cited: seq<string>, p: string, k: nat) { k < |cited| && cited[k] == p && p !in cited[..k] }

  /** New papers come in the order in which they are first cited. */
  lemma {:induction false} NewPapersInOrder(
      existing: map<string, nat>, cited: seq<string>, i: nat, j: nat, a: nat, b: nat)
    requires i < j < |NewPapers(existing, cited)|
    requires FirstCited(cited, NewPapers(existing, cited)[i], a) && FirstCited(cited, NewPapers(existing, cited)[j], b)
    ensures a < b
  {
    var k := |cited| - 1;
    var before := NewPapers(existing, cited[..k]);
    NewPapersAre(existing, cited[..k], NewPapers(existing, cited)[i]);
    NewPapersAre(existing, cited[..k], NewPapers(existing, cited)[j]);
    if j < |before| {
      SeenBefore(cited, before[i], a);
      SeenBefore(cited, before[j], b);
      NewPapersInOrder(existing, cited[..k], i, j, a, b);
    } else {
      SeenBefore(cited, before[i], a);
    }
  }

  lemma {:induction false} SeenBefore(cited: seq<string>, p: string, a: nat)
    requires cited != [] && FirstCited(cited, p, a) && p in cited[..|cited| - 1]
    ensures FirstCited(cited[..|cited| - 1], p, a)
  {
    var k := |cited| - 1;
    assert a != k;
    assert cited[..k][..a] == cited[..a];
  }

  lemma {:induction false} NewPapersAre(existing: map<string, nat>, cited: seq<string>, p: string)
    ensures p in NewPapers(existing, cited) <==> p in cited && p !in existing
  {
    if cited != [] {
      NewPapersAre(existing, cited[..|cited| - 1], p);
      assert cited == cited[..|cited| - 1] + [cited[|cited| - 1]];
    }
  }
}
