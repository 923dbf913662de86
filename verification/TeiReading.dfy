/**
 * What parse_tei finds in any tree, also in those that to_tei does not write: nested divisions, years and ids.
 */
module TeiReading {
  import opened Common
  import opened Documents
  import opened Tei

  // ----- places in document order ----------------------------------------------------------------------------------

  /** Places in a tree: the place among the children, then among the children of that child, and so on. */
  type Place = seq<nat>

  /** A search of a tree: which elements it goes into, which of those it takes, and what it makes of one it takes. */
  datatype Search<!T> = Search(enters: Elem -> bool, takes: Elem -> bool, makes: (Elem, T) -> bool)

  /** The search gets there: it goes into the element and into all around it. */
  predicate Leads(q: Search, es: seq<Elem>, at: Place)
    decreases |at|
  {
    && at != [] && at[0] < |es| && q.enters(es[at[0]])
    && (|at| == 1 || Leads(q, es[at[0]].children, at[1..]))
  }

  function ElemAt(q: Search, es: seq<Elem>, at: Place): Elem
    requires Leads(q, es, at)
    decreases |at|
  {
    if |at| == 1 then es[at[0]] else ElemAt(q, es[at[0]].children, at[1..])
  }

  /** Document order: an element comes before those inside it, and they before the next one. */
  predicate Precedes(a: Place, b: Place)
    decreases |a|
  {
    b != [] && (a == [] || a[0] < b[0] || (a[0] == b[0] && Precedes(a[1..], b[1..])))
  }

  predicate Gives<T(!new)>(q: Search<T>, es: seq<Elem>, at: Place, x: T) {
    Leads(q, es, at) && q.makes(ElemAt(q, es, at), x)
  }

  predicate Wanted(q: Search, es: seq<Elem>, at: Place) { Leads(q, es, at) && q.takes(ElemAt(q, es, at)) }

  ghost predicate Give<T(!new)>(q: Search<T>, es: seq<Elem>, ps: seq<Place>, found: seq<T>) {
    |ps| == |found| && forall i :: 0 <= i < |ps| ==> Gives(q, es, ps[i], found[i])
  }

  ghost predicate InOrder(ps: seq<Place>) { forall i, j :: 0 <= i < j < |ps| ==> Precedes(ps[i], ps[j]) }

  /** All places start at a child from the k-th up to the m-th, that one left out. */
  ghost predicate Between(ps: seq<Place>, k: nat, m: nat) {
    forall i :: 0 <= i < |ps| ==> ps[i] != [] && k <= ps[i][0] < m
  }

  /** The places list what the search takes, from the k-th child up to the m-th, in document order. */
  ghost predicate Traces<T(!new)>(q: Search<T>, es: seq<Elem>, k: nat, m: nat, ps: seq<Place>, found: seq<T>) {
    && Give(q, es, ps, found) && InOrder(ps) && Between(ps, k, m)
    && forall at :: Wanted(q, es, at) && k <= at[0] < m ==> at in ps
  }

  lemma {:induction false} OrderJoins(a: seq<Place>, b: seq<Place>, k: nat, m: nat, n: nat)
    requires InOrder(a) && InOrder(b) && Between(a, k, m) && Between(b, m, n) && k <= m <= n
    ensures InOrder(a + b) && Between(a + b, k, n)
  {}

  lemma {:induction false} GiveJoins<T(!new)>(
      q: Search<T>, es: seq<Elem>, a: seq<Place>, b: seq<Place>, f: seq<T>, g: seq<T>)
    requires Give(q, es, a, f) && Give(q, es, b, g)
    ensures Give(q, es, a + b, f + g)
  {
    forall i | 0 <= i < |a + b| ensures Gives(q, es, (a + b)[i], (f + g)[i]) {
      if i < |a| {
        SamePlace(q, es, a[i], f[i], (a + b)[i], (f + g)[i]);
      } else {
        SamePlace(q, es, b[i - |a|], g[i - |a|], (a + b)[i], (f + g)[i]);
      }
    }
  }

  lemma {:induction false} SamePlace<T(!new)>(q: Search<T>, es: seq<Elem>, at: Place, x: T, also: Place, same: T)
    requires Gives(q, es, at, x) && also == at && same == x
    ensures Gives(q, es, also, same)
  {}

  lemma {:induction false} TracesJoin<T(!new)>(
      q: Search<T>, es: seq<Elem>, k: nat, m: nat, n: nat, a: seq<Place>, b: seq<Place>, f: seq<T>, g: seq<T>)
    requires Traces(q, es, k, m, a, f) && Traces(q, es, m, n, b, g) && k <= m <= n
    ensures Traces(q, es, k, n, a + b, f + g)
  {
    OrderJoins(a, b, k, m, n);
    GiveJoins(q, es, a, b, f, g);
    forall at | Wanted(q, es, at) && k <= at[0] < n ensures at in a + b {
      if at[0] < m { assert at in a; } else { assert at in b; }
    }
  }

  function Inside(k: nat, ps: seq<Place>): seq<Place> { seq(|ps|, i requires 0 <= i < |ps| => [k] + ps[i]) }

  lemma {:induction false} LeadsInside(q: Search, es: seq<Elem>, k: nat, at: Place)
    requires k < |es| && q.enters(es[k]) && at != []
    ensures Leads(q, es, [k] + at) <==> Leads(q, es[k].children, at)
    ensures Leads(q, es[k].children, at) ==> ElemAt(q, es, [k] + at) == ElemAt(q, es[k].children, at)
  {
    assert ([k] + at)[1..] == at;
  }

  lemma {:induction false} PrecedesInside(k: nat, a: Place, b: Place)
    ensures Precedes([k] + a, [k] + b) <==> Precedes(a, b)
  {
    assert ([k] + a)[1..] == a && ([k] + b)[1..] == b;
  }

  lemma {:induction false} InnerGive<T(!new)>(q: Search<T>, es: seq<Elem>, k: nat, sub: seq<Place>, found: seq<T>)
    requires k < |es| && q.enters(es[k]) && Give(q, es[k].children, sub, found)
    ensures Give(q, es, Inside(k, sub), found)
  {
    forall i | 0 <= i < |sub| ensures Gives(q, es, Inside(k, sub)[i], found[i]) {
      assert Gives(q, es[k].children, sub[i], found[i]);
      LeadsInside(q, es, k, sub[i]);
    }
  }

  lemma {:induction false} InnerOrder(k: nat, sub: seq<Place>)
    requires InOrder(sub)
    ensures InOrder(Inside(k, sub)) && Between(Inside(k, sub), k, k + 1)
  {
    forall i, j | 0 <= i < j < |sub| ensures Precedes(Inside(k, sub)[i], Inside(k, sub)[j]) {
      PrecedesInside(k, sub[i], sub[j]);
    }
  }

  lemma {:induction false} OwnFirst(k: nat, sub: seq<Place>)
    requires InOrder(sub) && forall i :: 0 <= i < |sub| ==> sub[i] != []
    ensures InOrder([[k]] + Inside(k, sub)) && Between([[k]] + Inside(k, sub), k, k + 1)
  {
    InnerOrder(k, sub);
    var all := [[k]] + Inside(k, sub);
    forall j | 0 < j < |all| ensures Precedes(all[0], all[j]) {
      PrecedesInside(k, [], sub[j - 1]);
      assert [k] + [] == [k];
    }
    forall i, j | 0 <= i < j < |all| ensures Precedes(all[i], all[j]) {
      if i > 0 { assert all[i] == Inside(k, sub)[i - 1] && all[j] == Inside(k, sub)[j - 1]; }
    }
  }

  lemma {:induction false} InnerWanted(q: Search, es: seq<Elem>, k: nat, sub: seq<Place>, at: Place)
    requires k < |es| && q.enters(es[k]) && Wanted(q, es, at) && at[0] == k && |at| > 1
    requires forall x :: Wanted(q, es[k].children, x) ==> x in sub
    ensures at in Inside(k, sub)
  {
    assert at == [k] + at[1..];
    LeadsInside(q, es, k, at[1..]);
    assert Wanted(q, es[k].children, at[1..]);
    var i :| 0 <= i < |sub| && sub[i] == at[1..];
    assert Inside(k, sub)[i] == at;
  }

  /** A child that is gone into: its own place, if it is taken, and those inside it. */
  lemma {:induction false} TracesInside<T(!new)>(
      q: Search<T>, es: seq<Elem>, k: nat, sub: seq<Place>, own: seq<T>, found: seq<T>) returns (ps: seq<Place>)
    requires k < |es| && q.enters(es[k]) && Traces(q, es[k].children, 0, |es[k].children|, sub, found)
    requires if q.takes(es[k]) then |own| == 1 && q.makes(es[k], own[0]) else own == []
    ensures Traces(q, es, k, k + 1, ps, own + found)
  {
    var inner, here := Inside(k, sub), if q.takes(es[k]) then [[k]] else [];
    ps := here + inner;
    InnerGive(q, es, k, sub, found);
    OwnGives(q, es, k, own);
    GiveJoins(q, es, here, inner, own, found);
    InnerOrder(k, sub);
    OwnFirst(k, sub);
    assert q.takes(es[k]) || ps == inner;
    forall at | Wanted(q, es, at) && at[0] == k ensures at in ps {
      if |at| > 1 { InnerWanted(q, es, k, sub, at); } else { OnlyOwn(q, es, k, at); }
    }
  }

  lemma {:induction false} OnlyOwn(q: Search, es: seq<Elem>, k: nat, at: Place)
    requires Wanted(q, es, at) && at[0] == k && |at| == 1
    ensures at == [k] && q.takes(es[k])
  {}

  lemma {:induction false} OwnGives<T(!new)>(q: Search<T>, es: seq<Elem>, k: nat, own: seq<T>)
    requires k < |es| && q.enters(es[k])
    requires if q.takes(es[k]) then |own| == 1 && q.makes(es[k], own[0]) else own == []
    ensures Give(q, es, if q.takes(es[k]) then [[k]] else [], own)
  {}

  lemma {:induction false} NothingHere<T(!new)>(q: Search<T>, es: seq<Elem>, k: nat)
    requires k < |es| && !q.enters(es[k])
    ensures Traces(q, es, k, k + 1, [], [])
  {}

  /** The search finds these, at these places, in document order, and takes no others. */
  ghost predicate Finds<T(!new)>(q: Search<T>, es: seq<Elem>, ps: seq<Place>, found: seq<T>) {
    Give(q, es, ps, found) && InOrder(ps) && forall at :: Wanted(q, es, at) ==> at in ps
  }

  // ----- sections --------------------------------------------------------------------------------------------------

  predicate BackMatter(div: Elem) {
    "type" in div.attrs
    && (|| div.attrs["type"] == "acknowledgement" || div.attrs["type"] == "acknowledgment"
        || div.attrs["type"] == "funding" || div.attrs["type"] == "availability" || div.attrs["type"] == "references")
  }

  predicate HasText(l: Lexis, div: Elem) { Paragraphs(l, Children(div.children, "p")) != [] }

  /** The text of its own paragraphs makes a section, under its heading if it has one. */
  predicate Makes(l: Lexis, div: Elem, default: string, s: Section) {
    && s.paragraphs == Paragraphs(l, Children(div.children, "p"))
    && (Head(l, div) != "" ==> s.head == Head(l, div)) && (Head(l, div) == "" ==> s.head == default)
  }

  /** Divisions that are not back matter are gone into, and those with text make a section. */
  function Divided(l: Lexis, default: string): Search<Section> {
    Search((e: Elem) => e.tag == "div" && !BackMatter(e), (e: Elem) => HasText(l, e),
           (e: Elem, s: Section) => Makes(l, e, default, s))
  }

  lemma {:induction false} SectionsFrom(l: Lexis, es: seq<Elem>, default: string, k: nat) returns (ps: seq<Place>)
    requires k <= |es|
    ensures Traces(Divided(l, default), es, k, |es|, ps, SectionsIn(l, es[k..], default))
    decreases es, |es| - k
  {
    if k == |es| {
      ps := [];
    } else {
      var rest := SectionsFrom(l, es, default, k + 1);
      var here, found := SectionsAt(l, es, default, k);
      TracesJoin(Divided(l, default), es, k, k + 1, |es|, here, rest, found, SectionsIn(l, es[k + 1..], default));
      ps := here + rest;
    }
  }

  lemma {:induction false} SectionsAt(l: Lexis, es: seq<Elem>, default: string, k: nat)
    returns (here: seq<Place>, found: seq<Section>)
    requires k < |es|
    ensures Traces(Divided(l, default), es, k, k + 1, here, found)
    ensures SectionsIn(l, es[k..], default) == found + SectionsIn(l, es[k + 1..], default)
    decreases es, 0
  {
    SectionsHere(l, es, default, k);
    here, found := [], [];
    if es[k].tag == "div" && !BackMatter(es[k]) {
      var sub := SectionsFrom(l, es[k].children, default, 0);
      assert es[k].children[0..] == es[k].children;
      var below := SectionsIn(l, es[k].children, default);
      found := Own(l, es[k], default) + below;
      here := TracesInside(Divided(l, default), es, k, sub, Own(l, es[k], default), below);
    } else {
      NothingHere(Divided(l, default), es, k);
    }
  }

  /**
   * The sections read are those of the divisions at any depth that have paragraphs of their own, outside back matter,
   * in document order, and no others.
   */
  lemma {:induction false} SectionsAreDivisions(l: Lexis, e: Elem, default: string) returns (ps: seq<Place>)
    ensures Finds(Divided(l, default), e.children, ps, SectionsOf(l, e, default))
  {
    ps := SectionsFrom(l, e.children, default, 0);
    assert e.children[0..] == e.children;
  }

  // ----- descendants -----------------------------------------------------------------------------------------------

  /** All elements are gone into, and those with the tag are taken. */
  function Tagged(tag: string): Search<Elem> {
    Search((e: Elem) => true, (e: Elem) => e.tag == tag, (e: Elem, x: Elem) => e == x)
  }

  lemma {:induction false} DescendantsFrom(es: seq<Elem>, tag: string, k: nat) returns (ps: seq<Place>)
    requires k <= |es|
    ensures Traces(Tagged(tag), es, k, |es|, ps, IterAll(es[k..], tag))
    decreases es, |es| - k
  {
    if k == |es| {
      ps := [];
    } else {
      var rest := DescendantsFrom(es, tag, k + 1);
      var here := DescendantsAt(es, tag, k);
      assert es[k..][1..] == es[k + 1..];
      TracesJoin(Tagged(tag), es, k, k + 1, |es|, here, rest, Iter(es[k], tag), IterAll(es[k + 1..], tag));
      ps := here + rest;
    }
  }

  lemma {:induction false} DescendantsAt(es: seq<Elem>, tag: string, k: nat) returns (here: seq<Place>)
    requires k < |es|
    ensures Traces(Tagged(tag), es, k, k + 1, here, Iter(es[k], tag))
    decreases es, 0
  {
    var sub := DescendantsFrom(es[k].children, tag, 0);
    assert es[k].children[0..] == es[k].children;
    var own := if es[k].tag == tag then [es[k]] else [];
    here := TracesInside(Tagged(tag), es, k, sub, own, IterAll(es[k].children, tag));
    assert Iter(es[k], tag) == own + IterAll(es[k].children, tag);
  }

  /** Iteration finds the elements with the tag, itself included and at any depth, in document order. */
  lemma {:induction false} IterIsDocumentOrder(e: Elem, tag: string) returns (ps: seq<Place>)
    ensures Finds(Tagged(tag), [e], ps, Iter(e, tag))
  {
    ps := DescendantsFrom([e], tag, 0);
    assert [e][0..] == [e] && [e][1..] == [];
    assert IterAll([e], tag) == Iter(e, tag) + IterAll([], tag);
    assert Iter(e, tag) + [] == Iter(e, tag);
  }

  // ----- headings and paragraphs -----------------------------------------------------------------------------------

  predicate StartsWith(text: string, start: string) { |start| <= |text| && text[..|start|] == start }

  /** A heading is its text, with its number in front unless that is there already. */
  lemma {:induction false} HeadingIs(l: Lexis, div: Elem, head: Elem)
    requires Find(div, ["head"]) == Some(head)
    ensures var numbered := "n" in head.attrs && |head.attrs["n"]| > 0 && !StartsWith(TextOf(l, head), head.attrs["n"]);
            && (numbered ==> Head(l, div) == head.attrs["n"] + " " + TextOf(l, head))
            && (!numbered ==> Head(l, div) == TextOf(l, head))
  {}

  /** The texts that are not empty. */
  function Said(texts: seq<string>): seq<string> {
    if texts == [] then []
    else Said(texts[..|texts| - 1]) + if |texts[|texts| - 1]| > 0 then [texts[|texts| - 1]] else []
  }

  lemma {:induction false} NonEmptyAdds(texts: seq<string>, last: string)
    ensures NonEmpty(texts + [last]) == NonEmpty(texts) + if last == "" then [] else [last]
  {
    if texts == [] {
      assert (texts + [last])[1..] == [];
    } else {
      NonEmptyAdds(texts[1..], last);
      assert (texts + [last])[1..] == texts[1..] + [last];
    }
  }

  lemma {:induction false} NonEmptyIsSaid(texts: seq<string>)
    ensures NonEmpty(texts) == Said(texts)
  {
    if texts != [] {
      var k := |texts| - 1;
      NonEmptyIsSaid(texts[..k]);
      NonEmptyAdds(texts[..k], texts[k]);
      assert texts == texts[..k] + [texts[k]];
    }
  }

  /** A paragraph is its marked sentences, and only if none of them says anything its text, split. */
  lemma {:induction false} ParagraphIs(l: Lexis, p: Elem)
    ensures var marked, text := Said(Texts(l, Children(p.children, "s"))), Collapse(l, TextOf(l, p));
            && (marked != [] ==> Paragraph(l, p) == marked)
            && (marked == [] && |text| == 0 ==> Paragraph(l, p) == [])
            && (marked == [] && |text| > 0 ==> Paragraph(l, p) == Said(l.sentences(text)))
  {
    NonEmptyIsSaid(Texts(l, Children(p.children, "s")));
    NonEmptyIsSaid(l.sentences(Collapse(l, TextOf(l, p))));
  }

  // ----- the document ----------------------------------------------------------------------------------------------

  /** The paragraphs of the first abstract make the first section. */
  ghost predicate Opens(l: Lexis, root: Elem, sections: seq<Section>) {
    match Find(root, ["teiHeader", "profileDesc", "abstract"])
    case None => sections == []
    case Some(a) =>
      var paragraphs := Paragraphs(l, Iter(a, "p"));
      if |paragraphs| > 0 then sections == [Section("Abstract", paragraphs)] else sections == []
  }

  /** The sections of a part of the text that may be missing. */
  ghost predicate Follows(l: Lexis, part: Option<Elem>, default: string, sections: seq<Section>) {
    match part
    case None => sections == []
    case Some(e) => exists ps :: Finds(Divided(l, default), e.children, ps, sections)
  }

  /** The abstract, then the divisions of the body, then those of the back, under their own headings. */
  lemma {:induction false} DocumentParts(l: Lexis, root: Elem, text: Elem)
    returns (first: seq<Section>, body: seq<Section>, back: seq<Section>)
    requires Find(root, ["text"]) == Some(text)
    ensures Parse(l, root).sections == first + body + back && Opens(l, root, first)
    ensures Follows(l, Find(text, ["body"]), "Body", body) && Follows(l, Find(text, ["back"]), "Appendix", back)
    ensures var bibls := Bibls(Iter(text, "listBibl"));
            && |Parse(l, root).references| == |bibls|
            && forall i :: 0 <= i < |bibls| ==> Parse(l, root).references[i] == ReadReference(l, i + 1, bibls[i])
  {
    var a := Find(root, ["teiHeader", "profileDesc", "abstract"]);
    var paragraphs := if a.Some? then Paragraphs(l, Iter(a.value, "p")) else [];
    first := if paragraphs != [] then [Section("Abstract", paragraphs)] else [];
    body := OrSections(l, Find(text, ["body"]), "Body");
    back := OrSections(l, Find(text, ["back"]), "Appendix");
    PartFollows(l, Find(text, ["body"]), "Body");
    PartFollows(l, Find(text, ["back"]), "Appendix");
  }

  lemma {:induction false} PartFollows(l: Lexis, part: Option<Elem>, default: string)
    ensures Follows(l, part, default, OrSections(l, part, default))
  {
    if part.Some? { var ps := SectionsAreDivisions(l, part.value, default); }
  }

  // ----- years, ids and raw texts ----------------------------------------------------------------------------------

  /** What a date says: its `when`, or else its text. */
  function DateText(l: Lexis, date: Elem): string {
    if "when" in date.attrs && |date.attrs["when"]| > 0 then date.attrs["when"] else TextOf(l, date)
  }

  /** The year of a reference is that of its first date that has one. */
  lemma {:induction false} YearIsFirst(l: Lexis, dates: seq<Elem>, k: nat)
    requires k < |dates| && l.yearIn(DateText(l, dates[k])).Some?
    requires forall j :: 0 <= j < k ==> l.yearIn(DateText(l, dates[j])).None?
    ensures FirstYear(l, dates) == l.yearIn(DateText(l, dates[k]))
  {
    if k > 0 {
      assert dates[1..][k - 1] == dates[k];
      assert l.yearIn(DateText(l, dates[0])).None?;
      YearIsFirst(l, dates[1..], k - 1);
    }
  }

  lemma {:induction false} NoYear(l: Lexis, dates: seq<Elem>)
    requires forall j :: 0 <= j < |dates| ==> l.yearIn(DateText(l, dates[j])).None?
    ensures FirstYear(l, dates) == None
  {
    if dates != [] {
      assert l.yearIn(DateText(l, dates[0])).None?;
      NoYear(l, dates[1..]);
    }
  }

  predicate Raw(e: Elem) { "type" in e.attrs && e.attrs["type"] == "raw_reference" }

  /** The raw text is that of the first note marked as such. */
  lemma {:induction false} RawIsFirst(l: Lexis, notes: seq<Elem>, k: nat)
    requires k < |notes| && Raw(notes[k]) && forall j :: 0 <= j < k ==> !Raw(notes[j])
    ensures FirstRaw(l, notes) == TextOf(l, notes[k])
  {
    if k > 0 {
      assert notes[1..][k - 1] == notes[k];
      RawIsFirst(l, notes[1..], k - 1);
    }
  }

  lemma {:induction false} NoRaw(l: Lexis, notes: seq<Elem>)
    requires forall j :: 0 <= j < |notes| ==> !Raw(notes[j])
    ensures FirstRaw(l, notes) == ""
  {
    if notes != [] { NoRaw(l, notes[1..]); }
  }

  predicate Arxiv(e: Elem) { "type" in e.attrs && Lowered(e.attrs["type"]) == "arxiv" }

  predicate UsableId(l: Lexis, e: Elem) {
    Arxiv(e) && l.normalId(TextOf(l, e)).Some? && l.normalId(TextOf(l, e)) != Some("")
  }

  /** The id is that of the first arXiv identifier that is one. */
  lemma {:induction false} IdIsFirst(l: Lexis, idnos: seq<Elem>, last: Option<string>, k: nat)
    requires k < |idnos| && UsableId(l, idnos[k]) && forall j :: 0 <= j < k ==> !UsableId(l, idnos[j])
    ensures FirstId(l, idnos, last) == l.normalId(TextOf(l, idnos[k]))
  {
    NotArxiv(idnos[0]);
    if k > 0 {
      assert idnos[1..][k - 1] == idnos[k];
      assert !UsableId(l, idnos[0]);
      IdIsFirst(l, idnos[1..], if Arxiv(idnos[0]) then l.normalId(TextOf(l, idnos[0])) else last, k - 1);
    }
  }

  lemma {:induction false} NotArxiv(e: Elem)
    ensures Arxiv(e) <==> Lowered(Attr(e, "type")) == "arxiv"
  {
    assert Lowered("") == "";
  }

  /** Without one there is no id, or an empty one. */
  lemma {:induction false} NoUsableId(l: Lexis, idnos: seq<Elem>, last: Option<string>)
    requires (last == None || last == Some("")) && forall j :: 0 <= j < |idnos| ==> !UsableId(l, idnos[j])
    ensures FirstId(l, idnos, last) == None || FirstId(l, idnos, last) == Some("")
  {
    if idnos != [] {
      NotArxiv(idnos[0]);
      assert !UsableId(l, idnos[0]);
      NoUsableId(l, idnos[1..], if Arxiv(idnos[0]) then l.normalId(TextOf(l, idnos[0])) else last);
    }
  }

  /** The text of an element, if it is there and has any. */
  predicate Reads(l: Lexis, e: Option<Elem>, text: string) { e.Some? && TextOf(l, e.value) == text && |text| > 0 }

  ghost predicate ReadsNothing(l: Lexis, e: Option<Elem>) { forall text :: !Reads(l, e, text) }

  /**
   * The title is the article's, or failing that the volume's; an id from the raw text is taken only without another.
   */
  lemma {:induction false} ReferenceFields(l: Lexis, position: nat, bibl: Elem)
    ensures var r := ReadReference(l, position, bibl);
            var article, volume := Find(bibl, ["analytic", "title"]), Find(bibl, ["monogr", "title"]);
            && r.position == position
            && (forall x :: r.title == Some(x) <==>
                  Reads(l, article, x) || (ReadsNothing(l, article) && Reads(l, volume, x)))
            && (r.title == None <==> ReadsNothing(l, article) && ReadsNothing(l, volume))
            && ((exists e :: e in Iter(bibl, "idno") && UsableId(l, e)) ==>
                  exists e :: e in Iter(bibl, "idno") && UsableId(l, e) && r.arxivId == l.normalId(TextOf(l, e)))
  {
    var article, volume := Find(bibl, ["analytic", "title"]), Find(bibl, ["monogr", "title"]);
    if article.Some? && TextOf(l, article.value) != "" { assert Reads(l, article, TextOf(l, article.value)); }
    if volume.Some? && TextOf(l, volume.value) != "" { assert Reads(l, volume, TextOf(l, volume.value)); }
    var idnos := Iter(bibl, "idno");
    if exists e :: e in idnos && UsableId(l, e) {
      var k := FirstUsable(l, idnos);
      IdIsFirst(l, idnos, None, k);
      assert idnos[k] in idnos;
    }
  }

  lemma {:induction false} FirstUsable(l: Lexis, idnos: seq<Elem>) returns (k: nat)
    requires exists e :: e in idnos && UsableId(l, e)
    ensures k < |idnos| && UsableId(l, idnos[k]) && forall j :: 0 <= j < k ==> !UsableId(l, idnos[j])
  {
    k := 0;
    if !UsableId(l, idnos[0]) {
      var e :| e in idnos && UsableId(l, e);
      assert e in idnos[1..];
      k := FirstUsable(l, idnos[1..]);
      assert forall j :: 0 < j < |idnos| ==> idnos[j] == idnos[1..][j - 1];
      k := k + 1;
    }
  }
}
