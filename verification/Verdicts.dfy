/**
 * When a drafted sentence is kept, reworded or removed, and why: read off the verifier's output and the cited sources,
 * sentence by sentence, in both directions.
 */
module Verdicts {
  import opened Common
  import opened Verifying

  /** What every sentence is judged with. */
  datatype Bench = Bench(tools: Tools, sources: map<string, Source>, o: Options, n: nat)

  // ----- the verdict on a place ------------------------------------------------------------------------------------

  /** The verifier's word on the p-th sentence of a round, in batches of n: its batch's last result for its place. */
  ghost predicate Says(tools: Tools, again: bool, n: nat, p: nat, v: Option<Verdict>)
    requires n > 0
  {
    var vs := tools.output(again, p / n);
    match v
    case None => forall j :: 0 <= j < |vs| ==> vs[j].index != p % n
    case Some(w) => exists j :: 0 <= j < |vs| && vs[j] == w && LastFor(vs, p % n, j)
  }

  predicate LastFor(vs: seq<Verdict>, k: nat, j: nat)
    requires j < |vs|
  {
    vs[j].index == k && forall l :: j < l < |vs| ==> vs[l].index != k
  }

  lemma {:induction false} Division(n: nat, p: nat)
    requires n > 0
    ensures BatchOf(n, p) == p / n && PlaceOf(n, p) == p % n
  {
    Divided(n, p);
    OneWay(n, BatchOf(n, p), PlaceOf(n, p), p / n, p % n);
  }

  lemma {:induction false} Divided(n: nat, p: nat)
    requires n > 0
    ensures PlaceOf(n, p) < n && p == BatchOf(n, p) * n + PlaceOf(n, p)
  {
    if p >= n {
      Divided(n, p - n);
      OneMore(BatchOf(n, p - n), n);
    }
  }

  lemma {:induction false} OneMore(q: nat, n: nat)
    ensures (1 + q) * n == n + q * n
  {}

  lemma {:induction false} OneWay(n: nat, q: nat, r: nat, s: nat, t: nat)
    requires r < n && t < n && q * n + r == s * n + t
    ensures q == s && r == t
    decreases q + s
  {
    if q > 0 && s > 0 {
      OneMore(q - 1, n);
      OneMore(s - 1, n);
      OneWay(n, q - 1, r, s - 1, t);
    } else if q > 0 {
      OneMore(q - 1, n);
      NotLess(q - 1, n);
    } else if s > 0 {
      OneMore(s - 1, n);
      NotLess(s - 1, n);
    }
  }

  lemma {:induction false} NotLess(q: nat, n: nat)
    ensures q * n >= 0
  {}

  lemma {:induction false} LastIs(vs: seq<Verdict>, k: nat)
    ensures match LastWith(vs, k)
            case None => forall j :: 0 <= j < |vs| ==> vs[j].index != k
            case Some(w) => exists j :: 0 <= j < |vs| && vs[j] == w && LastFor(vs, k, j)
    decreases |vs|
  {
    if vs != [] {
      var m := |vs| - 1;
      if vs[m].index == k {
        assert LastFor(vs, k, m);
      } else {
        LastIs(vs[..m], k);
        if LastWith(vs[..m], k).Some? {
          var j :| 0 <= j < m && vs[..m][j] == LastWith(vs[..m], k).value && LastFor(vs[..m], k, j);
          assert LastFor(vs, k, j);
        } else {
          forall j | 0 <= j < m ensures vs[j].index != k { assert vs[j] == vs[..m][j]; }
        }
      }
    }
  }

  lemma {:induction false} SaysIs(tools: Tools, again: bool, n: nat, p: nat, v: Option<Verdict>)
    requires n > 0
    ensures Says(tools, again, n, p, v) <==> v == VerdictOn(tools, again, n, p)
  {
    Division(n, p);
    var vs := tools.output(again, p / n);
    LastIs(vs, p % n);
    if v.Some? && Says(tools, again, n, p, v) {
      var j :| 0 <= j < |vs| && vs[j] == v.value && LastFor(vs, p % n, j);
      var w := LastWith(vs, p % n);
      assert w.Some?;
      var l :| 0 <= l < |vs| && vs[l] == w.value && LastFor(vs, p % n, l);
    }
  }

  // ----- the excerpt -----------------------------------------------------------------------------------------------

  predicate Within(hay: string, needle: string) {
    exists a, b :: 0 <= a <= b <= |hay| && hay[a..b] == needle
  }

  /** At least 20 characters were copied from the source with this tag. */
  predicate Copied(b: Bench, span: Option<string>, tag: string) {
    && span.Some? && |span.value| > 0 && |b.tools.needle(span.value)| >= 20
    && tag in b.sources && Within(b.tools.haystack(b.sources[tag].text), b.tools.needle(span.value))
  }

  predicate Excerpt(b: Bench, span: Option<string>, tags: seq<string>) {
    exists t :: t in tags && Copied(b, span, t)
  }

  /** The excerpt recorded with a sentence: the verdict's, with the first cited source that holds it, or none. */
  ghost predicate Records(b: Bench, f: Final, span: Option<string>, tags: seq<string>) {
    if Excerpt(b, span, tags)
    then f.span == span && exists k :: 0 <= k < |tags| && f.spanSource == Some(tags[k]) && FirstCopied(b, span, tags, k)
    else f.span == None && f.spanSource == None
  }

  predicate FirstCopied(b: Bench, span: Option<string>, tags: seq<string>, k: nat)
    requires k < |tags|
  {
    Copied(b, span, tags[k]) && forall j :: 0 <= j < k ==> !Copied(b, span, tags[j])
  }

  lemma {:induction false} HoldsIsCopied(b: Bench, span: string, tag: string)
    ensures Holds(b.tools, b.sources, span, tag) <==> Copied(b, Some(span), tag)
  {
    if tag in b.sources { ContainsIsSubstring(b.tools.haystack(b.sources[tag].text), b.tools.needle(span)); }
  }

  lemma {:induction false} FirstHoldingIsFirst(b: Bench, span: string, tags: seq<string>) returns (k: nat)
    requires FirstHolding(b.tools, b.sources, span, tags).Some?
    ensures k < |tags| && FirstHolding(b.tools, b.sources, span, tags) == Some(tags[k])
    ensures FirstCopied(b, Some(span), tags, k)
  {
    HoldsIsCopied(b, span, tags[0]);
    if Holds(b.tools, b.sources, span, tags[0]) {
      k := 0;
    } else {
      k := FirstHoldingIsFirst(b, span, tags[1..]);
      forall j | 0 <= j < k + 1 ensures !Copied(b, Some(span), tags[j]) {
        if j > 0 { assert tags[j] == tags[1..][j - 1]; }
      }
      k := k + 1;
    }
  }

  lemma {:induction false} SpanSourceIs(b: Bench, span: Option<string>, tags: seq<string>)
    ensures var s := SpanSource(b.tools, b.sources, span, tags);
            && (s.Some? <==> Excerpt(b, span, tags))
            && (s.Some? ==> exists k :: 0 <= k < |tags| && s == Some(tags[k]) && FirstCopied(b, span, tags, k))
  {
    if span.Some? {
      FirstHoldingIs(b.tools, b.sources, span.value, tags);
      forall t ensures Holds(b.tools, b.sources, span.value, t) <==> Copied(b, span, t) {
        HoldsIsCopied(b, span.value, t);
      }
      if FirstHolding(b.tools, b.sources, span.value, tags).Some? {
        var k := FirstHoldingIsFirst(b, span.value, tags);
      }
    }
  }

  // ----- names, formulas and the wording ---------------------------------------------------------------------------

  lemma {:induction false} PartsMore(sources: map<string, Source>, tags: seq<string>, t: string, part: Source -> string)
    ensures Parts(sources, tags + [t], part)
         == Parts(sources, tags, part) + if t in sources then [part(sources[t])] else []
  {
    if tags == [] {
      assert (tags + [t])[1..] == [];
    } else {
      PartsMore(sources, tags[1..], t, part);
      assert (tags + [t])[1..] == tags[1..] + [t];
    }
  }

  lemma {:induction false} JoinMore(parts: seq<string>, x: string)
    ensures Join(parts + [x]) == if parts == [] then x else Join(parts) + " " + x
  {
    if parts != [] {
      JoinMore(parts[1..], x);
      assert (parts + [x])[1..] == parts[1..] + [x];
    }
  }

  lemma {:induction false} PartsEmptyIff(sources: map<string, Source>, tags: seq<string>, part: Source -> string)
    ensures Parts(sources, tags, part) == [] <==> forall t :: t in tags ==> t !in sources
  {
    if tags != [] { PartsEmptyIff(sources, tags[1..], part); }
  }

  /** The parts of the known sources cited, in order, with one space between neighbours. */
  lemma {:induction false} JoinedMore(
      sources: map<string, Source>, tags: seq<string>, t: string, part: Source -> string)
    ensures Joined(sources, [], part) == ""
    ensures Joined(sources, tags + [t], part)
         == if t !in sources then Joined(sources, tags, part)
            else if exists u :: u in tags && u in sources
            then Joined(sources, tags, part) + " " + part(sources[t]) else part(sources[t])
  {
    PartsMore(sources, tags, t, part);
    PartsEmptyIff(sources, tags, part);
    if t in sources {
      JoinMore(Parts(sources, tags, part), part(sources[t]));
    } else {
      assert Parts(sources, tags, part) + [] == Parts(sources, tags, part);
    }
  }

  /** What names are looked for in: title, authors, status and text of each known source cited. */
  lemma {:induction false} AboutMore(sources: map<string, Source>, tags: seq<string>, t: string)
    ensures About(sources, []) == ""
    ensures About(sources, tags + [t])
         == if t !in sources then About(sources, tags)
            else
              var x := sources[t];
              var told := x.title + " " + x.authors + " " + x.status + " " + x.text;
              if exists u :: u in tags && u in sources then About(sources, tags) + " " + told else told
  {
    JoinedMore(sources, tags, t, Description);
  }

  /** The texts that formulas are looked for in. */
  function Texts(sources: map<string, Source>, tags: seq<string>): string {
    if tags == [] then ""
    else
      var t, before := tags[|tags| - 1], Texts(sources, tags[..|tags| - 1]);
      if t !in sources then before
      else if exists u :: u in tags[..|tags| - 1] && u in sources then before + " " + sources[t].text
      else sources[t].text
  }

  lemma {:induction false} TextsAre(sources: map<string, Source>, tags: seq<string>)
    ensures Joined(sources, tags, TextOf) == Texts(sources, tags)
  {
    if tags != [] {
      var m := |tags| - 1;
      TextsAre(sources, tags[..m]);
      JoinedMore(sources, tags[..m], tags[m], TextOf);
      assert tags == tags[..m] + [tags[m]];
    } else {
      assert tags == [];
    }
  }

  /** Every name in a text is mentioned by the cited sources. */
  predicate Named(b: Bench, tags: seq<string>, text: string) {
    forall x :: x in b.tools.names(b.tools.stripTags(text)) ==> b.tools.mentions(x, About(b.sources, tags))
  }

  /** The names that a removal reports: those not mentioned, in order. */
  lemma {:induction false} MissingMore(tools: Tools, about: string, names: seq<string>, x: string)
    ensures Missing(tools, about, []) == []
    ensures Missing(tools, about, names + [x])
         == Missing(tools, about, names) + if tools.mentions(x, about) then [] else [x]
  {
    if names == [] {
      assert (names + [x])[1..] == [];
    } else {
      MissingMore(tools, about, names[1..], x);
      assert (names + [x])[1..] == names[1..] + [x];
    }
  }

  /** A formula of the new wording is neither one of the sentence's nor, its delimiters aside, in a cited source. */
  predicate Invents(b: Bench, d: Draft, text: string) {
    exists m :: m in b.tools.math(b.tools.stripTags(text)) && Invented(b, d, b.tools.mathKey(m))
  }

  predicate Invented(b: Bench, d: Draft, key: string) {
    && (forall m :: m in b.tools.math(d.text) ==> b.tools.mathKey(m) != key)
    && |key| > 1 && !Within(b.tools.mathKey(Texts(b.sources, d.tags)), key[1..|key| - 1])
  }

  lemma {:induction false} InventsIs(b: Bench, d: Draft, text: string)
    ensures AltersMath(b.tools, b.sources, d, text) <==> Invents(b, d, text)
  {
    TextsAre(b.sources, d.tags);
    forall m ensures Garbled(b.tools, b.sources, d, m) <==> Invented(b, d, b.tools.mathKey(m)) {
      var key := b.tools.mathKey(m);
      if |key| > 1 { ContainsIsSubstring(b.tools.mathKey(Texts(b.sources, d.tags)), key[1..|key| - 1]); }
    }
  }

  /** The status of a cited source is known, none is that of a preprint, and only the rewrite speaks of one. */
  predicate Miscalls(b: Bench, d: Draft, rewrite: string) {
    && (exists t :: t in d.tags && t in b.sources && |b.sources[t].status| > 0)
    && (forall t :: t in d.tags && t in b.sources && b.tools.isPreprint(b.sources[t].status) ==>
          |b.sources[t].status| == 0)
    && b.tools.saysPreprint(rewrite) && !b.tools.saysPreprint(d.text)
  }

  function Marks(tags: seq<string>): string {
    if tags == [] then "" else Marks(tags[..|tags| - 1]) + "[[" + tags[|tags| - 1] + "]]"
  }

  lemma {:induction false} TaggedMore(tags: seq<string>, t: string)
    ensures Tagged(tags + [t]) == Tagged(tags) + "[[" + t + "]]"
  {
    if tags == [] {
      assert (tags + [t])[1..] == [];
      assert Tagged(tags + [t]) == "[[" + t + "]]" + "";
      assert "[[" + t + "]]" + "" == "" + "[[" + t + "]]";
    } else {
      TaggedMore(tags[1..], t);
      assert (tags + [t])[1..] == tags[1..] + [t];
      var head, rest := "[[" + tags[0] + "]]", Tagged(tags[1..]);
      assert head + (rest + "[[" + t + "]]") == (head + rest) + "[[" + t + "]]";
    }
  }

  lemma {:induction false} MarksAre(tags: seq<string>)
    ensures Tagged(tags) == Marks(tags)
  {
    if tags != [] {
      var m := |tags| - 1;
      MarksAre(tags[..m]);
      TaggedMore(tags[..m], tags[m]);
      assert tags == tags[..m] + [tags[m]];
    }
  }

  /** The sentence as drafted, followed by its tags. */
  function Marked(text: string, d: Draft): string { text + " " + Marks(d.tags) }

  // ----- one verdict -----------------------------------------------------------------------------------------------

  predicate Full(v: Option<Verdict>) { v.Some? && v.value.judgement.SupportedBy? }

  predicate Reworded(v: Option<Verdict>) {
    v.Some? && v.value.judgement.PartlySupported? && v.value.rewrite.Some? && |v.value.rewrite.value| > 0
  }

  /** The rewrite wrongly speaks of a preprint, so the sentence as drafted is put in its place. */
  predicate Reverted(b: Bench, d: Draft, v: Option<Verdict>) { Reworded(v) && Miscalls(b, d, v.value.rewrite.value) }

  /** The wording that is judged. */
  function Wording(b: Bench, d: Draft, v: Option<Verdict>): string {
    if Reworded(v) && !Reverted(b, d, v) then Marked(b.tools.cleaned(v.value.rewrite.value), d) else Marked(d.text, d)
  }

  predicate Spanned(b: Bench, d: Draft, v: Option<Verdict>) { v.Some? && Excerpt(b, v.value.span, d.tags) }

  /** The excerpt and the names, as far as they are asked for. */
  predicate Passes(b: Bench, d: Draft, v: Option<Verdict>, text: string) {
    (b.o.requireSpan ==> Spanned(b, d, v)) && (b.o.nameCheck ==> Named(b, d.tags, text))
  }

  lemma {:induction false} WordingIs(b: Bench, d: Draft, v: Option<Verdict>)
    requires d.tags != []
    ensures Marked(d.text, d) == WithTags(d)
    ensures Reworded(v) ==>
              && (Spurious(b.tools, b.sources, d, v.value.rewrite.value) <==> Reverted(b, d, v))
              && Marked(b.tools.cleaned(v.value.rewrite.value), d) == RewrittenText(b.tools, v.value.rewrite.value, d)
  {
    MarksAre(d.tags);
  }

  /** What one verdict does to a sentence with tags. */
  ghost predicate Decides(b: Bench, d: Draft, v: Option<Verdict>, f: Final) {
    && Keeps(b, d, v, f)
    && (f.fate.Removed? ==> f.span == None && f.spanSource == None)
    && forall why :: f.fate.Removed? && f.reason == why <==> Removes(b, d, v, why)
  }

  ghost predicate Keeps(b: Bench, d: Draft, v: Option<Verdict>, f: Final) {
    var text := Wording(b, d, v);
    && f.section == d.section && f.tags == d.tags && f.text == text
    && (f.fate.Supported? <==> Full(v) && Passes(b, d, v, text))
    && (f.fate.Rewritten? <==> Reworded(v) && !Invents(b, d, text) && Passes(b, d, v, text))
    && (!f.fate.Removed? ==> Records(b, f, v.value.span, d.tags))
    && (!f.fate.Removed? ==> f.reason == if Reverted(b, d, v) then SpuriousAttribution else NoReason)
  }

  /** The reason for removing a sentence after one verdict. */
  ghost predicate Removes(b: Bench, d: Draft, v: Option<Verdict>, why: Reason) {
    var text := Wording(b, d, v);
    var judged := Full(v) || (Reworded(v) && !Invents(b, d, text));
    match why
    case NoVerdict => v == None
    case Judged(j) => v.Some? && v.value.judgement == j && !Full(v) && !Reworded(v)
    case AlteredMath => Reworded(v) && Invents(b, d, text)
    case NoValidSpan => judged && b.o.requireSpan && !Spanned(b, d, v)
    case NamesNotInSource(names) =>
      && judged && (b.o.requireSpan ==> Spanned(b, d, v)) && b.o.nameCheck && !Named(b, d.tags, text)
      && names == Missing(b.tools, About(b.sources, d.tags), b.tools.names(b.tools.stripTags(text)))
    case _ => false
  }

  lemma {:induction false} AppliedDecides(b: Bench, i: nat, d: Draft, v: Option<Verdict>)
    requires d.tags != []
    ensures var f := Applied(b.tools, b.sources, b.o, i, d, v); f.number == i && Decides(b, d, v, f)
  {
    AppliedKeeps(b, i, d, v);
    AppliedRecords(b, i, d, v);
    AppliedRemoves(b, i, d, v);
    var f := Applied(b.tools, b.sources, b.o, i, d, v);
    forall why ensures f.fate.Removed? && f.reason == why <==> Removes(b, d, v, why) {
      if Removes(b, d, v, why) { OneReason(b, d, v, why, f.reason); }
    }
  }

  lemma {:induction false} AppliedKeeps(b: Bench, i: nat, d: Draft, v: Option<Verdict>)
    requires d.tags != []
    ensures var f := Applied(b.tools, b.sources, b.o, i, d, v); f.number == i && Keeps(b, d, v, f)
  {
    AppliedRecords(b, i, d, v);
    AppliedFates(b, i, d, v);
    WordingIs(b, d, v);
  }

  lemma {:induction false} AppliedFates(b: Bench, i: nat, d: Draft, v: Option<Verdict>)
    requires d.tags != []
    ensures var f, text := Applied(b.tools, b.sources, b.o, i, d, v), Wording(b, d, v);
            && f.number == i && f.text == text
            && (f.fate.Supported? <==> Full(v) && Passes(b, d, v, text))
            && (f.fate.Rewritten? <==> Reworded(v) && !Invents(b, d, text) && Passes(b, d, v, text))
  {
    WordingIs(b, d, v);
    var text := Wording(b, d, v);
    InventsIs(b, d, text);
    NothingMissing(b.tools, About(b.sources, d.tags), b.tools.names(b.tools.stripTags(text)));
    if v.Some? { HasSource(b, v.value.span, d.tags); }
  }

  lemma {:induction false} HasSource(b: Bench, span: Option<string>, tags: seq<string>)
    ensures SpanSource(b.tools, b.sources, span, tags).Some? <==> Excerpt(b, span, tags)
  {
    SpanSourceIs(b, span, tags);
  }

  lemma {:induction false} AppliedRecords(b: Bench, i: nat, d: Draft, v: Option<Verdict>)
    ensures var f := Applied(b.tools, b.sources, b.o, i, d, v);
            if f.fate.Removed? then f.span == None && f.spanSource == None
            else v.Some? && Records(b, f, v.value.span, d.tags)
  {
    if v.Some? { SpanSourceIs(b, v.value.span, d.tags); }
  }

  lemma {:induction false} AppliedRemoves(b: Bench, i: nat, d: Draft, v: Option<Verdict>)
    requires d.tags != []
    ensures var f := Applied(b.tools, b.sources, b.o, i, d, v); f.fate.Removed? ==> Removes(b, d, v, f.reason)
  {
    WordingIs(b, d, v);
    var text := Wording(b, d, v);
    InventsIs(b, d, text);
    NothingMissing(b.tools, About(b.sources, d.tags), b.tools.names(b.tools.stripTags(text)));
    if v.Some? { HasSource(b, v.value.span, d.tags); }
  }

  lemma {:induction false} OneReason(b: Bench, d: Draft, v: Option<Verdict>, why: Reason, also: Reason)
    requires Removes(b, d, v, why)
    ensures Removes(b, d, v, also) ==> also == why
    ensures !(Full(v) && Passes(b, d, v, Wording(b, d, v)))
    ensures !(Reworded(v) && !Invents(b, d, Wording(b, d, v)) && Passes(b, d, v, Wording(b, d, v)))
  {}

  // ----- every sentence --------------------------------------------------------------------------------------------

  /** The sentences before the i-th that go to the verifier. */
  function Earlier(drafts: seq<Draft>, i: nat): set<nat>
    requires i <= |drafts|
  {
    set k: nat | k < i && drafts[k].tags != []
  }

  /** The verifier's first word on the i-th sentence. */
  ghost predicate FirstWord(b: Bench, drafts: seq<Draft>, i: nat, v: Option<Verdict>)
    requires b.n > 0 && i < |drafts|
  {
    Says(b.tools, false, b.n, |Earlier(drafts, i)|, v)
  }

  /** A verdict that has a sentence reworded, so far. */
  predicate Rewords(b: Bench, d: Draft, v: Option<Verdict>) {
    Reworded(v) && !Invents(b, d, Wording(b, d, v)) && Passes(b, d, v, Wording(b, d, v))
  }

  ghost predicate Tentative(b: Bench, drafts: seq<Draft>, i: nat)
    requires b.n > 0 && i < |drafts|
  {
    drafts[i].tags != [] && exists v :: FirstWord(b, drafts, i, v) && Rewords(b, drafts[i], v)
  }

  /** How many sentences before the i-th go to the verifier again. */
  ghost function EarlierAgain(b: Bench, drafts: seq<Draft>, i: nat): nat
    requires b.n > 0 && i <= |drafts|
  {
    if i == 0 then 0 else EarlierAgain(b, drafts, i - 1) + if Tentative(b, drafts, i - 1) then 1 else 0
  }

  /** Its second word. */
  ghost predicate SecondWord(b: Bench, drafts: seq<Draft>, i: nat, w: Option<Verdict>)
    requires b.n > 0 && i < |drafts|
  {
    Says(b.tools, true, b.n, EarlierAgain(b, drafts, i), w)
  }

  /** The new wording without tags, as it goes to the verifier again. */
  function Redrafted(b: Bench, d: Draft, v: Option<Verdict>): Draft {
    Draft(d.section, b.tools.stripTags(Wording(b, d, v)), d.tags, [])
  }

  /** The second verdict stands behind the new wording. */
  predicate Confirms(b: Bench, d: Draft, v: Option<Verdict>, w: Option<Verdict>) {
    var again := Redrafted(b, d, v);
    Full(w) && Passes(b, again, w, Marked(again.text, again))
  }

  /** What becomes of a sentence with tags whose first verdict is v and whose second one, if it gets one, is w. */
  ghost predicate Ends(b: Bench, d: Draft, v: Option<Verdict>, w: Option<Verdict>, f: Final) {
    var text := Wording(b, d, v);
    var confirmed := b.o.requireSpan ==> Confirms(b, d, v, w);
    && f.section == d.section && f.tags == d.tags && f.text == text
    && (f.fate.Supported? <==>
          || (Full(v) && Passes(b, d, v, text))
          || (b.o.requireSpan && Rewords(b, d, v) && Reverted(b, d, v) && confirmed))
    && (f.fate.Rewritten? <==> Rewords(b, d, v) && confirmed && !(b.o.requireSpan && Reverted(b, d, v)))
    && (f.fate.Rewritten? || (f.fate.Supported? && Full(v)) ==> Records(b, f, v.value.span, d.tags))
    && (f.fate.Supported? && !Full(v) ==> Full(w) && Records(b, f, w.value.span, d.tags))
    && (!f.fate.Removed? ==>
          f.reason == if f.fate.Rewritten? && Reverted(b, d, v) then SpuriousAttribution else NoReason)
    && (f.fate.Removed? ==> f.span == None && f.spanSource == None)
    && forall why :: f.fate.Removed? && f.reason == why <==>
         Removes(b, d, v, why) || (why == RewriteNotSupported && Rewords(b, d, v) && !confirmed)
  }

  lemma {:induction false} SettledEnds(b: Bench, i: nat, d: Draft, v: Option<Verdict>, w: Option<Verdict>, f: Final)
    requires d.tags != [] && Judges(b.tools, b.sources, b.o, i, d, f, v, w)
    ensures f.number == i && Ends(b, d, v, w, f)
  {
    AppliedDecides(b, i, d, v);
    var again := Redrafted(b, d, v);
    AppliedDecides(b, i, again, w);
    var first := Applied(b.tools, b.sources, b.o, i, d, v);
    assert first.fate.Removed? ==> Removes(b, d, v, first.reason);
    assert !first.fate.Removed? ==> forall why :: !Removes(b, d, v, why);
  }

  // ----- the places ------------------------------------------------------------------------------------------------

  lemma {:induction false} EarlierCounts(drafts: seq<Draft>, i: nat)
    requires i <= |drafts|
    ensures |ToCheck(drafts, i)| == |Earlier(drafts, i)|
  {
    if i > 0 {
      EarlierCounts(drafts, i - 1);
      if drafts[i - 1].tags != [] {
        assert Earlier(drafts, i) == Earlier(drafts, i - 1) + {i - 1};
      } else {
        assert Earlier(drafts, i) == Earlier(drafts, i - 1);
      }
    } else {
      assert Earlier(drafts, i) == {};
    }
  }

  /** The final the first round gives to the i-th sentence is a rewrite exactly if the sentence is tentative. */
  lemma {:induction false} FirstRound(b: Bench, drafts: seq<Draft>, i: nat)
    requires b.n > 0 && i < |drafts| && drafts[i].tags != []
    ensures var v := VerdictOn(b.tools, false, b.n, |ToCheck(drafts, i)|);
            && FirstWord(b, drafts, i, v)
            && (Applied(b.tools, b.sources, b.o, i, drafts[i], v).fate.Rewritten? <==> Tentative(b, drafts, i))
  {
    var p := |ToCheck(drafts, i)|;
    var v := VerdictOn(b.tools, false, b.n, p);
    EarlierCounts(drafts, i);
    forall u ensures FirstWord(b, drafts, i, u) <==> u == v { SaysIs(b.tools, false, b.n, p, u); }
    AppliedKeeps(b, i, drafts[i], v);
    TentativeIff(b, drafts, i, v);
  }

  lemma {:induction false} TentativeIff(b: Bench, drafts: seq<Draft>, i: nat, v: Option<Verdict>)
    requires b.n > 0 && i < |drafts| && forall u :: FirstWord(b, drafts, i, u) <==> u == v
    ensures Tentative(b, drafts, i) <==> drafts[i].tags != [] && Rewords(b, drafts[i], v)
  {
    assert FirstWord(b, drafts, i, v);
  }

  lemma {:induction false} FirstsAt(b: Bench, drafts: seq<Draft>, i: nat)
    requires b.n > 0 && i < |drafts| && drafts[i].tags != []
    ensures var firsts, p := Firsts(b.tools, b.sources, b.o, b.n, ToCheck(drafts, |drafts|)), |ToCheck(drafts, i)|;
            p < |firsts| && (firsts[p].fate.Rewritten? <==> Tentative(b, drafts, i))
  {
    ToCheckAt(drafts, |drafts|, i);
    FirstRound(b, drafts, i);
  }

  lemma {:induction false} PlaceGrows(b: Bench, drafts: seq<Draft>, i: nat)
    requires b.n > 0 && i < |drafts|
    ensures Place(b.tools, b.sources, b.o, b.n, drafts, |ToCheck(drafts, i + 1)|)
         == Place(b.tools, b.sources, b.o, b.n, drafts, |ToCheck(drafts, i)|) + if Tentative(b, drafts, i) then 1 else 0
  {
    var firsts, p := Firsts(b.tools, b.sources, b.o, b.n, ToCheck(drafts, |drafts|)), |ToCheck(drafts, i)|;
    if drafts[i].tags != [] {
      FirstsAt(b, drafts, i);
      assert |ToCheck(drafts, i + 1)| == p + 1;
      AgainGrows(b.tools, firsts, p);
    }
  }

  lemma {:induction false} AgainGrows(tools: Tools, firsts: seq<Final>, p: nat)
    requires p < |firsts|
    ensures |Again(tools, firsts, p + 1)| == |Again(tools, firsts, p)| + if firsts[p].fate.Rewritten? then 1 else 0
  {}

  lemma {:induction false} AgainCounts(b: Bench, drafts: seq<Draft>, i: nat)
    requires b.n > 0 && i <= |drafts|
    ensures Place(b.tools, b.sources, b.o, b.n, drafts, |ToCheck(drafts, i)|) == EarlierAgain(b, drafts, i)
  {
    if i > 0 {
      AgainCounts(b, drafts, i - 1);
      OneMoreAgain(b, drafts, i - 1);
    } else {
      NoneAgain(b, drafts);
    }
  }

  lemma {:induction false} NoneAgain(b: Bench, drafts: seq<Draft>)
    requires b.n > 0
    ensures Place(b.tools, b.sources, b.o, b.n, drafts, |ToCheck(drafts, 0)|) == EarlierAgain(b, drafts, 0)
  {}

  lemma {:induction false} OneMoreAgain(b: Bench, drafts: seq<Draft>, i: nat)
    requires b.n > 0 && i < |drafts|
    requires Place(b.tools, b.sources, b.o, b.n, drafts, |ToCheck(drafts, i)|) == EarlierAgain(b, drafts, i)
    ensures Place(b.tools, b.sources, b.o, b.n, drafts, |ToCheck(drafts, i + 1)|) == EarlierAgain(b, drafts, i + 1)
  {
    PlaceGrows(b, drafts, i);
  }

  /**
   * What becomes of the i-th sentence, whatever the verifier answers.  Without a valid tag it is removed; with one, its
   * first verdict, and the second one if it is reworded, decide whether it is kept, in which words and with which
   * excerpt, or why it is removed.
   */
  lemma {:induction false} SentenceFate(
      b: Bench, drafts: seq<Draft>, i: nat, v: Option<Verdict>, w: Option<Verdict>)
    requires b.n > 0 && i < |drafts| && FirstWord(b, drafts, i, v) && SecondWord(b, drafts, i, w)
    ensures var d, f := drafts[i], Outcomes(b.tools, b.sources, b.o, b.n, drafts, |drafts|)[i];
            && f.number == i
            && (d.tags != [] ==> Ends(b, d, v, w, f))
            && (d.tags == [] ==>
                  && f.fate.Removed? && f.section == d.section && f.text == d.text && f.tags == []
                  && f.span == None && f.spanSource == None
                  && f.reason == if |d.invalidTags| > 0 then InvalidTag else NoTag)
  {
    var d := drafts[i];
    OutcomesAt(b.tools, b.sources, b.o, b.n, drafts, |drafts|, i);
    if d.tags != [] {
      var p := |ToCheck(drafts, i)|;
      EarlierCounts(drafts, i);
      AgainCounts(b, drafts, i);
      SaysIs(b.tools, false, b.n, p, v);
      SaysIs(b.tools, true, b.n, Place(b.tools, b.sources, b.o, b.n, drafts, p), w);
      AppliedDecides(b, i, d, v);
      var f := Outcome(b.tools, b.sources, b.o, b.n, drafts, i);
      assert Judges(b.tools, b.sources, b.o, i, d, f, v, w);
      SettledEnds(b, i, d, v, w, f);
    }
  }

  /** There always is a first and a second word, and only one of each. */
  lemma {:induction false} OneWordEach(b: Bench, drafts: seq<Draft>, i: nat)
    returns (v: Option<Verdict>, w: Option<Verdict>)
    requires b.n > 0 && i < |drafts|
    ensures forall u :: FirstWord(b, drafts, i, u) <==> u == v
    ensures forall u :: SecondWord(b, drafts, i, u) <==> u == w
  {
    v := VerdictOn(b.tools, false, b.n, |Earlier(drafts, i)|);
    w := VerdictOn(b.tools, true, b.n, EarlierAgain(b, drafts, i));
    forall u ensures FirstWord(b, drafts, i, u) <==> u == v { SaysIs(b.tools, false, b.n, |Earlier(drafts, i)|, u); }
    forall u ensures SecondWord(b, drafts, i, u) <==> u == w {
      SaysIs(b.tools, true, b.n, EarlierAgain(b, drafts, i), u);
    }
  }
}
