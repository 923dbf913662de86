/**
 * VERIFY: every drafted sentence is kept, rewritten or removed on the word of an untrusted verifier, whose output is
 * checked against the cited sources.  Its results can be missing, duplicated, out of range or anything else.
 */
module Verifying {
  import opened Common
  import AnswerText

  const MIN_SPAN_CHARS := 20

  datatype Draft = Draft(section: string, text: string, tags: seq<string>, invalidTags: seq<string>)

  datatype Judgement = SupportedBy | PartlySupported | NotSupported

  /** One result of the verifier, as it came. */
  datatype Verdict = Verdict(index: int, judgement: Judgement, span: Option<string>, rewrite: Option<string>)

  datatype Fate = Supported | Rewritten | Removed

  datatype Reason =
    | NoReason | InvalidTag | NoTag | NoVerdict | Judged(j: Judgement) | AlteredMath | NoValidSpan
    | NamesNotInSource(names: seq<string>) | SpuriousAttribution | RewriteNotSupported

  datatype Final = Final(
    number: nat, section: string, text: string, fate: Fate, tags: seq<string>, reason: Reason,
    span: Option<string>, spanSource: Option<string>)

  datatype Source = Source(title: string, text: string, status: string, authors: string)

  /** The text operations, which are not modelled further, and the verifier's output per round and batch. */
  datatype Tools = Tools(
    needle: string -> string,              // a span, normalised, without its final full stop
    haystack: string -> string,            // a source text, normalised
    names: string -> seq<string>,          // the names in a sentence
    mentions: (string, string) -> bool,    // a text mentions a name
    math: string -> seq<string>,           // the formulas in a sentence
    mathKey: string -> string,
    stripTags: string -> string,
    cleaned: string -> string,             // a rewrite without tags, also the loose ones
    isPreprint: string -> bool,
    saysPreprint: string -> bool,
    output: (bool, nat) -> seq<Verdict>)   // recheck?, batch number

  // ----- the checks ------------------------------------------------------------------------------------------------

  predicate Contains(hay: string, needle: string)
    decreases |hay|
  {
    needle <= hay || (hay != "" && Contains(hay[1..], needle))
  }

  lemma {:induction false} ContainsIsSubstring(hay: string, needle: string)
    ensures Contains(hay, needle) <==> exists i, j :: 0 <= i <= j <= |hay| && hay[i..j] == needle
    decreases |hay|
  {
    if needle <= hay {
      assert hay[0..|needle|] == needle;
    } else if hay != "" {
      ContainsIsSubstring(hay[1..], needle);
      if i, j :| 0 <= i <= j <= |hay[1..]| && hay[1..][i..j] == needle {
        assert hay[i + 1..j + 1] == needle;
      }
      if i, j :| 0 <= i <= j <= |hay| && hay[i..j] == needle {
        assert hay[0..j] == hay[..j];
        assert i > 0;
        assert hay[1..][i - 1..j - 1] == needle;
      }
    }
  }

  /** A cited source, at least MIN_SPAN_CHARS of which the verifier copied. */
  predicate Holds(tools: Tools, sources: map<string, Source>, span: string, tag: string) {
    && span != "" && |tools.needle(span)| >= MIN_SPAN_CHARS
    && tag in sources && Contains(tools.haystack(sources[tag].text), tools.needle(span))
  }

  function FirstHolding(tools: Tools, sources: map<string, Source>, span: string, tags: seq<string>): Option<string> {
    if tags == [] then None
    else if Holds(tools, sources, span, tags[0]) then Some(tags[0])
    else FirstHolding(tools, sources, span, tags[1..])
  }

  function SpanSource(tools: Tools, sources: map<string, Source>, span: Option<string>,
      tags: seq<string>): Option<string> {
    if span.None? then None else FirstHolding(tools, sources, span.value, tags)
  }

  lemma {:induction false} FirstHoldingIs(tools: Tools, sources: map<string, Source>, span: string, tags: seq<string>)
    ensures var r := FirstHolding(tools, sources, span, tags);
            if r.Some? then r.value in tags && Holds(tools, sources, span, r.value)
            else forall t :: t in tags ==> !Holds(tools, sources, span, t)
  {
    if tags != [] { FirstHoldingIs(tools, sources, span, tags[1..]); }
  }

  /** find_span */
  method FindSpan(tools: Tools, sources: map<string, Source>, span: Option<string>, tags: seq<string>)
    returns (source: Option<string>)
    ensures source == SpanSource(tools, sources, span, tags)
  {
    if span.None? || span.value == "" || |tools.needle(span.value)| < MIN_SPAN_CHARS {
      if span.Some? { FirstHoldingIs(tools, sources, span.value, tags); }
      return None;
    }
    for i := 0 to |tags|
      invariant FirstHolding(tools, sources, span.value, tags) == FirstHolding(tools, sources, span.value, tags[i..])
    {
      if tags[i] in sources && Contains(tools.haystack(sources[tags[i]].text), tools.needle(span.value)) {
        return Some(tags[i]);
      }
    }
    source := None;
  }

  function Join(parts: seq<string>): string {
    if parts == [] then "" else if |parts| == 1 then parts[0] else parts[0] + " " + Join(parts[1..])
  }

  function Parts(sources: map<string, Source>, tags: seq<string>, part: Source -> string): seq<string> {
    if tags == [] then []
    else (if tags[0] in sources then [part(sources[tags[0]])] else []) + Parts(sources, tags[1..], part)
  }

  /** What is said of the cited sources, joined with spaces. */
  function Joined(sources: map<string, Source>, tags: seq<string>, part: Source -> string): string {
    Join(Parts(sources, tags, part))
  }

  function Description(x: Source): string { x.title + " " + x.authors + " " + x.status + " " + x.text }

  function About(sources: map<string, Source>, tags: seq<string>): string { Joined(sources, tags, Description) }

  function TextOf(x: Source): string { x.text }

  /** The names that the cited sources do not mention, in order. */
  function Missing(tools: Tools, about: string, names: seq<string>): seq<string> {
    if names == [] then []
    else (if tools.mentions(names[0], about) then [] else [names[0]]) + Missing(tools, about, names[1..])
  }

  lemma {:induction false} NothingMissing(tools: Tools, about: string, names: seq<string>)
    ensures Missing(tools, about, names) == [] <==> forall n :: n in names ==> tools.mentions(n, about)
  {
    if names != [] { NothingMissing(tools, about, names[1..]); }
  }

  /** missing_names */
  method MissingNames(tools: Tools, sources: map<string, Source>, tags: seq<string>, sentence: string)
    returns (missing: seq<string>)
    ensures missing == Missing(tools, About(sources, tags), tools.names(sentence))
  {
    var about := About(sources, tags);
    missing := FilterNames(tools, about, tools.names(sentence));
  }

  method FilterNames(tools: Tools, about: string, names: seq<string>) returns (missing: seq<string>)
    ensures missing == Missing(tools, about, names)
  {
    missing := [];
    for i := 0 to |names|
      invariant missing + Missing(tools, about, names[i..]) == Missing(tools, about, names)
    {
      ghost var rest := Missing(tools, about, names[i + 1..]);
      assert names[i..][1..] == names[i + 1..];
      if !tools.mentions(names[i], about) {
        assert missing + ([names[i]] + rest) == (missing + [names[i]]) + rest;
        missing := missing + [names[i]];
      } else {
        assert [] + rest == rest;
      }
    }
  }

  /** A formula of a rewrite that is neither in the sentence nor, its delimiters aside, in a cited source. */
  predicate Garbled(tools: Tools, sources: map<string, Source>, d: Draft, formula: string) {
    var key := tools.mathKey(formula);
    && !(exists m :: m in tools.math(d.text) && tools.mathKey(m) == key)
    && |key| >= 2
    && !Contains(tools.mathKey(Joined(sources, d.tags, TextOf)), key[1..|key| - 1])
  }

  predicate AltersMath(tools: Tools, sources: map<string, Source>, d: Draft, text: string) {
    exists m :: m in tools.math(tools.stripTags(text)) && Garbled(tools, sources, d, m)
  }

  /** The rewrite calls something a preprint although the status of every cited source says otherwise. */
  predicate Spurious(tools: Tools, sources: map<string, Source>, d: Draft, rewrite: string) {
    && (exists t :: t in d.tags && t in sources && sources[t].status != "")
    && (forall t :: t in d.tags && t in sources && sources[t].status != "" ==> !tools.isPreprint(sources[t].status))
    && tools.saysPreprint(rewrite) && !tools.saysPreprint(d.text)
  }

  function Tagged(tags: seq<string>): string {
    if tags == [] then "" else "[[" + tags[0] + "]]" + Tagged(tags[1..])
  }

  function WithTags(d: Draft): string {
    if d.tags == [] then d.text else d.text + " " + Tagged(d.tags)
  }

  function RewrittenText(tools: Tools, rewrite: string, d: Draft): string {
    tools.cleaned(rewrite) + " " + Tagged(d.tags)
  }

  datatype Options = Options(requireSpan: bool, nameCheck: bool)

  function Drop(i: nat, d: Draft, text: string, reason: Reason): Final {
    Final(i, d.section, text, Removed, d.tags, reason, None, None)
  }

  /** _apply_verdict */
  function Applied(tools: Tools, sources: map<string, Source>, o: Options, i: nat, d: Draft,
      v: Option<Verdict>): Final {
    if v.None? then Drop(i, d, WithTags(d), NoVerdict)
    else
      var j, rewrite := v.value.judgement, v.value.rewrite;
      if j.NotSupported? || (j.PartlySupported? && (rewrite.None? || rewrite.value == ""))
      then Drop(i, d, WithTags(d), Judged(j))
      else
        var spurious := j.PartlySupported? && Spurious(tools, sources, d, rewrite.value);
        var text := if j.SupportedBy? || spurious then WithTags(d) else RewrittenText(tools, rewrite.value, d);
        var source := SpanSource(tools, sources, v.value.span, d.tags);
        var missing := Missing(tools, About(sources, d.tags), tools.names(tools.stripTags(text)));
        if j.PartlySupported? && AltersMath(tools, sources, d, text) then Drop(i, d, text, AlteredMath)
        else if o.requireSpan && source.None? then Drop(i, d, text, NoValidSpan)
        else if o.nameCheck && missing != [] then Drop(i, d, text, NamesNotInSource(missing))
        else Final(i, d.section, text, if j.SupportedBy? then Supported else Rewritten, d.tags,
                   if spurious then SpuriousAttribution else NoReason,
                   if source.Some? then v.value.span else None, source)
  }

  /** What the checks guarantee of a sentence that is not removed. */
  ghost predicate Backed(tools: Tools, sources: map<string, Source>, o: Options, d: Draft, f: Final) {
    && f.tags == d.tags && f.section == d.section
    && (o.requireSpan ==> f.span.Some? && f.spanSource.Some? && f.spanSource.value in d.tags
                          && Holds(tools, sources, f.span.value, f.spanSource.value))
    && (f.spanSource.Some? ==> f.spanSource.value in d.tags)
    && (o.nameCheck ==> forall n :: n in tools.names(tools.stripTags(f.text)) ==>
      tools.mentions(n, About(sources, d.tags)))
    && (f.fate.Supported? ==> f.text == WithTags(d))
    && (f.fate.Rewritten? && f.reason.SpuriousAttribution? ==> f.text == WithTags(d))
  }

  lemma {:induction false} AppliedIsBacked(
      tools: Tools, sources: map<string, Source>, o: Options, i: nat, d: Draft, v: Option<Verdict>)
    ensures var f := Applied(tools, sources, o, i, d, v);
            && f.number == i && f.tags == d.tags && f.section == d.section
            && (!f.fate.Removed? ==> Backed(tools, sources, o, d, f))
            && (f.fate.Supported? ==> v.Some? && v.value.judgement.SupportedBy?)
            && (f.fate.Rewritten? ==>
              v.Some? && v.value.judgement.PartlySupported? && !AltersMath(tools, sources, d, f.text))
            && (f.reason.SpuriousAttribution? ==> f.fate.Rewritten?)
  {
    var f := Applied(tools, sources, o, i, d, v);
    if v.Some? && v.value.span.Some? { FirstHoldingIs(tools, sources, v.value.span.value, d.tags); }
    NothingMissing(tools, About(sources, d.tags), tools.names(tools.stripTags(f.text)));
  }

  // ----- batches ---------------------------------------------------------------------------------------------------

  datatype Item = Item(i: nat, d: Draft)

  /** The last result with index k, as a dictionary keeps it. */
  function LastWith(vs: seq<Verdict>, k: int): Option<Verdict> {
    if vs == [] then None
    else if vs[|vs| - 1].index == k then Some(vs[|vs| - 1])
    else LastWith(vs[..|vs| - 1], k)
  }

  /** The batch that the p-th sentence falls into, in batches of n, and its place there. */
  function BatchOf(n: nat, p: nat): nat
    requires n > 0
  {
    if p < n then 0 else 1 + BatchOf(n, p - n)
  }

  function PlaceOf(n: nat, p: nat): nat
    requires n > 0
  {
    if p < n then p else PlaceOf(n, p - n)
  }

  function BatchStart(n: nat, b: nat): nat { if b == 0 then 0 else n + BatchStart(n, b - 1) }

  lemma {:induction false} PlaceInBatch(n: nat, b: nat, k: nat)
    requires k < n
    ensures BatchOf(n, BatchStart(n, b) + k) == b && PlaceOf(n, BatchStart(n, b) + k) == k
  {
    if b > 0 { PlaceInBatch(n, b - 1, k); }
  }

  /** The verdict on the p-th sentence checked in a round: the one its batch gives to its place in the batch. */
  function VerdictOn(tools: Tools, again: bool, n: nat, p: nat): Option<Verdict>
    requires n > 0
  {
    LastWith(tools.output(again, BatchOf(n, p)), PlaceOf(n, p))
  }

  method Index(vs: seq<Verdict>) returns (byIndex: map<int, Verdict>)
    ensures forall k :: if k in byIndex then LastWith(vs, k) == Some(byIndex[k]) else LastWith(vs, k) == None
  {
    byIndex := map[];
    for j := 0 to |vs|
      invariant forall k :: if k in byIndex then LastWith(vs[..j], k) == Some(byIndex[k])
          else LastWith(vs[..j], k) == None
    {
      assert vs[..j + 1][..j] == vs[..j];
      byIndex := byIndex[vs[j].index := vs[j]];
    }
    assert vs[..|vs|] == vs;
  }

  /** What becomes of an item, given its verdict. */
  type Judge = (Item, Option<Verdict>) -> Final

  /** The finals of the first m items of a round. */
  function Checked(judge: Judge, tools: Tools, again: bool, n: nat, items: seq<Item>, m: nat): (r: seq<Final>)
    requires n > 0 && m <= |items|
    ensures |r| == m
  {
    if m == 0 then []
    else Checked(judge, tools, again, n, items, m - 1) + [judge(items[m - 1], VerdictOn(tools, again, n, m - 1))]
  }

  lemma {:induction false} CheckedAt(
      judge: Judge, tools: Tools, again: bool, n: nat, items: seq<Item>, m: nat, p: nat)
    requires n > 0 && p < m <= |items|
    ensures Checked(judge, tools, again, n, items, m)[p] == judge(items[p], VerdictOn(tools, again, n, p))
  {
    if p < m - 1 { CheckedAt(judge, tools, again, n, items, m - 1, p); }
  }

  lemma {:induction false} VerdictHere(tools: Tools, again: bool, n: nat, b: nat, k: nat, byIndex: map<int, Verdict>)
    requires k < n
    requires var vs := tools.output(again, b);
             if k in byIndex then LastWith(vs, k) == Some(byIndex[k]) else LastWith(vs, k) == None
    ensures (if k in byIndex then Some(byIndex[k]) else None) == VerdictOn(tools, again, n, BatchStart(n, b) + k)
  {
    PlaceInBatch(n, b, k);
  }

  /** The b-th batch, after the ones before it. */
  method CheckBatch(
      judge: Judge, tools: Tools, again: bool, n: nat, items: seq<Item>, b: nat, before: seq<Final>)
    returns (finals: seq<Final>)
    requires n > 0 && |before| == BatchStart(n, b) < |items|
    requires before == Checked(judge, tools, again, n, items, |before|)
    ensures |before| < |finals| <= |items| && (|finals| == |items| || |finals| == BatchStart(n, b + 1))
    ensures finals == Checked(judge, tools, again, n, items, |finals|)
  {
    finals := before;
    var byIndex := Index(tools.output(again, b));
    var k := 0;
    while k < n && |finals| < |items|
      invariant 0 <= k <= n && |finals| == |before| + k <= |items|
      invariant finals == Checked(judge, tools, again, n, items, |finals|)
    {
      VerdictHere(tools, again, n, b, k, byIndex);
      finals := finals + [judge(items[|finals|], if k in byIndex then Some(byIndex[k]) else None)];
      k := k + 1;
    }
  }

  /** All items, in batches of n, one after the other. */
  method CheckInBatches(judge: Judge, tools: Tools, again: bool, n: nat, items: seq<Item>) returns (finals: seq<Final>)
    requires n > 0
    ensures finals == Checked(judge, tools, again, n, items, |items|)
  {
    finals := [];
    var b := 0;
    while |finals| < |items|
      invariant |finals| <= |items| && (|finals| == |items| || |finals| == BatchStart(n, b))
      invariant finals == Checked(judge, tools, again, n, items, |finals|)
      decreases |items| - |finals|
    {
      finals := CheckBatch(judge, tools, again, n, items, b, finals);
      b := b + 1;
    }
  }

  method CheckAll(tools: Tools, sources: map<string, Source>, o: Options, again: bool, n: nat, items: seq<Item>)
    returns (finals: seq<Final>)
    requires n > 0
    ensures |finals| == |items| && forall p :: 0 <= p < |items| ==> finals[p].number == items[p].i
    ensures forall p :: 0 <= p < |items| ==>
              finals[p] == Applied(tools, sources, o, items[p].i, items[p].d, VerdictOn(tools, again, n, p))
  {
    var judge: Judge := (item: Item, v) => Applied(tools, sources, o, item.i, item.d, v);
    finals := CheckInBatches(judge, tools, again, n, items);
    forall p | 0 <= p < |items|
      ensures finals[p].number == items[p].i
      ensures finals[p] == Applied(tools, sources, o, items[p].i, items[p].d, VerdictOn(tools, again, n, p))
    {
      CheckedAt(judge, tools, again, n, items, |items|, p);
    }
  }

  // ----- the two rounds --------------------------------------------------------------------------------------------

  /** The sentences with at least one valid tag, in order. */
  function ToCheck(drafts: seq<Draft>, n: nat): seq<Item>
    requires n <= |drafts|
  {
    if n == 0 then []
    else ToCheck(drafts, n - 1) + if drafts[n - 1].tags != [] then [Item(n - 1, drafts[n - 1])] else []
  }

  function Invalid(i: nat, d: Draft): Final {
    Final(i, d.section, d.text, Removed, [], if d.invalidTags != [] then InvalidTag else NoTag, None, None)
  }

  /** The rewrites, to be checked once more without being rewritten again. */
  function Again(tools: Tools, finals: seq<Final>, n: nat): seq<Item>
    requires n <= |finals|
  {
    if n == 0 then []
    else
      var f := finals[n - 1];
      Again(tools, finals, n - 1)
      + if f.fate.Rewritten? then [Item(f.number, Draft(f.section, tools.stripTags(f.text), f.tags, []))] else []
  }

  /** A rewrite is kept only if the second verdict supports it; a spurious attribution leaves the original sentence. */
  function Settled(f: Final, r: Option<Final>): Final {
    if f.fate.Rewritten? && (r.None? || !r.value.fate.Supported?) then
      Final(f.number, f.section, f.text, Removed, f.tags, RewriteNotSupported, None, None)
    else if f.reason.SpuriousAttribution? then
      Final(f.number, f.section, f.text, Supported, f.tags, NoReason,
            if r.Some? then r.value.span else None, if r.Some? then r.value.spanSource else None)
    else f
  }

  /** The final a sentence gets from one verdict, and from a second one if it was rewritten. */
  ghost predicate Judges(
      tools: Tools, sources: map<string, Source>, o: Options, i: nat, d: Draft, f: Final,
      v: Option<Verdict>, w: Option<Verdict>)
  {
    var first := Applied(tools, sources, o, i, d, v);
    f == if o.requireSpan && first.fate.Rewritten?
         then Settled(first, Some(Applied(tools, sources, o, i,
             Draft(d.section, tools.stripTags(first.text), d.tags, []), w)))
         else first
  }

  /** What a sentence that is not removed can rely on. */
  ghost predicate Kept(tools: Tools, sources: map<string, Source>, o: Options, d: Draft, f: Final) {
    && d.tags != [] && f.tags == d.tags && f.section == d.section
    && (o.requireSpan ==> f.span.Some? && f.spanSource.Some? && f.spanSource.value in d.tags
                          && Holds(tools, sources, f.span.value, f.spanSource.value))
    && (o.nameCheck ==> forall n :: n in tools.names(tools.stripTags(f.text)) ==>
      tools.mentions(n, About(sources, d.tags)))
    && (f.fate.Supported? ==> f.text == WithTags(d))
  }

  /**
   * Any pair of verdicts leaves a sentence either removed or backed, and a kept rewrite was supported when
   * re-checked.
   */
  lemma {:induction false} JudgedIsKept(
      tools: Tools, sources: map<string, Source>, o: Options, i: nat, d: Draft, f: Final,
      v: Option<Verdict>, w: Option<Verdict>)
    requires d.tags != [] && Judges(tools, sources, o, i, d, f, v, w)
    ensures f.number == i && f.tags == d.tags
    ensures !f.fate.Removed? ==> Kept(tools, sources, o, d, f)
    ensures f.fate.Rewritten? && o.requireSpan ==>
              w.Some? && w.value.judgement.SupportedBy? && v.Some? && v.value.judgement.PartlySupported?
  {
    var first := Applied(tools, sources, o, i, d, v);
    AppliedIsBacked(tools, sources, o, i, d, v);
    AppliedIsBacked(tools, sources, o, i, Draft(d.section, tools.stripTags(first.text), d.tags, []), w);
  }

  function Firsts(tools: Tools, sources: map<string, Source>, o: Options, n: nat, items: seq<Item>): seq<Final>
    requires n > 0
  {
    seq(|items|, p requires 0 <= p < |items| => Applied(tools, sources, o, items[p].i, items[p].d,
        VerdictOn(tools, false, n, p)))
  }

  /** What becomes of the i-th sentence: its verdict is the one given to its place among the sentences checked. */
  function Outcome(tools: Tools, sources: map<string, Source>, o: Options, n: nat, drafts: seq<Draft>, i: nat): Final
    requires n > 0 && i < |drafts|
  {
    if drafts[i].tags == [] then Invalid(i, drafts[i])
    else
      var p := |ToCheck(drafts, i)|;
      var first := Applied(tools, sources, o, i, drafts[i], VerdictOn(tools, false, n, p));
      if !(o.requireSpan && first.fate.Rewritten?) then first
      else
        var d := Draft(first.section, tools.stripTags(first.text), first.tags, []);
        Settled(first, Some(Applied(tools, sources, o, i, d,
            VerdictOn(tools, true, n, Place(tools, sources, o, n, drafts, p)))))
  }

  /** The place of the p-th checked sentence among the rewrites. */
  function Place(tools: Tools, sources: map<string, Source>, o: Options, n: nat, drafts: seq<Draft>, p: nat): nat
    requires n > 0
  {
    var firsts := Firsts(tools, sources, o, n, ToCheck(drafts, |drafts|));
    if p <= |firsts| then |Again(tools, firsts, p)| else 0
  }

  /** The outcomes of the first k sentences. */
  function Outcomes(tools: Tools, sources: map<string, Source>, o: Options, n: nat, drafts: seq<Draft>,
      k: nat): (r: seq<Final>)
    requires n > 0 && k <= |drafts|
    ensures |r| == k
  {
    seq(k, i requires 0 <= i < k => Outcome(tools, sources, o, n, drafts, i))
  }

  lemma {:induction false} OutcomesAt(
      tools: Tools, sources: map<string, Source>, o: Options, n: nat, drafts: seq<Draft>, k: nat, i: nat)
    requires n > 0 && i < k <= |drafts|
    ensures Outcomes(tools, sources, o, n, drafts, k)[i] == Outcome(tools, sources, o, n, drafts, i)
  {}

  lemma {:induction false} ToCheckAt(drafts: seq<Draft>, n: nat, i: nat)
    requires i < n <= |drafts|
    ensures |ToCheck(drafts, i)| <= |ToCheck(drafts, n)|
    ensures drafts[i].tags != [] ==>
              |ToCheck(drafts, i)| < |ToCheck(drafts, n)| &&
                  ToCheck(drafts, n)[|ToCheck(drafts, i)|] == Item(i, drafts[i])
  {
    if i < n - 1 { ToCheckAt(drafts, n - 1, i); }
  }

  /** The checked sentences come in order. */
  lemma {:induction false} ToCheckIs(drafts: seq<Draft>, n: nat, p: nat)
    requires n <= |drafts| && p < |ToCheck(drafts, n)|
    ensures var item := ToCheck(drafts, n)[p];
            && item.i < n && item.d == drafts[item.i] && item.d.tags != [] && |ToCheck(drafts, item.i)| == p
  {
    if p < |ToCheck(drafts, n - 1)| { ToCheckIs(drafts, n - 1, p); }
  }

  lemma {:induction false} AgainAt(tools: Tools, finals: seq<Final>, n: nat, p: nat)
    requires p < n <= |finals|
    ensures |Again(tools, finals, p)| <= |Again(tools, finals, n)|
    ensures var f := finals[p];
            f.fate.Rewritten? ==>
              && |Again(tools, finals, p)| < |Again(tools, finals, n)|
              && Again(tools, finals, n)[|Again(tools, finals, p)|]
                 == Item(f.number, Draft(f.section, tools.stripTags(f.text), f.tags, []))
  {
    if p < n - 1 { AgainAt(tools, finals, n - 1, p); }
  }

  lemma {:induction false} AgainIs(tools: Tools, finals: seq<Final>, n: nat, q: nat) returns (p: nat)
    requires n <= |finals| && q < |Again(tools, finals, n)|
    ensures p < n && finals[p].fate.Rewritten? && |Again(tools, finals, p)| == q
    ensures Again(tools, finals, n)[q]
         == Item(finals[p].number, Draft(finals[p].section, tools.stripTags(finals[p].text), finals[p].tags, []))
  {
    if q < |Again(tools, finals, n - 1)| { p := AgainIs(tools, finals, n - 1, q); } else { p := n - 1; }
  }

  // ----- the answer in order ---------------------------------------------------------------------------------------

  ghost predicate Ascending(s: seq<Final>) {
    |s| < 2 || (s[|s| - 2].number < s[|s| - 1].number && Ascending(s[..|s| - 1]))
  }

  lemma {:induction false} AscendingAt(s: seq<Final>, a: nat, b: nat)
    requires Ascending(s) && a < b < |s|
    ensures s[a].number < s[b].number
    decreases |s|
  {
    var k := |s| - 1;
    if b < k { AscendingAt(s[..k], a, b); } else if a < k - 1 { AscendingAt(s[..k], a, k - 1); }
  }

  /** list.sort by sequence number, by insertion. */
  function Inserted(s: seq<Final>, x: Final): seq<Final> {
    if s != [] && s[|s| - 1].number > x.number then Inserted(s[..|s| - 1], x) + [s[|s| - 1]] else s + [x]
  }

  lemma {:induction false} InsertedHas(s: seq<Final>, x: Final, f: Final)
    ensures |Inserted(s, x)| == |s| + 1
    ensures f in Inserted(s, x) <==> f in s || f == x
  {
    if s != [] && s[|s| - 1].number > x.number {
      InsertedHas(s[..|s| - 1], x, f);
      assert s == s[..|s| - 1] + [s[|s| - 1]];
    }
  }

  lemma {:induction false} InsertedAscends(s: seq<Final>, x: Final)
    requires Ascending(s) && forall f :: f in s ==> f.number != x.number
    ensures var t := Inserted(s, x);
            t != [] && Ascending(t) && (t[|t| - 1] == x || (s != [] && t[|t| - 1] == s[|s| - 1]))
  {
    if s != [] && s[|s| - 1].number > x.number {
      var k := |s| - 1;
      var less := Inserted(s[..k], x);
      InsertedAscends(s[..k], x);
      var t := less + [s[k]];
      assert t[..|t| - 1] == less;
    } else {
      var t := s + [x];
      assert t[..|s|] == s;
      if s != [] { assert s[|s| - 1] in s; }
    }
  }

  /** Ascending numbers below the length are 0, 1, 2 and so on. */
  lemma {:induction false} NumbersAreDense(s: seq<Final>, i: nat)
    requires Ascending(s) && i < |s| && forall f :: f in s ==> f.number < |s|
    ensures s[i].number == i
  {
    AtLeast(s, i);
    AtMost(s, i, |s|);
  }

  lemma {:induction false} AtLeast(s: seq<Final>, i: nat)
    requires Ascending(s) && i < |s|
    ensures s[i].number >= i
  {
    if i > 0 {
      AscendingAt(s, i - 1, i);
      AtLeast(s, i - 1);
    }
  }

  lemma {:induction false} AtMost(s: seq<Final>, i: nat, n: nat)
    requires Ascending(s) && i < |s| <= n && forall f :: f in s ==> f.number < n
    ensures s[i].number <= n - (|s| - i)
    decreases |s| - i
  {
    assert s[i] in s;
    if i < |s| - 1 {
      AscendingAt(s, i, i + 1);
      AtMost(s, i + 1, n);
    }
  }

  // ----- verify_sentences ------------------------------------------------------------------------------------------

  method Partition(drafts: seq<Draft>) returns (invalid: seq<Final>, items: seq<Item>)
    ensures items == ToCheck(drafts, |drafts|) && |invalid| + |items| == |drafts|
    ensures forall f :: f in invalid ==> IsInvalid(drafts, f)
    ensures Ascending(invalid)
  {
    invalid, items := [], [];
    for i := 0 to |drafts|
      invariant items == ToCheck(drafts, i) && |invalid| + |items| == i
      invariant forall f :: f in invalid ==> IsInvalid(drafts, f) && f.number < i
      invariant Ascending(invalid)
    {
      if drafts[i].tags == [] {
        if invalid != [] { assert invalid[|invalid| - 1] in invalid; }
        assert (invalid + [Invalid(i, drafts[i])])[..|invalid|] == invalid;
        invalid := invalid + [Invalid(i, drafts[i])];
      } else {
        items := items + [Item(i, drafts[i])];
      }
    }
  }

  /** The second round's final for the p-th sentence checked, if it was rewritten. */
  function Second(tools: Tools, sources: map<string, Source>, o: Options, n: nat, firsts: seq<Final>,
      p: nat): Option<Final>
    requires n > 0 && p < |firsts|
  {
    var f := firsts[p];
    if f.fate.Rewritten? then
      Some(Applied(tools, sources, o, f.number, Draft(f.section, tools.stripTags(f.text), f.tags, []),
                   VerdictOn(tools, true, n, |Again(tools, firsts, p)|)))
    else None
  }

  function Lookup(bySeq: map<nat, Final>, i: nat): Option<Final> { if i in bySeq then Some(bySeq[i]) else None }

  method SettleAll(all: seq<Final>, bySeq: map<nat, Final>) returns (finals: seq<Final>)
    ensures |finals| == |all| && forall k :: 0 <= k < |all| ==>
        finals[k] == Settled(all[k], Lookup(bySeq, all[k].number))
  {
    finals := [];
    for k := 0 to |all|
      invariant |finals| == k && forall j :: 0 <= j < k ==> finals[j] == Settled(all[j], Lookup(bySeq, all[j].number))
    {
      finals := finals + [Settled(all[k], Lookup(bySeq, all[k].number))];
    }
  }

  lemma {:induction false} NotRechecked(tools: Tools, firsts: seq<Final>, p: nat, q: nat)
    requires Ascending(firsts) && p < |firsts| && !firsts[p].fate.Rewritten? && q < |Again(tools, firsts, |firsts|)|
    ensures Again(tools, firsts, |firsts|)[q].i != firsts[p].number
  {
    var r := AgainIs(tools, firsts, |firsts|, q);
    if p < r { AscendingAt(firsts, p, r); } else if r < p { AscendingAt(firsts, r, p); }
  }

  /** What the second round says on each sentence. */
  method Rechecks(tools: Tools, sources: map<string, Source>, o: Options, n: nat, firsts: seq<Final>)
    returns (bySeq: map<nat, Final>)
    requires n > 0 && Ascending(firsts)
    ensures forall p :: 0 <= p < |firsts| ==> Lookup(bySeq, firsts[p].number) == Second(tools, sources, o, n, firsts, p)
  {
    var again := Again(tools, firsts, |firsts|);
    var rechecks := CheckAll(tools, sources, o, true, n, again);
    bySeq := SeqIndex(tools, firsts, again, rechecks);
    forall p | 0 <= p < |firsts| ensures Lookup(bySeq, firsts[p].number) == Second(tools, sources, o, n, firsts, p) {
      if firsts[p].fate.Rewritten? {
        AgainAt(tools, firsts, |firsts|, p);
        assert again[|Again(tools, firsts, p)|].i == firsts[p].number;
      } else {
        forall q | 0 <= q < |again| ensures again[q].i != firsts[p].number { NotRechecked(tools, firsts, p, q); }
      }
    }
  }

  /** Rechecked finals by sequence number; no two rewrites have the same one. */
  method SeqIndex(tools: Tools, firsts: seq<Final>, again: seq<Item>, rechecks: seq<Final>)
    returns (bySeq: map<nat, Final>)
    requires again == Again(tools, firsts, |firsts|) && Ascending(firsts) && |rechecks| == |again|
    requires forall q :: 0 <= q < |again| ==> rechecks[q].number == again[q].i
    ensures forall k :: k in bySeq <==> exists q :: 0 <= q < |again| && again[q].i == k
    ensures forall q :: 0 <= q < |again| ==> again[q].i in bySeq && bySeq[again[q].i] == rechecks[q]
  {
    bySeq := map[];
    for q := 0 to |rechecks|
      invariant forall k :: k in bySeq <==> exists j :: 0 <= j < q && again[j].i == k
      invariant forall j :: 0 <= j < q ==> again[j].i in bySeq && bySeq[again[j].i] == rechecks[j]
    {
      forall j | 0 <= j < q ensures again[j].i != again[q].i {
        var a := AgainIs(tools, firsts, |firsts|, j);
        var b := AgainIs(tools, firsts, |firsts|, q);
        if a < b { AscendingAt(firsts, a, b); } else if b < a { AscendingAt(firsts, b, a); }
      }
      bySeq := bySeq[rechecks[q].number := rechecks[q]];
    }
  }

  lemma {:induction false} FirstsAscend(drafts: seq<Draft>, firsts: seq<Final>, k: nat)
    requires |firsts| == |ToCheck(drafts, |drafts|)| && k <= |firsts|
    requires forall p :: 0 <= p < |firsts| ==> firsts[p].number == ToCheck(drafts, |drafts|)[p].i
    ensures Ascending(firsts[..k])
  {
    if k > 0 {
      FirstsAscend(drafts, firsts, k - 1);
      assert firsts[..k][..k - 1] == firsts[..k - 1];
      if k > 1 {
        var items := ToCheck(drafts, |drafts|);
        ToCheckIs(drafts, |drafts|, k - 2);
        ToCheckIs(drafts, |drafts|, k - 1);
        ToCheckGrows(drafts, items[k - 2].i, items[k - 1].i);
      }
    }
  }

  lemma {:induction false} ToCheckGrows(drafts: seq<Draft>, i: nat, j: nat)
    requires i <= |drafts| && j <= |drafts| && |ToCheck(drafts, i)| < |ToCheck(drafts, j)|
    ensures i < j
  {
    if j < i { ToCheckAt(drafts, i, j); }
  }

  method SortFinals(all: seq<Final>) returns (sorted: seq<Final>)
    requires forall a, b :: 0 <= a < b < |all| ==> all[a].number != all[b].number
    ensures Ascending(sorted) && |sorted| == |all| && forall f :: f in sorted <==> f in all
  {
    sorted := [];
    for k := 0 to |all|
      invariant Ascending(sorted) && |sorted| == k && forall f :: f in sorted <==> f in all[..k]
    {
      assert all[..k + 1] == all[..k] + [all[k]];
      forall f | f in sorted ensures f.number != all[k].number {
        assert f in all[..k];
        var a :| 0 <= a < k && all[a] == f;
      }
      InsertedAscends(sorted, all[k]);
      forall f ensures f in Inserted(sorted, all[k]) <==> f in sorted || f == all[k] { InsertedHas(sorted, all[k], f); }
      InsertedHas(sorted, all[k], all[k]);
      sorted := Inserted(sorted, all[k]);
    }
    assert all[..|all|] == all;
  }

  lemma {:induction false} CheckedOutcome(
      tools: Tools, sources: map<string, Source>, o: Options, n: nat, drafts: seq<Draft>, p: nat)
    requires n > 0 && p < |ToCheck(drafts, |drafts|)|
    ensures var items := ToCheck(drafts, |drafts|);
            var firsts := Firsts(tools, sources, o, n, items);
            var f := if o.requireSpan then Settled(firsts[p], Second(tools, sources, o, n, firsts, p)) else firsts[p];
            && items[p].i < |drafts| && drafts[items[p].i].tags != []
            && f.number == items[p].i && f == Outcomes(tools, sources, o, n, drafts, |drafts|)[items[p].i]
  {
    var items := ToCheck(drafts, |drafts|);
    ToCheckIs(drafts, |drafts|, p);
    OutcomesAt(tools, sources, o, n, drafts, |drafts|, items[p].i);
    AppliedIsBacked(tools, sources, o, items[p].i, items[p].d, VerdictOn(tools, false, n, p));
  }

  predicate IsInvalid(drafts: seq<Draft>, f: Final) {
    f.number < |drafts| && drafts[f.number].tags == [] && f == Invalid(f.number, drafts[f.number])
  }

  /** The unsorted list: the invalid sentences, then the outcomes of those checked. */
  ghost predicate Unsorted(
      tools: Tools, sources: map<string, Source>, o: Options, n: nat, drafts: seq<Draft>,
      invalid: seq<Final>, all: seq<Final>)
    requires n > 0
  {
    var items, so := ToCheck(drafts, |drafts|), Outcomes(tools, sources, o, n, drafts, |drafts|);
    && (forall f :: f in invalid ==> IsInvalid(drafts, f))
    && |all| == |invalid| + |items| == |drafts| && all[..|invalid|] == invalid
    && forall p :: 0 <= p < |items| ==>
         && items[p].i < |drafts| && drafts[items[p].i].tags != []
         && all[|invalid| + p].number == items[p].i && all[|invalid| + p] == so[items[p].i]
  }

  lemma {:induction false} InvalidOutcome(
      tools: Tools, sources: map<string, Source>, o: Options, n: nat, drafts: seq<Draft>, f: Final)
    requires n > 0 && IsInvalid(drafts, f)
    ensures f.number < |drafts| && drafts[f.number].tags == [] &&
        f == Outcomes(tools, sources, o, n, drafts, |drafts|)[f.number]
  {
    OutcomesAt(tools, sources, o, n, drafts, |drafts|, f.number);
  }

  /** Where the a-th of the unsorted finals comes from. */
  predicate ComesFrom(drafts: seq<Draft>, invalid: seq<Final>, all: seq<Final>, a: nat) {
    && a < |all| && all[a].number < |drafts| && (a < |invalid| <==> drafts[all[a].number].tags == [])
    && (a < |invalid| ==> all[a] == invalid[a])
    && (a >= |invalid| ==> a - |invalid| < |ToCheck(drafts, |drafts|)|
                           && all[a].number == ToCheck(drafts, |drafts|)[a - |invalid|].i)
  }

  lemma {:induction false} InvalidAt(
      tools: Tools, sources: map<string, Source>, o: Options, n: nat, drafts: seq<Draft>,
      invalid: seq<Final>, all: seq<Final>, a: nat)
    requires n > 0 && Unsorted(tools, sources, o, n, drafts, invalid, all) && a < |invalid|
    ensures ComesFrom(drafts, invalid, all, a)
    ensures all[a] == Outcomes(tools, sources, o, n, drafts, |drafts|)[all[a].number]
  {
    assert all[a] == all[..|invalid|][a];
    assert invalid[a] in invalid;
    InvalidOutcome(tools, sources, o, n, drafts, invalid[a]);
  }

  lemma {:induction false} UnsortedAt(
      tools: Tools, sources: map<string, Source>, o: Options, n: nat, drafts: seq<Draft>,
      invalid: seq<Final>, all: seq<Final>, a: nat)
    requires n > 0 && Unsorted(tools, sources, o, n, drafts, invalid, all) && a < |all|
    ensures ComesFrom(drafts, invalid, all, a)
    ensures all[a] == Outcomes(tools, sources, o, n, drafts, |drafts|)[all[a].number]
  {
    if a < |invalid| {
      InvalidAt(tools, sources, o, n, drafts, invalid, all, a);
    } else {
      var p := a - |invalid|;
      assert ToCheck(drafts, |drafts|)[p].i < |drafts| && all[|invalid| + p] == all[a];
    }
  }

  lemma {:induction false} UnsortedApart(drafts: seq<Draft>, invalid: seq<Final>, all: seq<Final>, a: nat, b: nat)
    requires a < b && Ascending(invalid)
    requires ComesFrom(drafts, invalid, all, a) && ComesFrom(drafts, invalid, all, b)
    ensures all[a].number != all[b].number
  {
    if b < |invalid| {
      AscendingAt(invalid, a, b);
    } else if a >= |invalid| {
      CheckedApart(drafts, a - |invalid|, b - |invalid|);
    }
  }

  lemma {:induction false} CheckedApart(drafts: seq<Draft>, p: nat, q: nat)
    requires p < q < |ToCheck(drafts, |drafts|)|
    ensures ToCheck(drafts, |drafts|)[p].i != ToCheck(drafts, |drafts|)[q].i
  {
    ToCheckIs(drafts, |drafts|, p);
    ToCheckIs(drafts, |drafts|, q);
  }

  /** Both rounds; the finals are still in the order in which they were decided. */
  method Decide(tools: Tools, sources: map<string, Source>, o: Options, n: nat, drafts: seq<Draft>)
    returns (all: seq<Final>, ghost invalid: seq<Final>)
    requires n > 0
    ensures Unsorted(tools, sources, o, n, drafts, invalid, all) && Ascending(invalid)
  {
    var removed, items := Partition(drafts);
    var firsts := CheckAll(tools, sources, o, false, n, items);
    assert firsts == Firsts(tools, sources, o, n, items);
    FirstsAscend(drafts, firsts, |firsts|);
    assert firsts[..|firsts|] == firsts;
    invalid := removed;
    all := removed + firsts;
    if o.requireSpan {
      var bySeq := Rechecks(tools, sources, o, n, firsts);
      all := SettleAll(all, bySeq);
    }
    forall k | 0 <= k < |removed| ensures all[k] == removed[k] {
      assert removed[k] in removed;
      assert IsInvalid(drafts, removed[k]);
      assert (removed + firsts)[k] == removed[k];
    }
    assert all[..|removed|] == removed;
    forall p | 0 <= p < |items|
      ensures items[p].i < |drafts| && drafts[items[p].i].tags != [] && all[|removed| + p].number == items[p].i
           && all[|removed| + p] == Outcomes(tools, sources, o, n, drafts, |drafts|)[items[p].i]
    {
      CheckedOutcome(tools, sources, o, n, drafts, p);
      assert (removed + firsts)[|removed| + p] == firsts[p];
    }
  }

  /** verify_sentences: one final per sentence, in order, each the outcome of the verdicts on its place. */
  method VerifySentences(tools: Tools, sources: map<string, Source>, o: Options, n: nat, drafts: seq<Draft>)
    returns (finals: seq<Final>)
    requires n > 0
    ensures |finals| == |drafts|
    ensures finals == Outcomes(tools, sources, o, n, drafts, |drafts|)
  {
    ghost var invalid;
    var all;
    all, invalid := Decide(tools, sources, o, n, drafts);
    forall a, b | 0 <= a < b < |all| ensures all[a].number != all[b].number {
      UnsortedAt(tools, sources, o, n, drafts, invalid, all, a);
      UnsortedAt(tools, sources, o, n, drafts, invalid, all, b);
      UnsortedApart(drafts, invalid, all, a, b);
    }
    finals := SortFinals(all);
    ghost var so := Outcomes(tools, sources, o, n, drafts, |drafts|);
    forall f | f in finals ensures f.number < |so| && f == so[f.number] {
      var k :| 0 <= k < |all| && all[k] == f;
      UnsortedAt(tools, sources, o, n, drafts, invalid, all, k);
    }
    InItsPlace(finals, so);
  }

  lemma {:induction false} InItsPlace(s: seq<Final>, so: seq<Final>)
    requires Ascending(s) && |s| == |so| && forall f :: f in s ==> f.number < |so| && f == so[f.number]
    ensures s == so
  {
    forall i | 0 <= i < |s| ensures s[i] == so[i] {
      NumbersAreDense(s, i);
      assert s[i] in s;
    }
  }

  /**
   * Whatever the verifier answers, a sentence that is not removed had a valid tag, keeps exactly its tags, has a span
   * in a source it cites and names nothing its sources do not; and a rewrite was supported when checked again.
   */
  lemma {:induction false} NothingUnbacked(
      tools: Tools, sources: map<string, Source>, o: Options, n: nat, drafts: seq<Draft>, i: nat)
    requires n > 0 && i < |drafts|
    ensures var f := Outcome(tools, sources, o, n, drafts, i);
            && f.number == i && (f.tags == [] || f.tags == drafts[i].tags)
            && (!f.fate.Removed? ==> Kept(tools, sources, o, drafts[i], f))
            && (f.fate.Rewritten? && o.requireSpan ==>
                  var w := VerdictOn(tools, true, n, Place(tools, sources, o, n, drafts, |ToCheck(drafts, i)|));
                  w.Some? && w.value.judgement.SupportedBy?)
  {
    if drafts[i].tags != [] {
      var p := |ToCheck(drafts, i)|;
      var v := VerdictOn(tools, false, n, p);
      var q := Place(tools, sources, o, n, drafts, p);
      var f := Outcome(tools, sources, o, n, drafts, i);
      AppliedIsBacked(tools, sources, o, i, drafts[i], v);
      JudgedIsKept(tools, sources, o, i, drafts[i], f, v, VerdictOn(tools, true, n, q));
    }
  }

  /** The tags of a draft are what the tag loop made of some tags the writer wrote. */
  ghost predicate Filtered(ids: AnswerText.ArxivIds, allowed: set<string>, d: Draft) {
    exists written :: d.tags == AnswerText.Good(ids, written, allowed)
  }

  /**
   * Whatever tags the writer wrote, every tag of every final, removed ones included, is one of the sources it was
   * offered: the tag filter lets no other through, and verification adds none.
   */
  lemma {:induction false} StoreLookupsSucceed(
      tools: Tools, sources: map<string, Source>, o: Options, n: nat, drafts: seq<Draft>,
      ids: AnswerText.ArxivIds, allowed: set<string>, i: nat, t: string)
    requires n > 0 && i < |drafts| && forall d :: d in drafts ==> Filtered(ids, allowed, d)
    requires t in Outcome(tools, sources, o, n, drafts, i).tags
    ensures t in allowed
  {
    NothingUnbacked(tools, sources, o, n, drafts, i);
    var d := drafts[i];
    assert d in drafts;
    var written :| d.tags == AnswerText.Good(ids, written, allowed);
    AnswerText.GoodTags(ids, written, allowed, t);
  }
}
