/**
 * TEI documents as element trees: what to_tei writes and what parse_tei reads back.
 *
 * The two are not inverse to each other on every document; ParseOfTei says exactly what comes back, and RoundTrip for
 * which documents that is the document itself.  Trees have no text after a child element (to_tei writes none).
 */
module Tei {
  import opened Common
  import opened Documents

  datatype Elem = Elem(tag: string, attrs: map<string, string>, text: string, children: seq<Elem>)

  /** The character classes and the searches of the source's regular expressions. */
  datatype Lexis = Lexis(
    space: char -> bool,                     // white space
    valid: char -> bool,                     // allowed in XML
    sentences: string -> seq<string>,        // split_sentences on collapsed text
    normalId: string -> Option<string>,      // normalize_id
    idsIn: string -> seq<string>,            // find_ids
    yearIn: string -> Option<int>)

  // ----- text ------------------------------------------------------------------------------------------------------

  function Safe(l: Lexis, s: string): string {
    if s == "" then "" else if l.valid(s[0]) then [s[0]] + Safe(l, s[1..]) else Safe(l, s[1..])
  }

  /** The first word of s and what follows it; s starts with no white space. */
  function WordEnd(l: Lexis, s: string): (n: nat)
    ensures n <= |s|
  {
    if s == "" || l.space(s[0]) then 0 else 1 + WordEnd(l, s[1..])
  }

  /** " ".join(s.split()) */
  function Collapse(l: Lexis, s: string): string
    decreases |s|
  {
    if s == "" then ""
    else if l.space(s[0]) then Collapse(l, s[1..])
    else
      var n := WordEnd(l, s);
      var rest := Collapse(l, s[n..]);
      if rest == "" then s[..n] else s[..n] + " " + rest
  }

  lemma {:induction false} WordEndIs(l: Lexis, s: string)
    ensures forall i :: 0 <= i < WordEnd(l, s) ==> !l.space(s[i])
    ensures WordEnd(l, s) < |s| ==> l.space(s[WordEnd(l, s)])
  {
    if s != "" && !l.space(s[0]) {
      WordEndIs(l, s[1..]);
      forall i | 0 <= i < WordEnd(l, s) ensures !l.space(s[i]) { if i > 0 { assert s[1..][i - 1] == s[i]; } }
    }
  }

  lemma {:induction false} WordEndOf(l: Lexis, w: string, rest: string)
    requires forall i :: 0 <= i < |w| ==> !l.space(w[i])
    requires rest == "" || l.space(rest[0])
    ensures WordEnd(l, w + rest) == |w|
  {
    if w == "" {
      assert w + rest == rest;
    } else {
      WordEndOf(l, w[1..], rest);
      assert (w + rest)[1..] == w[1..] + rest;
    }
  }

  /** Collapsed text stays as it is. */
  lemma {:induction false} CollapseTwice(l: Lexis, s: string)
    requires l.space(' ')
    ensures Collapse(l, Collapse(l, s)) == Collapse(l, s)
    ensures Collapse(l, s) != "" ==> !l.space(Collapse(l, s)[0])
    decreases |s|
  {
    if s != "" {
      if l.space(s[0]) {
        CollapseTwice(l, s[1..]);
      } else {
        var n := WordEnd(l, s);
        var w, rest := s[..n], Collapse(l, s[n..]);
        CollapseTwice(l, s[n..]);
        WordEndIs(l, s);
        if rest == "" {
          WordEndOf(l, w, "");
          assert w + "" == w && w[n..] == "";
        } else {
          var t := w + " " + rest;
          assert t == w + (" " + rest);
          WordEndOf(l, w, " " + rest);
          assert t[n..] == " " + rest && t[..n] == w;
          assert (" " + rest)[1..] == rest;
        }
      }
    }
  }

  /** Only white space collapses to nothing. */
  lemma {:induction false} CollapseEmpty(l: Lexis, s: string)
    ensures Collapse(l, s) == "" <==> forall i :: 0 <= i < |s| ==> l.space(s[i])
    decreases |s|
  {
    if s != "" {
      CollapseEmpty(l, s[1..]);
      assert forall i :: 1 <= i < |s| ==> s[1..][i - 1] == s[i];
    }
  }

  // ----- reading a tree --------------------------------------------------------------------------------------------

  /** "".join(el.itertext()) */
  function AllText(e: Elem): string { e.text + AllTexts(e.children) }

  function AllTexts(es: seq<Elem>): string {
    if es == [] then "" else AllText(es[0]) + AllTexts(es[1..])
  }

  function TextOf(l: Lexis, e: Elem): string { Collapse(l, AllText(e)) }

  /** el.findall(tag) */
  function Children(es: seq<Elem>, tag: string): seq<Elem> {
    if es == [] then []
    else if es[0].tag == tag then [es[0]] + Children(es[1..], tag)
    else Children(es[1..], tag)
  }

  /** el.find(path): the first match in document order. */
  function Find(e: Elem, path: seq<string>): Option<Elem>
    decreases |path|, 0
  {
    if path == [] then Some(e) else FindIn(e.children, path)
  }

  function FindIn(es: seq<Elem>, path: seq<string>): Option<Elem>
    requires path != []
    decreases |path|, |es|
  {
    if es == [] then None
    else
      var here := if es[0].tag == path[0] then FindRest(es[0], path) else None;
      if here.Some? then here else FindIn(es[1..], path)
  }

  function FindRest(e: Elem, path: seq<string>): Option<Elem>
    requires path != []
    decreases |path|, 0
  {
    if |path| == 1 then Some(e) else FindIn(e.children, path[1..])
  }

  /** el.iter(tag): the element itself and all its descendants, in document order. */
  function Iter(e: Elem, tag: string): seq<Elem> {
    if e.tag == tag then [e] + IterAll(e.children, tag) else IterAll(e.children, tag)
  }

  function IterAll(es: seq<Elem>, tag: string): seq<Elem> {
    if es == [] then [] else Iter(es[0], tag) + IterAll(es[1..], tag)
  }

  function OrText(l: Lexis, e: Option<Elem>): string { if e.Some? then TextOf(l, e.value) else "" }

  /** `x or None` */
  function OrNone(s: string): Option<string> { if s == "" then None else Some(s) }

  function NonEmpty(ss: seq<string>): seq<string> {
    if ss == [] then [] else if ss[0] == "" then NonEmpty(ss[1..]) else [ss[0]] + NonEmpty(ss[1..])
  }

  function Texts(l: Lexis, es: seq<Elem>): seq<string> {
    seq(|es|, i requires 0 <= i < |es| => TextOf(l, es[i]))
  }

  /** split_sentences */
  function SplitSentences(l: Lexis, text: string): seq<string> {
    if Collapse(l, text) == "" then [] else NonEmpty(l.sentences(Collapse(l, text)))
  }

  /** _paragraph */
  function Paragraph(l: Lexis, p: Elem): seq<string> {
    var sentences := NonEmpty(Texts(l, Children(p.children, "s")));
    if sentences != [] then sentences else SplitSentences(l, TextOf(l, p))
  }

  function Paragraphs(l: Lexis, ps: seq<Elem>): seq<seq<string>> {
    if ps == [] then []
    else if Paragraph(l, ps[0]) == [] then Paragraphs(l, ps[1..])
    else [Paragraph(l, ps[0])] + Paragraphs(l, ps[1..])
  }

  /** _head */
  function Head(l: Lexis, div: Elem): string {
    var head := Find(div, ["head"]);
    if head.None? then ""
    else
      var text := TextOf(l, head.value);
      if "n" in head.value.attrs && head.value.attrs["n"] != "" && !(head.value.attrs["n"] <= text)
      then head.value.attrs["n"] + " " + text else text
  }

  predicate Skipped(div: Elem) {
    "type" in div.attrs
    && div.attrs["type"] in {"acknowledgement", "acknowledgment", "funding", "availability", "references"}
  }

  /** The sections of the divisions below: of each its own paragraphs, then its divisions. */
  function SectionsOf(l: Lexis, e: Elem, default: string): seq<Section> { SectionsIn(l, e.children, default) }

  function SectionsIn(l: Lexis, es: seq<Elem>, default: string): seq<Section> {
    if es == [] then []
    else if es[0].tag != "div" || Skipped(es[0]) then SectionsIn(l, es[1..], default)  // the whole subtree
    else Own(l, es[0], default) + SectionsOf(l, es[0], default) + SectionsIn(l, es[1..], default)
  }

  function Own(l: Lexis, div: Elem, default: string): seq<Section> {
    var paragraphs := Paragraphs(l, Children(div.children, "p"));
    if paragraphs == [] then []
    else [Section(if Head(l, div) == "" then default else Head(l, div), paragraphs)]
  }

  function OrSections(l: Lexis, e: Option<Elem>, default: string): seq<Section> {
    if e.Some? then SectionsOf(l, e.value, default) else []
  }

  function Attr(e: Elem, name: string): string { if name in e.attrs then e.attrs[name] else "" }

  function FirstYear(l: Lexis, dates: seq<Elem>): Option<int> {
    if dates == [] then None
    else
      var text := if Attr(dates[0], "when") != "" then Attr(dates[0], "when") else TextOf(l, dates[0]);
      if l.yearIn(text).Some? then l.yearIn(text) else FirstYear(l, dates[1..])
  }

  function FirstRaw(l: Lexis, notes: seq<Elem>): string {
    if notes == [] then ""
    else if "type" in notes[0].attrs && notes[0].attrs["type"] == "raw_reference" then TextOf(l, notes[0])
    else FirstRaw(l, notes[1..])
  }

  function Lower(c: char): char { if 'A' <= c <= 'Z' then (c as int + 32) as char else c }

  function Lowered(s: string): string { if s == "" then "" else [Lower(s[0])] + Lowered(s[1..]) }

  /** The first usable id; the last one looked at stays if none is. */
  function FirstId(l: Lexis, idnos: seq<Elem>, last: Option<string>): Option<string> {
    if idnos == [] then last
    else if Lowered(Attr(idnos[0], "type")) != "arxiv" then FirstId(l, idnos[1..], last)
    else
      var id := l.normalId(TextOf(l, idnos[0]));
      if id.Some? && id.value != "" then id else FirstId(l, idnos[1..], id)
  }

  /** _reference */
  function ReadReference(l: Lexis, position: nat, bibl: Elem): Reference {
    var analytic := OrText(l, Find(bibl, ["analytic", "title"]));
    var title := if analytic != "" then analytic else OrText(l, Find(bibl, ["monogr", "title"]));
    var raw := FirstRaw(l, Iter(bibl, "note"));
    var id := FirstId(l, Iter(bibl, "idno"), None);
    var found := if id.None? && raw != "" && l.idsIn(raw) != [] then Some(l.idsIn(raw)[0]) else id;
    Reference(position, OrNone(title), FirstYear(l, Iter(bibl, "date")), found, OrNone(raw))
  }

  function ReadReferences(l: Lexis, bibls: seq<Elem>): seq<Reference> {
    seq(|bibls|, i requires 0 <= i < |bibls| => ReadReference(l, i + 1, bibls[i]))
  }

  function Bibls(lists: seq<Elem>): seq<Elem> {
    if lists == [] then [] else Children(lists[0].children, "biblStruct") + Bibls(lists[1..])
  }

  /** parse_tei, on the tree */
  function Parse(l: Lexis, root: Elem): ParsedDoc {
    var abstract_ := Find(root, ["teiHeader", "profileDesc", "abstract"]);
    var paragraphs := if abstract_.Some? then Paragraphs(l, Iter(abstract_.value, "p")) else [];
    var first := if paragraphs != [] then [Section("Abstract", paragraphs)] else [];
    var text := Find(root, ["text"]);
    ParsedDoc(
      OrText(l, Find(root, ["teiHeader", "fileDesc", "titleStmt", "title"])),
      if text.None? then first
      else
        first + OrSections(l, Find(text.value, ["body"]), "Body")
        + OrSections(l, Find(text.value, ["back"]), "Appendix"),
      if text.None? then []
      else
        var bibls := Bibls(Iter(text.value, "listBibl"));
        ReadReferences(l, bibls))
  }

  // ----- writing a tree --------------------------------------------------------------------------------------------

  function Leaf(tag: string, text: string): Elem { Elem(tag, map[], text, []) }

  function Node(tag: string, children: seq<Elem>): Elem { Elem(tag, map[], "", children) }

  function WrittenParagraph(l: Lexis, para: seq<string>): Elem {
    Node("p", seq(|para|, i requires 0 <= i < |para| => Leaf("s", Safe(l, para[i]))))
  }

  function WrittenParagraphs(l: Lexis, paras: seq<seq<string>>): seq<Elem> {
    seq(|paras|, i requires 0 <= i < |paras| => WrittenParagraph(l, paras[i]))
  }

  function WrittenSection(l: Lexis, s: Section): Elem {
    Node("div", [Leaf("head", Safe(l, s.head))] + WrittenParagraphs(l, s.paragraphs))
  }

  function WrittenAbstract(l: Lexis, s: Section): Elem {
    Node("abstract", [Node("div", WrittenParagraphs(l, s.paragraphs))])
  }

  function Abstracts(l: Lexis, sections: seq<Section>): seq<Elem> {
    if sections == [] then []
    else if sections[0].head == "Abstract" then [WrittenAbstract(l, sections[0])] + Abstracts(l, sections[1..])
    else Abstracts(l, sections[1..])
  }

  function Divisions(l: Lexis, sections: seq<Section>): seq<Elem> {
    if sections == [] then []
    else if sections[0].head == "Abstract" then Divisions(l, sections[1..])
    else [WrittenSection(l, sections[0])] + Divisions(l, sections[1..])
  }

  /** A field that is None or empty is not written. */
  function Given(x: Option<string>): bool { x.Some? && x.value != "" }

  function WrittenReference(l: Lexis, r: Reference): Elem {
    Node("biblStruct",
         (if Given(r.title) then [Node("analytic", [Leaf("title", Safe(l, r.title.value))])] else [])
         + (if Given(r.arxivId) then [Elem("idno", map["type" := "arXiv"], r.arxivId.value, [])] else [])
         + (if Given(r.rawText) then [Elem("note", map["type" := "raw_reference"], Safe(l, r.rawText.value), [])]
             else []))
  }

  function WrittenReferences(l: Lexis, rs: seq<Reference>): seq<Elem> {
    seq(|rs|, i requires 0 <= i < |rs| => WrittenReference(l, rs[i]))
  }

  function WrittenBack(l: Lexis, rs: seq<Reference>): Elem {
    Node("back", [Elem("div", map["type" := "references"], "", [Node("listBibl", WrittenReferences(l, rs))])])
  }

  /** to_tei */
  function Written(l: Lexis, doc: ParsedDoc): Elem {
    Node("TEI", [
      Node("teiHeader", [
        Node("fileDesc", [Node("titleStmt", [Leaf("title", Safe(l, doc.title))])]),
        Node("profileDesc", Abstracts(l, doc.sections))]),
      Node("text",
           [Node("body", Divisions(l, doc.sections))]
           + if doc.references == [] then [] else [WrittenBack(l, doc.references)])])
  }

  // ----- the two programs: lists that grow -------------------------------------------------------------------------

  method WriteParagraphs(l: Lexis, paras: seq<seq<string>>) returns (ps: seq<Elem>)
    ensures ps == WrittenParagraphs(l, paras)
  {
    ps := [];
    for j := 0 to |paras|
      invariant ps == WrittenParagraphs(l, paras[..j])
    {
      ps := ps + [WrittenParagraph(l, paras[j])];
    }
    assert paras[..|paras|] == paras;
  }

  method WriteReferences(l: Lexis, rs: seq<Reference>) returns (bibls: seq<Elem>)
    ensures bibls == WrittenReferences(l, rs)
  {
    bibls := [];
    for i := 0 to |rs|
      invariant bibls == WrittenReferences(l, rs[..i])
    {
      bibls := bibls + [WrittenReference(l, rs[i])];
    }
    assert rs[..|rs|] == rs;
  }

  /** The loop over the sections: abstracts go to the header, the others to the body. */
  method WriteSections(l: Lexis, sections: seq<Section>) returns (abstracts: seq<Elem>, divisions: seq<Elem>)
    ensures abstracts == Abstracts(l, sections) && divisions == Divisions(l, sections)
  {
    abstracts, divisions := [], [];
    for i := 0 to |sections|
      invariant abstracts + Abstracts(l, sections[i..]) == Abstracts(l, sections)
      invariant divisions + Divisions(l, sections[i..]) == Divisions(l, sections)
    {
      assert sections[i..][1..] == sections[i + 1..];
      var paragraphs := WriteParagraphs(l, sections[i].paragraphs);
      if sections[i].head == "Abstract" {
        abstracts := abstracts + [Node("abstract", [Node("div", paragraphs)])];
      } else {
        divisions := divisions + [Node("div", [Leaf("head", Safe(l, sections[i].head))] + paragraphs)];
      }
    }
  }

  /** The tree of to_tei, built section by section and reference by reference. */
  method ToTei(l: Lexis, doc: ParsedDoc) returns (root: Elem)
    ensures root == Written(l, doc)
  {
    var abstracts, divisions := WriteSections(l, doc.sections);
    var back := [];
    if doc.references != [] {
      var bibls := WriteReferences(l, doc.references);
      back := [Node("back", [Elem("div", map["type" := "references"], "", [Node("listBibl", bibls)])])];
    }
    var header := Node("teiHeader", [
      Node("fileDesc", [Node("titleStmt", [Leaf("title", Safe(l, doc.title))])]), Node("profileDesc", abstracts)]);
    root := Node("TEI", [header, Node("text", [Node("body", divisions)] + back)]);
  }

  method OwnSection(l: Lexis, div: Elem, default: string) returns (own: seq<Section>)
    ensures own == Own(l, div, default)
  {
    var paragraphs := Paragraphs(l, Children(div.children, "p"));
    own := [];
    if paragraphs != [] {
      var head := Head(l, div);
      own := [Section(if head == "" then default else head, paragraphs)];
    }
  }

  lemma {:induction false} SectionsNext(l: Lexis, es: seq<Elem>, default: string, i: nat, out: seq<Section>)
    requires i < |es|
    ensures out + SectionsIn(l, es[i..], default) ==
              if es[i].tag == "div" && !Skipped(es[i])
              then out + Own(l, es[i], default) + SectionsIn(l, es[i].children, default) +
                  SectionsIn(l, es[i + 1..], default)
              else out + SectionsIn(l, es[i + 1..], default)
  {
    SectionsHere(l, es, default, i);
    Regroup(out, Own(l, es[i], default), SectionsIn(l, es[i].children, default), SectionsIn(l, es[i + 1..], default));
  }

  lemma {:induction false} SectionsHere(l: Lexis, es: seq<Elem>, default: string, i: nat)
    requires i < |es|
    ensures SectionsIn(l, es[i..], default) ==
              if es[i].tag == "div" && !Skipped(es[i])
              then Own(l, es[i], default) + SectionsIn(l, es[i].children, default) + SectionsIn(l, es[i + 1..], default)
              else SectionsIn(l, es[i + 1..], default)
  {
    assert es[i..][1..] == es[i + 1..];
  }

  lemma {:induction false} Regroup<T>(a: seq<T>, b: seq<T>, c: seq<T>, d: seq<T>)
    ensures a + (b + c + d) == a + b + c + d
  {}

  /** The walk of _sections_from over the children of an element. */
  method Walk(l: Lexis, es: seq<Elem>, default: string) returns (out: seq<Section>)
    ensures out == SectionsIn(l, es, default)
    decreases es
  {
    out := [];
    ghost var all := SectionsIn(l, es, default);
    assert es[0..] == es;
    for i := 0 to |es|
      invariant out + SectionsIn(l, es[i..], default) == all
    {
      SectionsNext(l, es, default, i, out);
      if es[i].tag == "div" && !Skipped(es[i]) {
        var own := OwnSection(l, es[i], default);
        var below := Walk(l, es[i].children, default);
        out := out + own + below;
      }
    }
    assert es[|es|..] == [];
  }

  // ----- trees, piece by piece -------------------------------------------------------------------------------------

  lemma {:induction false} IterAppend(a: seq<Elem>, b: seq<Elem>, tag: string)
    ensures IterAll(a + b, tag) == IterAll(a, tag) + IterAll(b, tag)
  {
    if a == [] {
      assert a + b == b;
    } else {
      IterAppend(a[1..], b, tag);
      assert a + b == [a[0]] + (a[1..] + b);
      assert Iter(a[0], tag) + (IterAll(a[1..], tag) + IterAll(b, tag)) ==
          Iter(a[0], tag) + IterAll(a[1..], tag) + IterAll(b, tag);
    }
  }

  lemma {:induction false} IterLeaf(e: Elem, tag: string)
    requires e.children == []
    ensures Iter(e, tag) == if e.tag == tag then [e] else []
  {}

  /** Elements that contain the tag neither themselves nor below. */
  lemma {:induction false} IterNone(es: seq<Elem>, tag: string)
    requires forall e :: e in es ==> Iter(e, tag) == []
    ensures IterAll(es, tag) == []
  {
    if es != [] {
      assert es[0] in es;
      IterNone(es[1..], tag);
    }
  }

  /** Elements that are found themselves, with nothing below. */
  lemma {:induction false} IterEach(es: seq<Elem>, tag: string)
    requires forall e :: e in es ==> Iter(e, tag) == [e]
    ensures IterAll(es, tag) == es
  {
    if es != [] {
      assert es[0] in es;
      IterEach(es[1..], tag);
      assert es == [es[0]] + es[1..];
    }
  }

  lemma {:induction false} AllChildren(es: seq<Elem>, tag: string)
    ensures (forall e :: e in es ==> e.tag == tag) ==> Children(es, tag) == es
    ensures (forall e :: e in es ==> e.tag != tag) ==> Children(es, tag) == []
  {
    if es != [] {
      AllChildren(es[1..], tag);
      assert es == [es[0]] + es[1..];
    }
  }

  lemma {:induction false} LeafText(l: Lexis, e: Elem)
    requires e.children == []
    ensures TextOf(l, e) == Collapse(l, e.text)
  {
    assert AllTexts(e.children) == "" && e.text + "" == e.text;
  }

  /** A path of one step leads to the first child with the tag. */
  lemma {:induction false} FindFirst(es: seq<Elem>, path: seq<string>)
    requires |path| == 1 && es != [] && es[0].tag == path[0]
    ensures FindIn(es, path) == Some(es[0])
  {}

  // ----- a paragraph -----------------------------------------------------------------------------------------------

  function CleanText(l: Lexis, s: string): string { Collapse(l, Safe(l, s)) }

  function CleanTexts(l: Lexis, ss: seq<string>): seq<string> {
    seq(|ss|, i requires 0 <= i < |ss| => CleanText(l, ss[i]))
  }

  /** What comes back of a paragraph: its sentences, collapsed, without the empty ones. */
  function CleanPara(l: Lexis, para: seq<string>): seq<string> { NonEmpty(CleanTexts(l, para)) }

  function CleanParas(l: Lexis, paras: seq<seq<string>>): seq<seq<string>> {
    if paras == [] then []
    else if CleanPara(l, paras[0]) == [] then CleanParas(l, paras[1..])
    else [CleanPara(l, paras[0])] + CleanParas(l, paras[1..])
  }

  lemma {:induction false} NonEmptyIs(ss: seq<string>)
    ensures NonEmpty(ss) == [] <==> forall i :: 0 <= i < |ss| ==> ss[i] == ""
  {
    if ss != [] {
      NonEmptyIs(ss[1..]);
      assert forall i :: 1 <= i < |ss| ==> ss[1..][i - 1] == ss[i];
    }
  }

  lemma {:induction false} BlankText(l: Lexis, es: seq<Elem>)
    requires forall e :: e in es ==> e.children == [] && forall i :: 0 <= i < |e.text| ==> l.space(e.text[i])
    ensures forall i :: 0 <= i < |AllTexts(es)| ==> l.space(AllTexts(es)[i])
  {
    if es != [] {
      BlankText(l, es[1..]);
      assert es[0] in es;
      LeafText(l, es[0]);
      assert AllText(es[0]) == es[0].text;
    }
  }

  /** A paragraph of blank sentences has no text to fall back to. */
  lemma {:induction false} BlankParagraph(l: Lexis, para: seq<string>)
    requires CleanPara(l, para) == []
    ensures SplitSentences(l, TextOf(l, WrittenParagraph(l, para))) == []
  {
    var p := WrittenParagraph(l, para);
    NonEmptyIs(CleanTexts(l, para));
    forall e | e in p.children ensures e.children == [] && forall i :: 0 <= i < |e.text| ==> l.space(e.text[i]) {
      var i :| 0 <= i < |para| && p.children[i] == e;
      assert CleanTexts(l, para)[i] == "";
      CollapseEmpty(l, Safe(l, para[i]));
    }
    BlankText(l, p.children);
    assert AllText(p) == AllTexts(p.children);
    CollapseEmpty(l, AllText(p));
    assert TextOf(l, p) == "";
  }

  lemma {:induction false} SentencesComeBack(l: Lexis, para: seq<string>)
    ensures Texts(l, Children(WrittenParagraph(l, para).children, "s")) == CleanTexts(l, para)
  {
    var p := WrittenParagraph(l, para);
    AllChildren(p.children, "s");
    forall i | 0 <= i < |para| ensures TextOf(l, p.children[i]) == CleanText(l, para[i]) { LeafText(l, p.children[i]); }
  }

  lemma {:induction false} ParagraphComesBack(l: Lexis, para: seq<string>)
    ensures Paragraph(l, WrittenParagraph(l, para)) == CleanPara(l, para)
  {
    SentencesComeBack(l, para);
    if CleanPara(l, para) == [] { BlankParagraph(l, para); }
  }

  lemma {:induction false} ParagraphsComeBack(l: Lexis, paras: seq<seq<string>>)
    ensures Paragraphs(l, WrittenParagraphs(l, paras)) == CleanParas(l, paras)
  {
    if paras != [] {
      var ps := WrittenParagraphs(l, paras);
      ParagraphComesBack(l, paras[0]);
      ParagraphsComeBack(l, paras[1..]);
      assert ps[1..] == WrittenParagraphs(l, paras[1..]);
    }
  }

  lemma {:induction false} IterParagraph(l: Lexis, para: seq<string>, tag: string)
    ensures tag == "p" ==> Iter(WrittenParagraph(l, para), tag) == [WrittenParagraph(l, para)]
    ensures tag != "p" && tag != "s" ==> Iter(WrittenParagraph(l, para), tag) == []
  {
    var p := WrittenParagraph(l, para);
    if tag != "s" {
      forall e | e in p.children ensures Iter(e, tag) == [] { IterLeaf(e, tag); }
      IterNone(p.children, tag);
    }
  }

  lemma {:induction false} IterParagraphs(l: Lexis, paras: seq<seq<string>>, tag: string)
    ensures tag == "p" ==> IterAll(WrittenParagraphs(l, paras), tag) == WrittenParagraphs(l, paras)
    ensures tag != "p" && tag != "s" ==> IterAll(WrittenParagraphs(l, paras), tag) == []
  {
    var ps := WrittenParagraphs(l, paras);
    forall e | e in ps
      ensures tag == "p" ==> Iter(e, tag) == [e]
      ensures tag != "p" && tag != "s" ==> Iter(e, tag) == []
    {
      var i :| 0 <= i < |paras| && ps[i] == e;
      IterParagraph(l, paras[i], tag);
    }
    if tag == "p" { IterEach(ps, tag); } else if tag != "s" { IterNone(ps, tag); }
  }

  // ----- the sections ----------------------------------------------------------------------------------------------

  /** What comes back of a section: nothing, if none of its paragraphs does; without a heading it is a "Body". */
  function CleanSection(l: Lexis, s: Section): seq<Section> {
    if CleanParas(l, s.paragraphs) == [] then []
    else [Section(if CleanText(l, s.head) == "" then "Body" else CleanText(l, s.head), CleanParas(l, s.paragraphs))]
  }

  function CleanBody(l: Lexis, sections: seq<Section>): seq<Section> {
    if sections == [] then []
    else if sections[0].head == "Abstract" then CleanBody(l, sections[1..])
    else CleanSection(l, sections[0]) + CleanBody(l, sections[1..])
  }

  /** Only the first abstract is read, and only if any of it is left. */
  function CleanAbstract(l: Lexis, sections: seq<Section>): seq<Section> {
    if sections == [] then []
    else if sections[0].head != "Abstract" then CleanAbstract(l, sections[1..])
    else if CleanParas(l, sections[0].paragraphs) == [] then []
    else [Section("Abstract", CleanParas(l, sections[0].paragraphs))]
  }

  lemma {:induction false} HeadComesBack(l: Lexis, s: Section)
    ensures Head(l, WrittenSection(l, s)) == CleanText(l, s.head)
  {
    var div := WrittenSection(l, s);
    FindFirst(div.children, ["head"]);
    LeafText(l, div.children[0]);
  }

  lemma {:induction false} SectionComesBack(l: Lexis, s: Section)
    ensures Own(l, WrittenSection(l, s), "Body") == CleanSection(l, s)
    ensures SectionsOf(l, WrittenSection(l, s), "Body") == []
  {
    var div := WrittenSection(l, s);
    var ps := WrittenParagraphs(l, s.paragraphs);
    assert div.children[1..] == ps;
    AllChildren(ps, "p");
    assert Children(div.children, "p") == ps;
    ParagraphsComeBack(l, s.paragraphs);
    HeadComesBack(l, s);
    NoSections(l, div.children, "Body");
  }

  lemma {:induction false} NoSections(l: Lexis, es: seq<Elem>, default: string)
    requires forall e :: e in es ==> e.tag != "div" || Skipped(e)
    ensures SectionsIn(l, es, default) == []
  {
    if es != [] {
      assert es[0] in es;
      NoSections(l, es[1..], default);
    }
  }

  lemma {:induction false} BodyComesBack(l: Lexis, sections: seq<Section>)
    ensures SectionsIn(l, Divisions(l, sections), "Body") == CleanBody(l, sections)
  {
    if sections != [] {
      BodyComesBack(l, sections[1..]);
      if sections[0].head != "Abstract" {
        SectionComesBack(l, sections[0]);
        assert Divisions(l, sections)[1..] == Divisions(l, sections[1..]);
        assert CleanSection(l, sections[0]) + [] == CleanSection(l, sections[0]);
      }
    }
  }

  lemma {:induction false} IterDivisions(l: Lexis, sections: seq<Section>, tag: string)
    requires tag != "div" && tag != "head" && tag != "p" && tag != "s"
    ensures IterAll(Divisions(l, sections), tag) == []
  {
    if sections != [] {
      IterDivisions(l, sections[1..], tag);
      if sections[0].head != "Abstract" {
        var s := sections[0];
        var div, head, ps := WrittenSection(l, s), Leaf("head", Safe(l, s.head)), WrittenParagraphs(l, s.paragraphs);
        IterLeaf(head, tag);
        IterParagraphs(l, s.paragraphs, tag);
        IterAppend([head], ps, tag);
        assert Divisions(l, sections)[1..] == Divisions(l, sections[1..]);
      }
    }
  }

  lemma {:induction false} AbstractComesBack(l: Lexis, sections: seq<Section>)
    ensures var a := FindIn(Abstracts(l, sections), ["abstract"]);
            CleanAbstract(l, sections) ==
              if a.Some? && Paragraphs(l, Iter(a.value, "p")) != []
                  then [Section("Abstract", Paragraphs(l, Iter(a.value, "p")))]
              else []
  {
    if sections != [] {
      if sections[0].head == "Abstract" {
        var s := sections[0];
        var a := WrittenAbstract(l, s);
        var ps := WrittenParagraphs(l, s.paragraphs);
        assert FindIn(Abstracts(l, sections), ["abstract"]) == Some(a);
        IterParagraphs(l, s.paragraphs, "p");
        var div := a.children[0];
        assert Iter(div, "p") == ps;
        assert a.children[1..] == [] && IterAll(a.children[1..], "p") == [];
        assert Iter(a, "p") == Iter(div, "p") + IterAll(a.children[1..], "p");
        assert Iter(a, "p") == ps;
        ParagraphsComeBack(l, s.paragraphs);
      } else {
        AbstractComesBack(l, sections[1..]);
      }
    }
  }

  // ----- the references --------------------------------------------------------------------------------------------

  /** What comes back of the n-th reference: no year, and an id found in the raw text if none was given. */
  function CleanReference(l: Lexis, n: nat, r: Reference): Reference {
    var title := if Given(r.title) then CleanText(l, r.title.value) else "";
    var raw := if Given(r.rawText) then CleanText(l, r.rawText.value) else "";
    var id := if Given(r.arxivId) then l.normalId(Collapse(l, r.arxivId.value)) else None;
    Reference(n, OrNone(title), None,
              if id.None? && raw != "" && l.idsIn(raw) != [] then Some(l.idsIn(raw)[0]) else id, OrNone(raw))
  }

  function CleanReferences(l: Lexis, rs: seq<Reference>): seq<Reference> {
    seq(|rs|, i requires 0 <= i < |rs| => CleanReference(l, i + 1, rs[i]))
  }

  function TitlePart(l: Lexis, r: Reference): seq<Elem> {
    if Given(r.title) then [Node("analytic", [Leaf("title", Safe(l, r.title.value))])] else []
  }

  function IdPart(r: Reference): seq<Elem> {
    if Given(r.arxivId) then [Elem("idno", map["type" := "arXiv"], r.arxivId.value, [])] else []
  }

  function RawPart(l: Lexis, r: Reference): seq<Elem> {
    if Given(r.rawText) then [Elem("note", map["type" := "raw_reference"], Safe(l, r.rawText.value), [])] else []
  }

  lemma {:induction false} IterReference(l: Lexis, r: Reference, tag: string)
    requires tag != "biblStruct" && tag != "analytic" && tag != "title"
    ensures Iter(WrittenReference(l, r), tag)
         == (if tag == "idno" then IdPart(r) else if tag == "note" then RawPart(l, r) else [])
  {
    var a, b, c := TitlePart(l, r), IdPart(r), RawPart(l, r);
    IterAppend(a + b, c, tag);
    IterAppend(a, b, tag);
    if Given(r.title) {
      var leaf := Leaf("title", Safe(l, r.title.value));
      IterLeaf(leaf, tag);
      assert IterAll([leaf], tag) == [];
      assert a[1..] == [];
    }
    if Given(r.arxivId) {
      IterLeaf(b[0], tag);
      assert b[1..] == [];
    }
    if Given(r.rawText) {
      IterLeaf(c[0], tag);
      assert c[1..] == [];
    }
  }

  lemma {:induction false} FindInAppend(a: seq<Elem>, b: seq<Elem>, path: seq<string>)
    requires path != []
    ensures FindIn(a + b, path) == if FindIn(a, path).Some? then FindIn(a, path) else FindIn(b, path)
  {
    if a == [] {
      assert a + b == b;
    } else {
      FindInAppend(a[1..], b, path);
      assert (a + b)[1..] == a[1..] + b;
    }
  }

  lemma {:induction false} FindAbsent(es: seq<Elem>, path: seq<string>)
    requires path != [] && forall e :: e in es ==> e.tag != path[0]
    ensures FindIn(es, path) == None
  {
    if es != [] {
      assert es[0] in es;
      FindAbsent(es[1..], path);
    }
  }

  lemma {:induction false} TitleComesBack(l: Lexis, r: Reference)
    ensures var bibl := WrittenReference(l, r);
            && Find(bibl, ["monogr", "title"]) == None
            && OrText(l, Find(bibl, ["analytic", "title"])) == if Given(r.title) then CleanText(l, r.title.value)
              else ""
  {
    var bibl := WrittenReference(l, r);
    var path := ["analytic", "title"];
    FindAbsent(bibl.children, ["monogr", "title"]);
    var a, b := TitlePart(l, r), IdPart(r) + RawPart(l, r);
    assert bibl.children == a + b;
    FindInAppend(a, b, path);
    FindAbsent(b, path);
    if Given(r.title) {
      var leaf := Leaf("title", Safe(l, r.title.value));
      assert path[1..] == ["title"];
      FindFirst(a[0].children, path[1..]);
      assert FindRest(a[0], path) == Some(leaf);
      LeafText(l, leaf);
    }
  }

  /** normalize_id never gives an empty id. */
  ghost predicate NoEmptyIds(l: Lexis) { forall s :: l.normalId(s) != Some("") }

  lemma {:induction false} IdComesBack(l: Lexis, r: Reference)
    requires NoEmptyIds(l)
    ensures FirstId(l, IdPart(r), None) == if Given(r.arxivId) then l.normalId(Collapse(l, r.arxivId.value)) else None
  {
    if Given(r.arxivId) {
      var e := IdPart(r)[0];
      LeafText(l, e);
      assert Attr(e, "type") == "arXiv";
      LoweredArxiv();
      assert IdPart(r)[1..] == [];
    }
  }

  lemma {:induction false} LoweredArxiv()
    ensures Lowered("arXiv") == "arxiv"
  {
    assert "arXiv"[1..] == "rXiv" && "rXiv"[1..] == "Xiv" && "Xiv"[1..] == "iv" && "iv"[1..] == "v" && "v"[1..] == "";
    assert Lowered("v") == "v";
    assert Lowered("iv") == "iv";
    assert Lowered("Xiv") == "xiv";
    assert Lowered("rXiv") == "rxiv";
  }

  lemma {:induction false} RawComesBack(l: Lexis, r: Reference)
    ensures FirstRaw(l, RawPart(l, r)) == if Given(r.rawText) then CleanText(l, r.rawText.value) else ""
  {
    if Given(r.rawText) { LeafText(l, RawPart(l, r)[0]); }
  }

  lemma {:induction false} ReferenceComesBack(l: Lexis, n: nat, r: Reference)
    requires NoEmptyIds(l)
    ensures ReadReference(l, n, WrittenReference(l, r)) == CleanReference(l, n, r)
  {
    TitleComesBack(l, r);
    IterReference(l, r, "note");
    IterReference(l, r, "idno");
    IterReference(l, r, "date");
    IdComesBack(l, r);
    RawComesBack(l, r);
  }

  lemma {:induction false} ReferencesComeBack(l: Lexis, rs: seq<Reference>)
    requires NoEmptyIds(l)
    ensures ReadReferences(l, WrittenReferences(l, rs)) == CleanReferences(l, rs)
  {
    forall i | 0 <= i < |rs|
      ensures ReadReference(l, i + 1, WrittenReferences(l, rs)[i]) == CleanReference(l, i + 1, rs[i])
    {
      ReferenceComesBack(l, i + 1, rs[i]);
    }
  }

  lemma {:induction false} IterReferences(l: Lexis, rs: seq<Reference>)
    ensures IterAll(WrittenReferences(l, rs), "listBibl") == []
    ensures Children(WrittenReferences(l, rs), "biblStruct") == WrittenReferences(l, rs)
  {
    var bibls := WrittenReferences(l, rs);
    forall e | e in bibls ensures Iter(e, "listBibl") == [] && e.tag == "biblStruct" {
      var i :| 0 <= i < |bibls| && bibls[i] == e;
      IterReference(l, rs[i], "listBibl");
    }
    IterNone(bibls, "listBibl");
    AllChildren(bibls, "biblStruct");
  }

  lemma {:induction false} IterOne(e: Elem, tag: string)
    ensures IterAll([e], tag) == Iter(e, tag)
  {
    assert [e][1..] == [];
  }

  lemma {:induction false} IterBack(l: Lexis, rs: seq<Reference>)
    ensures Iter(WrittenBack(l, rs), "listBibl") == [Node("listBibl", WrittenReferences(l, rs))]
  {
    var list := Node("listBibl", WrittenReferences(l, rs));
    var div := Elem("div", map["type" := "references"], "", [list]);
    IterReferences(l, rs);
    assert Iter(list, "listBibl") == [list] + [];
    IterOne(list, "listBibl");
    IterOne(div, "listBibl");
  }

  lemma {:induction false} BiblsOfOne(list: Elem)
    ensures Bibls([list]) == Children(list.children, "biblStruct")
  {
    assert [list][1..] == [];
  }

  lemma {:induction false} ListsOf(l: Lexis, doc: ParsedDoc)
    ensures var text := Written(l, doc).children[1];
            Bibls(Iter(text, "listBibl")) == WrittenReferences(l, doc.references)
  {
    var text := Written(l, doc).children[1];
    var body := Node("body", Divisions(l, doc.sections));
    IterDivisions(l, doc.sections, "listBibl");
    IterOne(body, "listBibl");
    if doc.references == [] {
      assert text.children == [body];
    } else {
      var back := WrittenBack(l, doc.references);
      assert text.children == [body] + [back];
      IterAppend([body], [back], "listBibl");
      IterBack(l, doc.references);
      IterOne(back, "listBibl");
      IterReferences(l, doc.references);
      BiblsOfOne(Node("listBibl", WrittenReferences(l, doc.references)));
    }
  }

  // ----- the whole document ----------------------------------------------------------------------------------------

  /**
   * What comes back of a document: the first abstract in front, cleaned text, nothing empty, references numbered
   * anew.
   */
  function Canonical(l: Lexis, doc: ParsedDoc): ParsedDoc {
    ParsedDoc(CleanText(l, doc.title), CleanAbstract(l, doc.sections) + CleanBody(l, doc.sections),
              CleanReferences(l, doc.references))
  }

  lemma {:induction false} TextPart(l: Lexis, doc: ParsedDoc)
    ensures var text := Written(l, doc).children[1];
            && Find(Written(l, doc), ["text"]) == Some(text)
            && OrSections(l, Find(text, ["body"]), "Body") == CleanBody(l, doc.sections)
            && OrSections(l, Find(text, ["back"]), "Appendix") == []
  {
    var root := Written(l, doc);
    var text := root.children[1];
    var body := Node("body", Divisions(l, doc.sections));
    FindInAppend([root.children[0]], [text], ["text"]);
    FindAbsent([root.children[0]], ["text"]);
    FindFirst([text], ["text"]);
    assert root.children == [root.children[0]] + [text];
    FindFirst(text.children, ["body"]);
    BodyComesBack(l, doc.sections);
    var rest := if doc.references == [] then [] else [WrittenBack(l, doc.references)];
    assert text.children == [body] + rest;
    FindInAppend([body], rest, ["back"]);
    FindAbsent([body], ["back"]);
    if doc.references != [] {
      FindFirst(rest, ["back"]);
      var div := rest[0].children[0];
      assert Skipped(div);
      NoSections(l, rest[0].children, "Appendix");
    }
  }

  lemma {:induction false} HeaderPart(l: Lexis, doc: ParsedDoc)
    ensures OrText(l, Find(Written(l, doc), ["teiHeader", "fileDesc", "titleStmt", "title"])) == CleanText(l, doc.title)
    ensures Find(Written(l, doc), ["teiHeader", "profileDesc", "abstract"]) ==
        FindIn(Abstracts(l, doc.sections), ["abstract"])
  {
    var root := Written(l, doc);
    var header, text := root.children[0], root.children[1];
    var file, profile := header.children[0], header.children[1];
    var path := ["teiHeader", "fileDesc", "titleStmt", "title"];
    var stmt := file.children[0];
    var title := stmt.children[0];
    assert path[1..] == ["fileDesc", "titleStmt", "title"];
    assert path[1..][1..] == ["titleStmt", "title"] && path[1..][1..][1..] == ["title"];
    FindFirst(stmt.children, ["title"]);
    assert FindIn([stmt], ["titleStmt", "title"]) == Some(title);
    assert FindIn(header.children, path[1..]) == Some(title);
    assert FindIn(root.children, path) == Some(title);
    LeafText(l, title);
    AbstractPath(l, doc);
  }

  lemma {:induction false} AbstractPath(l: Lexis, doc: ParsedDoc)
    ensures Find(Written(l, doc), ["teiHeader", "profileDesc", "abstract"]) ==
        FindIn(Abstracts(l, doc.sections), ["abstract"])
  {
    var root := Written(l, doc);
    var header, text := root.children[0], root.children[1];
    var path := ["teiHeader", "profileDesc", "abstract"];
    var found := FindIn(Abstracts(l, doc.sections), ["abstract"]);
    assert path[1..] == ["profileDesc", "abstract"] && path[1..][1..] == ["abstract"];
    var file, profile := header.children[0], header.children[1];
    assert header.children == [file] + [profile];
    FindInAppend([file], [profile], path[1..]);
    FindAbsent([file], path[1..]);
    assert FindIn([profile], path[1..]) == found;
    assert root.children == [header] + [text];
    FindInAppend([header], [text], path);
    FindAbsent([text], path);
  }

  /** parse_tei(to_tei(doc)), for every document. */
  lemma {:induction false} ParseOfTei(l: Lexis, doc: ParsedDoc)
    requires NoEmptyIds(l)
    ensures Parse(l, Written(l, doc)) == Canonical(l, doc)
  {
    TextPart(l, doc);
    HeaderPart(l, doc);
    AbstractComesBack(l, doc.sections);
    ListsOf(l, doc);
    ReferencesComeBack(l, doc.references);
  }

  // ----- documents that come back unchanged ------------------------------------------------------------------------

  /** Collapsed, and free of characters XML does not allow. */
  predicate Clean(l: Lexis, s: string) { CleanText(l, s) == s }

  predicate CleanSentences(l: Lexis, para: seq<string>) {
    para != [] && forall i :: 0 <= i < |para| ==> para[i] != "" && Clean(l, para[i])
  }

  predicate WellFormedSection(l: Lexis, s: Section) {
    && s.head != "" && Clean(l, s.head) && s.paragraphs != []
    && forall i :: 0 <= i < |s.paragraphs| ==> CleanSentences(l, s.paragraphs[i])
  }

  /** A field that is given is not empty, and clean. */
  predicate WellFormedField(l: Lexis, x: Option<string>) { x.Some? ==> x.value != "" && Clean(l, x.value) }

  /** The arXiv id is what the reader would find: canonical if given, and in the raw text if not. */
  predicate WellFormedId(l: Lexis, r: Reference) {
    if r.arxivId.Some? then r.arxivId.value != "" && l.normalId(Collapse(l, r.arxivId.value)) == r.arxivId
    else r.rawText.None? || l.idsIn(r.rawText.value) == []
  }

  predicate WellFormedReference(l: Lexis, r: Reference) {
    WellFormedField(l, r.title) && WellFormedField(l, r.rawText) && WellFormedId(l, r)
  }

  function AbstractsFirst(sections: seq<Section>): seq<Section> {
    Only(sections, true) + Only(sections, false)
  }

  function Only(sections: seq<Section>, abstracts: bool): seq<Section> {
    if sections == [] then []
    else if (sections[0].head == "Abstract") == abstracts then [sections[0]] + Only(sections[1..], abstracts)
    else Only(sections[1..], abstracts)
  }

  ghost predicate AllValid(l: Lexis, s: string) { forall i :: 0 <= i < |s| ==> l.valid(s[i]) }

  lemma {:induction false} SafeIsValid(l: Lexis, s: string)
    ensures AllValid(l, Safe(l, s))
    ensures AllValid(l, s) ==> Safe(l, s) == s
  {
    if s != "" {
      SafeIsValid(l, s[1..]);
      assert s == [s[0]] + s[1..];
      if AllValid(l, s) {
        assert l.valid(s[0]);
        assert forall i :: 0 <= i < |s[1..]| ==> s[1..][i] == s[i + 1];
      }
    }
  }

  lemma {:induction false} CollapseIsValid(l: Lexis, s: string)
    requires l.valid(' ') && AllValid(l, s)
    ensures AllValid(l, Collapse(l, s))
    decreases |s|
  {
    if s != "" {
      if l.space(s[0]) {
        CollapseIsValid(l, s[1..]);
      } else {
        CollapseIsValid(l, s[WordEnd(l, s)..]);
      }
    }
  }

  /** Text that has been through the writer and the reader is clean: a second time changes nothing. */
  lemma {:induction false} CleanTextIsClean(l: Lexis, s: string)
    requires l.valid(' ') && l.space(' ')
    ensures Clean(l, CleanText(l, s))
  {
    SafeIsValid(l, s);
    CollapseIsValid(l, Safe(l, s));
    SafeIsValid(l, CleanText(l, s));
    CollapseTwice(l, Safe(l, s));
  }

  lemma {:induction false} CleanParaStays(l: Lexis, para: seq<string>)
    requires forall i :: 0 <= i < |para| ==> para[i] != "" && Clean(l, para[i])
    ensures CleanPara(l, para) == para
  {
    assert CleanTexts(l, para) == para;
    NonEmptyStays(para);
  }

  lemma {:induction false} NonEmptyStays(ss: seq<string>)
    requires forall i :: 0 <= i < |ss| ==> ss[i] != ""
    ensures NonEmpty(ss) == ss
  {
    if ss != [] { NonEmptyStays(ss[1..]); }
  }

  lemma {:induction false} CleanParasStay(l: Lexis, paras: seq<seq<string>>)
    requires forall i :: 0 <= i < |paras| ==> CleanSentences(l, paras[i])
    ensures CleanParas(l, paras) == paras
  {
    if paras != [] {
      CleanParaStays(l, paras[0]);
      CleanParasStay(l, paras[1..]);
    }
  }

  lemma {:induction false} CleanBodyStays(l: Lexis, sections: seq<Section>)
    requires forall i :: 0 <= i < |sections| ==> WellFormedSection(l, sections[i])
    ensures CleanBody(l, sections) == Only(sections, false)
  {
    if sections != [] {
      CleanParasStay(l, sections[0].paragraphs);
      CleanBodyStays(l, sections[1..]);
    }
  }

  lemma {:induction false} CleanAbstractStays(l: Lexis, sections: seq<Section>)
    requires forall i :: 0 <= i < |sections| ==> WellFormedSection(l, sections[i])
    ensures CleanAbstract(l, sections) == if Only(sections, true) == [] then [] else [Only(sections, true)[0]]
  {
    if sections != [] {
      CleanParasStay(l, sections[0].paragraphs);
      CleanAbstractStays(l, sections[1..]);
    }
  }

  /** Ids found in text are canonical. */
  ghost predicate CanonicalIds(l: Lexis) {
    forall s, x :: x in l.idsIn(s) ==> x != "" && l.normalId(Collapse(l, x)) == Some(x)
  }

  /** A reference comes back, its year aside, if and only if it is well-formed. */
  lemma {:induction false} ReferenceStaysIff(l: Lexis, n: nat, r: Reference)
    requires CanonicalIds(l)
    ensures CleanReference(l, n, r) == r.(position := n, year := None) <==> WellFormedReference(l, r)
  {}

  predicate WellFormed(l: Lexis, doc: ParsedDoc) {
    && Clean(l, doc.title)
    && (forall i :: 0 <= i < |doc.sections| ==> WellFormedSection(l, doc.sections[i]))
    && |Only(doc.sections, true)| <= 1
    && forall i :: 0 <= i < |doc.references| ==>
         doc.references[i].position == i + 1 && WellFormedReference(l, doc.references[i])
  }

  function WithoutYears(rs: seq<Reference>): seq<Reference> {
    seq(|rs|, i requires 0 <= i < |rs| => rs[i].(year := None))
  }

  /** A well-formed document comes back, with its abstract in front and without the years of its references. */
  lemma {:induction false} RoundTrip(l: Lexis, doc: ParsedDoc)
    requires NoEmptyIds(l) && CanonicalIds(l) && WellFormed(l, doc)
    ensures Parse(l, Written(l, doc)) ==
        ParsedDoc(doc.title, AbstractsFirst(doc.sections), WithoutYears(doc.references))
  {
    ParseOfTei(l, doc);
    SectionsStay(l, doc.sections);
    ReferencesStay(l, doc.references);
  }

  lemma {:induction false} SectionsStay(l: Lexis, sections: seq<Section>)
    requires forall i :: 0 <= i < |sections| ==> WellFormedSection(l, sections[i])
    requires |Only(sections, true)| <= 1
    ensures CleanAbstract(l, sections) + CleanBody(l, sections) == AbstractsFirst(sections)
  {
    CleanBodyStays(l, sections);
    CleanAbstractStays(l, sections);
  }

  lemma {:induction false} ReferencesStay(l: Lexis, rs: seq<Reference>)
    requires CanonicalIds(l)
    requires forall i :: 0 <= i < |rs| ==> rs[i].position == i + 1 && WellFormedReference(l, rs[i])
    ensures CleanReferences(l, rs) == WithoutYears(rs)
  {
    forall i | 0 <= i < |rs| ensures CleanReference(l, i + 1, rs[i]) == rs[i].(year := None) {
      ReferenceStaysIff(l, i + 1, rs[i]);
    }
  }

  /** A reference without an id whose raw text names one comes back with that id. */
  lemma {:induction false} IdInRawTextIsAdded(l: Lexis, raw: string, id: string)
    requires raw != "" && Clean(l, raw) && l.idsIn(raw) == [id]
    ensures var r := Reference(1, None, None, None, Some(raw));
            CleanReference(l, 1, r) == r.(arxivId := Some(id))
  {}
}
