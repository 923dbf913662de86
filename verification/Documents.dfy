/** Parsed papers, as every later stage reads them. */
module Documents {
  import opened Common

  /** A section: a heading and paragraphs, each a list of sentences. */
  datatype Section = Section(head: string, paragraphs: seq<seq<string>>)

  datatype Reference = Reference(
    position: nat, title: Option<string>, year: Option<int>, arxivId: Option<string>, rawText: Option<string>)

  datatype ParsedDoc = ParsedDoc(title: string, sections: seq<Section>, references: seq<Reference>)
}
