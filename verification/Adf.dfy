/** Plain text as an Atlassian document, one paragraph per line, and back. */
module Adf {
  import opened Common

  /** One inline node; only its text, if it has one, is read. */
  datatype Part = Part(kind: string, text: Option<string>)

  datatype Node = Node(kind: string, content: seq<Part>)

  datatype Doc = Doc(kind: string, version: int, content: seq<Node>)

  /** What the reader accepts: a document, an old-style plain string, or nothing. */
  datatype Body = Document(doc: Doc) | Plain(text: string) | Nothing

  // ---- Lines ------------------------------------------------------------------

  function Split(s: string): (lines: seq<string>)
    ensures |lines| > 0
  {
    if s == "" then [""]
    else
      var rest := Split(s[1..]);
      if s[0] == '\n' then [""] + rest else [[s[0]] + rest[0]] + rest[1..]
  }

  function Join(lines: seq<string>): string {
    if lines == [] then "" else if |lines| == 1 then lines[0] else lines[0] + "\n" + Join(lines[1..])
  }

  lemma {:induction false} SplitHasNoNewlines(s: string)
    ensures forall line | line in Split(s) :: '\n' !in line
  {
    if s != "" {
      SplitHasNoNewlines(s[1..]);
    }
  }

  lemma {:induction false} JoinSplit(s: string)
    ensures Join(Split(s)) == s
  {
    if s != "" {
      JoinSplit(s[1..]);
      var rest := Split(s[1..]);
      if s[0] == '\n' {
        assert ([""] + rest)[1..] == rest;
        assert s == "\n" + s[1..];
      } else {
        var lines := [[s[0]] + rest[0]] + rest[1..];
        assert lines[1..] == rest[1..];
        assert s == [s[0]] + s[1..];
        assert |rest| > 1 ==> Join(lines) == [s[0]] + (rest[0] + "\n" + Join(rest[1..]));
      }
    }
  }

  lemma {:induction false} SplitLine(line: string, s: string)
    requires '\n' !in line
    ensures Split(line) == [line] && Split(line + "\n" + s) == [line] + Split(s)
  {
    var whole := line + "\n" + s;
    if line == "" {
      assert whole[1..] == s;
    } else {
      SplitLine(line[1..], s);
      assert whole[1..] == line[1..] + "\n" + s;
      assert [line[0]] + line[1..] == line;
    }
  }

  lemma {:induction false} SplitJoin(lines: seq<string>)
    requires lines != [] && forall line | line in lines :: '\n' !in line
    ensures Split(Join(lines)) == lines
  {
    hide Split;
    assert lines == [lines[0]] + lines[1..];
    if |lines| == 1 {
      SplitLine(lines[0], "");
    } else {
      SplitJoin(lines[1..]);
      SplitLine(lines[0], Join(lines[1..]));
    }
  }

  // ---- Documents -----------------------------------------------------------------

  function Paragraph(line: string): Node {
    Node("paragraph", if line == "" then [] else [Part("text", Some(line))])
  }

  function TextOf(parts: seq<Part>): string {
    if parts == [] then "" else TextOf(parts[..|parts| - 1]) + parts[|parts| - 1].text.UnwrapOr("")
  }

  /** The text of each paragraph; other nodes are skipped. */
  function LinesOf(nodes: seq<Node>): seq<string> {
    if nodes == [] then []
    else
      var node := nodes[|nodes| - 1];
      LinesOf(nodes[..|nodes| - 1]) + if node.kind == "paragraph" then [TextOf(node.content)] else []
  }

  function ParagraphsOf(lines: seq<string>): (nodes: seq<Node>)
    ensures |nodes| == |lines| && forall i | 0 <= i < |lines| :: nodes[i] == Paragraph(lines[i])
  {
    seq(|lines|, i requires 0 <= i < |lines| => Paragraph(lines[i]))
  }

  function DocOf(text: string): Doc {
    Doc("doc", 1, ParagraphsOf(Split(text)))
  }

  function TextOfBody(body: Body): string {
    match body
    case Nothing => ""
    case Plain(text) => text
    case Document(doc) => Join(LinesOf(doc.content))
  }

  method TextToAdf(text: string) returns (doc: Doc)
    ensures doc == DocOf(text)
  {
    var lines := Split(text);
    var paragraphs: seq<Node> := [];
    for i := 0 to |lines|
      invariant paragraphs == ParagraphsOf(lines)[..i]
    {
      var line := lines[i];
      if line == "" {
        paragraphs := paragraphs + [Node("paragraph", [])];
      } else {
        paragraphs := paragraphs + [Node("paragraph", [Part("text", Some(line))])];
      }
    }
    if paragraphs == [] {
      paragraphs := [Node("paragraph", [])];
    }
    return Doc("doc", 1, paragraphs);
  }

  method AdfToText(body: Body) returns (text: string)
    ensures text == TextOfBody(body)
  {
    if body.Nothing? {
      return "";
    }
    if body.Plain? {
      return body.text;
    }
    var nodes := body.doc.content;
    var lines: seq<string> := [];
    for i := 0 to |nodes|
      invariant lines == LinesOf(nodes[..i])
    {
      assert nodes[..i + 1][..i] == nodes[..i];
      if nodes[i].kind != "paragraph" {
        continue;
      }
      lines := lines + [TextOf(nodes[i].content)];
    }
    assert nodes[..|nodes|] == nodes;
    return Join(lines);
  }

  // ---- Round trips ----------------------------------------------------------------

  lemma TextOfParagraph(line: string)
    ensures TextOf(Paragraph(line).content) == line
  {
    var parts := Paragraph(line).content;
    if line != "" {
      assert parts[..0] == [];
      assert TextOf(parts[..0]) == "";
    }
  }

  lemma {:induction false} LinesOfParagraphs(lines: seq<string>)
    ensures LinesOf(ParagraphsOf(lines)) == lines
  {
    if lines != [] {
      var n := |lines| - 1;
      LinesOfParagraphs(lines[..n]);
      assert ParagraphsOf(lines)[..n] == ParagraphsOf(lines[..n]);
      TextOfParagraph(lines[n]);
    }
  }

  /** Every text survives, blank lines, leading and trailing newlines and the empty text included. */
  lemma TextRoundTrip(text: string)
    ensures TextOfBody(Document(DocOf(text))) == text
    ensures TextOfBody(Plain(text)) == text && TextOfBody(Nothing) == ""
  {
    LinesOfParagraphs(Split(text));
    JoinSplit(text);
  }

  /** One text per paragraph, not empty and without a newline, or nothing at all. */
  predicate CanonicalNode(node: Node) {
    && node.kind == "paragraph"
    && (node.content == []
        || (|node.content| == 1 && node.content[0].kind == "text" && node.content[0].text.Some?
            && node.content[0].text.value != "" && '\n' !in node.content[0].text.value))
  }

  predicate Canonical(doc: Doc) {
    doc.kind == "doc" && doc.version == 1 && doc.content != [] && forall node | node in doc.content :: CanonicalNode(node)
  }

  lemma CanonicalParagraph(node: Node)
    requires CanonicalNode(node)
    ensures Paragraph(TextOf(node.content)) == node && '\n' !in TextOf(node.content)
  {
    var parts := node.content;
    if parts != [] {
      assert parts[..0] == [];
      assert TextOf(parts[..0]) == "";
      assert TextOf(parts) == parts[0].text.value;
    }
  }

  lemma {:induction false} CanonicalLines(nodes: seq<Node>)
    requires forall node | node in nodes :: CanonicalNode(node)
    ensures |LinesOf(nodes)| == |nodes| && ParagraphsOf(LinesOf(nodes)) == nodes
    ensures forall line | line in LinesOf(nodes) :: '\n' !in line
  {
    if nodes != [] {
      var n := |nodes| - 1;
      CanonicalLines(nodes[..n]);
      CanonicalParagraph(nodes[n]);
      assert ParagraphsOf(LinesOf(nodes)) == ParagraphsOf(LinesOf(nodes[..n])) + [nodes[n]];
    }
  }

  /** Parts are joined as they stand, whatever their kind; one without a text adds nothing. */
  lemma {:induction false} TextInPieces(parts: seq<Part>, more: seq<Part>)
    ensures TextOf(parts + more) == TextOf(parts) + TextOf(more)
    ensures |parts| == 1 ==> TextOf(parts) == if parts[0].text.Some? then parts[0].text.value else ""
  {
    if more == [] {
      assert parts + more == parts;
    } else {
      TextInPieces(parts, more[..|more| - 1]);
      assert (parts + more)[..|parts + more| - 1] == parts + more[..|more| - 1];
    }
    if |parts| == 1 {
      assert parts[..0] == [] && TextOf(parts[..0]) == "";
    }
  }

  /** Nodes that are no paragraphs leave no trace; the paragraphs give their texts, in order. */
  lemma {:induction false} LinesInPieces(nodes: seq<Node>, more: seq<Node>)
    ensures LinesOf(nodes + more) == LinesOf(nodes) + LinesOf(more)
    ensures |nodes| == 1 ==> LinesOf(nodes) == if nodes[0].kind == "paragraph" then [TextOf(nodes[0].content)] else []
  {
    hide TextOf;
    if more == [] {
      assert nodes + more == nodes;
    } else {
      LinesInPieces(nodes, more[..|more| - 1]);
      assert (nodes + more)[..|nodes + more| - 1] == nodes + more[..|more| - 1];
    }
    if |nodes| == 1 {
      assert nodes[..0] == [] && LinesOf(nodes[..0]) == [];
    }
  }

  /** A document survives the way to text and back exactly when it is one the writer could have written. */
  lemma DocRoundTripIff(doc: Doc)
    ensures DocOf(TextOfBody(Document(doc))) == doc <==> Canonical(doc)
  {
    if Canonical(doc) {
      CanonicalLines(doc.content);
      SplitJoin(LinesOf(doc.content));
    }
    SplitHasNoNewlines(TextOfBody(Document(doc)));
  }

  /** And those are exactly the documents the writer writes. */
  lemma WrittenIffCanonical(doc: Doc)
    ensures (exists text :: DocOf(text) == doc) <==> Canonical(doc)
  {
    DocRoundTripIff(doc);
    forall text | DocOf(text) == doc ensures Canonical(doc) {
      TextRoundTrip(text);
    }
  }
}
