/** A configuration page by the names of its elements: what it must hold and what is read off it. */
module XmlFields {
  import opened Types
  import opened XmlText
  import opened XmlScanner
  import opened XmlAcceptance
  import opened XmlRoundTrip

  function CountNamedIn(node: Node, name: string): nat {
    match node
    case Empty(tag) => One(tag.name == name)
    case Element(tag, children, _) => One(tag.name == name) + CountNamed(children, name)
    case _ => 0
  }

  /** How many elements have this name, at any depth. */
  function CountNamed(nodes: seq<Node>, name: string): nat {
    if nodes == [] then 0 else CountNamedIn(nodes[0], name) + CountNamed(nodes[1..], name)
  }

  function TextNamedIn(node: Node, name: string): string {
    if !node.Element? then ""
    else if node.tag.name == name then DirectText(node.children)
    else TextNamed(node.children, name)
  }

  /** The text directly inside the elements of this name. */
  function TextNamed(nodes: seq<Node>, name: string): string {
    if nodes == [] then "" else TextNamedIn(nodes[0], name) + TextNamed(nodes[1..], name)
  }

  predicate IsFieldName(name: string) {
    name == "prodname" || name == "cfgcpf" || name == "cfgcpt" || name == "scfgfu" || name == "scfgtu"
  }

  /** No element stands inside one of the five. */
  predicate NothingInside(nodes: seq<Node>) {
    forall node | node in nodes && node.Element? ::
      if IsFieldName(node.tag.name) then TextOnly(node.children) else NothingInside(node.children)
  }

  predicate HoldsOnce(nodes: seq<Node>, name: string) {
    CountNamed(nodes, name) == 1 && 1 <= |Trim(TextNamed(nodes, name))| <= 128
  }

  /** Each of the four values once, the product name at most once, each of 1 to 128 characters. */
  predicate IsNamedPage(nodes: seq<Node>) {
    NothingInside(nodes) &&
    (CountNamed(nodes, "prodname") == 0 || HoldsOnce(nodes, "prodname")) &&
    HoldsOnce(nodes, "cfgcpf") && HoldsOnce(nodes, "cfgcpt") && HoldsOnce(nodes, "scfgfu") && HoldsOnce(nodes, "scfgtu")
  }

  /** The product name, or what stands in for it; counts per force and per torque; force and torque units. */
  function NamedFields(nodes: seq<Node>): seq<string> {
    [if CountNamed(nodes, "prodname") == 0 then "ATI Net F/T" else Trim(TextNamed(nodes, "prodname")),
     Trim(TextNamed(nodes, "cfgcpf")), Trim(TextNamed(nodes, "cfgcpt")),
     Trim(TextNamed(nodes, "scfgfu")), Trim(TextNamed(nodes, "scfgtu"))]
  }

  // ---------------------------------------------------------------- names and indices

  lemma {:induction false} NamedInIsIndexed(node: Node, name: string, i: Index)
    requires FieldNamed(name) == Some(i)
    ensures OccurrencesIn(node, i) == CountNamedIn(node, name) && FieldTextIn(node, i) == TextNamedIn(node, name)
    decreases node, 0
  {
    if IsElement(node) {
      TagIndexNames(node.tag.name);
    }
    if node.Element? {
      NamedIsIndexed(node.children, name, i);
    }
  }

  /** Counting and reading by index is counting and reading by name. */
  lemma {:induction false} NamedIsIndexed(nodes: seq<Node>, name: string, i: Index)
    requires FieldNamed(name) == Some(i)
    ensures Occurrences(nodes, i) == CountNamed(nodes, name) && FieldText(nodes, i) == TextNamed(nodes, name)
    decreases nodes, 1
  {
    if nodes != [] {
      NamedInIsIndexed(nodes[0], name, i);
      NamedIsIndexed(nodes[1..], name, i);
    }
  }

  lemma {:induction false} NothingInsideIsText(nodes: seq<Node>)
    ensures NothingInside(nodes) <==> FieldsHoldText(nodes)
  {
    forall node | node in nodes && node.Element?
      ensures TagIndex(node.tag.name).Some? <==> IsFieldName(node.tag.name)
      ensures NothingInside(node.children) <==> FieldsHoldText(node.children)
    {
      TagIndexNames(node.tag.name);
      NothingInsideIsText(node.children);
    }
  }

  lemma ReadsNamed(nodes: seq<Node>)
    requires Occurrences(nodes, 0) == CountNamed(nodes, "prodname") &&
             FieldText(nodes, 0) == TextNamed(nodes, "prodname")
    requires Occurrences(nodes, 1) == CountNamed(nodes, "cfgcpf") && FieldText(nodes, 1) == TextNamed(nodes, "cfgcpf")
    requires Occurrences(nodes, 2) == CountNamed(nodes, "cfgcpt") && FieldText(nodes, 2) == TextNamed(nodes, "cfgcpt")
    requires Occurrences(nodes, 3) == CountNamed(nodes, "scfgfu") && FieldText(nodes, 3) == TextNamed(nodes, "scfgfu")
    requires Occurrences(nodes, 4) == CountNamed(nodes, "scfgtu") && FieldText(nodes, 4) == TextNamed(nodes, "scfgtu")
    requires IsNamedPage(nodes)
    ensures FieldsOf(nodes) == NamedFields(nodes)
  {
    hide CountNamed, TextNamed, Occurrences, FieldText, NothingInside, Trim;
  }

  lemma NamedPageIsPage(nodes: seq<Node>)
    ensures IsConfigurationPage(nodes) <==> IsNamedPage(nodes)
    ensures IsNamedPage(nodes) ==> FieldsOf(nodes) == NamedFields(nodes)
  {
    hide CountNamed, TextNamed, Occurrences, FieldText, NothingInside, FieldsHoldText, Trim;
    NothingInsideIsText(nodes);
    NamedIsIndexed(nodes, "prodname", 0);
    NamedIsIndexed(nodes, "cfgcpf", 1);
    NamedIsIndexed(nodes, "cfgcpt", 2);
    NamedIsIndexed(nodes, "scfgfu", 3);
    NamedIsIndexed(nodes, "scfgtu", 4);
    assert FieldIsGood(nodes, 0) <==> CountNamed(nodes, "prodname") == 0 || HoldsOnce(nodes, "prodname");
    assert FieldIsGood(nodes, 1) <==> HoldsOnce(nodes, "cfgcpf");
    assert FieldIsGood(nodes, 2) <==> HoldsOnce(nodes, "cfgcpt");
    assert FieldIsGood(nodes, 3) <==> HoldsOnce(nodes, "scfgfu");
    assert FieldIsGood(nodes, 4) <==> HoldsOnce(nodes, "scfgtu");
    if IsNamedPage(nodes) {
      forall i: Index ensures FieldIsGood(nodes, i) {
        assert i == 0 || i == 1 || i == 2 || i == 3 || i == 4;
      }
      ReadsNamed(nodes);
    }
  }

  // ---------------------------------------------------------------- reading a page

  /** A page that tokenises into a document is accepted exactly when the document holds the named values, and then
    those come out. */
  lemma PageIsReadByName(xml: string, nodes: seq<Node>)
    requires Lex(xml) == Tokens(Flatten(nodes), None)
    ensures Extract(xml).Accepted? <==> IsNamedPage(nodes)
    ensures Extract(xml).Accepted? ==> Extract(xml).value == NamedFields(nodes)
  {
    hide *;
    PageIsReadExactly(xml, nodes);
    NamedPageIsPage(nodes);
  }

  /** Acceptance by name, for every page there is. */
  lemma AcceptedByName(xml: string)
    ensures Extract(xml).Accepted? <==>
            (Lex(xml).error.None? && exists nodes :: Flatten(nodes) == Lex(xml).read && IsNamedPage(nodes))
  {
    hide *;
    AcceptanceExactly(xml);
    forall nodes | Flatten(nodes) == Lex(xml).read
      ensures IsConfigurationPage(nodes) <==> IsNamedPage(nodes)
    {
      NamedPageIsPage(nodes);
    }
  }

  /** XML round trip: a printed document is accepted exactly when it holds the named values, and then each value that is
    read back is the text of the element it is named after. */
  lemma RoundTripByName(nodes: seq<Node>)
    requires ValidNodes(nodes)
    ensures Extract(Render(nodes)).Accepted? <==> IsNamedPage(nodes)
    ensures Extract(Render(nodes)).Accepted? ==> Extract(Render(nodes)).value == NamedFields(nodes)
  {
    hide *;
    RoundTrip(nodes);
    NamedPageIsPage(nodes);
  }
}
