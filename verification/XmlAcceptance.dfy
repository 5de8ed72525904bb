/** Which pages the scanner accepts, and what it reads off them, in terms of document trees. */
module XmlAcceptance {
  import opened Types
  import opened XmlText
  import opened XmlScanner

  // ---------------------------------------------------------------- tokens

  /** The tokens of a page up to the first one that cannot be read. */
  datatype Tokens = Tokens(read: seq<Token>, error: Option<XmlError>)

  function Lex(s: string): Tokens
    decreases |s|
  {
    if s == "" then Tokens([], None)
    else if s[0] != '<' then Then(Text(s[0]), Lex(s[1..]))
    else
      var lexeme := Markup(s);
      if lexeme.Rejected? then Tokens([], Some(lexeme.error))
      else Then(lexeme.value.token, Lex(s[lexeme.value.length..]))
  }

  function Then(token: Token, later: Tokens): Tokens {
    Tokens([token] + later.read, later.error)
  }

  function FeedAll(st: Scan, tokens: seq<Token>): Outcome<Scan>
    decreases tokens
  {
    if tokens == [] then Accepted(st) else
      var next := Feed(st, tokens[0]);
      if next.Rejected? then next else FeedAll(next.value, tokens[1..])
  }

  /** Scanning is tokenising and then feeding the tokens, whichever fails first. */
  lemma {:induction false} ScanFeedsTokens(st: Scan, s: string)
    ensures var fed := FeedAll(st, Lex(s).read);
            ScanFrom(st, s) == if fed.Accepted? && Lex(s).error.Some? then Rejected(Lex(s).error.value) else fed
    decreases |s|
  {
    if s != "" {
      if s[0] != '<' {
        assert [s[0]] == s[..1];
        assert Lex(s).read[1..] == Lex(s[1..]).read;
        ScanFeedsTokens(Append(st, s[..1]), s[1..]);
      } else if Markup(s).Accepted? {
        var lexeme := Markup(s).value;
        var rest := s[lexeme.length..];
        assert Lex(s).read[1..] == Lex(rest).read;
        if Feed(st, lexeme.token).Accepted? {
          ScanFeedsTokens(Feed(st, lexeme.token).value, rest);
        }
      }
    }
  }

  lemma {:induction false} FeedComposes(st: Scan, a: seq<Token>, b: seq<Token>)
    ensures FeedAll(st, a + b) == if FeedAll(st, a).Rejected? then FeedAll(st, a) else FeedAll(FeedAll(st, a).value, b)
    decreases a
  {
    if a == [] {
      assert a + b == b;
    } else {
      assert (a + b)[1..] == a[1..] + b;
      if Feed(st, a[0]).Accepted? {
        FeedComposes(Feed(st, a[0]).value, a[1..], b);
      }
    }
  }

  // ---------------------------------------------------------------- documents

  datatype Attribute = Attribute(pad: string, key: string, quote: char, value: string)

  datatype Tag = Tag(name: string, attributes: seq<Attribute>, pad: string)

  datatype Node =
    | CharacterData(text: string)
    | Comment(text: string)
    | CDataSection(text: string)
    | Instruction(text: string)
    | Empty(tag: Tag)
    | Element(tag: Tag, children: seq<Node>, closePad: string)

  function Characters(text: string): seq<Token> {
    seq(|text|, i requires 0 <= i < |text| => Text(text[i]))
  }

  function NodeTokens(node: Node): seq<Token> {
    match node
    case CharacterData(text) => Characters(text)
    case Comment(_) => [Skipped]
    case CDataSection(text) => [CData(text)]
    case Instruction(_) => [Skipped]
    case Empty(tag) => [Open(tag.name, true)]
    case Element(tag, children, _) => [Open(tag.name, false)] + Flatten(children) + [Close(tag.name)]
  }

  /** The tokens of a balanced, name-matched document. */
  function Flatten(nodes: seq<Node>): seq<Token> {
    if nodes == [] then [] else NodeTokens(nodes[0]) + Flatten(nodes[1..])
  }

  predicate IsElement(node: Node) {
    node.Empty? || node.Element?
  }

  predicate TextOnly(nodes: seq<Node>) {
    forall node | node in nodes :: !IsElement(node)
  }

  /** No element is opened inside a required field. */
  predicate FieldsHoldText(nodes: seq<Node>) {
    forall node | node in nodes && node.Element? ::
      if TagIndex(node.tag.name).Some? then TextOnly(node.children) else FieldsHoldText(node.children)
  }

  function OccurrencesIn(node: Node, i: Index): nat {
    match node
    case Empty(tag) => One(TagIndex(tag.name) == Some(i))
    case Element(tag, children, _) => One(TagIndex(tag.name) == Some(i)) + Occurrences(children, i)
    case _ => 0
  }

  /** How often a field's tag is opened. */
  function Occurrences(nodes: seq<Node>, i: Index): nat {
    if nodes == [] then 0 else OccurrencesIn(nodes[0], i) + Occurrences(nodes[1..], i)
  }

  /** The text and CDATA directly inside an element. */
  function DirectText(nodes: seq<Node>): string {
    if nodes == [] then "" else
      (match nodes[0]
       case CharacterData(text) => text
       case CDataSection(text) => text
       case _ => "") + DirectText(nodes[1..])
  }

  function FieldTextIn(node: Node, i: Index): string {
    if !node.Element? then ""
    else if TagIndex(node.tag.name) == Some(i) then DirectText(node.children)
    else FieldText(node.children, i)
  }

  /** The text of a field, wherever its element stands. */
  function FieldText(nodes: seq<Node>, i: Index): string {
    if nodes == [] then "" else FieldTextIn(nodes[0], i) + FieldText(nodes[1..], i)
  }

  /** What the page must hold of one field. */
  predicate FieldIsGood(nodes: seq<Node>, i: Index) {
    (Occurrences(nodes, i) == 0 && i == PRODUCT_NAME) ||
    (Occurrences(nodes, i) == 1 && 1 <= |Trim(FieldText(nodes, i))| <= MAXIMUM_FIELD_LENGTH)
  }

  predicate IsConfigurationPage(nodes: seq<Node>) {
    FieldsHoldText(nodes) && forall i: Index :: FieldIsGood(nodes, i)
  }

  /** The fields a page reports. */
  function FieldsOf(nodes: seq<Node>): seq<string> {
    seq(FIELD_COUNT, i requires 0 <= i < FIELD_COUNT =>
      if Occurrences(nodes, i) == 0 then DEFAULT_PRODUCT_NAME else Trim(FieldText(nodes, i)))
  }

  // ---------------------------------------------------------------- feeding a document

  lemma {:induction false} FeedCharacters(st: Scan, text: string)
    ensures FeedAll(st, Characters(text)) == Accepted(Append(st, text))
    decreases text
  {
    if text == "" {
      AppendNothing(st);
    } else {
      assert Characters(text)[1..] == Characters(text[1..]);
      FeedCharacters(Append(st, [text[0]]), text[1..]);
      AppendComposes(st, [text[0]], text[1..]);
      assert [text[0]] + text[1..] == text;
    }
  }

  /** A node without elements adds its text to the innermost element. */
  lemma FeedPlainNode(st: Scan, node: Node)
    requires !IsElement(node)
    ensures FeedAll(st, NodeTokens(node)) == Accepted(Append(st, DirectText([node])))
  {
    assert DirectText([node]) == match node case CharacterData(t) => t case CDataSection(t) => t case _ => "";
    match node
    case CharacterData(text) => FeedCharacters(st, text);
    case CDataSection(text) => assert FeedAll(Append(st, text), []) == Accepted(Append(st, text));
    case _ => AppendNothing(st);
  }

  lemma DirectTextStep(nodes: seq<Node>)
    requires nodes != []
    ensures DirectText(nodes) == DirectText([nodes[0]]) + DirectText(nodes[1..])
  {
  }

  lemma FeedRejectsElement(st: Scan, node: Node)
    requires IsElement(node) && Inside(st.elements).Some?
    ensures FeedAll(st, NodeTokens(node)).Rejected?
  {
  }

  /** Inside a field: text is collected, an element is refused. */
  lemma {:induction false} FeedInsideField(st: Scan, nodes: seq<Node>)
    requires Inside(st.elements).Some?
    ensures TextOnly(nodes) ==> FeedAll(st, Flatten(nodes)) == Accepted(Append(st, DirectText(nodes)))
    ensures !TextOnly(nodes) ==> FeedAll(st, Flatten(nodes)).Rejected?
    decreases nodes
  {
    if nodes == [] {
      AppendNothing(st);
    } else {
      FeedComposes(st, NodeTokens(nodes[0]), Flatten(nodes[1..]));
      if IsElement(nodes[0]) {
        FeedRejectsElement(st, nodes[0]);
      } else {
        FeedPlainNode(st, nodes[0]);
        FeedInsideField(Append(st, DirectText([nodes[0]])), nodes[1..]);
        DirectTextStep(nodes);
        AppendComposes(st, DirectText([nodes[0]]), DirectText(nodes[1..]));
        assert TextOnly(nodes) <==> TextOnly(nodes[1..]);
      }
    }
  }

  lemma {:induction false} TextOnlyHasNoFields(nodes: seq<Node>, i: Index)
    requires TextOnly(nodes)
    ensures Occurrences(nodes, i) == 0 && FieldText(nodes, i) == ""
  {
    if nodes != [] {
      assert nodes[0] in nodes;
      TextOnlyHasNoFields(nodes[1..], i);
    }
  }

  /** No tag of the document was seen before, and none comes twice. */
  predicate NewTags(seen: seq<bool>, nodes: seq<Node>)
    requires |seen| == FIELD_COUNT
  {
    forall i: Index :: One(seen[i]) + Occurrences(nodes, i) <= 1
  }

  function SeenAfter(seen: seq<bool>, nodes: seq<Node>): (r: seq<bool>)
    requires |seen| == FIELD_COUNT
  {
    seq(FIELD_COUNT, i requires 0 <= i < FIELD_COUNT => seen[i] || Occurrences(nodes, i) > 0)
  }

  function TextAfter(fields: seq<string>, nodes: seq<Node>): (r: seq<string>)
    requires |fields| == FIELD_COUNT
  {
    seq(FIELD_COUNT, i requires 0 <= i < FIELD_COUNT => fields[i] + FieldText(nodes, i))
  }

  function AfterNodes(st: Scan, nodes: seq<Node>): Scan {
    ScanRaw.Scan(st.elements, TextAfter(st.fields, nodes), SeenAfter(st.seen, nodes))
  }

  predicate Fits(st: Scan, nodes: seq<Node>) {
    FieldsHoldText(nodes) && NewTags(st.seen, nodes)
  }

  /** Outside every field: exactly the documents that fit are taken in, and the state says what they held. */
  lemma {:induction false} FeedOutsideField(st: Scan, nodes: seq<Node>)
    requires Inside(st.elements).None?
    ensures Fits(st, nodes) ==> FeedAll(st, Flatten(nodes)) == Accepted(AfterNodes(st, nodes))
    ensures !Fits(st, nodes) ==> FeedAll(st, Flatten(nodes)).Rejected?
    decreases nodes, 1
  {
    if nodes == [] {
      AfterNothing(st, nodes);
    } else {
      var head, tail := nodes[0], nodes[1..];
      assert nodes == [head] + tail;
      FeedComposes(st, NodeTokens(head), Flatten(tail));
      FeedNode(st, head);
      FitsStep(st, head, tail);
      if Fits(st, [head]) {
        FeedOutsideField(AfterNodes(st, [head]), tail);
      }
    }
  }

  lemma AfterNothing(st: Scan, nodes: seq<Node>)
    requires forall i: Index :: Occurrences(nodes, i) == 0 && FieldText(nodes, i) == ""
    ensures AfterNodes(st, nodes) == st
  {
    assert SeenAfter(st.seen, nodes) == st.seen;
    forall i: Index ensures st.fields[i] + FieldText(nodes, i) == st.fields[i] {
    }
    assert TextAfter(st.fields, nodes) == st.fields;
  }

  lemma OneNode(node: Node, i: Index)
    ensures Occurrences([node], i) == OccurrencesIn(node, i)
    ensures FieldText([node], i) == FieldTextIn(node, i)
  {
    assert [node][1..] == [];
    assert FieldText([], i) == "";
    assert FieldTextIn(node, i) + "" == FieldTextIn(node, i);
  }

  lemma FitsStep(st: Scan, head: Node, tail: seq<Node>)
    ensures Fits(st, [head] + tail) <==> (Fits(st, [head]) && Fits(AfterNodes(st, [head]), tail))
    ensures AfterNodes(st, [head] + tail) == AfterNodes(AfterNodes(st, [head]), tail)
  {
    var all := [head] + tail;
    assert all[1..] == tail;
    forall i: Index
      ensures Occurrences(all, i) == Occurrences([head], i) + Occurrences(tail, i)
      ensures FieldText(all, i) == FieldText([head], i) + FieldText(tail, i)
      ensures st.fields[i] + FieldText(all, i) == (st.fields[i] + FieldText([head], i)) + FieldText(tail, i)
    {
    }
    assert FieldsHoldText(all) <==> (FieldsHoldText([head]) && FieldsHoldText(tail));
  }

  lemma {:induction false} FeedNode(st: Scan, node: Node)
    requires Inside(st.elements).None?
    ensures Fits(st, [node]) ==> FeedAll(st, NodeTokens(node)) == Accepted(AfterNodes(st, [node]))
    ensures !Fits(st, [node]) ==> FeedAll(st, NodeTokens(node)).Rejected?
    decreases node, 0
  {
    forall i: Index
      ensures Occurrences([node], i) == OccurrencesIn(node, i) && FieldText([node], i) == FieldTextIn(node, i)
    {
      OneNode(node, i);
    }
    if !IsElement(node) {
      FeedPlainNode(st, node);
      AfterNothing(st, [node]);
      assert forall i: Index :: OccurrencesIn(node, i) == 0;
    } else if node.Empty? {
      FeedEmpty(st, node);
    } else {
      FeedBetweenTags(st, node);
      if TagIndex(node.tag.name).Some? {
        FeedFieldElement(st, node);
      } else {
        FeedOutsideField(Entered(st, node), node.children);
        FeedOtherElement(st, node);
      }
    }
  }

  lemma FeedEmpty(st: Scan, node: Node)
    requires Inside(st.elements).None? && node.Empty?
    requires forall i: Index ::
               Occurrences([node], i) == OccurrencesIn(node, i) && FieldText([node], i) == FieldTextIn(node, i)
    ensures Fits(st, [node]) ==> FeedAll(st, NodeTokens(node)) == Accepted(AfterNodes(st, [node]))
    ensures !Fits(st, [node]) ==> FeedAll(st, NodeTokens(node)).Rejected?
  {
    var field := TagIndex(node.tag.name);
    var next := OpenTag(st, node.tag.name, true);
    assert FeedAll(st, NodeTokens(node)) == next;
    if field.Some? {
      assert OccurrencesIn(node, field.value) == 1;
    }
    if next.Accepted? {
      assert SeenAfter(st.seen, [node]) == next.value.seen;
      assert TextAfter(st.fields, [node]) == st.fields by {
        forall i: Index ensures st.fields[i] + FieldText([node], i) == st.fields[i] {
        }
      }
    }
  }

  /** The state just inside an element that was not seen before. */
  function Entered(st: Scan, node: Node): Scan
    requires node.Element?
  {
    var field := TagIndex(node.tag.name);
    st.(seen := if field.Some? then st.seen[field.value := true] else st.seen,
        elements := st.elements + [OpenElement(node.tag.name, field)])
  }

  lemma FeedBetweenTags(st: Scan, node: Node)
    requires Inside(st.elements).None? && node.Element?
    ensures var field, fed := TagIndex(node.tag.name), FeedAll(Entered(st, node), Flatten(node.children));
            FeedAll(st, NodeTokens(node)) ==
            if field.Some? && st.seen[field.value] then Rejected(NotExactlyOnce(field.value))
            else if fed.Rejected? then fed
            else CloseTag(fed.value, node.tag.name)
  {
    var name := node.tag.name;
    var inner := Flatten(node.children);
    assert NodeTokens(node) == [Open(name, false)] + (inner + [Close(name)]);
    assert ([Open(name, false)] + (inner + [Close(name)]))[1..] == inner + [Close(name)];
    FeedComposes(Entered(st, node), inner, [Close(name)]);
    var fed := FeedAll(Entered(st, node), inner);
    if fed.Accepted? {
      assert FeedAll(fed.value, [Close(name)]) == CloseTag(fed.value, name);
    }
  }

  lemma FeedFieldElement(st: Scan, node: Node)
    requires Inside(st.elements).None? && node.Element? && TagIndex(node.tag.name).Some?
    requires forall i: Index ::
               Occurrences([node], i) == OccurrencesIn(node, i) && FieldText([node], i) == FieldTextIn(node, i)
    ensures Fits(st, [node]) ==> FeedAll(st, NodeTokens(node)) == Accepted(AfterNodes(st, [node]))
    ensures !Fits(st, [node]) ==> FeedAll(st, NodeTokens(node)).Rejected?
  {
    hide FeedAll, Flatten, NodeTokens, Collect;
    var k := TagIndex(node.tag.name).value;
    FeedBetweenTags(st, node);
    FeedInsideField(Entered(st, node), node.children);
    assert OccurrencesIn(node, k) >= 1;
    assert FieldsHoldText([node]) <==> TextOnly(node.children);
    if TextOnly(node.children) {
      forall i: Index ensures Occurrences(node.children, i) == 0 && FieldText(node.children, i) == "" {
        TextOnlyHasNoFields(node.children, i);
      }
      if !st.seen[k] {
        assert FieldTextIn(node, k) == DirectText(node.children);
        assert forall i: Index :: OccurrencesIn(node, i) == One(i == k);
        assert SeenAfter(st.seen, [node]) == Entered(st, node).seen;
        assert TextAfter(st.fields, [node]) == st.fields[k := st.fields[k] + DirectText(node.children)] by {
          forall i: Index | i != k ensures st.fields[i] + FieldText([node], i) == st.fields[i] {
            assert FieldText(node.children, i) == "";
          }
        }
      }
    }
  }

  lemma FeedOtherElement(st: Scan, node: Node)
    requires Inside(st.elements).None? && node.Element? && TagIndex(node.tag.name).None?
    requires forall i: Index ::
               Occurrences([node], i) == OccurrencesIn(node, i) && FieldText([node], i) == FieldTextIn(node, i)
    requires var inner := Entered(st, node);
             if Fits(inner, node.children)
             then FeedAll(inner, Flatten(node.children)) == Accepted(AfterNodes(inner, node.children))
             else FeedAll(inner, Flatten(node.children)).Rejected?
    ensures Fits(st, [node]) ==> FeedAll(st, NodeTokens(node)) == Accepted(AfterNodes(st, [node]))
    ensures !Fits(st, [node]) ==> FeedAll(st, NodeTokens(node)).Rejected?
  {
    FeedBetweenTags(st, node);
    assert forall i: Index :: OccurrencesIn(node, i) == Occurrences(node.children, i);
    assert FieldsHoldText([node]) <==> FieldsHoldText(node.children);
    assert SeenAfter(st.seen, [node]) == SeenAfter(st.seen, node.children);
    assert TextAfter(st.fields, [node]) == TextAfter(st.fields, node.children);
  }

  // ---------------------------------------------------------------- balanced token words

  ghost predicate IsDocument(tokens: seq<Token>) {
    exists nodes :: Flatten(nodes) == tokens
  }

  predicate Splits(tokens: seq<Token>, nodes: seq<Node>, name: string, rest: seq<Token>) {
    tokens == Flatten(nodes) + [Close(name)] + rest
  }

  function InnermostName(elements: seq<OpenElement>): string
    requires elements != []
  {
    elements[|elements| - 1].name
  }

  /** What is left to read closes the open elements, innermost first, and is a document around them. */
  ghost predicate Unwinds(elements: seq<OpenElement>, tokens: seq<Token>)
    decreases |elements|
  {
    if elements == [] then IsDocument(tokens)
    else exists nodes, rest ::
        Splits(tokens, nodes, InnermostName(elements), rest) && Unwinds(elements[..|elements| - 1], rest)
  }

  lemma FlattenCons(node: Node, nodes: seq<Node>)
    ensures Flatten([node] + nodes) == NodeTokens(node) + Flatten(nodes)
  {
    assert ([node] + nodes)[1..] == nodes;
  }

  lemma SplitsWithNode(node: Node, tokens: seq<Token>, nodes: seq<Node>, name: string, rest: seq<Token>)
    requires Splits(tokens, nodes, name, rest)
    ensures Splits(NodeTokens(node) + tokens, [node] + nodes, name, rest)
  {
    hide Flatten, NodeTokens;
    FlattenCons(node, nodes);
    assert NodeTokens(node) + (Flatten(nodes) + [Close(name)] + rest) ==
           NodeTokens(node) + Flatten(nodes) + [Close(name)] + rest;
  }

  /** Putting a node in front of what unwinds. */
  lemma UnwindsWithNode(elements: seq<OpenElement>, node: Node, tokens: seq<Token>)
    requires Unwinds(elements, tokens)
    ensures Unwinds(elements, NodeTokens(node) + tokens)
  {
    hide Flatten, NodeTokens, Splits;
    if elements == [] {
      var nodes :| Flatten(nodes) == tokens;
      FlattenCons(node, nodes);
      assert IsDocument(NodeTokens(node) + tokens);
    } else {
      var name := InnermostName(elements);
      var nodes, rest :| Splits(tokens, nodes, name, rest) && Unwinds(elements[..|elements| - 1], rest);
      SplitsWithNode(node, tokens, nodes, name, rest);
      assert Splits(NodeTokens(node) + tokens, [node] + nodes, InnermostName(elements), rest);
    }
  }

  lemma UnwindsWithClose(elements: seq<OpenElement>, tokens: seq<Token>)
    requires elements != [] && Unwinds(elements[..|elements| - 1], tokens)
    ensures Unwinds(elements, [Close(elements[|elements| - 1].name)] + tokens)
  {
    var name := InnermostName(elements);
    assert [Close(name)] + tokens == Flatten([]) + [Close(name)] + tokens;
    assert Splits([Close(name)] + tokens, [], name, tokens);
  }

  lemma ElementTokens(name: string, tokens: seq<Token>, nodes: seq<Node>, rest: seq<Token>)
    requires Splits(tokens, nodes, name, rest)
    ensures [Open(name, false)] + tokens == NodeTokens(Element(Tag(name, [], ""), nodes, "")) + rest
  {
    hide Flatten;
  }

  lemma UnwindsWithOpen(elements: seq<OpenElement>, name: string, field: Option<Index>, tokens: seq<Token>)
    requires Unwinds(elements + [OpenElement(name, field)], tokens)
    ensures Unwinds(elements, [Open(name, false)] + tokens)
  {
    hide Flatten, NodeTokens, Splits;
    var all := elements + [OpenElement(name, field)];
    assert all[|all| - 1].name == name && all[..|all| - 1] == elements;
    var nodes, rest :| Splits(tokens, nodes, name, rest) && Unwinds(elements, rest);
    UnwindsWithNode(elements, Element(Tag(name, [], ""), nodes, ""), rest);
    ElementTokens(name, tokens, nodes, rest);
  }

  /** Tokens that leave no element open are the tokens of a document. */
  lemma {:induction false} AcceptedTokensUnwind(st: Scan, tokens: seq<Token>)
    requires FeedAll(st, tokens).Accepted? && FeedAll(st, tokens).value.elements == []
    ensures Unwinds(st.elements, tokens)
    decreases tokens
  {
    if tokens == [] {
      assert Flatten([]) == tokens;
      assert IsDocument(tokens);
    } else {
      hide Unwinds, Flatten, Append, Collect, TagIndex;
      var token, rest := tokens[0], tokens[1..];
      AcceptedTokensUnwind(Feed(st, token).value, rest);
      assert tokens == [token] + rest;
      match token
      case Text(c) =>
        UnwindsWithNode(st.elements, CharacterData([c]), rest);
        assert NodeTokens(CharacterData([c])) == [token];
      case CData(text) => UnwindsWithNode(st.elements, CDataSection(text), rest);
      case Skipped => UnwindsWithNode(st.elements, Comment(""), rest);
      case Close(name) => UnwindsWithClose(st.elements, rest);
      case Open(name, selfClosing) =>
        if selfClosing {
          UnwindsWithNode(st.elements, Empty(Tag(name, [], "")), rest);
        } else {
          UnwindsWithOpen(st.elements, name, TagIndex(name), rest);
        }
    }
  }

  // ---------------------------------------------------------------- acceptance

  lemma FieldValueOf(nodes: seq<Node>, i: Index)
    requires Fits(INITIAL, nodes)
    ensures var st := AfterNodes(INITIAL, nodes);
            var value := FieldValue(st.seen[i], st.fields[i], i);
            (value.Accepted? <==> FieldIsGood(nodes, i)) && (value.Accepted? ==> value.value == FieldsOf(nodes)[i])
  {
    assert INITIAL.fields[i] == "" && "" + FieldText(nodes, i) == FieldText(nodes, i);
    assert !INITIAL.seen[i];
  }

  /** A page whose tokens are those of a document is accepted exactly when the document is a configuration
    page, and then with its fields. */
  lemma PageIsReadExactly(xml: string, nodes: seq<Node>)
    requires Lex(xml) == Tokens(Flatten(nodes), None)
    ensures Extract(xml).Accepted? <==> IsConfigurationPage(nodes)
    ensures Extract(xml).Accepted? ==> Extract(xml).value == FieldsOf(nodes)
  {
    ScanFeedsTokens(INITIAL, xml);
    FeedOutsideField(INITIAL, nodes);
    if Fits(INITIAL, nodes) {
      CollectExactly(AfterNodes(INITIAL, nodes), 0);
      forall i: Index
        ensures var st := AfterNodes(INITIAL, nodes);
                var value := FieldValue(st.seen[i], st.fields[i], i);
                (value.Accepted? <==> FieldIsGood(nodes, i)) && (value.Accepted? ==> value.value == FieldsOf(nodes)[i])
      {
        FieldValueOf(nodes, i);
      }
    } else if FieldsHoldText(nodes) {
      var i: Index :| One(INITIAL.seen[i]) + Occurrences(nodes, i) > 1;
      assert !INITIAL.seen[i];
      assert !FieldIsGood(nodes, i);
    }
  }

  /** XML acceptance: a page is accepted exactly when it tokenises without error into a balanced, name-matched
    document that is a configuration page. */
  lemma AcceptanceExactly(xml: string)
    ensures Extract(xml).Accepted? <==>
            (Lex(xml).error.None? && exists nodes :: Flatten(nodes) == Lex(xml).read && IsConfigurationPage(nodes))
  {
    ScanFeedsTokens(INITIAL, xml);
    if Extract(xml).Accepted? {
      AcceptedTokensUnwind(INITIAL, Lex(xml).read);
      var nodes :| Flatten(nodes) == Lex(xml).read;
      PageIsReadExactly(xml, nodes);
    }
    if Lex(xml).error.None? {
      forall nodes | Flatten(nodes) == Lex(xml).read && IsConfigurationPage(nodes) ensures Extract(xml).Accepted? {
        PageIsReadExactly(xml, nodes);
      }
    }
  }
}
