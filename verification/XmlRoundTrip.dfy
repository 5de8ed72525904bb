/** Printing a document and scanning it again, and inserting comments into a page. */
module XmlRoundTrip {
  import opened Types
  import opened XmlText
  import opened XmlScanner
  import opened XmlAcceptance

  // ---------------------------------------------------------------- printing

  function RenderAttribute(a: Attribute): string {
    a.pad + a.key + "=" + [a.quote] + a.value + [a.quote]
  }

  function RenderAttributes(attributes: seq<Attribute>): string {
    if attributes == [] then "" else RenderAttribute(attributes[0]) + RenderAttributes(attributes[1..])
  }

  function TagHead(tag: Tag): string {
    tag.name + RenderAttributes(tag.attributes)
  }

  function RenderNode(node: Node): string {
    match node
    case CharacterData(text) => text
    case Comment(text) => "<!--" + text + "-->"
    case CDataSection(text) => "<![CDATA[" + text + "]]>"
    case Instruction(text) => "<?" + text + "?>"
    case Empty(tag) => "<" + (TagHead(tag) + tag.pad + "/") + ">"
    case Element(tag, children, closePad) =>
      "<" + (TagHead(tag) + tag.pad) + ">" + Render(children) + "<" + ("/" + tag.name + closePad) + ">"
  }

  function Render(nodes: seq<Node>): string {
    if nodes == [] then "" else RenderNode(nodes[0]) + Render(nodes[1..])
  }

  // ---------------------------------------------------------------- printable documents

  predicate IsPlain(c: char) {
    c != '\'' && c != '"' && c != '>'
  }

  predicate AllPlain(s: string) {
    forall i | 0 <= i < |s| :: IsPlain(s[i])
  }

  predicate ValidAttribute(a: Attribute) {
    a.pad != "" && AllWhitespace(a.pad) && AllPlain(a.key) && (a.quote == '\'' || a.quote == '"') && a.quote !in a.value
  }

  predicate ValidName(name: string) {
    IsCloseName(name) && AllPlain(name) && name[0] != '!' && name[0] != '?'
  }

  predicate ValidTag(tag: Tag) {
    ValidName(tag.name) && AllWhitespace(tag.pad) && forall a | a in tag.attributes :: ValidAttribute(a)
  }

  predicate ValidNode(node: Node) {
    match node
    case CharacterData(text) => '<' !in text
    case Comment(text) => Find(text, "-->").None?
    case CDataSection(text) => Find(text, "]]>").None?
    case Instruction(text) => Find(text, "?>").None?
    case Empty(tag) => ValidTag(tag)
    case Element(tag, children, closePad) => ValidTag(tag) && ValidNodes(children) && AllWhitespace(closePad)
  }

  predicate ValidNodes(nodes: seq<Node>) {
    forall node | node in nodes :: ValidNode(node)
  }

  // ---------------------------------------------------------------- lexing what was printed

  function Prepend(tokens: seq<Token>, later: Tokens): Tokens {
    Tokens(tokens + later.read, later.error)
  }

  lemma PrependComposes(a: seq<Token>, b: seq<Token>, later: Tokens)
    ensures Prepend(a, Prepend(b, later)) == Prepend(a + b, later)
  {
    assert a + (b + later.read) == a + b + later.read;
  }

  lemma {:induction false} LexCharacters(text: string, rest: string)
    requires '<' !in text
    ensures Lex(text + rest) == Prepend(Characters(text), Lex(rest))
    decreases text
  {
    if text == "" {
      assert text + rest == rest;
      assert Prepend([], Lex(rest)) == Lex(rest);
    } else {
      assert (text + rest)[1..] == text[1..] + rest;
      LexCharacters(text[1..], rest);
      assert Characters(text) == [Text(text[0])] + Characters(text[1..]);
      PrependComposes([Text(text[0])], Characters(text[1..]), Lex(rest));
    }
  }

  lemma LexMarkup(s: string, token: Token, rest: string)
    requires s != "" && s[0] == '<' && |rest| <= |s| && s[|s| - |rest|..] == rest
    requires Markup(s) == Accepted(Lexeme(token, |s| - |rest|))
    ensures Lex(s) == Prepend([token], Lex(rest))
  {
    hide Markup;
  }

  lemma LexComment(text: string, rest: string)
    requires Find(text, "-->").None?
    ensures Markup("<!--" + text + "-->" + rest) == Accepted(Lexeme(Skipped, |text| + 7))
    ensures Lex("<!--" + text + "-->" + rest) == Prepend([Skipped], Lex(rest))
  {
    hide Find;
    var s := "<!--" + text + "-->" + rest;
    assert s[4..] == text + "-->" + rest;
    FindsTerminator(text, "-->", rest);
    LexMarkup(s, Skipped, rest);
  }

  lemma LexCData(text: string, rest: string)
    requires Find(text, "]]>").None?
    ensures Lex("<![CDATA[" + text + "]]>" + rest) == Prepend([CData(text)], Lex(rest))
  {
    hide Find;
    var s := "<![CDATA[" + text + "]]>" + rest;
    assert s[9..] == text + "]]>" + rest;
    assert s[2] == '[';
    FindsTerminator(text, "]]>", rest);
    assert s[9..][..|text|] == text;
    LexMarkup(s, CData(text), rest);
  }

  lemma LexInstruction(text: string, rest: string)
    requires Find(text, "?>").None?
    ensures Lex("<?" + text + "?>" + rest) == Prepend([Skipped], Lex(rest))
  {
    hide Find;
    var s := "<?" + text + "?>" + rest;
    assert s[2..] == text + "?>" + rest;
    assert s[1] == '?';
    FindsTerminator(text, "?>", rest);
    LexMarkup(s, Skipped, rest);
  }

  /** A tag whose brackets are quoted and whose quotes are closed ends where it was printed to end. */
  lemma LexTag(interior: string, token: Token, rest: string)
    requires interior != "" && interior[0] != '!' && interior[0] != '?'
    requires BracketsQuoted(None, interior) && QuoteAfter(None, interior).None?
    requires TagToken(interior) == Accepted(token)
    ensures Lex("<" + interior + ">" + rest) == Prepend([token], Lex(rest))
  {
    hide TagToken, BracketsQuoted, QuoteAfter, TagEnd;
    var s := "<" + interior + ">" + rest;
    assert s[1..] == interior + ">" + rest && s[1] == interior[0];
    assert s[1..][..|interior|] == interior;
    TagEndExactly(None, s[1..], |interior|);
    LexMarkup(s, token, rest);
  }

  // ---------------------------------------------------------------- tags

  lemma {:induction false} PlainTextIsClosed(s: string)
    requires AllPlain(s)
    ensures BracketsQuoted(None, s) && QuoteAfter(None, s).None?
    decreases s
  {
    if s != "" {
      PlainTextIsClosed(s[1..]);
    }
  }

  lemma {:induction false} QuotedTextStaysOpen(quote: char, s: string)
    requires quote !in s
    ensures BracketsQuoted(Some(quote), s) && QuoteAfter(Some(quote), s) == Some(quote)
    decreases s
  {
    if s != "" {
      QuotedTextStaysOpen(quote, s[1..]);
    }
  }

  predicate Closed(s: string) {
    BracketsQuoted(None, s) && QuoteAfter(None, s).None?
  }

  lemma ClosedComposes(a: string, b: string)
    requires Closed(a) && Closed(b)
    ensures Closed(a + b)
  {
    QuotesCompose(None, a, b);
  }

  lemma AttributeIsClosed(a: Attribute)
    requires ValidAttribute(a)
    ensures Closed(RenderAttribute(a))
  {
    var front, quote := a.pad + a.key + "=", [a.quote];
    PlainTextIsClosed(front);
    QuotedTextStaysOpen(a.quote, a.value);
    QuotesCompose(None, front, quote);
    QuotesCompose(None, front + quote, a.value);
    QuotesCompose(None, front + quote + a.value, quote);
    assert quote[1..] == "";
    assert QuoteAfter(None, quote) == Some(a.quote) && BracketsQuoted(None, quote);
    assert QuoteAfter(Some(a.quote), quote) == None && BracketsQuoted(Some(a.quote), quote);
    assert RenderAttribute(a) == front + quote + a.value + quote;
  }

  lemma {:induction false} AttributesAreClosed(attributes: seq<Attribute>)
    requires forall a | a in attributes :: ValidAttribute(a)
    ensures Closed(RenderAttributes(attributes))
    ensures var r := RenderAttributes(attributes);
            r == "" || (IsWhitespace(r[0]) && (r[|r| - 1] == '\'' || r[|r| - 1] == '"'))
    decreases attributes
  {
    if attributes != [] {
      AttributeIsClosed(attributes[0]);
      AttributesAreClosed(attributes[1..]);
      ClosedComposes(RenderAttribute(attributes[0]), RenderAttributes(attributes[1..]));
    }
  }

  lemma WhitespaceIsPlain(s: string)
    requires AllWhitespace(s)
    ensures AllPlain(s)
  {
    forall i | 0 <= i < |s| ensures IsPlain(s[i]) {
      assert IsWhitespace(s[i]);
    }
  }

  lemma TagHeadShape(tag: Tag)
    requires ValidTag(tag)
    ensures var head := TagHead(tag);
            Closed(head) && IsTrimmed(head) && head != "" && head[0] == tag.name[0] && head[|head| - 1] != '/' &&
            WordLength(head) == |tag.name| && head[..|tag.name|] == tag.name
  {
    var head, attributes := TagHead(tag), RenderAttributes(tag.attributes);
    PlainTextIsClosed(tag.name);
    AttributesAreClosed(tag.attributes);
    ClosedComposes(tag.name, attributes);
    assert attributes != "" ==> head[|tag.name|] == attributes[0] && head[|head| - 1] == attributes[|attributes| - 1];
    assert attributes == "" ==> head == tag.name;
    forall i | 0 <= i < |tag.name| ensures head[i] == tag.name[i] && !IsWhitespace(head[i]) && head[i] != '/' {
    }
    WordEndsAt(head, |tag.name|);
  }

  lemma {:induction false} WordEndsAt(s: string, n: nat)
    requires n <= |s| && (forall j | 0 <= j < n :: !IsWhitespace(s[j])) && (n < |s| ==> IsWhitespace(s[n]))
    ensures WordLength(s) == n
  {
    if n > 0 {
      WordEndsAt(s[1..], n - 1);
    }
  }

  lemma OpenTagToken(tag: Tag)
    requires ValidTag(tag)
    ensures TagToken(TagHead(tag) + tag.pad) == Accepted(Open(tag.name, false))
    ensures Closed(TagHead(tag) + tag.pad)
  {
    var head := TagHead(tag);
    TagHeadShape(tag);
    TrimUndoesPadding("", head, tag.pad);
    assert "" + head + tag.pad == head + tag.pad;
    WhitespaceIsPlain(tag.pad);
    PlainTextIsClosed(tag.pad);
    ClosedComposes(head, tag.pad);
  }

  lemma SlashIsClosed()
    ensures Closed("/")
  {
    PlainTextIsClosed("/");
  }

  lemma EmptyTagToken(tag: Tag)
    requires ValidTag(tag)
    ensures TagToken(TagHead(tag) + tag.pad + "/") == Accepted(Open(tag.name, true))
    ensures Closed(TagHead(tag) + tag.pad + "/")
  {
    hide Closed, TagHead, Trim, WordLength;
    var head := TagHead(tag);
    var interior := head + tag.pad + "/";
    OpenTagToken(tag);
    TagHeadShape(tag);
    TrimUndoesPadding("", head, tag.pad);
    assert "" + head + tag.pad == head + tag.pad;
    TrimUndoesPadding("", interior, "");
    assert "" + interior + "" == interior;
    assert interior[..|interior| - 1] == head + tag.pad;
    SlashIsClosed();
    ClosedComposes(head + tag.pad, "/");
  }

  lemma CloseTagToken(name: string, pad: string)
    requires ValidName(name) && AllWhitespace(pad)
    ensures TagToken("/" + name + pad) == Accepted(Close(name))
    ensures Closed("/" + name + pad)
  {
    TrimUndoesPadding("", "/" + name, pad);
    assert "" + ("/" + name) + pad == "/" + name + pad;
    assert ("/" + name)[1..] == name;
    TrimUndoesPadding("", name, "");
    assert "" + name + "" == name;
    WhitespaceIsPlain(pad);
    PlainTextIsClosed("/" + name + pad);
  }

  // ---------------------------------------------------------------- the round trip

  lemma {:induction false} LexNode(node: Node, rest: string)
    requires ValidNode(node)
    ensures Lex(RenderNode(node) + rest) == Prepend(NodeTokens(node), Lex(rest))
    decreases node, 0
  {
    hide Lex, Find, TagToken, Closed, TagHead;
    match node
    case CharacterData(text) => LexCharacters(text, rest);
    case Comment(text) => LexComment(text, rest);
    case CDataSection(text) => LexCData(text, rest);
    case Instruction(text) => LexInstruction(text, rest);
    case Empty(tag) => LexEmpty(tag, rest);
    case Element(tag, children, closePad) =>
      LexNodes(children, "<" + ("/" + tag.name + closePad) + ">" + rest);
      LexElement(tag, children, closePad, rest);
  }

  lemma LexElement(tag: Tag, children: seq<Node>, closePad: string, rest: string)
    requires ValidTag(tag) && AllWhitespace(closePad)
    requires var close := "<" + ("/" + tag.name + closePad) + ">" + rest;
             Lex(Render(children) + close) == Prepend(Flatten(children), Lex(close))
    ensures var node := Element(tag, children, closePad);
            Lex(RenderNode(node) + rest) == Prepend(NodeTokens(node), Lex(rest))
  {
    hide Lex, TagHead, Render, Flatten, Prepend;
    var close := "<" + ("/" + tag.name + closePad) + ">" + rest;
    var node := Element(tag, children, closePad);
    LexClose(tag.name, closePad, rest);
    LexOpen(tag, Render(children) + close);
    assert RenderNode(node) + rest == "<" + (TagHead(tag) + tag.pad) + ">" + (Render(children) + close);
    PrependComposes(Flatten(children), [Close(tag.name)], Lex(rest));
    PrependComposes([Open(tag.name, false)], Flatten(children) + [Close(tag.name)], Lex(rest));
    assert NodeTokens(node) == [Open(tag.name, false)] + (Flatten(children) + [Close(tag.name)]);
  }

  lemma LexOpen(tag: Tag, rest: string)
    requires ValidTag(tag)
    ensures Lex("<" + (TagHead(tag) + tag.pad) + ">" + rest) == Prepend([Open(tag.name, false)], Lex(rest))
  {
    hide Lex, TagToken, TagHead;
    TagHeadShape(tag);
    OpenTagToken(tag);
    LexTag(TagHead(tag) + tag.pad, Open(tag.name, false), rest);
  }

  lemma LexEmpty(tag: Tag, rest: string)
    requires ValidTag(tag)
    ensures Lex("<" + (TagHead(tag) + tag.pad + "/") + ">" + rest) == Prepend([Open(tag.name, true)], Lex(rest))
  {
    hide Lex, TagToken, TagHead;
    TagHeadShape(tag);
    EmptyTagToken(tag);
    LexTag(TagHead(tag) + tag.pad + "/", Open(tag.name, true), rest);
  }

  lemma LexClose(name: string, pad: string, rest: string)
    requires ValidName(name) && AllWhitespace(pad)
    ensures Lex("<" + ("/" + name + pad) + ">" + rest) == Prepend([Close(name)], Lex(rest))
  {
    hide Lex, TagToken;
    CloseTagToken(name, pad);
    LexTag("/" + name + pad, Close(name), rest);
  }

  /** What was printed is read back token by token, whatever follows. */
  lemma {:induction false} LexNodes(nodes: seq<Node>, rest: string)
    requires ValidNodes(nodes)
    ensures Lex(Render(nodes) + rest) == Prepend(Flatten(nodes), Lex(rest))
    decreases nodes, 1
  {
    hide Lex, RenderNode, NodeTokens;
    if nodes == [] {
      assert Render(nodes) + rest == rest;
      assert Flatten(nodes) + Lex(rest).read == Lex(rest).read;
    } else {
      assert Render(nodes) + rest == RenderNode(nodes[0]) + (Render(nodes[1..]) + rest);
      LexNode(nodes[0], Render(nodes[1..]) + rest);
      LexNodes(nodes[1..], rest);
      PrependComposes(NodeTokens(nodes[0]), Flatten(nodes[1..]), Lex(rest));
    }
  }

  /** XML round trip: a printed document is accepted exactly when it is a configuration page, and then the
    fields read back are the document's. */
  lemma RoundTrip(nodes: seq<Node>)
    requires ValidNodes(nodes)
    ensures Lex(Render(nodes)) == Tokens(Flatten(nodes), None)
    ensures Extract(Render(nodes)) == Accepted(FieldsOf(nodes)) <==> IsConfigurationPage(nodes)
    ensures Extract(Render(nodes)).Accepted? <==> IsConfigurationPage(nodes)
  {
    LexNodes(nodes, "");
    assert Render(nodes) + "" == Render(nodes);
    assert Lex("") == Tokens([], None);
    assert Flatten(nodes) + [] == Flatten(nodes);
    PageIsReadExactly(Render(nodes), nodes);
  }

  // ---------------------------------------------------------------- comments

  /** The scanner reads text, not markup, when it comes to this position. */
  predicate TextPosition(s: string, k: nat)
    decreases |s|
  {
    k == 0 ||
    (s != "" &&
     if s[0] != '<' then TextPosition(s[1..], k - 1)
     else
       var lexeme := Markup(s);
       lexeme.Accepted? && lexeme.value.length <= k && TextPosition(s[lexeme.value.length..], k - lexeme.value.length))
  }

  lemma TextPositionInside(s: string, k: nat)
    requires TextPosition(s, k)
    ensures k <= |s|
    decreases |s|
  {
    if k > 0 && s[0] == '<' {
      TextPositionInside(s[Markup(s).value.length..], k - Markup(s).value.length);
    } else if k > 0 {
      TextPositionInside(s[1..], k - 1);
    }
  }

  function WithComment(s: string, k: nat, text: string): string
    requires k <= |s|
  {
    s[..k] + "<!--" + text + "-->" + s[k..]
  }

  lemma SamePrefix(s: string, t: string, n: nat, mark: string)
    requires |mark| <= n <= |s| && n <= |t| && s[..n] == t[..n] && mark <= s
    ensures mark <= t && s[|mark|..n] == t[|mark|..n]
  {
    assert mark == s[..n][..|mark|] == t[..n][..|mark|];
    assert s[|mark|..n] == s[..n][|mark|..] && t[|mark|..n] == t[..n][|mark|..];
  }

  /** What a terminated piece of markup is depends only on its own characters. */
  lemma DelimitedIsLocal(s: string, t: string, mark: string, terminator: string)
    requires mark <= s && Find(s[|mark|..], terminator).Some?
    requires var n := |mark| + Find(s[|mark|..], terminator).value + |terminator|;
             n <= |t| && s[..n] == t[..n]
    ensures mark <= t && Find(t[|mark|..], terminator) == Find(s[|mark|..], terminator)
    ensures var k := Find(s[|mark|..], terminator).value; t[|mark|..][..k] == s[|mark|..][..k]
  {
    hide Find, OccursAt;
    var a, b := s[|mark|..], t[|mark|..];
    var k := Find(a, terminator).value;
    HitFits(a, terminator);
    var m := k + |terminator|;
    SamePrefix(s, t, |mark| + m, mark);
    assert a[..m] == s[|mark|..|mark| + m] && b[..m] == t[|mark|..|mark| + m];
    FindIsLocal(a, b, terminator);
    assert a[..k] == a[..m][..k] && b[..k] == b[..m][..k];
  }

  lemma BeginsTagAt(s: string)
    requires |s| >= 2 && s[0] == '<'
    ensures BeginsTag(s) <==> s[1] != '!' && s[1] != '?'
  {
    assert "<!" <= s <==> s[..2] == "<!";
    assert "<?" <= s <==> s[..2] == "<?";
    assert s[..2] == ['<', s[1]];
  }

  lemma TagIsLocal(s: string, t: string)
    requires BeginsTag(s) && TagEnd(None, s[1..]).Some?
    requires var n := TagEnd(None, s[1..]).value + 2; n <= |t| && s[..n] == t[..n]
    ensures BeginsTag(t) && TagEnd(None, t[1..]) == TagEnd(None, s[1..])
    ensures var k := TagEnd(None, s[1..]).value; t[1..][..k] == s[1..][..k]
  {
    var k := TagEnd(None, s[1..]).value;
    TagEndExactly(None, s[1..], k);
    assert s[1..][..k] == s[..k + 2][1..k + 1] && t[1..][..k] == t[..k + 2][1..k + 1];
    assert t[k + 1] == t[..k + 2][k + 1] == s[..k + 2][k + 1] == s[k + 1];
    assert t[0] == t[..k + 2][0] == s[..k + 2][0] == s[0] && t[1] == t[..k + 2][1] == s[..k + 2][1] == s[1];
    BeginsTagAt(s);
    BeginsTagAt(t);
    TagEndExactly(None, t[1..], k);
  }

  lemma MarkupIsLocal(s: string, t: string)
    requires s != "" && s[0] == '<' && Markup(s).Accepted?
    requires var n := Markup(s).value.length; n <= |t| && s[..n] == t[..n]
    ensures t != "" && t[0] == '<' && Markup(t) == Markup(s)
  {
    hide Find, TagEnd, TagToken, OccursAt;
    if "<!--" <= s {
      DelimitedIsLocal(s, t, "<!--", "-->");
    } else if "<![CDATA[" <= s {
      DelimitedIsLocal(s, t, "<![CDATA[", "]]>");
      assert t[2] == "<![CDATA["[2];
    } else if "<?" <= s {
      DelimitedIsLocal(s, t, "<?", "?>");
      assert t[1] == "<?"[1];
    } else {
      TagIsLocal(s, t);
      assert "<!" <= "<!--" && "<!" <= "<![CDATA[";
    }
  }

  lemma {:induction false} ScanWithComment(st: Scan, s: string, k: nat, text: string)
    requires TextPosition(s, k) && k <= |s| && Find(text, "-->").None?
    ensures ScanFrom(st, WithComment(s, k, text)) == ScanFrom(st, s)
    decreases |s|
  {
    hide Find, Markup;
    var t := WithComment(s, k, text);
    if k == 0 {
      LexComment(text, s);
      assert t == "<!--" + text + "-->" + s;
      assert t[|text| + 7..] == s;
    } else if s[0] != '<' {
      assert t[1..] == WithComment(s[1..], k - 1, text) && t[..1] == s[..1];
      ScanWithComment(Append(st, s[..1]), s[1..], k - 1, text);
    } else {
      var lexeme := Markup(s).value;
      var n := lexeme.length;
      assert t[..n] == s[..n];
      MarkupIsLocal(s, t);
      TextPositionInside(s[n..], k - n);
      assert t[n..] == WithComment(s[n..], k - n, text);
      if Feed(st, lexeme.token).Accepted? {
        ScanWithComment(Feed(st, lexeme.token).value, s[n..], k - n, text);
      }
    }
  }

  /** A comment at a text position changes nothing, not even which error a bad page reports. */
  lemma CommentChangesNothing(xml: string, k: nat, text: string)
    requires TextPosition(xml, k) && k <= |xml| && Find(text, "-->").None?
    ensures Extract(WithComment(xml, k, text)) == Extract(xml)
  {
    ScanWithComment(INITIAL, xml, k, text);
  }
}
