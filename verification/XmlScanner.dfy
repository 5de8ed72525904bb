/** The scanner that pulls the five fields out of the sensor's configuration page. */
module XmlScanner {
  import opened Types
  import opened XmlText

  const FIELD_COUNT := 5
  const PRODUCT_NAME := 0
  const MAXIMUM_FIELD_LENGTH := 128
  const DEFAULT_PRODUCT_NAME := "ATI Net F/T"
  const REQUIRED_TAGS: seq<string> := ["prodname", "cfgcpf", "cfgcpt", "scfgfu", "scfgtu"]

  type Index = i: nat | i < FIELD_COUNT

  datatype XmlError =
    | UnterminatedComment | UnterminatedCData | UnterminatedMarkup | UnsupportedMarkup | MalformedMarkup
    | MalformedNesting | FieldsHoldTextOnly
    | NotExactlyOnce(index: Index) | EmptyField(index: Index) | LongField(index: Index)

  datatype Outcome<+T> = Accepted(value: T) | Rejected(error: XmlError)

  function TagIndexFrom(name: string, i: nat): Option<Index>
    requires i <= FIELD_COUNT
    decreases FIELD_COUNT - i
  {
    if i == FIELD_COUNT then None
    else if name == REQUIRED_TAGS[i] then Some(i)
    else TagIndexFrom(name, i + 1)
  }

  function TagIndex(name: string): Option<Index> {
    TagIndexFrom(name, 0)
  }

  /** Which of the five values an element supplies: product name, counts per force, counts per torque, force unit and
    torque unit, in this order. */
  function FieldNamed(name: string): Option<Index> {
    if name == "prodname" then Some(0)
    else if name == "cfgcpf" then Some(1)
    else if name == "cfgcpt" then Some(2)
    else if name == "scfgfu" then Some(3)
    else if name == "scfgtu" then Some(4)
    else None
  }

  /** A name has an index exactly when it is one of the five names, and then it is that of its value. */
  lemma TagIndexNames(name: string)
    ensures TagIndex(name) == FieldNamed(name)
  {
    assert REQUIRED_TAGS[0][0] == 'p' && REQUIRED_TAGS[1][5] == 'f' && REQUIRED_TAGS[2][5] == 't';
    assert REQUIRED_TAGS[3][4] == 'f' && REQUIRED_TAGS[4][4] == 't' &&
           REQUIRED_TAGS[3][0] == REQUIRED_TAGS[4][0] == 's';
    assert REQUIRED_TAGS[1][0] == REQUIRED_TAGS[2][0] == 'c';
    assert TagIndexFrom(name, 0) == if name == REQUIRED_TAGS[0] then Some(0) else TagIndexFrom(name, 1);
    assert TagIndexFrom(name, 1) == if name == REQUIRED_TAGS[1] then Some(1) else TagIndexFrom(name, 2);
    assert TagIndexFrom(name, 2) == if name == REQUIRED_TAGS[2] then Some(2) else TagIndexFrom(name, 3);
    assert TagIndexFrom(name, 3) == if name == REQUIRED_TAGS[3] then Some(3) else TagIndexFrom(name, 4);
    assert TagIndexFrom(name, 4) == if name == REQUIRED_TAGS[4] then Some(4) else TagIndexFrom(name, 5);
  }

  method RequiredTagIndex(name: string) returns (r: Option<Index>)
    ensures r == TagIndex(name) == FieldNamed(name)
  {
    TagIndexNames(name);
    for index := 0 to FIELD_COUNT
      invariant TagIndex(name) == TagIndexFrom(name, index)
    {
      if name == REQUIRED_TAGS[index] {
        return Some(index);
      }
    }
    return None;
  }

  // ---------------------------------------------------------------- markup

  datatype Token =
    | Text(c: char) | CData(text: string) | Skipped
    | Open(name: string, selfClosing: bool) | Close(name: string)

  /** A token with the number of characters it takes up. */
  datatype Lexeme = Lexeme(token: Token, length: nat)

  predicate IsCloseName(name: string) {
    name != "" && forall i | 0 <= i < |name| :: !IsWhitespace(name[i]) && name[i] != '/'
  }

  /** What stands between the brackets of a tag. */
  function TagToken(interior: string): Outcome<Token> {
    var tag := Trim(interior);
    if tag == "" then Rejected(MalformedMarkup)
    else if tag[0] == '/' then
      var name := Trim(tag[1..]);
      if IsCloseName(name) then Accepted(Close(name)) else Rejected(MalformedNesting)
    else
      var selfClosing := tag[|tag| - 1] == '/';
      var body := if selfClosing then Trim(tag[..|tag| - 1]) else tag;
      var name := body[..WordLength(body)];
      if name == "" || name[0] == '/' then Rejected(MalformedMarkup) else Accepted(Open(name, selfClosing))
  }

  function Markup(s: string): (r: Outcome<Lexeme>)
    requires s != ""
    ensures r.Accepted? ==> 0 < r.value.length <= |s|
  {
    if "<!--" <= s then
      var end := Find(s[4..], "-->");
      if end.None? then Rejected(UnterminatedComment) else Accepted(Lexeme(Skipped, end.value + 7))
    else if "<![CDATA[" <= s then
      var end := Find(s[9..], "]]>");
      if end.None? then Rejected(UnterminatedCData) else Accepted(Lexeme(CData(s[9..][..end.value]), end.value + 12))
    else if "<?" <= s then
      var end := Find(s[2..], "?>");
      if end.None? then Rejected(UnterminatedMarkup) else Accepted(Lexeme(Skipped, end.value + 4))
    else if "<!" <= s then
      Rejected(UnsupportedMarkup)
    else
      var end := TagEnd(None, s[1..]);
      if end.None? then Rejected(UnterminatedMarkup) else
        var token := TagToken(s[1..][..end.value]);
        if token.Rejected? then Rejected(token.error) else Accepted(Lexeme(token.value, end.value + 2))
  }

  // ---------------------------------------------------------------- scanning

  datatype OpenElement = OpenElement(name: string, field: Option<Index>)

  datatype ScanRaw = Scan(elements: seq<OpenElement>, fields: seq<string>, seen: seq<bool>)

  type Scan = s: ScanRaw | |s.fields| == FIELD_COUNT && |s.seen| == FIELD_COUNT witness INITIAL

  const INITIAL := ScanRaw.Scan([], ["", "", "", "", ""], [false, false, false, false, false])

  /** The field whose element is innermost. */
  function Inside(elements: seq<OpenElement>): Option<Index> {
    if elements == [] then None else elements[|elements| - 1].field
  }

  function Append(st: Scan, text: string): Scan {
    match Inside(st.elements)
    case None => st
    case Some(i) => st.(fields := st.fields[i := st.fields[i] + text])
  }

  function OpenTag(st: Scan, name: string, selfClosing: bool): Outcome<Scan> {
    var field := TagIndex(name);
    if Inside(st.elements).Some? then Rejected(FieldsHoldTextOnly)
    else if field.Some? && st.seen[field.value] then Rejected(NotExactlyOnce(field.value))
    else Accepted(st.(
      seen := if field.Some? then st.seen[field.value := true] else st.seen,
      elements := if selfClosing then st.elements else st.elements + [OpenElement(name, field)]))
  }

  function CloseTag(st: Scan, name: string): Outcome<Scan> {
    var n := |st.elements|;
    if n == 0 || st.elements[n - 1].name != name then Rejected(MalformedNesting)
    else Accepted(st.(elements := st.elements[..n - 1]))
  }

  function Feed(st: Scan, token: Token): Outcome<Scan> {
    match token
    case Text(c) => Accepted(Append(st, [c]))
    case CData(text) => Accepted(Append(st, text))
    case Skipped => Accepted(st)
    case Open(name, selfClosing) => OpenTag(st, name, selfClosing)
    case Close(name) => CloseTag(st, name)
  }

  function FeedTag(st: Scan, interior: string): Outcome<Scan> {
    var token := TagToken(interior);
    if token.Rejected? then Rejected(token.error) else Feed(st, token.value)
  }

  function ScanFrom(st: Scan, s: string): Outcome<Scan>
    decreases |s|
  {
    if s == "" then Accepted(st)
    else if s[0] != '<' then ScanFrom(Append(st, s[..1]), s[1..])
    else
      var lexeme := Markup(s);
      if lexeme.Rejected? then Rejected(lexeme.error) else
        var next := Feed(st, lexeme.value.token);
        if next.Rejected? then next else ScanFrom(next.value, s[lexeme.value.length..])
  }

  /** The value of one field once the page has been scanned. */
  function FieldValue(seen: bool, text: string, i: Index): Outcome<string> {
    var value := Trim(text);
    if !seen then
      if i == PRODUCT_NAME then Accepted(DEFAULT_PRODUCT_NAME) else Rejected(NotExactlyOnce(i))
    else if value == "" then Rejected(EmptyField(i))
    else if |value| > MAXIMUM_FIELD_LENGTH then Rejected(LongField(i))
    else Accepted(value)
  }

  function Collect(st: Scan, i: nat): (r: Outcome<seq<string>>)
    requires i <= FIELD_COUNT
    ensures r.Accepted? ==> |r.value| == FIELD_COUNT - i
    decreases FIELD_COUNT - i
  {
    if i == FIELD_COUNT then Accepted([]) else
      var value := FieldValue(st.seen[i], st.fields[i], i);
      if value.Rejected? then Rejected(value.error) else
        var later := Collect(st, i + 1);
        if later.Rejected? then later else Accepted([value.value] + later.value)
  }

  /** The fields are collected exactly when each has a value, and then they are those values. */
  lemma {:induction false} CollectExactly(st: Scan, i: nat)
    requires i <= FIELD_COUNT
    ensures var r := Collect(st, i);
            (r.Accepted? <==> forall j: Index | i <= j :: FieldValue(st.seen[j], st.fields[j], j).Accepted?) &&
            (r.Accepted? ==>
              forall j: Index | i <= j :: FieldValue(st.seen[j], st.fields[j], j) == Accepted(r.value[j - i]))
    decreases FIELD_COUNT - i
  {
    if i < FIELD_COUNT {
      CollectExactly(st, i + 1);
    }
  }

  function Finish(scan: Outcome<Scan>): Outcome<seq<string>> {
    if scan.Rejected? then Rejected(scan.error)
    else if scan.value.elements != [] then Rejected(MalformedNesting)
    else Collect(scan.value, 0)
  }

  /** The five fields of a page, or the first thing wrong with it. */
  function Extract(xml: string): Outcome<seq<string>> {
    Finish(ScanFrom(INITIAL, xml))
  }

  // ---------------------------------------------------------------- the loop

  lemma AppendComposes(st: Scan, a: string, b: string)
    ensures Append(Append(st, a), b) == Append(st, a + b)
  {
    if Inside(st.elements).Some? {
      assert st.fields[Inside(st.elements).value] + (a + b) == st.fields[Inside(st.elements).value] + a + b;
    }
  }

  lemma AppendNothing(st: Scan)
    ensures Append(st, "") == st
  {
    if Inside(st.elements).Some? {
      assert st.fields[Inside(st.elements).value] + "" == st.fields[Inside(st.elements).value];
    }
  }

  /** Text up to the next bracket goes to the innermost element in one piece. */
  lemma {:induction false} TextIsOnePiece(st: Scan, text: string, rest: string)
    requires '<' !in text
    ensures ScanFrom(st, text + rest) == ScanFrom(Append(st, text), rest)
    decreases text
  {
    if text == "" {
      assert text + rest == rest;
      AppendNothing(st);
    } else {
      assert (text + rest)[1..] == text[1..] + rest && (text + rest)[..1] == text[..1];
      TextIsOnePiece(Append(st, text[..1]), text[1..], rest);
      AppendComposes(st, text[..1], text[1..]);
      assert text[..1] + text[1..] == text;
    }
  }

  lemma NoHitNoBracket(s: string, k: nat)
    requires k <= |s| && forall j: nat | j < k :: !OccursAt(s, j, "<")
    ensures '<' !in s[..k]
  {
    forall j: nat | j < k ensures s[j] != '<' {
      assert OccursAt(s, j, "<") == (s[j] == '<') by {
        assert s[j..j + 1] == [s[j]];
      }
    }
  }

  lemma BracketFound(s: string, k: nat)
    requires OccursAt(s, k, "<")
    ensures s[k] == '<'
  {
    assert s[k..k + 1][0] == s[k];
  }

  method AppendRequiredText(elements: seq<OpenElement>, fields: array<string>, text: string, ghost seen: seq<bool>)
    requires fields.Length == FIELD_COUNT && |seen| == FIELD_COUNT
    modifies fields
    ensures ScanRaw.Scan(elements, fields[..], seen) == Append(ScanRaw.Scan(elements, old(fields[..]), seen), text)
  {
    if elements != [] && elements[|elements| - 1].field.Some? {
      var i := elements[|elements| - 1].field.value;
      fields[i] := fields[i] + text;
    }
  }

  lemma CommentStep(st: Scan, s: string, rest: string)
    requires "<!--" <= s && rest == s[4..]
    ensures var end := Find(rest, "-->");
            ScanFrom(st, s) == if end.None? then Rejected(UnterminatedComment) else ScanFrom(st, rest[end.value + 3..])
  {
    hide Find, TagEnd, TagToken, OpenTag, CloseTag, Append;
    var end := Find(rest, "-->");
    if end.Some? {
      assert s[end.value + 7..] == rest[end.value + 3..];
    }
  }

  lemma CDataStep(st: Scan, s: string, rest: string)
    requires "<![CDATA[" <= s && rest == s[9..]
    ensures var end := Find(rest, "]]>");
            ScanFrom(st, s) ==
            if end.None? then Rejected(UnterminatedCData)
            else ScanFrom(Append(st, rest[..end.value]), rest[end.value + 3..])
  {
    hide Find, TagEnd, TagToken, OpenTag, CloseTag, Append;
    var end := Find(rest, "]]>");
    assert s[2] == "<![CDATA["[2] && s[0] == "<![CDATA["[0];
    if end.Some? {
      assert s[end.value + 12..] == rest[end.value + 3..];
    }
  }

  lemma InstructionMarkup(s: string, rest: string)
    requires "<?" <= s && rest == s[2..]
    ensures var end := Find(rest, "?>");
            Markup(s) == if end.None? then Rejected(UnterminatedMarkup) else Accepted(Lexeme(Skipped, end.value + 4))
  {
    hide Find, OccursAt, TagEnd, TagToken;
    assert s[1] == '?' && s[0] == '<';
    assert "<!--"[1] == "<![CDATA["[1] == "<!"[1] == '!';
  }

  lemma InstructionStep(st: Scan, s: string, rest: string)
    requires "<?" <= s && rest == s[2..]
    ensures var end := Find(rest, "?>");
            ScanFrom(st, s) == if end.None? then Rejected(UnterminatedMarkup) else ScanFrom(st, rest[end.value + 2..])
  {
    hide Find, OccursAt, Markup, OpenTag, CloseTag, Append;
    var end := Find(rest, "?>");
    InstructionMarkup(s, rest);
    assert s[0] == '<';
    if end.Some? {
      HitFits(rest, "?>");
      assert s[end.value + 4..] == rest[end.value + 2..];
    }
  }

  lemma UnsupportedStep(st: Scan, s: string)
    requires "<!" <= s && !("<!--" <= s) && !("<![CDATA[" <= s)
    ensures ScanFrom(st, s) == Rejected(UnsupportedMarkup)
  {
    assert s[1] == "<!"[1] && s[0] == "<!"[0];
  }

  predicate BeginsTag(s: string) {
    s != "" && s[0] == '<' && !("<!" <= s) && !("<?" <= s)
  }

  lemma TagStep(st: Scan, s: string, rest: string)
    requires BeginsTag(s) && rest == s[1..]
    ensures var end := TagEnd(None, rest);
            ScanFrom(st, s) ==
            if end.None? then Rejected(UnterminatedMarkup) else
              var next := FeedTag(st, rest[..end.value]);
              if next.Rejected? then next else ScanFrom(next.value, rest[end.value + 1..])
  {
    hide Find, TagEnd, TagToken, OpenTag, CloseTag, Append;
    assert "<!" <= "<!--" && "<!" <= "<![CDATA[";
    var end := TagEnd(None, rest);
    if end.Some? {
      assert s[end.value + 2..] == rest[end.value + 1..];
    }
  }

  lemma ScanEnds(st: Scan)
    ensures ScanFrom(st, "") == Accepted(st)
  {
  }

  /** What the loop does with one tag: it opens or closes an element, or finds the tag wrong. */
  method ReadTag(interior: string, elements: seq<OpenElement>, seen: array<bool>, ghost st: Scan)
    returns (r: Outcome<seq<OpenElement>>)
    requires elements == st.elements && seen[..] == st.seen
    modifies seen
    ensures r.Rejected? ==> FeedTag(st, interior) == Rejected(r.error)
    ensures r.Accepted? ==> FeedTag(st, interior) == Accepted(ScanRaw.Scan(r.value, st.fields, seen[..]))
  {
    var tag := TrimAsciiWhitespace(interior);
    if tag == "" {
      return Rejected(MalformedMarkup);
    }

    if tag[0] == '/' {
      var name := TrimAsciiWhitespace(tag[1..]);
      if !IsCloseName(name) || elements == [] || elements[|elements| - 1].name != name {
        return Rejected(MalformedNesting);
      }
      return Accepted(elements[..|elements| - 1]);
    }

    var selfClosing := false;
    if tag[|tag| - 1] == '/' {
      selfClosing := true;
      tag := TrimAsciiWhitespace(tag[..|tag| - 1]);
    }
    var name := tag[..WordLength(tag)];
    if name == "" || name[0] == '/' {
      return Rejected(MalformedMarkup);
    }

    var requiredIndex := RequiredTagIndex(name);
    if elements != [] && elements[|elements| - 1].field.Some? {
      return Rejected(FieldsHoldTextOnly);
    }
    if requiredIndex.Some? {
      if seen[requiredIndex.value] {
        return Rejected(NotExactlyOnce(requiredIndex.value));
      }
      seen[requiredIndex.value] := true;
    }
    return Accepted(if selfClosing then elements else elements + [OpenElement(name, requiredIndex)]);
  }

  /** Where the loop stands after a piece of markup. */
  datatype Reached = Reached(elements: seq<OpenElement>, position: nat)

  /** One piece of markup: a comment, a CDATA section, an instruction or a tag. */
  method ScanMarkup(xml: string, markup: nat, elements: seq<OpenElement>, fields: array<string>, seen: array<bool>)
    returns (r: Outcome<Reached>)
    requires fields.Length == FIELD_COUNT && seen.Length == FIELD_COUNT
    requires markup < |xml| && xml[markup] == '<'
    modifies fields, seen
    ensures var st := ScanRaw.Scan(elements, old(fields[..]), old(seen[..]));
            r.Rejected? ==> ScanFrom(st, xml[markup..]) == Rejected(r.error)
    ensures r.Accepted? ==> markup < r.value.position <= |xml|
    ensures var st := ScanRaw.Scan(elements, old(fields[..]), old(seen[..]));
            r.Accepted? ==>
              ScanFrom(st, xml[markup..]) ==
              ScanFrom(ScanRaw.Scan(r.value.elements, fields[..], seen[..]), xml[r.value.position..])
  {
    hide Find, ScanFrom, Append, TagEnd, FeedTag;
    ghost var st := ScanRaw.Scan(elements, fields[..], seen[..]);
    var tail := xml[markup..];

    if "<!--" <= tail {
      var rest := xml[markup + 4..];
      var end := Find(rest, "-->");
      CommentStep(st, tail, rest);
      if end.None? {
        return Rejected(UnterminatedComment);
      }
      assert rest[end.value + 3..] == xml[markup + 4 + end.value + 3..];
      return Accepted(Reached(elements, markup + 4 + end.value + 3));
    }
    if "<![CDATA[" <= tail {
      var rest := xml[markup + 9..];
      var end := Find(rest, "]]>");
      CDataStep(st, tail, rest);
      if end.None? {
        return Rejected(UnterminatedCData);
      }
      AppendRequiredText(elements, fields, rest[..end.value], seen[..]);
      assert rest[end.value + 3..] == xml[markup + 9 + end.value + 3..];
      return Accepted(Reached(elements, markup + 9 + end.value + 3));
    }
    if "<?" <= tail {
      var rest := xml[markup + 2..];
      var end := Find(rest, "?>");
      InstructionStep(st, tail, rest);
      if end.None? {
        return Rejected(UnterminatedMarkup);
      }
      assert rest[end.value + 2..] == xml[markup + 2 + end.value + 2..];
      return Accepted(Reached(elements, markup + 2 + end.value + 2));
    }
    if "<!" <= tail {
      UnsupportedStep(st, tail);
      return Rejected(UnsupportedMarkup);
    }

    var end := FindTagEnd(xml, markup + 1);
    TagStep(st, tail, xml[markup + 1..]);
    if end.None? {
      return Rejected(UnterminatedMarkup);
    }
    assert xml[markup + 1..][..end.value - markup - 1] == xml[markup + 1..end.value];
    assert xml[markup + 1..][end.value - markup..] == xml[end.value + 1..];
    var open := ReadTag(xml[markup + 1..end.value], elements, seen, st);
    r := if open.Rejected? then Rejected(open.error) else Accepted(Reached(open.value, end.value + 1));
  }

  /** The loop over the page. Positions only grow, so it ends; what it has read so far decides nothing
    that scanning from the initial state would not decide. */
  method ExtractRequiredFields(xml: string) returns (r: Outcome<seq<string>>)
    ensures r == Extract(xml)
  {
    var fields := new string[FIELD_COUNT](_ => "");
    var seen := new bool[FIELD_COUNT](_ => false);
    var elements: seq<OpenElement> := [];
    var position := 0;
    assert ScanRaw.Scan(elements, fields[..], seen[..]) == INITIAL;
    assert xml[position..] == xml;

    while position < |xml|
      invariant position <= |xml|
      invariant Extract(xml) == Finish(ScanFrom(ScanRaw.Scan(elements, fields[..], seen[..]), xml[position..]))
      decreases |xml| - position
    {
      hide Find, ScanFrom, Append, Extract, Collect;
      ghost var before := ScanRaw.Scan(elements, fields[..], seen[..]);
      var rest := xml[position..];
      var bracket := Find(rest, "<");
      if bracket.None? {
        NoHitNoBracket(rest, |rest|);
        assert rest[..|rest|] == rest && rest + "" == rest;
        TextIsOnePiece(before, rest, "");
        AppendRequiredText(elements, fields, rest, seen[..]);
        position := |xml|;
        ScanEnds(ScanRaw.Scan(elements, fields[..], seen[..]));
        break;
      }
      var markup := position + bracket.value;
      NoHitNoBracket(rest, bracket.value);
      assert rest == xml[position..markup] + xml[markup..];
      TextIsOnePiece(before, xml[position..markup], xml[markup..]);
      AppendRequiredText(elements, fields, xml[position..markup], seen[..]);
      BracketFound(rest, bracket.value);
      var reached := ScanMarkup(xml, markup, elements, fields, seen);
      if reached.Rejected? {
        return Rejected(reached.error);
      }
      elements, position := reached.value.elements, reached.value.position;
    }

    ScanEnds(ScanRaw.Scan(elements, fields[..], seen[..]));
    if elements != [] {
      return Rejected(MalformedNesting);
    }
    r := FinishFields(ScanRaw.Scan(elements, fields[..], seen[..]), fields, seen);
  }

  lemma CollectOne(st: Scan, i: Index, done: seq<string>)
    ensures var value := FieldValue(st.seen[i], st.fields[i], i);
            if value.Rejected? then Collect(st, i) == Rejected(value.error)
            else if Collect(st, i + 1).Rejected? then Collect(st, i) == Collect(st, i + 1)
            else Collect(st, i).Accepted? &&
                 done + Collect(st, i).value == done + [value.value] + Collect(st, i + 1).value
  {
  }

  method FinishField(fields: array<string>, seen: array<bool>, index: Index) returns (r: Option<XmlError>)
    requires fields.Length == FIELD_COUNT && seen.Length == FIELD_COUNT
    modifies fields
    ensures var value := FieldValue(seen[index], old(fields[index]), index);
            if value.Rejected? then r == Some(value.error)
            else r.None? && fields[..] == old(fields[..])[index := value.value]
  {
    if !seen[index] {
      if index == PRODUCT_NAME {
        fields[index] := DEFAULT_PRODUCT_NAME;
        return None;
      }
      return Some(NotExactlyOnce(index));
    }
    var value := TrimAsciiWhitespace(fields[index]);
    if value == "" {
      return Some(EmptyField(index));
    }
    if |value| > MAXIMUM_FIELD_LENGTH {
      return Some(LongField(index));
    }
    fields[index] := value;
    return None;
  }

  /** The pass over the fields once the page has ended. */
  method FinishFields(ghost st: Scan, fields: array<string>, seen: array<bool>) returns (r: Outcome<seq<string>>)
    requires fields[..] == st.fields && seen[..] == st.seen
    modifies fields
    ensures r == Collect(st, 0)
  {
    hide FieldValue;
    assert Collect(st, 0).Accepted? ==> fields[..0] + Collect(st, 0).value == Collect(st, 0).value;
    for index := 0 to FIELD_COUNT
      invariant seen[..] == st.seen
      invariant forall j | index <= j < FIELD_COUNT :: fields[j] == st.fields[j]
      invariant Collect(st, index).Rejected? ==> Collect(st, 0) == Collect(st, index)
      invariant Collect(st, index).Accepted? ==> Collect(st, 0) == Accepted(fields[..index] + Collect(st, index).value)
    {
      hide Collect;
      ghost var done := fields[..index];
      CollectOne(st, index, done);
      var error := FinishField(fields, seen, index);
      if error.Some? {
        return Rejected(error.value);
      }
      assert fields[..index + 1] == done + [fields[index]];
    }
    assert fields[..FIELD_COUNT] + [] == fields[..];
    return Accepted(fields[..]);
  }

  lemma {:induction false} TrimBackKeepsHead(s: string)
    requires s != "" && !IsWhitespace(s[0])
    ensures TrimBack(s) != "" && TrimBack(s)[0] == s[0]
  {
    if IsWhitespace(s[|s| - 1]) {
      TrimBackKeepsHead(s[..|s| - 1]);
    }
  }

  /** A tag is malformed only when it is blank: the later check on its name never fires. */
  lemma MalformedMarkupExactly(interior: string)
    ensures TagToken(interior) == Rejected(MalformedMarkup) <==> Trim(interior) == ""
  {
    var tag := Trim(interior);
    if tag != "" && tag[0] != '/' {
      var front, back := TrimSplits(interior);
      TrimBackKeepsHead(tag[..|tag| - One(tag[|tag| - 1] == '/')]);
    }
  }
}
