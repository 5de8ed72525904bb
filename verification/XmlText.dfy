/** The text helpers of the sensor-page scanner: searching, trimming and the end of a tag. */
module XmlText {
  import opened Types

  predicate IsWhitespace(c: char) {
    c == ' ' || c == '\t' || c == '\n' || c == '\r' || c == '\U{0C}' || c == '\U{0B}'
  }

  predicate AllWhitespace(s: string) {
    forall i | 0 <= i < |s| :: IsWhitespace(s[i])
  }

  // ---------------------------------------------------------------- search

  predicate OccursAt(s: string, k: nat, pattern: string) {
    k + |pattern| <= |s| && s[k..k + |pattern|] == pattern
  }

  /** The first occurrence of a pattern. */
  function Find(s: string, pattern: string): (r: Option<nat>)
    ensures r.Some? ==> OccursAt(s, r.value, pattern)
    ensures r.Some? ==> forall j: nat | j < r.value :: !OccursAt(s, j, pattern)
    ensures r.None? ==> forall j: nat | j <= |s| :: !OccursAt(s, j, pattern)
  {
    if pattern <= s then Some(0)
    else if s == "" then None
    else
      var later := Find(s[1..], pattern);
      assert forall j: nat | 1 <= j <= |s| ::
        OccursAt(s, j, pattern) == OccursAt(s[1..], j - 1, pattern) by {
        forall j: nat | 1 <= j <= |s| ensures OccursAt(s, j, pattern) == OccursAt(s[1..], j - 1, pattern) {
          if j + |pattern| <= |s| {
            assert s[1..][j - 1..j - 1 + |pattern|] == s[j..j + |pattern|];
          }
        }
      }
      if later.Some? then Some(later.value + 1) else None
  }

  lemma OccursInPrefix(s: string, n: nat, j: nat, pattern: string)
    requires j + |pattern| <= n <= |s|
    ensures OccursAt(s, j, pattern) == OccursAt(s[..n], j, pattern)
  {
    assert s[..n][j..j + |pattern|] == s[j..j + |pattern|];
  }

  lemma HitFits(s: string, pattern: string)
    requires Find(s, pattern).Some?
    ensures Find(s, pattern).value + |pattern| <= |s|
  {
    hide Find;
  }

  lemma FirstIsFound(s: string, pattern: string, k: nat)
    requires OccursAt(s, k, pattern) && forall j: nat | j < k :: !OccursAt(s, j, pattern)
    ensures Find(s, pattern) == Some(k)
  {
    hide Find;
    assert k <= |s|;
  }

  lemma OccursAlike(s: string, t: string, n: nat, j: nat, pattern: string)
    requires j + |pattern| <= n <= |s| && n <= |t| && s[..n] == t[..n]
    ensures OccursAt(t, j, pattern) == OccursAt(s, j, pattern)
  {
    hide OccursAt;
    OccursInPrefix(s, n, j, pattern);
    OccursInPrefix(t, n, j, pattern);
  }

  /** A search depends only on the text up to the end of its hit. */
  lemma FindIsLocal(s: string, t: string, pattern: string)
    requires Find(s, pattern).Some?
    requires var n := Find(s, pattern).value + |pattern|; n <= |t| && s[..n] == t[..n]
    ensures Find(t, pattern) == Find(s, pattern)
  {
    hide Find, OccursAt;
    var k := Find(s, pattern).value;
    HitFits(s, pattern);
    forall j: nat | j <= k ensures OccursAt(t, j, pattern) == OccursAt(s, j, pattern) {
      OccursAlike(s, t, k + |pattern|, j, pattern);
    }
    FirstIsFound(t, pattern, k);
  }

  lemma CannotStraddle(text: string, terminator: string, rest: string, j: nat)
    requires terminator != "" && terminator[|terminator| - 1] !in terminator[..|terminator| - 1]
    requires j < |text| < j + |terminator|
    ensures !OccursAt(text + terminator + rest, j, terminator)
  {
    var s, n := text + terminator + rest, |terminator|;
    var inside := j + n - 1 - |text|;
    assert s[j..j + n][n - 1] == terminator[..n - 1][inside];
  }

  /** A terminator whose last character occurs nowhere else in it cannot begin inside text that lacks it. */
  lemma FindsTerminator(text: string, terminator: string, rest: string)
    requires terminator != "" && terminator[|terminator| - 1] !in terminator[..|terminator| - 1]
    requires Find(text, terminator).None?
    ensures Find(text + terminator + rest, terminator) == Some(|text|)
  {
    var s, n := text + terminator + rest, |terminator|;
    assert s[|text|..|text| + n] == terminator;
    assert OccursAt(s, |text|, terminator);
    assert s[..|text|] == text;
    forall j: nat | j < |text| ensures !OccursAt(s, j, terminator) {
      if j + n <= |text| {
        OccursInPrefix(s, |text|, j, terminator);
      } else {
        CannotStraddle(text, terminator, rest, j);
      }
    }
  }

  // ---------------------------------------------------------------- trimming

  function TrimFront(s: string): string {
    if s != "" && IsWhitespace(s[0]) then TrimFront(s[1..]) else s
  }

  function TrimBack(s: string): string {
    if s != "" && IsWhitespace(s[|s| - 1]) then TrimBack(s[..|s| - 1]) else s
  }

  function Trim(s: string): string {
    TrimBack(TrimFront(s))
  }

  predicate IsTrimmed(s: string) {
    s == "" || (!IsWhitespace(s[0]) && !IsWhitespace(s[|s| - 1]))
  }

  lemma {:induction false} TrimFrontDrops(front: string, s: string)
    requires AllWhitespace(front)
    ensures TrimFront(front + s) == TrimFront(s)
  {
    if front == "" {
      assert front + s == s;
    } else {
      assert (front + s)[1..] == front[1..] + s;
      TrimFrontDrops(front[1..], s);
    }
  }

  lemma {:induction false} TrimBackDrops(s: string, back: string)
    requires AllWhitespace(back)
    ensures TrimBack(s + back) == TrimBack(s)
  {
    if back == "" {
      assert s + back == s;
    } else {
      var n := |back| - 1;
      assert (s + back)[..|s + back| - 1] == s + back[..n];
      TrimBackDrops(s, back[..n]);
    }
  }

  /** Trimming is undone by padding: whatever blanks surround a trimmed core, the core comes back. */
  lemma TrimUndoesPadding(front: string, core: string, back: string)
    requires AllWhitespace(front) && AllWhitespace(back) && IsTrimmed(core)
    ensures Trim(front + core + back) == core
  {
    assert front + core + back == front + (core + back);
    TrimFrontDrops(front, core + back);
    if core == "" {
      assert core + back == back + "";
      TrimFrontDrops(back, "");
    } else {
      TrimBackDrops(core, back);
    }
  }

  lemma {:induction false} TrimFrontSplits(s: string) returns (front: string)
    ensures AllWhitespace(front) && s == front + TrimFront(s)
    ensures TrimFront(s) == "" || !IsWhitespace(TrimFront(s)[0])
  {
    if s != "" && IsWhitespace(s[0]) {
      front := TrimFrontSplits(s[1..]);
      front := [s[0]] + front;
    } else {
      front := "";
    }
  }

  lemma {:induction false} TrimBackSplits(s: string) returns (back: string)
    ensures AllWhitespace(back) && s == TrimBack(s) + back
    ensures TrimBack(s) == "" || !IsWhitespace(TrimBack(s)[|TrimBack(s)| - 1])
  {
    if s != "" && IsWhitespace(s[|s| - 1]) {
      back := TrimBackSplits(s[..|s| - 1]);
      back := back + [s[|s| - 1]];
    } else {
      back := "";
    }
  }

  /** The six blanks by their codes: tab, line feed, vertical tab, form feed, carriage return and space. */
  predicate IsBlankCode(code: int) {
    code == 9 || code == 10 || code == 11 || code == 12 || code == 13 || code == 32
  }

  /** Trimming removes blanks only, and all of them. */
  lemma TrimSplits(s: string) returns (front: string, back: string)
    ensures AllWhitespace(front) && AllWhitespace(back) && s == front + Trim(s) + back
    ensures IsTrimmed(Trim(s))
    ensures forall c: char | c in front || c in back :: IsBlankCode(c as int)
    ensures Trim(s) != "" ==> !IsBlankCode(Trim(s)[0] as int) && !IsBlankCode(Trim(s)[|Trim(s)| - 1] as int)
  {
    assert ' ' as int == 32 && '\t' as int == 9 && '\n' as int == 10 && '\r' as int == 13;
    front := TrimFrontSplits(s);
    back := TrimBackSplits(TrimFront(s));
    var core := Trim(s);
    assert TrimFront(s) == core + back;
    if core != "" {
      assert core[0] == TrimFront(s)[0];
    }
  }

  method TrimAsciiWhitespace(value: string) returns (r: string)
    ensures r == Trim(value)
  {
    r := value;
    while r != "" && IsWhitespace(r[0])
      invariant TrimFront(r) == TrimFront(value)
      decreases |r|
    {
      r := r[1..];
    }
    while r != "" && IsWhitespace(r[|r| - 1])
      invariant TrimBack(r) == Trim(value)
      decreases |r|
    {
      r := r[..|r| - 1];
    }
  }

  // ---------------------------------------------------------------- the end of a tag

  function QuoteStep(quote: Option<char>, c: char): Option<char> {
    match quote
    case Some(opener) => if c == opener then None else quote
    case None => if c == '\'' || c == '"' then Some(c) else None
  }

  /** The quote left open by a text. */
  function QuoteAfter(quote: Option<char>, s: string): Option<char>
    decreases s
  {
    if s == "" then quote else QuoteAfter(QuoteStep(quote, s[0]), s[1..])
  }

  /** Every closing bracket of the text is inside quotes. */
  predicate BracketsQuoted(quote: Option<char>, s: string)
    decreases s
  {
    s == "" || (!(quote.None? && s[0] == '>') && BracketsQuoted(QuoteStep(quote, s[0]), s[1..]))
  }

  /** The first closing bracket outside quotes. */
  function TagEnd(quote: Option<char>, s: string): (r: Option<nat>)
    ensures r.Some? ==> r.value < |s| && s[r.value] == '>'
    decreases s
  {
    if s == "" then None
    else if quote.None? && s[0] == '>' then Some(0)
    else
      var later := TagEnd(QuoteStep(quote, s[0]), s[1..]);
      if later.Some? then Some(later.value + 1) else None
  }

  lemma {:induction false} QuotesCompose(quote: Option<char>, a: string, b: string)
    ensures QuoteAfter(quote, a + b) == QuoteAfter(QuoteAfter(quote, a), b)
    ensures BracketsQuoted(quote, a + b) == (BracketsQuoted(quote, a) && BracketsQuoted(QuoteAfter(quote, a), b))
    decreases a
  {
    if a == "" {
      assert a + b == b;
    } else {
      assert (a + b)[1..] == a[1..] + b;
      QuotesCompose(QuoteStep(quote, a[0]), a[1..], b);
    }
  }

  lemma {:induction false} TagEndSkips(quote: Option<char>, a: string, b: string)
    requires BracketsQuoted(quote, a)
    ensures var r := TagEnd(QuoteAfter(quote, a), b);
            TagEnd(quote, a + b) == if r.Some? then Some(|a| + r.value) else None
    decreases a
  {
    if a == "" {
      assert a + b == b;
    } else {
      assert (a + b)[1..] == a[1..] + b;
      TagEndSkips(QuoteStep(quote, a[0]), a[1..], b);
    }
  }

  /** A tag ends at the one bracket that is outside quotes and preceded by quoted brackets only. */
  lemma {:induction false} TagEndExactly(quote: Option<char>, s: string, k: nat)
    ensures TagEnd(quote, s) == Some(k) <==>
            (k < |s| && s[k] == '>' && BracketsQuoted(quote, s[..k]) && QuoteAfter(quote, s[..k]).None?)
    decreases s
  {
    if s != "" && k > 0 {
      TagEndExactly(QuoteStep(quote, s[0]), s[1..], k - 1);
      if k < |s| {
        assert s[..k][1..] == s[1..][..k - 1];
      }
    }
  }

  method FindTagEnd(xml: string, start: nat) returns (end: Option<nat>)
    requires start <= |xml|
    ensures end.Some? ==> start <= end.value < |xml| && TagEnd(None, xml[start..]) == Some(end.value - start)
    ensures end.None? ==> TagEnd(None, xml[start..]).None?
  {
    var quote := '\0';
    var position := start;
    while position < |xml|
      invariant start <= position <= |xml|
      invariant quote == '\0' || quote == '\'' || quote == '"'
      invariant BracketsQuoted(None, xml[start..position])
      invariant QuoteAfter(None, xml[start..position]) == if quote == '\0' then None else Some(quote)
    {
      var character := xml[position];
      assert xml[start..position + 1] == xml[start..position] + [character];
      QuotesCompose(None, xml[start..position], [character]);
      if quote != '\0' {
        if character == quote {
          quote := '\0';
        }
      } else if character == '\'' || character == '"' {
        quote := character;
      } else if character == '>' {
        assert xml[start..][..position - start] == xml[start..position];
        TagEndExactly(None, xml[start..], position - start);
        return Some(position);
      }
      position := position + 1;
    }
    assert xml[start..] == xml[start..position] + "";
    TagEndSkips(None, xml[start..position], "");
    return None;
  }

  /** The length of the text before the first blank. */
  function WordLength(s: string): (n: nat)
    ensures n <= |s|
    ensures forall j | 0 <= j < n :: !IsWhitespace(s[j])
    ensures n < |s| ==> IsWhitespace(s[n])
  {
    if s == "" || IsWhitespace(s[0]) then 0 else 1 + WordLength(s[1..])
  }
}
