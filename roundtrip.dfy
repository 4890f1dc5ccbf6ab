/** The writer of src/io.cpp read back by the lexer of src/lexer.cpp and
    the parser of src/parser.cpp: what operator<< writes, the lexer and the
    parser turn back into the same tokens and the same value. */
module RoundTrip {
  import opened Errors
  import opened Values
  import opened Lexing
  import opened Parsing
  import opened Printing

  // ----- strings -----

  /** A buffer slice that equals e: its characters, and the slice after d of them. */
  lemma SliceIs(buf: seq<char>, p: nat, e: string, d: nat)
    requires p + |e| <= |buf| && buf[p .. p + |e|] == e && d <= |e|
    ensures d < |e| ==> buf[p + d] == e[d]
    ensures buf[p + d .. p + |e|] == e[d..]
  {
    if d < |e| {
      assert buf[p .. p + |e|][d] == buf[p + d];
    }
  }

  /** One turn of the string loop on an ordinary character: it is appended. */
  lemma StringPlainStep(buf: seq<char>, st: LexState, startLine: int, ch: char) returns (next: LexState)
    requires Sentinel(buf) && st.pos < |buf| && buf[st.pos] == ch
    requires ch != '"' && ch != '\\' && ch != '\r'
    ensures next.pos == st.pos + 1 && next.token == st.token + [ch]
    ensures ScanString(buf, st, startLine) == ScanString(buf, next, startLine)
  {
    next := StepChar(buf, st).(token := st.token + [ch]);
  }

  /** One turn of the string loop on a backslash followed by a quote or a
      backslash: the second character is appended. */
  lemma StringEscapeStep(buf: seq<char>, st: LexState, startLine: int, ch: char) returns (next: LexState)
    requires Sentinel(buf) && st.pos + 1 < |buf| && buf[st.pos] == '\\' && buf[st.pos + 1] == ch
    requires ch == '"' || ch == '\\'
    ensures next.pos == st.pos + 2 && next.token == st.token + [ch]
    ensures ScanString(buf, st, startLine) == ScanString(buf, next, startLine)
  {
    var s2 := StepChar(buf, StepChar(buf, st));
    assert s2.c == Char(ch) && Unescape(s2.c) == s2.c;
    next := s2.(token := st.token + [ch]);
  }

  /** The string loop reading an escaped body from buf[st.pos] on, up to
      the closing quote: it collects exactly the text that was escaped, and
      stops on the character after the quote. */
  lemma {:induction false} ScanEscaped(buf: seq<char>, st: LexState, startLine: int, text: string)
    requires Sentinel(buf) && st.pos <= |buf| && '\r' !in text
    requires var e := EscapeBody(text);
      st.pos + |e| < |buf| - 1 && buf[st.pos .. st.pos + |e|] == e && buf[st.pos + |e|] == '"'
    ensures var r := ScanString(buf, st, startLine);
      r.Ok? && r.value.token == st.token + text && At(buf, r.value, st.pos + |EscapeBody(text)| + 1)
    decreases |text|
  {
    if text == [] {
      ScanClosingQuote(buf, st, startLine);
    } else {
      var t := text[1..];
      var next := EscapedCharStep(buf, st, startLine, text);
      ScanEscaped(buf, next, startLine, t);
      assert text == [text[0]] + t;
      AppendAssoc(st.token, [text[0]], t);
    }
  }

  /** The string loop on the first escaped character of text: one or two
      characters are taken, that character is appended, and the escaped rest
      of the text follows. */
  lemma EscapedCharStep(buf: seq<char>, st: LexState, startLine: int, text: string)
    returns (next: LexState)
    requires Sentinel(buf) && text != [] && text[0] != '\r'
    requires var e := EscapeBody(text);
      st.pos + |e| < |buf| - 1 && buf[st.pos .. st.pos + |e|] == e && buf[st.pos + |e|] == '"'
    ensures next.token == st.token + [text[0]]
    ensures next.pos + |EscapeBody(text[1..])| == st.pos + |EscapeBody(text)|
    ensures buf[next.pos .. next.pos + |EscapeBody(text[1..])|] == EscapeBody(text[1..])
    ensures ScanString(buf, st, startLine) == ScanString(buf, next, startLine)
  {
    var ch, t := text[0], text[1..];
    assert text == [ch] + t;
    EscapeBodyCons(ch, t);
    var n := EscapedHead(buf, st.pos, ch, EscapeBody(t), EscapeBody(text));
    if n == 2 {
      next := StringEscapeStep(buf, st, startLine, ch);
    } else {
      next := StringPlainStep(buf, st, startLine, ch);
    }
  }

  /** The escaped form e of a text starting with ch, in the buffer at p: ch
      as one or two characters (a backslash first when it is two), then et,
      the escaped rest. */
  lemma EscapedHead(buf: seq<char>, p: nat, ch: char, et: string, e: string) returns (n: nat)
    requires e == EscapeChar(ch) + et && p + |e| < |buf| && buf[p .. p + |e|] == e
    ensures n == |EscapeChar(ch)| && n + |et| == |e|
    ensures n == 2 ==> (ch == '"' || ch == '\\') && buf[p] == '\\' && buf[p + 1] == ch
    ensures n == 1 ==> ch != '"' && ch != '\\' && buf[p] == ch
    ensures buf[p + n .. p + n + |et|] == et
  {
    var h := EscapeChar(ch);
    n := |h|;
    SplitSlice(buf, p, h, et);
  }

  /** A buffer slice that equals h + r: its first characters are h's, and
      the rest of it is r. */
  lemma SplitSlice(buf: seq<char>, p: nat, h: string, r: string)
    requires p + |h + r| <= |buf| && buf[p .. p + |h + r|] == h + r
    ensures forall k :: 0 <= k < |h| ==> buf[p + k] == h[k]
    ensures buf[p + |h| .. p + |h| + |r|] == r
  {
    forall k | 0 <= k < |h| ensures buf[p + k] == h[k] {
      assert buf[p .. p + |h + r|][k] == buf[p + k];
    }
    forall k | 0 <= k < |r| ensures buf[p + |h| .. p + |h| + |r|][k] == r[k] {
      assert buf[p .. p + |h + r|][|h| + k] == buf[p + |h| + k];
    }
  }

  /** The string loop on the closing quote: done, one character past it. */
  lemma ScanClosingQuote(buf: seq<char>, st: LexState, startLine: int)
    requires Sentinel(buf) && st.pos + 1 < |buf| && buf[st.pos] == '"'
    ensures var r := ScanString(buf, st, startLine);
      r.Ok? && r.value.token == st.token && At(buf, r.value, st.pos + 1)
  {
    var s1 := StepChar(buf, st);
    assert s1.c == Char('"');
  }

  lemma AppendAssoc(a: string, b: string, c: string)
    ensures (a + b) + c == a + (b + c)
  {
  }

  /** escape_string(text) read by the lexer: a STRING token whose text is
      `text`, as long as `text` holds no carriage return (the lexer drops
      those); the lexer then stands on the character after the closing quote. */
  lemma LexEscaped(buf: seq<char>, useArrays: bool, st: LexState, i: nat, text: string)
    requires Consistent(buf, st) && At(buf, st, i) && '\r' !in text
    requires i + |Escape(text)| < |buf| && buf[i .. i + |Escape(text)|] == Escape(text)
    ensures var r := Lex(buf, useArrays, st);
      r.Ok? && r.value.0 == StringToken && r.value.1.token == text &&
      At(buf, r.value.1, i + |Escape(text)|)
  {
    var e := EscapeBody(text);
    EscapedBodySlice(buf, i, text);
    LexStringStart(buf, useArrays, st, i);
    ScanEscaped(buf, st.(token := []), st.line, text);
  }

  /** A quoted string in the buffer at i: the quote, the escaped body, the quote. */
  lemma EscapedBodySlice(buf: seq<char>, i: nat, text: string)
    requires i + |Escape(text)| < |buf| && buf[i .. i + |Escape(text)|] == Escape(text)
    ensures var e := EscapeBody(text);
      buf[i] == '"' && buf[i + 1 .. i + 1 + |e|] == e && buf[i + 1 + |e|] == '"' &&
      |Escape(text)| == |e| + 2
  {
    var e := EscapeBody(text);
    var q := Escape(text);
    assert q == ['"'] + e + ['"'];
    assert q[0] == '"' && q[1..][..|e|] == e && q[1 + |e|] == '"';
    SliceIs(buf, i, q, 0);
    SliceIs(buf, i, q, 1 + |e|);
    SliceIs(buf, i, q, 1);
    assert buf[i + 1 .. i + 1 + |e|] == buf[i + 1 .. i + |q|][..|e|];
  }

  /** On a quote, getNextToken() hands over to the string loop. */
  lemma LexStringStart(buf: seq<char>, useArrays: bool, st: LexState, i: nat)
    requires Consistent(buf, st) && At(buf, st, i) && buf[i] == '"'
    ensures var s := ScanString(buf, st.(token := []), st.line);
      Lex(buf, useArrays, st) == if s.Ok? then Ok((StringToken, s.value)) else Err(s.error)
  {
    assert SkipSpace(buf, st) == st;
  }

  // ----- integers -----

  /** The decimal digits written for n read back as n. */
  lemma {:induction false} NatTextValue(n: nat)
    ensures DecimalValue(NatText(n)) == n
    decreases n
  {
    if n >= 10 {
      NatTextValue(n / 10);
      var t := NatText(n);
      assert t[..|t| - 1] == NatText(n / 10);
    }
  }

  /** The text written for an integer is an INTEGER token to the lexer, and
      getInteger() reads it back as the same number. */
  lemma IntTextReadsBack(n: int)
    ensures var t := IntText(n);
      t != [] && StartsNumber(t[0]) && Classify(t) == IntegerToken && TokenValue(t) == n
  {
    var t := IntText(n);
    var m := if n < 0 then -n else n;
    NatTextValue(m);
    if n < 0 {
      assert t[1..] == NatText(m);
    }
    TokenValueIsDecimal(t);
    SignedDigitsAreInteger(t);
  }

  /** Digits with an optional leading minus sign: an INTEGER token. */
  lemma SignedDigitsAreInteger(t: string)
    requires |t| >= 1 && (t[0] == '-' ==> |t| >= 2)
    requires forall k :: 0 < k < |t| ==> IsDigitChar(t[k])
    requires IsDigitChar(t[0]) || t[0] == '-'
    ensures StartsNumber(t[0]) && Classify(t) == IntegerToken
  {
    assert IsDigitChar(t[|t| - 1]);
    NoDots(t);
  }

  lemma {:induction false} NoDots(t: string)
    requires forall k :: 0 <= k < |t| ==> t[k] != '.'
    ensures CountDots(t) == 0
    decreases |t|
  {
    if t != [] {
      NoDots(t[..|t| - 1]);
    }
  }
}
