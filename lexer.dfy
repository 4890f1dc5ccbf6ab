/** The tokenizer of src/lexer.cpp (token kinds from include/sexp/lexer.hpp).

    The input is a finite character sequence to which, as the C++ code does
    when its stream runs dry, one sentinel space is appended; the 16384-byte
    buffer refills are abstracted away and the buffer is that whole sequence.
    The functions in the first part state what each step of the lexer does to
    the lexer's state; the class Lexer at the end holds that state in fields and
    its methods, written with the loops of the C++ code, are proved to follow
    the functions. */
module Lexing {
  import opened Errors

  /** The current character `c`, or EOF once the input and the sentinel are consumed. */
  datatype Lookahead = EndOfInput | Char(ch: char)

  datatype TokenType =
    | TokenEof | OpenParen | CloseParen | Dot | SymbolToken | StringToken
    | IntegerToken | RealToken | TrueToken | FalseToken | ArrayStart

  /** The mutable part of a lexer: bufpos, c, linenumber and token_string. */
  datatype LexState = LexState(pos: nat, c: Lookahead, line: int, token: string)

  // ----- character classes of the "C" locale -----

  predicate IsSpaceChar(ch: char) {
    ch == ' ' || '\t' <= ch <= '\r'
  }

  predicate IsDigitChar(ch: char) {
    '0' <= ch <= '9'
  }

  predicate IsAlphaChar(ch: char) {
    'a' <= ch <= 'z' || 'A' <= ch <= 'Z'
  }

  /** isalnum(c) || c == '_' */
  predicate IsWordChar(ch: char) {
    IsAlphaChar(ch) || IsDigitChar(ch) || ch == '_'
  }

  /** strchr("\"();", c) is non-null; it also finds the string's terminating NUL. */
  predicate IsDelimChar(ch: char) {
    ch == '"' || ch == '(' || ch == ')' || ch == ';' || ch == '\0'
  }

  predicate IsSpace(c: Lookahead) {
    c.Char? && IsSpaceChar(c.ch)
  }

  predicate IsDelim(c: Lookahead) {
    c.Char? && IsDelimChar(c.ch)
  }

  predicate IsWord(c: Lookahead) {
    c.Char? && IsWordChar(c.ch)
  }

  /** static_cast<char>(c): EOF (-1) becomes the byte 0xFF. */
  function ToChar(c: Lookahead): char {
    match c
    case Char(x) => x
    case EndOfInput => '\U{FF}'
  }

  // ----- the buffer and the state invariant -----

  /** What the lexer reads: the input followed by the sentinel space. */
  function Buffer(input: string): (buf: seq<char>)
    ensures Sentinel(buf) && |buf| == |input| + 1 && buf[..|input|] == input
  {
    input + [' ']
  }

  predicate Sentinel(buf: seq<char>) {
    0 < |buf| && buf[|buf| - 1] == ' '
  }

  /** `c` is the character just before `pos`, or EOF when the buffer is used up. */
  predicate Consistent(buf: seq<char>, st: LexState) {
    && Sentinel(buf)
    && st.pos <= |buf|
    && (st.c.Char? ==> 0 < st.pos && buf[st.pos - 1] == st.c.ch)
    && (st.c.EndOfInput? ==> st.pos == |buf|)
  }

  /** The lexer is positioned on buf[i]: it is the current character. */
  predicate At(buf: seq<char>, st: LexState, i: nat) {
    i < |buf| && st.pos == i + 1 && st.c == Char(buf[i])
  }

  /** Termination measure: every nextChar() taken while `c` is a character lowers it. */
  function Rank(buf: seq<char>, st: LexState): nat
    requires st.pos <= |buf|
  {
    2 * (|buf| - st.pos) + (if st.c.Char? then 1 else 0)
  }

  // ----- nextChar and addChar -----

  /** nextChar(): read the next character, counting newlines; once the buffer
      is used up, `c` is EOF for good. */
  function StepChar(buf: seq<char>, st: LexState): (r: LexState)
    requires st.pos <= |buf|
    ensures r.pos <= |buf| && r.token == st.token
    ensures st.pos < |buf| ==> r.pos == st.pos + 1 && r.c == Char(buf[st.pos])
    ensures st.pos < |buf| ==> r.line == st.line + (if buf[st.pos] == '\n' then 1 else 0)
    ensures st.pos == |buf| ==> r == st.(c := EndOfInput)
    ensures r.c.Char? ==> r.pos == st.pos + 1
    ensures st.c.Char? ==> Rank(buf, r) < Rank(buf, st)
    ensures Rank(buf, r) <= Rank(buf, st)
    ensures Sentinel(buf) ==> Consistent(buf, r)
  {
    if st.pos < |buf| then
      var x := buf[st.pos];
      LexState(st.pos + 1, Char(x), if x == '\n' then st.line + 1 else st.line, st.token)
    else
      st.(c := EndOfInput)
  }

  /** addChar(): append the current character to the token, then read the next one. */
  function TakeChar(buf: seq<char>, st: LexState): (r: LexState)
    requires st.pos <= |buf|
  {
    StepChar(buf, st.(token := st.token + [ToChar(st.c)]))
  }

  // ----- the loops of getNextToken -----

  /** `while(isspace(c)) nextChar();` */
  function SkipSpace(buf: seq<char>, st: LexState): (r: LexState)
    requires st.pos <= |buf|
    ensures r.pos <= |buf| && !IsSpace(r.c) && r.token == st.token
    ensures Rank(buf, r) <= Rank(buf, st)
    ensures Consistent(buf, st) ==> Consistent(buf, r)
    decreases Rank(buf, st)
  {
    if IsSpace(st.c) then SkipSpace(buf, StepChar(buf, st)) else st
  }

  /** The comment loop, corrected: it stops at a newline or at EOF.  (As written
      it stops only at a newline; see SkipCommentAsWritten.) */
  function SkipComment(buf: seq<char>, st: LexState): (r: LexState)
    requires st.pos <= |buf|
    ensures r.pos <= |buf| && r.token == st.token
    ensures r.c == Char('\n') || r.c == EndOfInput
    ensures Rank(buf, r) <= Rank(buf, st)
    ensures st.c.Char? && st.c != Char('\n') ==> Rank(buf, r) < Rank(buf, st)
    ensures Consistent(buf, st) ==> Consistent(buf, r)
    decreases Rank(buf, st)
  {
    if st.c == Char('\n') || st.c == EndOfInput then st else SkipComment(buf, StepChar(buf, st))
  }

  /** The comment loop as written, `while(c != '\n') nextChar();`, run for at
      most `fuel` iterations: None means it had not stopped by then. */
  function SkipCommentAsWritten(buf: seq<char>, st: LexState, fuel: nat): Option<LexState>
    requires st.pos <= |buf|
    decreases fuel
  {
    if st.c == Char('\n') then Some(st)
    else if fuel == 0 then None
    else SkipCommentAsWritten(buf, StepChar(buf, st), fuel - 1)
  }

  /** The escape switch inside a string: `\n` and `\t` become newline and tab,
      anything else is kept. */
  function Unescape(c: Lookahead): Lookahead {
    if c == Char('n') then Char('\n') else if c == Char('t') then Char('\t') else c
  }

  /** The string loop, entered with `c` on the opening quote (or on the last
      character it copied); startLine is the line the string began on. */
  function ScanString(buf: seq<char>, st: LexState, startLine: int): (r: Result<LexState>)
    requires Sentinel(buf) && st.pos <= |buf|
    ensures r.Ok? ==> Consistent(buf, r.value) && st.pos < r.value.pos
    ensures r.Err? ==> r.error == Error(startLine, EofInString)
    decreases |buf| - st.pos
  {
    var s1 := StepChar(buf, st);
    match s1.c
    case EndOfInput => Err(Error(startLine, EofInString))
    case Char(x) =>
      if x == '"' then Ok(StepChar(buf, s1))
      else if x == '\r' then ScanString(buf, s1, startLine)
      else if x == '\\' then
        var s2 := StepChar(buf, s1);
        var e := Unescape(s2.c);
        ScanString(buf, s2.(c := e, token := s2.token + [ToChar(e)]), startLine)
      else ScanString(buf, s1.(token := s1.token + [x]), startLine)
  }

  /** `while(isalnum(c) || c == '_') addChar();`, the name of a `#` constant. */
  function ScanName(buf: seq<char>, st: LexState): (r: LexState)
    requires st.pos <= |buf|
    ensures r.pos <= |buf| && !IsWord(r.c) && st.pos <= r.pos
    ensures Rank(buf, r) <= Rank(buf, st)
    ensures Consistent(buf, st) ==> Consistent(buf, r)
    ensures Consistent(buf, st) && st.c.Char? ==>
      && r.c.Char?
      && r.token == st.token + buf[st.pos - 1 .. r.pos - 1]
      && forall k :: st.pos - 1 <= k < r.pos - 1 ==> IsWordChar(buf[k])
    decreases Rank(buf, st)
  {
    if IsWord(st.c) then
      var s := TakeChar(buf, st);
      var r := ScanName(buf, s);
      assert Consistent(buf, st) ==> r.token == st.token + buf[st.pos - 1 .. r.pos - 1] by {
        if Consistent(buf, st) {
          assert buf[st.pos - 1 .. r.pos - 1] == [buf[st.pos - 1]] + buf[st.pos - 1 + 1 .. r.pos - 1];
        }
      }
      r
    else st
  }

  /** `do addChar(); while(!isspace(c) && !strchr(delims, c));` — the token of
      a symbol or a number: the current character and everything up to the next
      whitespace or delimiter.  The sentinel space guarantees that `c` never
      reaches EOF inside this loop. */
  function ScanAtom(buf: seq<char>, st: LexState): (r: LexState)
    requires Consistent(buf, st) && st.c.Char? && !IsSpace(st.c)
    ensures Consistent(buf, r) && r.c.Char? && (IsSpace(r.c) || IsDelim(r.c))
    ensures st.pos < r.pos
    ensures r.line == st.line + (if r.c == Char('\n') then 1 else 0)
    ensures r.token == st.token + buf[st.pos - 1 .. r.pos - 1]
    ensures forall k :: st.pos <= k < r.pos - 1 ==> !IsSpaceChar(buf[k]) && !IsDelimChar(buf[k])
    decreases |buf| - st.pos
  {
    var s := TakeChar(buf, st);
    if !IsSpace(s.c) && !IsDelim(s.c) then ScanAtom(buf, s) else s
  }

  // ----- classification of a symbol-or-number token -----

  predicate HasDigit(t: string) {
    exists k :: 0 <= k < |t| && IsDigitChar(t[k])
  }

  /** A letter or underscore: what sets `have_nondigits`. */
  predicate HasNonDigit(t: string) {
    exists k :: 0 <= k < |t| && IsWordChar(t[k]) && !IsDigitChar(t[k])
  }

  function CountDots(t: string): nat {
    if t == [] then 0 else CountDots(t[..|t| - 1]) + (if t[|t| - 1] == '.' then 1 else 0)
  }

  /** A token that starts with a digit, `-` or `.`: a lone dot is DOT; a letter
      or underscore, no digit at all, or more than one dot make a SYMBOL; one
      dot makes a REAL; anything else is an INTEGER. */
  function Classify(t: string): TokenType {
    if t == "." then Dot
    else if HasNonDigit(t) || !HasDigit(t) || CountDots(t) > 1 then SymbolToken
    else if CountDots(t) == 1 then RealToken
    else IntegerToken
  }

  predicate StartsNumber(ch: char) {
    IsDigitChar(ch) || ch == '-' || ch == '.'
  }

  // ----- getNextToken -----

  /** After `#`: `#(` starts an array, `#t`/`#f` are the booleans and any other
      name is an error. */
  function LexConstant(buf: seq<char>, st: LexState): (r: Result<(TokenType, LexState)>)
    requires Consistent(buf, st)
    ensures r.Ok? ==> Consistent(buf, r.value.1) && Rank(buf, r.value.1) <= Rank(buf, st)
  {
    if st.c == Char('(') then Ok((ArrayStart, StepChar(buf, st)))
    else
      var s := ScanName(buf, st);
      if s.token == "t" then Ok((TrueToken, s))
      else if s.token == "f" then Ok((FalseToken, s))
      else Err(Error(s.line, UnknownConstant(s.token)))
  }

  /** getNextToken(): skip whitespace, then read the token (or comment) that
      starts at the current character. */
  function Lex(buf: seq<char>, useArrays: bool, st: LexState): (r: Result<(TokenType, LexState)>)
    requires Consistent(buf, st)
    ensures r.Ok? ==> Consistent(buf, r.value.1) && Rank(buf, r.value.1) <= Rank(buf, st)
    ensures r.Ok? && r.value.0 != TokenEof ==> Rank(buf, r.value.1) < Rank(buf, st)
    ensures r.Ok? && r.value.0 == TokenEof ==> r.value.1.c == EndOfInput && r.value.1.token == []
    decreases Rank(buf, st), 1
  {
    LexToken(buf, useArrays, SkipSpace(buf, st).(token := []))
  }

  /** The rest of getNextToken() once `c` is not whitespace and the token
      string is cleared: a comment is skipped and lexing starts over. */
  function LexToken(buf: seq<char>, useArrays: bool, s: LexState): (r: Result<(TokenType, LexState)>)
    requires Consistent(buf, s) && !IsSpace(s.c) && s.token == []
    ensures r.Ok? ==> Consistent(buf, r.value.1) && Rank(buf, r.value.1) <= Rank(buf, s)
    ensures r.Ok? && r.value.0 != TokenEof ==> Rank(buf, r.value.1) < Rank(buf, s)
    ensures r.Ok? && r.value.0 == TokenEof ==> r.value.1.c == EndOfInput && r.value.1.token == []
    decreases Rank(buf, s), 0
  {
    match s.c
    case EndOfInput => Ok((TokenEof, s))
    case Char(x) =>
      if x == ';' then Lex(buf, useArrays, SkipComment(buf, s))
      else if x == '(' then Ok((if useArrays then ArrayStart else OpenParen, StepChar(buf, s)))
      else if x == ')' then Ok((CloseParen, StepChar(buf, s)))
      else if x == '"' then
        var s' :- ScanString(buf, s, s.line);
        Ok((StringToken, s'))
      else if x == '#' then LexConstant(buf, StepChar(buf, s))
      else
        var s' := ScanAtom(buf, s);
        Ok((if StartsNumber(x) then Classify(s'.token) else SymbolToken, s'))
  }

  /** The state after the constructor's first nextChar(); `c` starts out as 0. */
  function Initial(buf: seq<char>): (st: LexState)
    requires Sentinel(buf)
    ensures Consistent(buf, st) && At(buf, st, 0) && st.token == []
  {
    StepChar(buf, LexState(0, Char('\0'), 0, []))
  }

  // ----- getInteger -----

  /** token_string[i], where index size() reads the terminating NUL. */
  function CharAt(t: string, i: nat): char {
    if i < |t| then t[i] else '\0'
  }

  function Digit(ch: char): int {
    ch as int - '0' as int
  }

  /** The accumulator loop `result *= 10; result += token_string[i] - '0';` from index i on. */
  function Accumulate(t: string, i: nat, acc: int): int
    decreases |t| - i
  {
    if i < |t| then Accumulate(t, i + 1, acc * 10 + Digit(t[i])) else acc
  }

  /** getInteger(): the digits after an optional leading '-', negated when it is there. */
  function TokenValue(t: string): int {
    if CharAt(t, 0) == '-' then -Accumulate(t, 2, Digit(CharAt(t, 1)))
    else Accumulate(t, 1, Digit(CharAt(t, 0)))
  }

  /** Reference reading of a string of decimal digits, from its last digit. */
  function DecimalValue(ds: string): int {
    if ds == [] then 0 else DecimalValue(ds[..|ds| - 1]) * 10 + Digit(ds[|ds| - 1])
  }

  // ----- properties of the lexer -----

  /** Once the input and its sentinel are used up, `c` stays EOF and every
      further call yields EOF without moving. */
  lemma EndIsFinal(buf: seq<char>, useArrays: bool, st: LexState)
    requires Consistent(buf, st) && st.c == EndOfInput
    ensures StepChar(buf, st) == st
    ensures Lex(buf, useArrays, st) == Ok((TokenEof, st.(token := [])))
  {
  }

  /** Whitespace up to the end of the input lexes as EOF, at the line of
      the last character. */
  lemma {:induction false} LexTrailingSpace(buf: seq<char>, useArrays: bool, st: LexState, i: nat)
    requires Consistent(buf, st) && At(buf, st, i)
    requires forall k :: i <= k < |buf| ==> IsSpaceChar(buf[k])
    ensures Lex(buf, useArrays, st).Ok?
    ensures var r := Lex(buf, useArrays, st).value;
      r.0 == TokenEof && r.1.c == EndOfInput && r.1.pos == |buf| && r.1.token == []
    ensures (forall k :: i < k < |buf| ==> buf[k] != '\n') ==> Lex(buf, useArrays, st).value.1.line == st.line
    decreases |buf| - i
  {
    LexSkipsSpace(buf, useArrays, st);
    var next := StepChar(buf, st);
    if i + 1 < |buf| {
      LexTrailingSpace(buf, useArrays, next, i + 1);
    } else {
      EndIsFinal(buf, useArrays, next);
    }
  }

  lemma {:induction false} SkipSpaceIgnoresToken(buf: seq<char>, st: LexState, t: string)
    requires st.pos <= |buf|
    ensures SkipSpace(buf, st.(token := t)) == SkipSpace(buf, st).(token := t)
    decreases Rank(buf, st)
  {
    if IsSpace(st.c) {
      SkipSpaceIgnoresToken(buf, StepChar(buf, st), t);
      assert StepChar(buf, st.(token := t)) == StepChar(buf, st).(token := t);
    }
  }

  /** getNextToken() clears the token before reading: what was in it does not matter. */
  lemma LexIgnoresToken(buf: seq<char>, useArrays: bool, st: LexState, t: string)
    requires Consistent(buf, st)
    ensures Lex(buf, useArrays, st.(token := t)) == Lex(buf, useArrays, st)
  {
    SkipSpaceIgnoresToken(buf, st, t);
    SkipSpaceIgnoresToken(buf, st, []);
  }

  /** Whitespace before a token is skipped. */
  lemma LexSkipsSpace(buf: seq<char>, useArrays: bool, st: LexState)
    requires Consistent(buf, st) && IsSpace(st.c)
    ensures Lex(buf, useArrays, st) == Lex(buf, useArrays, StepChar(buf, st))
  {
  }

  /** The comment loop from a character other than a newline reaches the next
      newline, at index j. */
  lemma {:induction false} SkipCommentReaches(buf: seq<char>, st: LexState, j: nat)
    requires Consistent(buf, st) && st.c.Char?
    requires st.pos - 1 <= j < |buf| && buf[j] == '\n'
    requires forall k :: st.pos - 1 <= k < j ==> buf[k] != '\n'
    ensures At(buf, SkipComment(buf, st), j)
    decreases j - st.pos
  {
    if st.c != Char('\n') {
      SkipCommentReaches(buf, StepChar(buf, st), j);
    }
  }

  /** A `;` comment is skipped through the newline at index j: the token is the
      one that follows the newline. */
  lemma SkipsCommentToNewline(buf: seq<char>, useArrays: bool, st: LexState, i: nat, j: nat)
    returns (nl: LexState)
    requires Consistent(buf, st) && At(buf, st, i) && buf[i] == ';'
    requires i < j < |buf| && buf[j] == '\n'
    requires forall k :: i <= k < j ==> buf[k] != '\n'
    ensures At(buf, nl, j) && Consistent(buf, nl)
    ensures Lex(buf, useArrays, st) == Lex(buf, useArrays, nl)
  {
    var s := st.(token := []);
    SkipCommentReaches(buf, s, j);
    nl := SkipComment(buf, s);
  }

  /** With no newline left, the corrected comment loop runs into EOF. */
  lemma {:induction false} SkipCommentToEnd(buf: seq<char>, st: LexState)
    requires Consistent(buf, st)
    requires st.c.Char? ==> forall k :: st.pos - 1 <= k < |buf| ==> buf[k] != '\n'
    ensures SkipComment(buf, st).c == EndOfInput
    decreases |buf| - st.pos, st.c.Char?
  {
    if st.c.Char? {
      SkipCommentToEnd(buf, StepChar(buf, st));
    }
  }

  /** A comment that runs to the end of the input ends the token stream. */
  lemma TrailingCommentEndsInput(buf: seq<char>, useArrays: bool, st: LexState, i: nat)
    requires Consistent(buf, st) && At(buf, st, i) && buf[i] == ';'
    requires forall k :: i <= k < |buf| ==> buf[k] != '\n'
    ensures Lex(buf, useArrays, st).Ok? && Lex(buf, useArrays, st).value.0 == TokenEof
  {
    var s := st.(token := []);
    SkipCommentToEnd(buf, s);
    EndIsFinal(buf, useArrays, SkipComment(buf, s));
  }

  /** As written, the comment loop never stops when no newline is left: for
      every bound on its iterations it is still running. */
  lemma {:induction false} CommentAsWrittenNeverStops(buf: seq<char>, st: LexState, fuel: nat)
    requires Consistent(buf, st) && st.c != Char('\n')
    requires forall k :: st.pos <= k < |buf| ==> buf[k] != '\n'
    ensures SkipCommentAsWritten(buf, st, fuel) == None
    decreases fuel
  {
    if fuel > 0 {
      CommentAsWrittenNeverStops(buf, StepChar(buf, st), fuel - 1);
    }
  }

  /** The input "x ;c" ends in a comment without a newline: the lexer reads the
      symbol x and then, as written, never returns. */
  lemma TrailingCommentHangs(fuel: nat)
    ensures var buf := Buffer("x ;c");
      && Lex(buf, false, Initial(buf)) == Ok((SymbolToken, LexState(2, Char(' '), 0, "x")))
      && SkipCommentAsWritten(buf, LexState(3, Char(';'), 0, []), fuel) == None
  {
    var buf := Buffer("x ;c");
    assert buf == ['x', ' ', ';', 'c', ' '];
    var after := LexAtom(buf, false, Initial(buf), 0, 1);
    assert buf[0..1] == "x";
    CommentAsWrittenNeverStops(buf, LexState(3, Char(';'), 0, []), fuel);
  }

  /** `(` and `)` are tokens of their own; `(` opens an array in array mode. */
  lemma LexParen(buf: seq<char>, useArrays: bool, st: LexState, i: nat)
    requires Consistent(buf, st) && At(buf, st, i) && (buf[i] == '(' || buf[i] == ')')
    ensures var next := StepChar(buf, st.(token := []));
      && At(buf, next, i + 1)
      && Lex(buf, useArrays, st) ==
         Ok((if buf[i] == ')' then CloseParen else if useArrays then ArrayStart else OpenParen, next))
  {
  }

  /** `#(` opens an array in either mode; `#` followed by the name buf[i+1..j]
      is TRUE for `t`, FALSE for `f` and an "Unknown constant" error otherwise. */
  lemma LexHash(buf: seq<char>, useArrays: bool, st: LexState, i: nat, j: nat) returns (after: LexState)
    requires Consistent(buf, st) && At(buf, st, i) && buf[i] == '#'
    requires i < j < |buf| && !IsWordChar(buf[j])
    requires forall k :: i < k < j ==> IsWordChar(buf[k])
    ensures At(buf, after, if buf[i + 1] == '(' then i + 2 else j)
    ensures buf[i + 1] == '(' ==> after == StepChar(buf, StepChar(buf, st.(token := [])))
    ensures buf[i + 1] == '(' ==> Lex(buf, useArrays, st) == Ok((ArrayStart, after))
    ensures buf[i + 1] != '(' ==>
      var name := buf[i + 1 .. j];
      && after.token == name
      && Lex(buf, useArrays, st) ==
         if name == "t" then Ok((TrueToken, after))
         else if name == "f" then Ok((FalseToken, after))
         else Err(Error(after.line, UnknownConstant(name)))
  {
    var s := StepChar(buf, st.(token := []));
    if buf[i + 1] == '(' {
      after := StepChar(buf, s);
    } else {
      after := ScanName(buf, s);
      assert !IsWordChar(buf[after.pos - 1]);
    }
  }

  /** A token that is not punctuation, a string or a constant is the maximal
      run buf[i..j] of characters that are neither whitespace nor delimiters;
      it is a SYMBOL unless it starts like a number, when Classify decides. */
  lemma LexAtom(buf: seq<char>, useArrays: bool, st: LexState, i: nat, j: nat) returns (after: LexState)
    requires Consistent(buf, st) && At(buf, st, i)
    requires !IsSpaceChar(buf[i]) && buf[i] !in "\"();#"
    requires i < j < |buf| && (IsSpaceChar(buf[j]) || IsDelimChar(buf[j]))
    requires forall k :: i < k < j ==> !IsSpaceChar(buf[k]) && !IsDelimChar(buf[k])
    ensures At(buf, after, j) && after.token == buf[i .. j]
    ensures after.line == st.line + (if buf[j] == '\n' then 1 else 0)
    ensures Lex(buf, useArrays, st) ==
      Ok((if StartsNumber(buf[i]) then Classify(buf[i .. j]) else SymbolToken, after))
  {
    after := ScanAtom(buf, st.(token := []));
    assert IsSpaceChar(buf[after.pos - 1]) || IsDelimChar(buf[after.pos - 1]);
  }

  /** The classification of number-like tokens on the examples `.`, `-`,
      `5.6.7`, `1234.`, `-12` and `12a`. */
  lemma ClassifyExamples()
    ensures Classify(".") == Dot
    ensures Classify("-") == SymbolToken
    ensures Classify("5.6.7") == SymbolToken
    ensures Classify("1234.") == RealToken
    ensures Classify("-12") == IntegerToken
    ensures Classify("12a") == SymbolToken
  {
    assert !HasDigit("-") by {
      forall k | 0 <= k < 1 ensures !IsDigitChar("-"[k]) { }
    }
    assert CountDots("5.6.7") == 2 by {
      assert "5.6.7"[..4] == "5.6." && "5.6."[..3] == "5.6" && "5.6"[..2] == "5." && "5."[..1] == "5";
    }
    assert HasDigit("1234.") by { assert IsDigitChar("1234."[0]); }
    assert !HasNonDigit("1234.") by {
      forall k | 0 <= k < 5 ensures !(IsWordChar("1234."[k]) && !IsDigitChar("1234."[k])) { }
    }
    assert CountDots("1234.") == 1 by {
      assert "1234."[..4] == "1234" && "1234"[..3] == "123" && "123"[..2] == "12" && "12"[..1] == "1";
    }
    assert HasDigit("-12") by { assert IsDigitChar("-12"[1]); }
    assert !HasNonDigit("-12") by {
      forall k | 0 <= k < 3 ensures !(IsWordChar("-12"[k]) && !IsDigitChar("-12"[k])) { }
    }
    assert CountDots("-12") == 0 by {
      assert "-12"[..2] == "-1" && "-1"[..1] == "-";
    }
    assert HasNonDigit("12a") by { assert IsWordChar("12a"[2]) && !IsDigitChar("12a"[2]); }
  }

  lemma {:induction false} AccumulateIsDecimal(t: string, o: nat, i: nat)
    requires o <= i <= |t|
    ensures Accumulate(t, i, DecimalValue(t[o..i])) == DecimalValue(t[o..])
    decreases |t| - i
  {
    if i < |t| {
      assert t[o..i + 1][..|t[o..i + 1]| - 1] == t[o..i];
      AccumulateIsDecimal(t, o, i + 1);
    } else {
      assert t[o..i] == t[o..];
    }
  }

  /** getInteger() reads the token's digits in decimal, negated after a leading '-'. */
  lemma TokenValueIsDecimal(t: string)
    ensures t != [] && t[0] != '-' ==> TokenValue(t) == DecimalValue(t)
    ensures |t| >= 2 && t[0] == '-' ==> TokenValue(t) == -DecimalValue(t[1..])
  {
    if t != [] && t[0] != '-' {
      assert t[0..1][..0] == [];
      AccumulateIsDecimal(t, 0, 1);
      assert t[0..] == t;
    }
    if |t| >= 2 && t[0] == '-' {
      assert t[1..2][..0] == [];
      AccumulateIsDecimal(t, 1, 2);
    }
  }

  // ----- the flags of the number loop -----

  lemma FlagsOfAppend(t: string, y: char)
    ensures HasDigit(t + [y]) == (HasDigit(t) || IsDigitChar(y))
    ensures HasNonDigit(t + [y]) == (HasNonDigit(t) || (IsWordChar(y) && !IsDigitChar(y)))
    ensures CountDots(t + [y]) == CountDots(t) + (if y == '.' then 1 else 0)
  {
    assert (t + [y])[..|t|] == t;
    if HasDigit(t) {
      var k :| 0 <= k < |t| && IsDigitChar(t[k]);
      assert (t + [y])[k] == t[k];
    }
    if HasNonDigit(t) {
      var k :| 0 <= k < |t| && IsWordChar(t[k]) && !IsDigitChar(t[k]);
      assert (t + [y])[k] == t[k];
    }
    if IsDigitChar(y) {
      assert (t + [y])[|t|] == y;
    }
    if IsWordChar(y) && !IsDigitChar(y) {
      assert (t + [y])[|t|] == y;
    }
  }

  /** The lexer object: a buffer position, the current character, the line
      counter and the text of the last token, over a buffer that ends in the
      sentinel space. */
  class Lexer {
    const buf: seq<char>
    const useArrays: bool
    var pos: nat
    var c: Lookahead
    var line: int
    var token: string

    function State(): LexState
      reads this
    {
      LexState(pos, c, line, token)
    }

    predicate Valid()
      reads this
    {
      Consistent(buf, State())
    }

    /** Lexer(stream, use_arrays): `c` starts as 0 and the first character is read at once. */
    constructor (input: string, useArrays: bool)
      ensures buf == Buffer(input) && this.useArrays == useArrays
      ensures State() == Initial(buf) && Valid()
    {
      buf := Buffer(input);
      this.useArrays := useArrays;
      pos, c, line, token := 0, Char('\0'), 0, [];
      new;
      NextChar();
    }

    method NextChar()
      requires pos <= |buf|
      modifies this
      ensures State() == StepChar(buf, old(State()))
    {
      if pos < |buf| {
        c := Char(buf[pos]);
        pos := pos + 1;
        if c == Char('\n') {
          line := line + 1;
        }
      } else {
        c := EndOfInput;
      }
    }

    method AddChar()
      requires pos <= |buf|
      modifies this
      ensures State() == TakeChar(buf, old(State()))
    {
      token := token + [ToChar(c)];
      NextChar();
    }

    function GetString(): string
      reads this
    {
      token
    }

    function GetLineNumber(): int
      reads this
    {
      line
    }

    /** getNextToken(): the token kind is the one Lex computes, and the new
        state is the state Lex computes; a lexical error is Lex's error. */
    method GetNextToken() returns (r: Result<TokenType>)
      requires Valid()
      modifies this
      ensures Lex(buf, useArrays, old(State())) == if r.Ok? then Ok((r.value, State())) else Err(r.error)
      ensures r.Ok? ==> Valid()
      decreases Rank(buf, State())
    {
      ghost var st0 := State();
      while IsSpace(c)
        invariant Valid() && SkipSpace(buf, State()) == SkipSpace(buf, st0)
        decreases Rank(buf, State())
      {
        NextChar();
      }
      token := [];
      ghost var s := State();
      assert s == SkipSpace(buf, st0).(token := []);
      if c == EndOfInput {
        return Ok(TokenEof);
      }
      var x := c.ch;
      if x == ';' {
        while c != Char('\n') && c != EndOfInput
          invariant Valid() && SkipComment(buf, State()) == SkipComment(buf, s)
          decreases Rank(buf, State())
        {
          NextChar();
        }
        r := GetNextToken();
      } else if x == '(' {
        NextChar();
        r := Ok(if useArrays then ArrayStart else OpenParen);
      } else if x == ')' {
        NextChar();
        r := Ok(CloseParen);
      } else if x == '"' {
        r := ReadString();
      } else if x == '#' {
        NextChar();
        r := ReadConstant();
      } else {
        r := ReadAtom();
      }
    }

    /** The `#` case of getNextToken, entered on the character after `#`. */
    method ReadConstant() returns (r: Result<TokenType>)
      requires Valid()
      modifies this
      ensures LexConstant(buf, old(State())) == if r.Ok? then Ok((r.value, State())) else Err(r.error)
      ensures r.Ok? ==> Valid()
    {
      if c == Char('(') {
        NextChar();
        return Ok(ArrayStart);
      }
      ghost var s := State();
      while IsWord(c)
        invariant Valid() && ScanName(buf, State()) == ScanName(buf, s)
        decreases Rank(buf, State())
      {
        AddChar();
      }
      if token == "t" {
        r := Ok(TrueToken);
      } else if token == "f" {
        r := Ok(FalseToken);
      } else {
        r := Err(Error(line, UnknownConstant(token)));
      }
    }

    /** The string case of getNextToken, entered on the opening quote. */
    method ReadString() returns (r: Result<TokenType>)
      requires Valid() && c == Char('"') && token == []
      modifies this
      ensures var s := ScanString(buf, old(State()), old(line));
        s == if r.Ok? then Ok(State()) else Err(r.error)
      ensures r.Ok? ==> r.value == StringToken && Valid()
    {
      var startline := line;
      ghost var s := State();
      while true
        invariant pos <= |buf|
        invariant ScanString(buf, State(), startline) == ScanString(buf, s, startline)
        decreases |buf| - pos
      {
        NextChar();
        if c == EndOfInput {
          return Err(Error(startline, EofInString));
        }
        var y := c.ch;
        if y == '"' {
          NextChar();
          return Ok(StringToken);
        }
        if y != '\r' {
          if y == '\\' {
            NextChar();
            c := Unescape(c);
          }
          token := token + [ToChar(c)];
        }
      }
    }

    /** The default case of getNextToken: a symbol or a number, entered on its
        first character. */
    method ReadAtom() returns (r: Result<TokenType>)
      requires Valid() && c.Char? && !IsSpace(c) && token == []
      modifies this
      ensures var s := ScanAtom(buf, old(State()));
        && State() == s
        && r == Ok(if StartsNumber(old(c).ch) then Classify(s.token) else SymbolToken)
      ensures Valid()
    {
      ghost var s0 := State();
      var x := c.ch;
      var haveNondigits, haveDigits, dots := false, false, 0;
      var more := true;
      while more
        invariant Valid() && c.Char?
        invariant haveDigits == HasDigit(token) && haveNondigits == HasNonDigit(token)
        invariant dots == CountDots(token)
        invariant more ==> !IsSpace(c) && ScanAtom(buf, State()) == ScanAtom(buf, s0)
        invariant !more ==> State() == ScanAtom(buf, s0)
        decreases |buf| - pos
      {
        var y := c.ch;
        if IsDigitChar(y) {
          haveDigits := true;
        } else if y == '.' {
          dots := dots + 1;
        } else if IsWordChar(y) {
          haveNondigits := true;
        }
        FlagsOfAppend(token, y);
        AddChar();
        more := !IsSpace(c) && !IsDelim(c);
      }
      if !StartsNumber(x) {
        r := Ok(SymbolToken);
      } else if token == "." {
        r := Ok(Dot);
      } else if haveNondigits || !haveDigits || dots > 1 {
        r := Ok(SymbolToken);
      } else if dots == 1 {
        r := Ok(RealToken);
      } else {
        r := Ok(IntegerToken);
      }
    }

    /** getInteger(), the accumulator loop over the token text. */
    method GetInteger() returns (n: int)
      ensures n == TokenValue(token)
    {
      var i: nat;
      if CharAt(token, 0) == '-' {
        n, i := Digit(CharAt(token, 1)), 2;
      } else {
        n, i := Digit(CharAt(token, 0)), 1;
      }
      ghost var start := (i, n);
      while i < |token|
        invariant Accumulate(token, i, n) == Accumulate(token, start.0, start.1)
        decreases |token| - i
      {
        n := n * 10 + Digit(token[i]);
        i := i + 1;
      }
      if CharAt(token, 0) == '-' {
        n := -n;
      }
    }
  }
}
