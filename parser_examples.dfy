/** read() on small concrete inputs: the translation marker kept by the skip
    loop of an array just past the depth limit, the error paths of read() and
    from_stream(), and std::stoi on the integer tokens it is given. */
module ParserExamples {
  import opened Errors
  import opened Values
  import opened Lexing
  import opened Parsing
  import opened Printing
  import opened RoundTrip
  import ParserProperties

  /** The marker #(_ "x") as the skip loop builds it. */
  const MarkerX := Array([Symbol("_", 0), String("x", 0)], 0)

  // ----- one token at a time -----

  /** The lexer stands on buf[i], or on a blank just before it. */
  predicate Before(buf: seq<char>, st: LexState, i: nat, gap: bool) {
    if gap then 0 < i && At(buf, st, i - 1) && buf[i - 1] == ' ' else At(buf, st, i)
  }

  /** The state from which the first token is read. */
  function Opening(cfg: Config): (p: PState)
    requires Sentinel(cfg.buf)
    ensures Ready(cfg, p) && Start(cfg) == Advance(cfg, p) && At(cfg.buf, p.lex, 0)
    ensures cfg.buf[0] != '\n' ==> p.lex.line == 0
  {
    PState(Initial(cfg.buf), OpenParen)
  }

  /** The lexer on the lexer state st, with any blank before buf[i] passed. */
  lemma PassGap(cfg: Config, st: LexState, i: nat, gap: bool) returns (st': LexState)
    requires Sentinel(cfg.buf) && Consistent(cfg.buf, st) && i < |cfg.buf| && Before(cfg.buf, st, i, gap)
    requires cfg.buf[i] != '\n'
    ensures Consistent(cfg.buf, st') && At(cfg.buf, st', i) && st'.line == st.line
    ensures Lex(cfg.buf, cfg.useArrays, st) == Lex(cfg.buf, cfg.useArrays, st')
  {
    st' := st;
    if gap {
      LexSkipsSpace(cfg.buf, cfg.useArrays, st);
      st' := StepChar(cfg.buf, st);
    }
  }

  /** A parenthesis at buf[i] (not in array mode). */
  lemma NextParen(cfg: Config, p: PState, i: nat, gap: bool) returns (q: PState)
    requires !cfg.useArrays && Ready(cfg, p) && i + 1 < |cfg.buf| && Before(cfg.buf, p.lex, i, gap)
    requires cfg.buf[i] == '(' || cfg.buf[i] == ')'
    requires cfg.buf[i + 1] != '\n'
    ensures Ready(cfg, q) && Advance(cfg, p) == Ok(q) && At(cfg.buf, q.lex, i + 1)
    ensures q.tok == (if cfg.buf[i] == '(' then OpenParen else CloseParen) && q.lex.line == p.lex.line
  {
    var st := PassGap(cfg, p.lex, i, gap);
    LexParen(cfg.buf, false, st, i);
    q := PState(StepChar(cfg.buf, st.(token := [])), if cfg.buf[i] == '(' then OpenParen else CloseParen);
  }

  /** `#(` at buf[i]. */
  lemma NextArray(cfg: Config, p: PState, i: nat, gap: bool) returns (q: PState)
    requires Ready(cfg, p) && i + 2 < |cfg.buf| && Before(cfg.buf, p.lex, i, gap)
    requires cfg.buf[i] == '#' && cfg.buf[i + 1] == '(' && cfg.buf[i + 2] != '\n'
    ensures Ready(cfg, q) && Advance(cfg, p) == Ok(q) && At(cfg.buf, q.lex, i + 2)
    ensures q.tok == ArrayStart && q.lex.line == p.lex.line
  {
    var st := PassGap(cfg, p.lex, i, gap);
    var after := LexHash(cfg.buf, cfg.useArrays, st, i, i + 1);
    q := PState(after, ArrayStart);
  }

  /** The atom buf[i..j], followed by a blank or a delimiter other than a newline. */
  lemma NextAtom(cfg: Config, p: PState, i: nat, j: nat, gap: bool) returns (q: PState)
    requires Ready(cfg, p) && i < j < |cfg.buf| && Before(cfg.buf, p.lex, i, gap)
    requires !IsSpaceChar(cfg.buf[i]) && cfg.buf[i] !in "\"();#"
    requires (IsSpaceChar(cfg.buf[j]) || IsDelimChar(cfg.buf[j])) && cfg.buf[j] != '\n'
    requires forall k :: i < k < j ==> !IsSpaceChar(cfg.buf[k]) && !IsDelimChar(cfg.buf[k])
    ensures Ready(cfg, q) && Advance(cfg, p) == Ok(q) && At(cfg.buf, q.lex, j) && q.lex.line == p.lex.line
    ensures q.lex.token == cfg.buf[i .. j]
    ensures q.tok == if StartsNumber(cfg.buf[i]) then Classify(cfg.buf[i .. j]) else SymbolToken
  {
    var st := PassGap(cfg, p.lex, i, gap);
    var after := LexAtom(cfg.buf, cfg.useArrays, st, i, j);
    q := PState(after, if StartsNumber(cfg.buf[i]) then Classify(cfg.buf[i .. j]) else SymbolToken);
  }

  /** The quoted string at buf[i..], its text `text`. */
  lemma NextString(cfg: Config, p: PState, i: nat, text: string, gap: bool) returns (q: PState)
    requires Ready(cfg, p) && i + |Escape(text)| < |cfg.buf| && Before(cfg.buf, p.lex, i, gap)
    requires '\r' !in text && cfg.buf[i .. i + |Escape(text)|] == Escape(text)
    ensures Ready(cfg, q) && Advance(cfg, p) == Ok(q) && At(cfg.buf, q.lex, i + |Escape(text)|)
    ensures q.tok == StringToken && q.lex.token == text
  {
    assert cfg.buf[i] == Escape(text)[0] == '"';
    var st := PassGap(cfg, p.lex, i, gap);
    LexEscaped(cfg.buf, cfg.useArrays, st, i, text);
    q := PState(Lex(cfg.buf, cfg.useArrays, st).value.1, StringToken);
  }

  /** Only blanks are left from buf[i] on: the next token is EOF. */
  lemma NextEnd(cfg: Config, p: PState, i: nat)
    requires Ready(cfg, p) && At(cfg.buf, p.lex, i)
    requires forall k :: i <= k < |cfg.buf| ==> IsSpaceChar(cfg.buf[k])
    ensures Advance(cfg, p).Ok? && Advance(cfg, p).value.tok == TokenEof
  {
    LexTrailingSpace(cfg.buf, cfg.useArrays, p.lex, i);
  }

  /** The escaped form of the one-letter string x. */
  lemma EscapeX()
    ensures Escape("x") == "\"x\""
  {
    assert "x"[..0] == [];
  }

  // ----- the translation marker -----

  /** The first two tokens of an input that starts with `(#(`: `(` and `#(`. */
  lemma ListOfArray(cfg: Config) returns (p1: PState, p2: PState)
    requires !cfg.useArrays && Sentinel(cfg.buf) && |cfg.buf| > 3
    requires cfg.buf[0] == '(' && cfg.buf[1] == '#' && cfg.buf[2] == '(' && cfg.buf[3] != '\n'
    ensures Ready(cfg, p1) && Start(cfg) == Ok(p1) && p1.tok == OpenParen && p1.lex.line == 0
    ensures Ready(cfg, p2) && Advance(cfg, p1) == Ok(p2) && p2.tok == ArrayStart && p2.lex.line == 0
    ensures At(cfg.buf, p2.lex, 3)
  {
    p1 := NextParen(cfg, Opening(cfg), 0, false);
    p2 := NextArray(cfg, p1, 1, false);
  }

  /** The end `))` of an input, from buf[i] on: two `)`, then EOF. */
  lemma CloseTwo(cfg: Config, p: PState, i: nat) returns (q1: PState, q2: PState)
    requires !cfg.useArrays && Ready(cfg, p) && i + 3 == |cfg.buf| && At(cfg.buf, p.lex, i)
    requires cfg.buf[i..] == [')', ')', ' ']
    ensures Ready(cfg, q1) && Advance(cfg, p) == Ok(q1) && q1.tok == CloseParen
    ensures Ready(cfg, q2) && Advance(cfg, q1) == Ok(q2) && q2.tok == CloseParen
    ensures Advance(cfg, q2).Ok? && Advance(cfg, q2).value.tok == TokenEof
  {
    var buf := cfg.buf;
    assert buf[i] == ')' && buf[i + 1] == ')' && buf[i + 2] == ' ';
    q1 := NextParen(cfg, p, i, false);
    q2 := NextParen(cfg, q1, i + 1, false);
    NextEnd(cfg, q2, i + 2);
  }

  /** The end `"x"))` of an input, from buf[i] on: the string, two `)`, EOF. */
  lemma CloseX(cfg: Config, p: PState, i: nat, gap: bool) returns (q1: PState, q2: PState, q3: PState)
    requires !cfg.useArrays && Ready(cfg, p) && i + 6 == |cfg.buf| && Before(cfg.buf, p.lex, i, gap)
    requires cfg.buf[i..] == ['"', 'x', '"', ')', ')', ' ']
    ensures Ready(cfg, q1) && Advance(cfg, p) == Ok(q1) && q1.tok == StringToken && q1.lex.token == "x"
    ensures Ready(cfg, q2) && Advance(cfg, q1) == Ok(q2) && q2.tok == CloseParen
    ensures Ready(cfg, q3) && Advance(cfg, q2) == Ok(q3) && q3.tok == CloseParen
    ensures Advance(cfg, q3).Ok? && Advance(cfg, q3).value.tok == TokenEof
  {
    var buf := cfg.buf;
    assert buf[i] == '"' && buf[i + 1] == 'x' && buf[i + 2] == '"';
    assert buf[i + 3] == ')' && buf[i + 4] == ')' && buf[i + 5] == ' ';
    assert buf[i + 3..] == [')', ')', ' '];
    EscapeX();
    assert buf[i .. i + 3] == Escape("x");
    q1 := NextString(cfg, p, i, "x", gap);
    q2, q3 := CloseTwo(cfg, q1, i + 3);
  }

  /** The tokens of `(#(_ "x"))`: `(`, `#(`, `_`, the string, two `)`, EOF. */
  lemma MarkerTokens(input: string)
    returns (cfg: Config, p1: PState, p2: PState, p3: PState, p4: PState, p5: PState, p6: PState)
    requires input == "(#(_ \"x\"))"
    ensures cfg == ConfigFor(input, false, 0)
    ensures Ready(cfg, p1) && Start(cfg) == Ok(p1) && p1.tok == OpenParen && p1.lex.line == 0
    ensures Ready(cfg, p2) && Advance(cfg, p1) == Ok(p2) && p2.tok == ArrayStart && p2.lex.line == 0
    ensures Ready(cfg, p3) && Advance(cfg, p2) == Ok(p3) && p3.tok == SymbolToken && p3.lex.token == "_"
    ensures Ready(cfg, p4) && Advance(cfg, p3) == Ok(p4) && p4.tok == StringToken && p4.lex.token == "x"
    ensures Ready(cfg, p5) && Advance(cfg, p4) == Ok(p5) && p5.tok == CloseParen
    ensures Ready(cfg, p6) && Advance(cfg, p5) == Ok(p6) && p6.tok == CloseParen
    ensures Advance(cfg, p6).Ok? && Advance(cfg, p6).value.tok == TokenEof
  {
    cfg := ConfigFor(input, false, 0);
    var buf := cfg.buf;
    assert buf == ['(', '#', '(', '_', ' ', '"', 'x', '"', ')', ')', ' '];
    p1, p2 := ListOfArray(cfg);
    p3 := NextAtom(cfg, p2, 3, 4, false);
    assert buf[3..4] == "_";
    p4, p5, p6 := CloseX(cfg, p3, 5, true);
  }

  /** read() on `#( ... )` beyond a depth limit of 0: what the skip loop gives. */
  lemma SkippedArrayValue(cfg: Config, p2: PState, p3: PState, v: Value, q: PState, q2: PState)
    requires cfg.depth == 0
    requires Ready(cfg, p2) && p2.tok == ArrayStart && p2.lex.line == 0
    requires Ready(cfg, p3) && Advance(cfg, p2) == Ok(p3) && p3.tok != CloseParen
    requires SkippedArray(cfg, 1, p3) == Ok((v, q)) && WithLine(v, 0) == v
    requires Advance(cfg, q) == Ok(q2)
    ensures ParseValue(cfg, 0, p2) == Ok((v, q2))
  {
    assert ParseArrayBody(cfg, 0, p2) == Ok((v, q));
  }

  /** read() on a list, within a depth limit of 0, whose one element read()
      gives as v. */
  lemma ListOfOne(cfg: Config, p1: PState, p2: PState, v: Value, q2: PState, end: PState)
    requires cfg.depth == 0
    requires Ready(cfg, p1) && p1.tok == OpenParen && p1.lex.line == 0
    requires Ready(cfg, p2) && Advance(cfg, p1) == Ok(p2) && p2.tok != CloseParen
    requires ParseValue(cfg, 0, p2) == Ok((v, q2)) && q2.tok == CloseParen
    requires Advance(cfg, q2) == Ok(end)
    ensures ParseValue(cfg, -1, p1) == Ok((Cons(v, Nil(0), 0), end))
  {
    assert ParseListTail(cfg, 0, q2, [v]) == Ok(([v], Nil(0), q2));
    assert Chain([v], Nil(0)) == Cons(v, Nil(0), 0) by {
      assert [v][1..] == [];
    }
    assert ParseListElems(cfg, 0, p2) == Ok((Cons(v, Nil(0), 0), q2));
    assert ParseListBody(cfg, -1, p1) == Ok((Cons(v, Nil(0), 0), q2));
  }

  /** read() on a list `( #( ... ) )` with a depth limit of 0 whose array,
      beyond the limit, the skip loop turns into v: the list of v alone. */
  lemma SkippedInList(cfg: Config, p1: PState, p2: PState, p3: PState, v: Value, q: PState,
                      q2: PState, end: PState)
    requires cfg.depth == 0
    requires Ready(cfg, p1) && p1.tok == OpenParen && p1.lex.line == 0
    requires Ready(cfg, p2) && Advance(cfg, p1) == Ok(p2) && p2.tok == ArrayStart && p2.lex.line == 0
    requires Ready(cfg, p3) && Advance(cfg, p2) == Ok(p3) && p3.tok != CloseParen
    requires SkippedArray(cfg, 1, p3) == Ok((v, q)) && WithLine(v, 0) == v
    requires Ready(cfg, q2) && Advance(cfg, q) == Ok(q2) && q2.tok == CloseParen
    requires Advance(cfg, q2) == Ok(end)
    ensures ParseValue(cfg, -1, p1) == Ok((Cons(v, Nil(0), 0), end))
  {
    SkippedArrayValue(cfg, p2, p3, v, q, q2);
    ListOfOne(cfg, p1, p2, v, q2, end);
  }

  /** With a depth limit of 0 the array inside the list lies beyond the limit;
      its content `_ "x"` is kept as the marker, and the list holds it. */
  lemma MarkerIsKept(input: string)
    requires input == "(#(_ \"x\"))"
    ensures ParseOne(input, false, 0) == Ok(Cons(MarkerX, Nil(0), 0))
  {
    var cfg, p1, p2, p3, p4, p5, p6 := MarkerTokens(input);
    ParserProperties.SkippedArrayKeepsMarker(cfg, 1, p3, p4, p5);
    SkippedInList(cfg, p1, p2, p3, MarkerX, p5, p6, Advance(cfg, p6).value);
  }

  /** The tokens of `(#(_ 5))` after `#(`. */
  lemma NoStringRest(cfg: Config, p2: PState) returns (p3: PState, p4: PState, p5: PState, p6: PState)
    requires cfg.buf == ['(', '#', '(', '_', ' ', '5', ')', ')', ' ']
    requires !cfg.useArrays && Ready(cfg, p2) && At(cfg.buf, p2.lex, 3)
    ensures Ready(cfg, p3) && Advance(cfg, p2) == Ok(p3) && p3.tok == SymbolToken && p3.lex.token == "_"
    ensures Ready(cfg, p4) && Advance(cfg, p3) == Ok(p4) && p4.tok == IntegerToken
    ensures Ready(cfg, p5) && Advance(cfg, p4) == Ok(p5) && p5.tok == CloseParen
    ensures Ready(cfg, p6) && Advance(cfg, p5) == Ok(p6) && p6.tok == CloseParen
    ensures Advance(cfg, p6).Ok? && Advance(cfg, p6).value.tok == TokenEof
  {
    var buf := cfg.buf;
    p3 := NextAtom(cfg, p2, 3, 4, false);
    assert buf[3..4] == "_";
    p4 := NextAtom(cfg, p3, 5, 6, true);
    assert buf[5..6] == "5";
    assert Classify("5") == IntegerToken by {
      assert IsDigitChar("5"[0]);
      assert "5"[..0] == [];
    }
    assert buf[6..] == [')', ')', ' '];
    p5, p6 := CloseTwo(cfg, p4, 6);
  }

  /** The tokens of `(#(_ 5))`: `(`, `#(`, `_`, the integer, two `)`, EOF. */
  lemma NoStringTokens(input: string)
    returns (cfg: Config, p1: PState, p2: PState, p3: PState, p4: PState, p5: PState, p6: PState)
    requires input == "(#(_ 5))"
    ensures cfg == ConfigFor(input, false, 0)
    ensures Ready(cfg, p1) && Start(cfg) == Ok(p1) && p1.tok == OpenParen && p1.lex.line == 0
    ensures Ready(cfg, p2) && Advance(cfg, p1) == Ok(p2) && p2.tok == ArrayStart && p2.lex.line == 0
    ensures Ready(cfg, p3) && Advance(cfg, p2) == Ok(p3) && p3.tok == SymbolToken && p3.lex.token == "_"
    ensures Ready(cfg, p4) && Advance(cfg, p3) == Ok(p4) && p4.tok == IntegerToken
    ensures Ready(cfg, p5) && Advance(cfg, p4) == Ok(p5) && p5.tok == CloseParen
    ensures Ready(cfg, p6) && Advance(cfg, p5) == Ok(p6) && p6.tok == CloseParen
    ensures Advance(cfg, p6).Ok? && Advance(cfg, p6).value.tok == TokenEof
  {
    cfg := ConfigFor(input, false, 0);
    var buf := cfg.buf;
    assert buf == ['(', '#', '(', '_', ' ', '5', ')', ')', ' '];
    p1, p2 := ListOfArray(cfg);
    p3, p4, p5, p6 := NoStringRest(cfg, p2);
  }

  /** `_` not followed by a string is no marker: the skipped array is Nil, and
      as the first element of the list it is kept. */
  lemma MarkerNeedsString(input: string)
    requires input == "(#(_ 5))"
    ensures ParseOne(input, false, 0) == Ok(Cons(Nil(0), Nil(0), 0))
  {
    var cfg, p1, p2, p3, p4, p5, p6 := NoStringTokens(input);
    assert SkippedArray(cfg, 1, p5) == Ok((Nil(0), p5));
    assert SkippedArray(cfg, 1, p4) == Ok((Nil(0), p5));
    assert SkippedArray(cfg, 1, p3) == Ok((Nil(0), p5));
    SkippedInList(cfg, p1, p2, p3, Nil(0), p5, p6, Advance(cfg, p6).value);
  }

  /** The tokens `a` and `_` of `(#(a _ "x"))`. */
  lemma LateMarkerMid(cfg: Config, p2: PState) returns (p3: PState, p4: PState)
    requires cfg.buf == ['(', '#', '(', 'a', ' ', '_', ' ', '"', 'x', '"', ')', ')', ' ']
    requires Ready(cfg, p2) && At(cfg.buf, p2.lex, 3)
    ensures Ready(cfg, p3) && Advance(cfg, p2) == Ok(p3) && p3.tok == SymbolToken && p3.lex.token == "a"
    ensures Ready(cfg, p4) && Advance(cfg, p3) == Ok(p4) && p4.tok == SymbolToken && p4.lex.token == "_"
    ensures At(cfg.buf, p4.lex, 6) && p4.lex.line == p2.lex.line
  {
    p3 := NextAtom(cfg, p2, 3, 4, false);
    assert cfg.buf[3..4] == "a";
    p4 := NextAtom(cfg, p3, 5, 6, true);
    assert cfg.buf[5..6] == "_";
  }

  /** The tokens of `(#(a _ "x"))`. */
  lemma LateMarkerTokens(input: string)
    returns (cfg: Config, p1: PState, p2: PState, p3: PState, p4: PState, p5: PState, p6: PState,
             p7: PState)
    requires input == "(#(a _ \"x\"))"
    ensures cfg == ConfigFor(input, false, 0)
    ensures Ready(cfg, p1) && Start(cfg) == Ok(p1) && p1.tok == OpenParen && p1.lex.line == 0
    ensures Ready(cfg, p2) && Advance(cfg, p1) == Ok(p2) && p2.tok == ArrayStart && p2.lex.line == 0
    ensures Ready(cfg, p3) && Advance(cfg, p2) == Ok(p3) && p3.tok == SymbolToken && p3.lex.token == "a"
    ensures Ready(cfg, p4) && Advance(cfg, p3) == Ok(p4) && p4.tok == SymbolToken && p4.lex.token == "_"
    ensures Ready(cfg, p5) && Advance(cfg, p4) == Ok(p5) && p5.tok == StringToken && p5.lex.token == "x"
    ensures Ready(cfg, p6) && Advance(cfg, p5) == Ok(p6) && p6.tok == CloseParen
    ensures Ready(cfg, p7) && Advance(cfg, p6) == Ok(p7) && p7.tok == CloseParen
    ensures Advance(cfg, p7).Ok? && Advance(cfg, p7).value.tok == TokenEof
  {
    cfg := ConfigFor(input, false, 0);
    var buf := cfg.buf;
    assert buf == ['(', '#', '(', 'a', ' ', '_', ' ', '"', 'x', '"', ')', ')', ' '];
    p1, p2 := ListOfArray(cfg);
    p3, p4 := LateMarkerMid(cfg, p2);
    p5, p6, p7 := CloseX(cfg, p4, 7, true);
  }

  /** The skip loop passes over a token that is not `_` and then finds the
      marker `_ "x" )`. */
  lemma MarkerAfterOne(cfg: Config, p3: PState, p4: PState, p5: PState, p6: PState)
    requires cfg.depth == 0
    requires Ready(cfg, p3) && p3.tok == SymbolToken && p3.lex.token == "a"
    requires Ready(cfg, p4) && Advance(cfg, p3) == Ok(p4) && p4.tok == SymbolToken && p4.lex.token == "_"
    requires Ready(cfg, p5) && Advance(cfg, p4) == Ok(p5) && p5.tok == StringToken && p5.lex.token == "x"
    requires Ready(cfg, p6) && Advance(cfg, p5) == Ok(p6) && p6.tok == CloseParen
    ensures SkippedArray(cfg, 1, p3) == Ok((MarkerX, p6))
  {
    ParserProperties.SkippedArrayKeepsMarker(cfg, 1, p4, p5, p6);
  }

  /** The carve-out looks only at the last tokens before `)`: an array beyond
      the limit whose content merely ends in `_ "x"` is kept as the marker too. */
  lemma MarkerAtEndIsKept(input: string)
    requires input == "(#(a _ \"x\"))"
    ensures ParseOne(input, false, 0) == Ok(Cons(MarkerX, Nil(0), 0))
  {
    var cfg, p1, p2, p3, p4, p5, p6, p7 := LateMarkerTokens(input);
    MarkerAfterOne(cfg, p3, p4, p5, p6);
    SkippedInList(cfg, p1, p2, p3, MarkerX, p6, p7, Advance(cfg, p7).value);
  }

  // ----- the error paths of read() and from_stream() -----

  /** The tokens `a` and `.` of `(a . b c)`. */
  lemma DottedHead(cfg: Config, p1: PState) returns (p2: PState, p3: PState)
    requires cfg.buf == ['(', 'a', ' ', '.', ' ', 'b', ' ', 'c', ')', ' ']
    requires Ready(cfg, p1) && At(cfg.buf, p1.lex, 1)
    ensures Ready(cfg, p2) && Advance(cfg, p1) == Ok(p2) && p2.tok == SymbolToken
    ensures Ready(cfg, p3) && Advance(cfg, p2) == Ok(p3) && p3.tok == Dot
    ensures At(cfg.buf, p3.lex, 4) && p3.lex.line == p1.lex.line
  {
    p2 := NextAtom(cfg, p1, 1, 2, false);
    p3 := NextAtom(cfg, p2, 3, 4, true);
    assert cfg.buf[3..4] == ".";
    ClassifyExamples();
  }

  /** The tokens `b` and `c` of `(a . b c)`. */
  lemma DottedTail(cfg: Config, p3: PState) returns (p4: PState, p5: PState)
    requires cfg.buf == ['(', 'a', ' ', '.', ' ', 'b', ' ', 'c', ')', ' ']
    requires Ready(cfg, p3) && At(cfg.buf, p3.lex, 4)
    ensures Ready(cfg, p4) && Advance(cfg, p3) == Ok(p4) && p4.tok == SymbolToken
    ensures Ready(cfg, p5) && Advance(cfg, p4) == Ok(p5) && p5.tok == SymbolToken
    ensures p5.lex.line == p3.lex.line
  {
    p4 := NextAtom(cfg, p3, 5, 6, true);
    p5 := NextAtom(cfg, p4, 7, 8, true);
  }

  /** The tokens of `(a . b c)` up to `c`. */
  lemma DottedTokens(input: string)
    returns (cfg: Config, p1: PState, p2: PState, p3: PState, p4: PState, p5: PState)
    requires input == "(a . b c)"
    ensures cfg == ConfigFor(input, false, -1)
    ensures Ready(cfg, p1) && Start(cfg) == Ok(p1) && p1.tok == OpenParen
    ensures Ready(cfg, p2) && Advance(cfg, p1) == Ok(p2) && p2.tok == SymbolToken
    ensures Ready(cfg, p3) && Advance(cfg, p2) == Ok(p3) && p3.tok == Dot
    ensures Ready(cfg, p4) && Advance(cfg, p3) == Ok(p4) && p4.tok == SymbolToken
    ensures Ready(cfg, p5) && Advance(cfg, p4) == Ok(p5) && p5.tok == SymbolToken && p5.lex.line == 0
  {
    cfg := ConfigFor(input, false, -1);
    var buf := cfg.buf;
    assert buf == ['(', 'a', ' ', '.', ' ', 'b', ' ', 'c', ')', ' '];
    p1 := NextParen(cfg, Opening(cfg), 0, false);
    p2, p3 := DottedHead(cfg, p1);
    p4, p5 := DottedTail(cfg, p3);
  }

  /** read() on `( SYMBOL . SYMBOL SYMBOL`: "Expected ')'" on the line of the
      third symbol. */
  lemma DottedParse(cfg: Config, p1: PState, p2: PState, p3: PState, p4: PState, p5: PState)
    requires cfg.depth == -1
    requires Ready(cfg, p1) && p1.tok == OpenParen
    requires Ready(cfg, p2) && Advance(cfg, p1) == Ok(p2) && p2.tok == SymbolToken
    requires Ready(cfg, p3) && Advance(cfg, p2) == Ok(p3) && p3.tok == Dot
    requires Ready(cfg, p4) && Advance(cfg, p3) == Ok(p4) && p4.tok == SymbolToken
    requires Ready(cfg, p5) && Advance(cfg, p4) == Ok(p5) && p5.tok == SymbolToken
    ensures ParseValue(cfg, -1, p1) == Err(Error(p5.lex.line, ExpectedClose))
  {
    var e := Error(p5.lex.line, ExpectedClose);
    assert ParseValue(cfg, 0, p2) == Ok((Symbol(p2.lex.token, p2.lex.line), p3));
    assert ParseValue(cfg, 0, p4) == Ok((Symbol(p4.lex.token, p4.lex.line), p5));
    assert ParseListTail(cfg, 0, p3, [Symbol(p2.lex.token, p2.lex.line)]) == Err(e);
    assert ParseListElems(cfg, 0, p2) == Err(e);
    assert ParseListBody(cfg, -1, p1) == Err(e);
  }

  /** After the dotted tail `. b` only `)` may follow: `(a . b c)` fails with
      "Expected ')'" on the line of the token that follows instead. */
  lemma DottedTailNeedsClose(input: string)
    requires input == "(a . b c)"
    ensures ParseOne(input, false, -1) == Err(Error(0, ExpectedClose))
  {
    var cfg, p1, p2, p3, p4, p5 := DottedTokens(input);
    DottedParse(cfg, p1, p2, p3, p4, p5);
  }

  /** The first token of a one-token input, and EOF after it. */
  lemma OneToken(input: string, j: nat) returns (cfg: Config, p1: PState)
    requires input != [] && j == |input| && input[0] != '(' && input[0] != ')' && input[0] != '"'
    requires input[0] != ';' && input[0] != '#' && !IsSpaceChar(input[0])
    requires forall k :: 0 < k < j ==> !IsSpaceChar(input[k]) && !IsDelimChar(input[k])
    ensures cfg == ConfigFor(input, false, -1) && Ready(cfg, p1) && Start(cfg) == Ok(p1)
    ensures p1.tok == (if StartsNumber(input[0]) then Classify(input) else SymbolToken)
    ensures p1.lex.token == input && p1.lex.line == 0
    ensures Advance(cfg, p1).Ok? && Advance(cfg, p1).value.tok == TokenEof
  {
    cfg := ConfigFor(input, false, -1);
    var buf := cfg.buf;
    assert buf[0] == input[0] && buf[j] == ' ' && buf[0..j] == input;
    p1 := NextAtom(cfg, Opening(cfg), 0, j, false);
    NextEnd(cfg, p1, j);
  }

  /** A value cannot start with `)`: "Unexpected ')'". */
  lemma StrayClose(input: string)
    requires input == ")"
    ensures ParseOne(input, false, -1) == Err(Error(0, UnexpectedClose))
  {
    var cfg := ConfigFor(input, false, -1);
    assert cfg.buf == [')', ' '];
    var p1 := NextParen(cfg, Opening(cfg), 0, false);
    assert ParseValue(cfg, -1, p1) == Err(Error(0, UnexpectedClose));
  }

  /** A value cannot start with a lone `.`: "Unexpected '.'". */
  lemma StrayDot(input: string)
    requires input == "."
    ensures ParseOne(input, false, -1) == Err(Error(0, UnexpectedDot))
  {
    ClassifyExamples();
    var cfg, p1 := OneToken(input, 1);
    assert ParseValue(cfg, -1, p1) == Err(Error(0, UnexpectedDot));
  }

  /** The tokens of `a b`: two symbols on line 0. */
  lemma TwoValuesTokens(input: string) returns (cfg: Config, p1: PState, p2: PState)
    requires input == "a b"
    ensures cfg == ConfigFor(input, false, -1)
    ensures Ready(cfg, p1) && Start(cfg) == Ok(p1) && p1.tok == SymbolToken
    ensures Ready(cfg, p2) && Advance(cfg, p1) == Ok(p2) && p2.tok == SymbolToken && p2.lex.line == 0
  {
    cfg := ConfigFor(input, false, -1);
    assert cfg.buf == ['a', ' ', 'b', ' '];
    p1 := NextAtom(cfg, Opening(cfg), 0, 1, false);
    p2 := NextAtom(cfg, p1, 2, 3, true);
  }

  /** from_stream() reads one value and insists on EOF after it: `a b` fails
      with "trailing garbage in stream" on the line of the second value. */
  lemma TwoValues(input: string)
    requires input == "a b"
    ensures ParseOne(input, false, -1) == Err(Error(0, TrailingGarbage))
  {
    var cfg, p1, p2 := TwoValuesTokens(input);
    assert ParseValue(cfg, -1, p1) == Ok((Symbol(p1.lex.token, p1.lex.line), p2));
  }

  // ----- std::stoi in read() -----

  /** read() on an INTEGER token: the number std::stoi reads from its text. */
  lemma IntegerParse(cfg: Config, p1: PState, n: int, end: PState)
    requires Ready(cfg, p1) && p1.tok == IntegerToken && Stoi(p1.lex.token, p1.lex.line) == Ok(n)
    requires Advance(cfg, p1) == Ok(end)
    ensures ParseValue(cfg, -1, p1) == Ok((Integer(n, p1.lex.line), end))
  {
  }

  /** `1-2` is an INTEGER token, and read() takes the number in front of it. */
  lemma IntegerPrefix(input: string)
    requires input == "1-2"
    ensures ParseOne(input, false, -1) == Ok(Integer(1, 0))
  {
    assert Classify(input) == IntegerToken && Stoi(input, 0) == Ok(1) by {
      ParserProperties.StoiReadsPrefix(0);
    }
    var cfg, p1 := OneToken(input, 3);
    IntegerParse(cfg, p1, 1, Advance(cfg, p1).value);
  }

  /** read() on an INTEGER token that std::stoi rejects: its error. */
  lemma IntegerFails(cfg: Config, p1: PState, e: Error)
    requires Ready(cfg, p1) && p1.tok == IntegerToken && Stoi(p1.lex.token, p1.lex.line) == Err(e)
    ensures ParseValue(cfg, -1, p1) == Err(e)
  {
  }

  /** `--5` is an INTEGER token too, but std::stoi finds no digit after the
      sign and read() fails. */
  lemma DoubleMinus(input: string)
    requires input == "--5"
    ensures ParseOne(input, false, -1) == Err(Error(0, InvalidInteger))
  {
    assert Classify(input) == IntegerToken && Stoi(input, 0) == Err(Error(0, InvalidInteger)) by {
      ParserProperties.StoiReadsPrefix(0);
    }
    var cfg, p1 := OneToken(input, 3);
    IntegerFails(cfg, p1, Error(0, InvalidInteger));
  }
}
