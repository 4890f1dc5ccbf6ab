/** operator<< of src/io.cpp read back by Parser::read of src/parser.cpp:
    without a depth limit and outside array mode, the text printed for a value
    parses to a value equal to it, for every value whose text the lexer can
    take apart again. */
module ReadBack {
  import opened Errors
  import opened Values
  import opened Lexing
  import opened Parsing
  import opened Printing
  import opened RoundTrip
  import opened ParserProperties

  // ----- which values read back -----

  /** A symbol's text that the lexer reads back as one SYMBOL token: not
      empty, no whitespace or delimiter in it, no `#` in front, and, when it
      starts like a number, not a number, a real or a dot after all. */
  predicate SymbolText(s: string) {
    && s != [] && s[0] != '#'
    && (forall k :: 0 <= k < |s| ==> !IsSpaceChar(s[k]) && !IsDelimChar(s[k]))
    && (StartsNumber(s[0]) ==> Classify(s) == SymbolToken)
  }

  /** The values whose text reads back: no Real (floating point is not
      modelled), no string holding a carriage return (the lexer drops it),
      only symbols as above, and no empty array (`#()` reads as Nil). */
  predicate Readable(v: Value)
    decreases v
  {
    match v
    case Nil(_) => true
    case Boolean(_, _) => true
    case Integer(n, _) => FitsInt(n)
    case Real(_, _) => false
    case String(s, _) => '\r' !in s
    case Symbol(s, _) => SymbolText(s)
    case Cons(a, d, _) => Readable(a) && Readable(d)
    case Array(es, _) => es != [] && forall k :: 0 <= k < |es| ==> Readable(es[k])
  }

  // ----- the text in the buffer -----

  /** The buffer holds t from position p on. */
  predicate Holds(buf: seq<char>, p: nat, t: string) {
    p + |t| <= |buf| && buf[p .. p + |t|] == t
  }

  /** What follows a value inside a list, inside an array or at the end: a
      space or a closing parenthesis. */
  predicate Followed(buf: seq<char>, j: nat) {
    j < |buf| && (buf[j] == ' ' || buf[j] == ')')
  }

  /** No depth limit, and `(` opens a list. */
  predicate Setting(cfg: Config) {
    Sentinel(cfg.buf) && cfg.depth < 0 && !cfg.useArrays
  }

  /** s is the parser's state after the lexer, standing at L, reads one token. */
  predicate Lexed(cfg: Config, L: LexState, s: PState) {
    Consistent(cfg.buf, L) && Lex(cfg.buf, cfg.useArrays, L) == Ok((s.tok, s.lex))
  }

  /** What the do-while loop of operator<< writes after the head of a pair
      whose tail is c: nothing for Nil, else a space and the rest. */
  function TailText(c: Value): string {
    if c.Nil? then "" else " " + Rest(c)
  }

  lemma HoldsSplit(buf: seq<char>, p: nat, a: string, b: string)
    requires Holds(buf, p, a + b)
    ensures Holds(buf, p, a) && Holds(buf, p + |a|, b)
  {
    var w := buf[p .. p + |a + b|];
    assert buf[p .. p + |a|] == w[..|a|];
    assert buf[p + |a| .. p + |a| + |b|] == w[|a|..];
  }

  lemma HoldsAt(buf: seq<char>, p: nat, t: string, k: nat)
    requires Holds(buf, p, t) && k < |t|
    ensures buf[p + k] == t[k]
  {
    assert buf[p .. p + |t|][k] == buf[p + k];
  }

  // ----- single tokens -----

  /** A word of the lexer's default case from i to j, followed by a space or
      `)`: one token whose text is the word, classified as getNextToken()
      does. */
  lemma AtomReadsBack(cfg: Config, L: LexState, i: nat, t: string, j: nat) returns (s: PState)
    requires Setting(cfg) && Consistent(cfg.buf, L) && At(cfg.buf, L, i)
    requires j == i + |t| && Holds(cfg.buf, i, t) && Followed(cfg.buf, j) && t != [] && t[0] != '#'
    requires forall k :: 0 <= k < |t| ==> !IsSpaceChar(t[k]) && !IsDelimChar(t[k])
    ensures Lexed(cfg, L, s) && Ready(cfg, s) && At(cfg.buf, s.lex, j)
    ensures s.lex.token == t && s.tok == if StartsNumber(t[0]) then Classify(t) else SymbolToken
  {
    var buf := cfg.buf;
    HoldsAt(buf, i, t, 0);
    forall k | i < k < j ensures !IsSpaceChar(buf[k]) && !IsDelimChar(buf[k]) {
      HoldsAt(buf, i, t, k - i);
    }
    var after := LexAtom(buf, cfg.useArrays, L, i, j);
    s := PState(after, if StartsNumber(t[0]) then Classify(t) else SymbolToken);
  }

  /** `#t` or `#f`, followed by a space or `)`. */
  lemma BooleanToken(cfg: Config, L: LexState, i: nat, b: bool, j: nat) returns (s: PState)
    requires Setting(cfg) && Consistent(cfg.buf, L) && At(cfg.buf, L, i)
    requires j == i + 2 && Holds(cfg.buf, i, if b then "#t" else "#f") && Followed(cfg.buf, j)
    ensures Lexed(cfg, L, s) && Ready(cfg, s) && At(cfg.buf, s.lex, j)
    ensures s.tok == if b then TrueToken else FalseToken
  {
    var buf := cfg.buf;
    var t := if b then "#t" else "#f";
    HoldsAt(buf, i, t, 0);
    HoldsAt(buf, i, t, 1);
    var after := LexHash(buf, cfg.useArrays, L, i, j);
    assert buf[i + 1 .. j] == [t[1]];
    s := PState(after, if b then TrueToken else FalseToken);
  }

  /** `#(`: the start of an array. */
  lemma ArrayStartToken(cfg: Config, L: LexState, i: nat, j: nat) returns (s: PState)
    requires Setting(cfg) && Consistent(cfg.buf, L) && At(cfg.buf, L, i)
    requires j == i + 2 && Holds(cfg.buf, i, "#(") && j < |cfg.buf|
    ensures Lexed(cfg, L, s) && Ready(cfg, s) && At(cfg.buf, s.lex, j) && s.tok == ArrayStart
  {
    var buf := cfg.buf;
    HoldsAt(buf, i, "#(", 0);
    HoldsAt(buf, i, "#(", 1);
    var after := LexHash(buf, cfg.useArrays, L, i, i + 1);
    s := PState(after, ArrayStart);
  }

  /** A quoted string without a carriage return, from i to j. */
  lemma QuotedToken(cfg: Config, L: LexState, i: nat, str: string, j: nat) returns (s: PState)
    requires Setting(cfg) && Consistent(cfg.buf, L) && At(cfg.buf, L, i) && '\r' !in str
    requires j == i + |Escape(str)| && Holds(cfg.buf, i, Escape(str)) && j < |cfg.buf|
    ensures Lexed(cfg, L, s) && Ready(cfg, s) && At(cfg.buf, s.lex, j) && s.tok == StringToken
    ensures s.lex.token == str
  {
    LexEscaped(cfg.buf, cfg.useArrays, L, i, str);
    var r := Lex(cfg.buf, cfg.useArrays, L).value;
    s := PState(r.1, StringToken);
  }

  /** `(` or `)`. */
  lemma ParenToken(cfg: Config, L: LexState, i: nat, j: nat) returns (s: PState)
    requires Setting(cfg) && Consistent(cfg.buf, L) && At(cfg.buf, L, i)
    requires j == i + 1 && (cfg.buf[i] == '(' || cfg.buf[i] == ')')
    ensures Lexed(cfg, L, s) && Ready(cfg, s) && At(cfg.buf, s.lex, j)
    ensures s.tok == if cfg.buf[i] == '(' then OpenParen else CloseParen
  {
    LexParen(cfg.buf, cfg.useArrays, L, i);
    s := PState(StepChar(cfg.buf, L.(token := [])), if cfg.buf[i] == '(' then OpenParen else CloseParen);
  }

  // ----- what read() makes of a token -----

  /** read()'s switch, from the token s, gives d and stops on last. */
  predicate Reads(cfg: Config, cur: int, s: PState, d: Value, last: PState) {
    Ready(cfg, s) && ParseDatum(cfg, cur, s) == Ok((d, last))
  }

  /** The keep loop of a list, from the token s with acc read, adds es and
      the tail and stops on last. */
  predicate TailReads(cfg: Config, level: int, s: PState, acc: seq<Value>, es: seq<Value>, tail: Value, last: PState) {
    Ready(cfg, s) && ParseListTail(cfg, level, s, acc) == Ok((acc + es, tail, last))
  }

  /** The do-while loop of an array, from the token s with acc read, adds es
      and stops on last. */
  predicate ItemsRead(cfg: Config, level: int, s: PState, acc: seq<Value>, es: seq<Value>, last: PState) {
    Ready(cfg, s) && ParseArrayElems(cfg, level, s, acc) == Ok((acc + es, last))
  }

  /** Whitespace in front of a token changes nothing. */
  lemma SpaceBefore(cfg: Config, L: LexState, s: PState)
    requires Consistent(cfg.buf, L) && IsSpace(L.c) && Lexed(cfg, StepChar(cfg.buf, L), s)
    ensures Lexed(cfg, L, s)
  {
    LexSkipsSpace(cfg.buf, cfg.useArrays, L);
  }

  // ----- atoms -----

  lemma NilReadsBack(cfg: Config, cur: int, L: LexState, i: nat, v: Value, t: string, j: nat)
    returns (s: PState, d: Value, last: PState)
    requires v.Nil?
    requires Setting(cfg) && Consistent(cfg.buf, L) && At(cfg.buf, L, i)
    requires t == Print(v) && j == i + |t| && Holds(cfg.buf, i, t) && Followed(cfg.buf, j)
    ensures Lexed(cfg, L, s) && Ready(cfg, s) && s.tok != CloseParen && s.tok != Dot
    ensures Reads(cfg, cur, s, d, last)
    ensures Ready(cfg, last) && At(cfg.buf, last.lex, j)
    ensures Strip(d) == Strip(v)
  {
    assert t == "()";
    HoldsAt(cfg.buf, i, t, 0);
    HoldsAt(cfg.buf, i, t, 1);
    s := ParenToken(cfg, L, i, i + 1);
    last := ParenToken(cfg, s.lex, i + 1, j);
    d := Nil(0);
    assert Advance(cfg, s) == Ok(last);
  }

  lemma BooleanReadsBack(cfg: Config, cur: int, L: LexState, i: nat, v: Value, t: string, j: nat)
    returns (s: PState, d: Value, last: PState)
    requires v.Boolean?
    requires Setting(cfg) && Consistent(cfg.buf, L) && At(cfg.buf, L, i)
    requires t == Print(v) && j == i + |t| && Holds(cfg.buf, i, t) && Followed(cfg.buf, j)
    ensures Lexed(cfg, L, s) && Ready(cfg, s) && s.tok != CloseParen && s.tok != Dot
    ensures Reads(cfg, cur, s, d, last)
    ensures Ready(cfg, last) && At(cfg.buf, last.lex, j)
    ensures Strip(d) == Strip(v)
  {
    assert t == if v.b then "#t" else "#f";
    s := BooleanToken(cfg, L, i, v.b, j);
    last := s;
    d := Boolean(v.b, 0);
  }

  lemma IntegerReadsBack(cfg: Config, cur: int, L: LexState, i: nat, v: Value, t: string, j: nat)
    returns (s: PState, d: Value, last: PState)
    requires v.Integer? && FitsInt(v.n)
    requires Setting(cfg) && Consistent(cfg.buf, L) && At(cfg.buf, L, i)
    requires t == Print(v) && j == i + |t| && Holds(cfg.buf, i, t) && Followed(cfg.buf, j)
    ensures Lexed(cfg, L, s) && Ready(cfg, s) && s.tok != CloseParen && s.tok != Dot
    ensures Reads(cfg, cur, s, d, last)
    ensures Ready(cfg, last) && At(cfg.buf, last.lex, j)
    ensures Strip(d) == Strip(v)
  {
    assert t == IntText(v.n);
    IntTextAtom(v.n);
    s := AtomReadsBack(cfg, L, i, t, j);
    IntTextStoi(v.n, s.lex.line);
    IntegerDatum(cfg, cur, s, v.n);
    last := s;
    d := Integer(v.n, 0);
  }

  /** read() on an INTEGER token whose text std::stoi reads as n. */
  lemma IntegerDatum(cfg: Config, cur: int, s: PState, n: int)
    requires Ready(cfg, s) && s.tok == IntegerToken && Stoi(s.lex.token, s.lex.line) == Ok(n)
    ensures Reads(cfg, cur, s, Integer(n, 0), s)
  {
  }

  /** std::stoi reads the printed text of an `int` back as that `int`. */
  lemma IntTextStoi(n: int, line: int)
    requires FitsInt(n)
    ensures Stoi(IntText(n), line) == Ok(n)
  {
    var t := IntText(n);
    IntTextReadsBack(n);
    if n < 0 {
      forall k | 1 <= k < |t| ensures IsDigitChar(t[k]) {
        assert t[k] == NatText(-n)[k - 1];
      }
    } else {
      assert t == NatText(n);
    }
    StoiReadsDigits(t, line);
  }

  /** The text of an integer is one INTEGER token. */
  lemma IntTextAtom(n: int)
    ensures var t := IntText(n);
      && t != [] && t[0] != '#' && StartsNumber(t[0]) && Classify(t) == IntegerToken
      && forall k :: 0 <= k < |t| ==> !IsSpaceChar(t[k]) && !IsDelimChar(t[k])
  {
    IntTextReadsBack(n);
    IntTextChars(n);
  }

  /** The text of an integer is digits after an optional minus sign. */
  lemma IntTextChars(n: int)
    ensures forall k :: 0 <= k < |IntText(n)| ==> IsDigitChar(IntText(n)[k]) || IntText(n)[k] == '-'
  {
    if n < 0 {
      var ds := NatText(-n);
      forall k | 0 < k < |IntText(n)| ensures IsDigitChar(IntText(n)[k]) {
        assert IntText(n)[k] == ds[k - 1];
      }
    }
  }

  lemma StringReadsBack(cfg: Config, cur: int, L: LexState, i: nat, v: Value, t: string, j: nat)
    returns (s: PState, d: Value, last: PState)
    requires v.String? && '\r' !in v.str
    requires Setting(cfg) && Consistent(cfg.buf, L) && At(cfg.buf, L, i)
    requires t == Print(v) && j == i + |t| && Holds(cfg.buf, i, t) && Followed(cfg.buf, j)
    ensures Lexed(cfg, L, s) && Ready(cfg, s) && s.tok != CloseParen && s.tok != Dot
    ensures Reads(cfg, cur, s, d, last)
    ensures Ready(cfg, last) && At(cfg.buf, last.lex, j)
    ensures Strip(d) == Strip(v)
  {
    s := QuotedToken(cfg, L, i, v.str, j);
    last := s;
    d := String(v.str, 0);
  }

  lemma SymbolReadsBack(cfg: Config, cur: int, L: LexState, i: nat, v: Value, t: string, j: nat)
    returns (s: PState, d: Value, last: PState)
    requires v.Symbol? && SymbolText(v.str)
    requires Setting(cfg) && Consistent(cfg.buf, L) && At(cfg.buf, L, i)
    requires t == Print(v) && j == i + |t| && Holds(cfg.buf, i, t) && Followed(cfg.buf, j)
    ensures Lexed(cfg, L, s) && Ready(cfg, s) && s.tok != CloseParen && s.tok != Dot
    ensures Reads(cfg, cur, s, d, last)
    ensures Ready(cfg, last) && At(cfg.buf, last.lex, j)
    ensures Strip(d) == Strip(v)
  {
    assert t == v.str;
    s := AtomReadsBack(cfg, L, i, t, j);
    last := s;
    d := Symbol(v.str, 0);
  }

  // ----- values -----

  /** read() on t, the text of a readable value v from i to j, followed by a
      space or `)`: its first token leads read()'s switch to a value that
      equals v, and leaves the lexer on the character at j. */
  lemma {:induction false} DatumReadsBack(cfg: Config, cur: int, L: LexState, i: nat, v: Value, t: string, j: nat)
    returns (s: PState, d: Value, last: PState)
    requires Readable(v)
    requires Setting(cfg) && Consistent(cfg.buf, L) && At(cfg.buf, L, i)
    requires t == Print(v) && j == i + |t| && Holds(cfg.buf, i, t) && Followed(cfg.buf, j)
    ensures Lexed(cfg, L, s) && Ready(cfg, s) && s.tok != CloseParen && s.tok != Dot
    ensures Reads(cfg, cur, s, d, last)
    ensures Ready(cfg, last) && At(cfg.buf, last.lex, j)
    ensures Strip(d) == Strip(v)
    decreases v, 2
  {
    match v
    case Nil(_) => s, d, last := NilReadsBack(cfg, cur, L, i, v, t, j);
    case Boolean(_, _) => s, d, last := BooleanReadsBack(cfg, cur, L, i, v, t, j);
    case Integer(_, _) => s, d, last := IntegerReadsBack(cfg, cur, L, i, v, t, j);
    case String(_, _) => s, d, last := StringReadsBack(cfg, cur, L, i, v, t, j);
    case Symbol(_, _) => s, d, last := SymbolReadsBack(cfg, cur, L, i, v, t, j);
    case Cons(_, _, _) => s, d, last := ListReadsBack(cfg, cur, L, i, v, t, j);
    case Array(_, _) => s, d, last := ArrayReadsBack(cfg, cur, L, i, v, t, j);
  }

  // ----- lists -----

  /** The text of a pair: `(`, its head, what follows the head, `)`. */
  lemma ListText(v: Value) returns (h: string, r: string)
    requires v.Cons?
    ensures h == Print(v.car) && r == TailText(v.cdr)
    ensures Print(v) == "(" + (h + (r + ")"))
  {
    h, r := Print(v.car), TailText(v.cdr);
  }

  /** What follows the head of a pair starts with a space, or is `)` alone. */
  lemma TailStart(c: Value, r: string)
    requires r == TailText(c)
    ensures (r + ")")[0] == if c.Nil? then ')' else ' '
    ensures c.Nil? ==> r == ""
  {
  }

  /** Where the pieces of the text t of a pair lie in buf: `(` at i, the
      head from i1 to q, what follows it from q on. */
  lemma ListPieces(buf: seq<char>, i: nat, v: Value, t: string, j: nat) returns (h: string, r: string, i1: nat, q: nat)
    requires v.Cons? && Readable(v) && t == Print(v) && Holds(buf, i, t) && j == i + |t|
    ensures buf[i] == '(' && Readable(v.car) && Readable(v.cdr)
    ensures i1 == i + 1 && q == i1 + |h| && j == q + |r| + 1
    ensures h == Print(v.car) && Holds(buf, i1, h) && Followed(buf, q)
    ensures r == TailText(v.cdr) && Holds(buf, q, r + ")")
  {
    h, r := ListText(v);
    i1, q := i + 1, i + 1 + |h|;
    HoldsSplit(buf, i, "(", h + (r + ")"));
    HoldsAt(buf, i, "(", 0);
    HoldsSplit(buf, i1, h, r + ")");
    TailStart(v.cdr, r);
    HoldsAt(buf, q, r + ")", 0);
  }

  /** The OPEN_PAREN case of read() on the text of a pair. */
  lemma {:induction false} ListReadsBack(cfg: Config, cur: int, L: LexState, i: nat, v: Value, t: string, j: nat)
    returns (s: PState, d: Value, last: PState)
    requires v.Cons? && Readable(v)
    requires Setting(cfg) && Consistent(cfg.buf, L) && At(cfg.buf, L, i)
    requires t == Print(v) && j == i + |t| && Holds(cfg.buf, i, t) && Followed(cfg.buf, j)
    ensures Lexed(cfg, L, s) && Ready(cfg, s) && s.tok != CloseParen && s.tok != Dot
    ensures Reads(cfg, cur, s, d, last)
    ensures Ready(cfg, last) && At(cfg.buf, last.lex, j)
    ensures Strip(d) == Strip(v)
    decreases v, 1
  {
    var h, r, i1, q := ListPieces(cfg.buf, i, v, t, j);
    s := ParenToken(cfg, L, i, i1);
    var s1, d1, last1 := DatumReadsBack(cfg, cur + 1, s.lex, i1, v.car, h, q);
    var w := WithLine(d1, s1.lex.line);
    var s2, es, tail, last2 := TailReadsBack(cfg, cur + 1, last1.lex, q, v.cdr, [w], r, j);
    ListParts(cfg, cur, s, s1, d1, last1, s2, es, tail, last2);
    d := Chain([w] + es, tail);
    last := last2;
    ChainCons(w, es, tail);
  }

  lemma ChainCons(w: Value, es: seq<Value>, tail: Value)
    ensures Chain([w] + es, tail) == Cons(w, Chain(es, tail), 0)
  {
    assert ([w] + es)[1..] == es;
  }

  /** The OPEN_PAREN case of read() put together from the first element and
      the keep loop after it. */
  lemma ListParts(cfg: Config, cur: int, s: PState, s1: PState, d1: Value, last1: PState,
                  s2: PState, es: seq<Value>, tail: Value, last2: PState)
    requires Setting(cfg) && Ready(cfg, s) && s.tok == OpenParen
    requires Lexed(cfg, s.lex, s1) && s1.tok != CloseParen && s1.tok != Dot
    requires Reads(cfg, cur + 1, s1, d1, last1)
    requires Lexed(cfg, last1.lex, s2)
    requires TailReads(cfg, cur + 1, s2, [WithLine(d1, s1.lex.line)], es, tail, last2)
    ensures Reads(cfg, cur, s, Chain([WithLine(d1, s1.lex.line)] + es, tail), last2)
  {
    var w := WithLine(d1, s1.lex.line);
    assert Advance(cfg, s) == Ok(s1);
    assert Advance(cfg, last1) == Ok(s2);
    assert ParseValue(cfg, cur + 1, s1) == Ok((w, s2));
    assert ParseListElems(cfg, cur + 1, s1) == Ok((Chain([w] + es, tail), last2));
    assert !TooDeep(cfg, cur + 1);
    assert ParseListContent(cfg, cur + 1, s1) == Ok((Chain([w] + es, tail), last2));
    assert ParseListBody(cfg, cur, s) == Ok((Chain([w] + es, tail), last2));
  }

  /** An empty rest: `)` at e. */
  lemma TailEnd(buf: seq<char>, e: nat, c: Value, r: string, j: nat)
    requires c.Nil? && r == TailText(c) && Holds(buf, e, r + ")") && j == e + |r| + 1
    ensures buf[e] == ')' && j == e + 1
  {
    TailStart(c, r);
    HoldsAt(buf, e, r + ")", 0);
  }

  /** A rest that goes on: a space at e, then from e1 on the text of Rest(c)
      and `)`. */
  lemma TailPieces(buf: seq<char>, e: nat, c: Value, r: string, j: nat) returns (rest: string, e1: nat)
    requires !c.Nil? && r == TailText(c) && Holds(buf, e, r + ")") && j == e + |r| + 1
    ensures buf[e] == ' ' && e1 == e + 1
    ensures rest == Rest(c) && Holds(buf, e1, rest + ")") && j == e1 + |rest| + 1
  {
    rest, e1 := Rest(c), e + 1;
    assert r + ")" == " " + (rest + ")");
    HoldsSplit(buf, e, " ", rest + ")");
    HoldsAt(buf, e, " ", 0);
  }

  /** The keep loop of a list on r, the text the do-while loop of operator<<
      writes after a head whose tail is c, and the closing parenthesis that
      ends at j: it reads elements and a tail that make up c again, and
      stops on the closing parenthesis. */
  lemma {:induction false} TailReadsBack(cfg: Config, level: int, L: LexState, e: nat, c: Value, acc: seq<Value>, r: string, j: nat)
    returns (s: PState, es: seq<Value>, tail: Value, last: PState)
    requires r == TailText(c) && Holds(cfg.buf, e, r + ")") && j == e + |r| + 1
    requires Setting(cfg) && Consistent(cfg.buf, L) && At(cfg.buf, L, e) && Readable(c)
    ensures Lexed(cfg, L, s)
    ensures TailReads(cfg, level, s, acc, es, tail, last)
    ensures Strip(Chain(es, tail)) == Strip(c)
    ensures Ready(cfg, last) && last.tok == CloseParen && At(cfg.buf, last.lex, j)
    decreases c, 4
  {
    if c.Nil? {
      TailEnd(cfg.buf, e, c, r, j);
      s := ParenToken(cfg, L, e, j);
      es, tail, last := [], Nil(0), s;
      assert acc + [] == acc;
      assert TailReads(cfg, level, s, acc, es, tail, last);
    } else {
      var rest, e1 := TailPieces(cfg.buf, e, c, r, j);
      var L1 := StepChar(cfg.buf, L);
      if c.Cons? {
        s, es, tail, last := PairReadsBack(cfg, level, L1, e1, c, acc, rest, j);
      } else {
        s, es, tail, last := DottedReadsBack(cfg, level, L1, e1, c, acc, rest, j);
      }
      SpaceBefore(cfg, L, s);
    }
  }

  /** The rest of a chain that goes on with the pair c: its head from e to
      q, then what follows it. */
  lemma PairPieces(buf: seq<char>, e: nat, c: Value, r: string, j: nat) returns (h: string, r2: string, q: nat)
    requires c.Cons? && Readable(c) && r == Rest(c) && Holds(buf, e, r + ")") && j == e + |r| + 1
    ensures Readable(c.car) && Readable(c.cdr)
    ensures h == Print(c.car) && Holds(buf, e, h) && q == e + |h| && Followed(buf, q)
    ensures r2 == TailText(c.cdr) && Holds(buf, q, r2 + ")") && j == q + |r2| + 1
  {
    h, r2 := Print(c.car), TailText(c.cdr);
    q := e + |h|;
    assert r + ")" == h + (r2 + ")");
    HoldsSplit(buf, e, h, r2 + ")");
    TailStart(c.cdr, r2);
    HoldsAt(buf, q, r2 + ")", 0);
  }

  /** A further element of a list and whatever follows it. */
  lemma {:induction false} PairReadsBack(cfg: Config, level: int, L: LexState, e: nat, c: Value, acc: seq<Value>, r: string, j: nat)
    returns (s: PState, es: seq<Value>, tail: Value, last: PState)
    requires c.Cons? && r == Rest(c) && Holds(cfg.buf, e, r + ")") && j == e + |r| + 1
    requires Setting(cfg) && Consistent(cfg.buf, L) && At(cfg.buf, L, e) && Readable(c)
    ensures Lexed(cfg, L, s)
    ensures TailReads(cfg, level, s, acc, es, tail, last)
    ensures Strip(Chain(es, tail)) == Strip(c)
    ensures Ready(cfg, last) && last.tok == CloseParen && At(cfg.buf, last.lex, j)
    decreases c, 1
  {
    var h, r2, q := PairPieces(cfg.buf, e, c, r, j);
    var d1, last1;
    s, d1, last1 := DatumReadsBack(cfg, level, L, e, c.car, h, q);
    var w := WithLine(d1, s.lex.line);
    var s2, es2, tail2, last2 := TailReadsBack(cfg, level, last1.lex, q, c.cdr, acc + [w], r2, j);
    PairParts(cfg, level, s, d1, last1, s2, acc, es2, tail2, last2);
    es, tail, last := [w] + es2, tail2, last2;
    ChainCons(w, es2, tail2);
  }

  /** One more element for the keep loop of a list. */
  lemma PairParts(cfg: Config, level: int, s: PState, d1: Value, last1: PState,
                  s2: PState, acc: seq<Value>, es2: seq<Value>, tail: Value, last: PState)
    requires Setting(cfg) && s.tok != CloseParen && s.tok != Dot
    requires Reads(cfg, level, s, d1, last1) && Lexed(cfg, last1.lex, s2)
    requires TailReads(cfg, level, s2, acc + [WithLine(d1, s.lex.line)], es2, tail, last)
    ensures TailReads(cfg, level, s, acc, [WithLine(d1, s.lex.line)] + es2, tail, last)
  {
    var w := WithLine(d1, s.lex.line);
    assert Advance(cfg, last1) == Ok(s2);
    assert ParseValue(cfg, level, s) == Ok((w, s2));
    assert (acc + [w]) + es2 == acc + ([w] + es2);
  }

  /** The rest of a chain that ends in the atom or array c: `.` at e, a space
      at e1, c's text from e2 to k, `)` at k. */
  lemma DottedPieces(buf: seq<char>, e: nat, c: Value, r: string, j: nat) returns (p: string, e1: nat, e2: nat, k: nat)
    requires !c.Cons? && !c.Nil? && r == Rest(c) && Holds(buf, e, r + ")") && j == e + |r| + 1
    ensures Holds(buf, e, ".") && e1 == e + 1 && Followed(buf, e1) && buf[e1] == ' '
    ensures e2 == e1 + 1 && p == Print(c) && Holds(buf, e2, p)
    ensures k == e2 + |p| && Followed(buf, k) && buf[k] == ')' && j == k + 1
  {
    p := Print(c);
    e1, e2, k := e + 1, e + 2, e + 2 + |p|;
    assert r + ")" == "." + (" " + (p + ")"));
    HoldsSplit(buf, e, ".", " " + (p + ")"));
    HoldsSplit(buf, e1, " ", p + ")");
    HoldsSplit(buf, e2, p, ")");
    HoldsAt(buf, e1, " " + (p + ")"), 0);
    HoldsAt(buf, k, ")", 0);
  }

  /** The tail after " . " and the closing parenthesis. */
  lemma {:induction false} DottedReadsBack(cfg: Config, level: int, L: LexState, e: nat, c: Value, acc: seq<Value>, r: string, j: nat)
    returns (s: PState, es: seq<Value>, tail: Value, last: PState)
    requires !c.Cons? && !c.Nil? && r == Rest(c) && Holds(cfg.buf, e, r + ")") && j == e + |r| + 1
    requires Setting(cfg) && Consistent(cfg.buf, L) && At(cfg.buf, L, e) && Readable(c)
    ensures Lexed(cfg, L, s)
    ensures TailReads(cfg, level, s, acc, es, tail, last)
    ensures Strip(Chain(es, tail)) == Strip(c)
    ensures Ready(cfg, last) && last.tok == CloseParen && At(cfg.buf, last.lex, j)
    decreases c, 3
  {
    var p, e1, e2, k := DottedPieces(cfg.buf, e, c, r, j);
    assert Classify(".") == Dot;
    s := AtomReadsBack(cfg, L, e, ".", e1);
    var L3 := StepChar(cfg.buf, s.lex);
    var s1, d1, last1 := DatumReadsBack(cfg, level, L3, e2, c, p, k);
    last := ParenToken(cfg, last1.lex, k, j);
    tail := WithLine(d1, s1.lex.line);
    es := [];
    DottedParts(cfg, level, s, s1, d1, last1, last, acc);
  }

  /** `. value )` for the keep loop of a list. */
  lemma DottedParts(cfg: Config, level: int, s: PState, s1: PState, d1: Value, last1: PState, last: PState, acc: seq<Value>)
    requires Setting(cfg) && Ready(cfg, s) && s.tok == Dot && IsSpace(s.lex.c)
    requires Lexed(cfg, StepChar(cfg.buf, s.lex), s1) && Reads(cfg, level, s1, d1, last1)
    requires Lexed(cfg, last1.lex, last) && last.tok == CloseParen
    ensures TailReads(cfg, level, s, acc, [], WithLine(d1, s1.lex.line), last)
  {
    SpaceBefore(cfg, s.lex, s1);
    assert Advance(cfg, s) == Ok(s1);
    assert Advance(cfg, last1) == Ok(last);
    assert ParseValue(cfg, level, s1) == Ok((WithLine(d1, s1.lex.line), last));
    assert acc + [] == acc;
  }

  // ----- arrays -----

  /** The text of an array: `#(` at i, its elements from i2 on, `)`. */
  lemma ArrayPieces(buf: seq<char>, i: nat, v: Value, t: string, j: nat) returns (items: string, i2: nat)
    requires v.Array? && t == Print(v) && Holds(buf, i, t) && j == i + |t|
    ensures Holds(buf, i, "#(") && i2 == i + 2 && i2 < |buf|
    ensures items == PrintItems(v, 0) && Holds(buf, i2, items + ")") && j == i2 + |items| + 1
  {
    items, i2 := PrintItems(v, 0), i + 2;
    assert t == "#(" + (items + ")");
    HoldsSplit(buf, i, "#(", items + ")");
  }

  /** The ARRAY_START case of read() on the text of a non-empty array. */
  lemma {:induction false} ArrayReadsBack(cfg: Config, cur: int, L: LexState, i: nat, v: Value, t: string, j: nat)
    returns (s: PState, d: Value, last: PState)
    requires v.Array? && Readable(v)
    requires Setting(cfg) && Consistent(cfg.buf, L) && At(cfg.buf, L, i)
    requires t == Print(v) && j == i + |t| && Holds(cfg.buf, i, t) && Followed(cfg.buf, j)
    ensures Lexed(cfg, L, s) && Ready(cfg, s) && s.tok != CloseParen && s.tok != Dot
    ensures Reads(cfg, cur, s, d, last)
    ensures Ready(cfg, last) && At(cfg.buf, last.lex, j)
    ensures Strip(d) == Strip(v)
    decreases v, 1
  {
    var items, i2 := ArrayPieces(cfg.buf, i, v, t, j);
    s := ArrayStartToken(cfg, L, i, i2);
    var s1, es;
    s1, es, last := ItemsReadBack(cfg, cur + 1, s.lex, i2, v, 0, [], items, j);
    ArrayParts(cfg, cur, s, s1, es, last);
    d := Array(es, 0);
    assert Strip(d).elems == Strip(v).elems;
  }

  /** The ARRAY_START case of read() put together from the do-while loop. */
  lemma ArrayParts(cfg: Config, cur: int, s: PState, s1: PState, es: seq<Value>, last: PState)
    requires Setting(cfg) && Ready(cfg, s) && s.tok == ArrayStart
    requires Lexed(cfg, s.lex, s1) && s1.tok != CloseParen
    requires ItemsRead(cfg, cur + 1, s1, [], es, last)
    ensures Reads(cfg, cur, s, Array(es, 0), last)
  {
    assert Advance(cfg, s) == Ok(s1);
    assert !TooDeep(cfg, cur + 1) && [] + es == es;
    assert ParseArrayContent(cfg, cur + 1, s1) == Ok((Array(es, 0), last));
    assert ParseArrayBody(cfg, cur, s) == Ok((Array(es, 0), last));
  }

  /** The elements of an array from the k-th on: a space unless it is the
      first, the k-th element, then the ones after it. */
  lemma ItemsText(a: Value, k: nat, t: string) returns (h: string, more: string)
    requires a.Array? && k < |a.elems| && t == PrintItems(a, k)
    ensures h == Print(a.elems[k]) && more == PrintItems(a, k + 1)
    ensures t + ")" == (if k != 0 then " " else "") + (h + (more + ")"))
    ensures (more + ")")[0] == if k + 1 < |a.elems| then ' ' else ')'
    ensures k + 1 == |a.elems| ==> more == ""
  {
    h, more := Print(a.elems[k]), PrintItems(a, k + 1);
  }

  /** Where the pieces of t, the elements' text from the k-th on, lie in
      buf: a space at jj unless k is 0, the k-th element from p to q, the
      elements after it from q on. */
  lemma ItemPieces(buf: seq<char>, jj: nat, a: Value, k: nat, t: string, j: nat) returns (p: nat, h: string, q: nat, more: string)
    requires a.Array? && Readable(a) && k < |a.elems|
    requires t == PrintItems(a, k) && Holds(buf, jj, t + ")") && j == jj + |t| + 1
    ensures p == (if k != 0 then jj + 1 else jj) && (k != 0 ==> buf[jj] == ' ')
    ensures h == Print(a.elems[k]) && Readable(a.elems[k]) && Holds(buf, p, h)
    ensures q == p + |h| && Followed(buf, q)
    ensures more == PrintItems(a, k + 1) && Holds(buf, q, more + ")") && j == q + |more| + 1
    ensures k + 1 == |a.elems| ==> buf[q] == ')' && j == q + 1
  {
    h, more := ItemsText(a, k, t);
    p := if k != 0 then jj + 1 else jj;
    if k != 0 {
      HoldsSplit(buf, jj, " ", h + (more + ")"));
      HoldsAt(buf, jj, " ", 0);
    }
    HoldsSplit(buf, p, h, more + ")");
    q := p + |h|;
    HoldsAt(buf, q, more + ")", 0);
  }

  /** es are, one by one, the elements of the array a from the k-th on. */
  predicate SameItems(es: seq<Value>, a: Value, k: nat)
    requires a.Array?
  {
    |es| == |a.elems| - k && forall m :: 0 <= m < |es| ==> Strip(es[m]) == Strip(a.elems[k + m])
  }

  lemma SameItemsCons(w: Value, es: seq<Value>, a: Value, k: nat)
    requires a.Array? && k < |a.elems| && Strip(w) == Strip(a.elems[k]) && SameItems(es, a, k + 1)
    ensures SameItems([w] + es, a, k)
  {
    forall m | 0 <= m < |[w] + es| ensures Strip(([w] + es)[m]) == Strip(a.elems[k + m]) {
      if m > 0 {
        assert ([w] + es)[m] == es[m - 1];
      }
    }
  }

  /** The do-while loop of an array on t, the text of its elements from the
      k-th on, and the closing parenthesis that ends at j: it reads values
      equal to them, in order, and stops on the closing parenthesis. */
  lemma {:induction false} ItemsReadBack(cfg: Config, level: int, L: LexState, jj: nat, a: Value, k: nat, acc: seq<Value>, t: string, j: nat)
    returns (s: PState, es: seq<Value>, last: PState)
    requires Setting(cfg) && Consistent(cfg.buf, L) && At(cfg.buf, L, jj)
    requires a.Array? && Readable(a) && k < |a.elems|
    requires t == PrintItems(a, k) && Holds(cfg.buf, jj, t + ")") && j == jj + |t| + 1
    ensures Lexed(cfg, L, s) && s.tok != CloseParen
    ensures ItemsRead(cfg, level, s, acc, es, last)
    ensures SameItems(es, a, k)
    ensures Ready(cfg, last) && last.tok == CloseParen && At(cfg.buf, last.lex, j)
    decreases a, 0, |a.elems| - k
  {
    var p, h, q, more := ItemPieces(cfg.buf, jj, a, k, t, j);
    var L1 := if k != 0 then StepChar(cfg.buf, L) else L;
    var d1, last1;
    s, d1, last1 := DatumReadsBack(cfg, level, L1, p, a.elems[k], h, q);
    if k != 0 {
      SpaceBefore(cfg, L, s);
    }
    var w := WithLine(d1, s.lex.line);
    if k + 1 == |a.elems| {
      last := ParenToken(cfg, last1.lex, q, j);
      es := [w];
      LastItemParts(cfg, level, s, d1, last1, last, acc);
      SameItemsCons(w, [], a, k);
      assert [w] + [] == es;
    } else {
      var s2, es2, last2 := ItemsReadBack(cfg, level, last1.lex, q, a, k + 1, acc + [w], more, j);
      ItemParts(cfg, level, s, d1, last1, s2, acc, es2, last2);
      es, last := [w] + es2, last2;
      SameItemsCons(w, es2, a, k);
    }
  }

  /** The last element of an array, then `)`. */
  lemma LastItemParts(cfg: Config, level: int, s: PState, d1: Value, last1: PState, last: PState, acc: seq<Value>)
    requires Setting(cfg) && Reads(cfg, level, s, d1, last1)
    requires Lexed(cfg, last1.lex, last) && last.tok == CloseParen
    ensures ItemsRead(cfg, level, s, acc, [WithLine(d1, s.lex.line)], last)
  {
    assert Advance(cfg, last1) == Ok(last);
    assert ParseValue(cfg, level, s) == Ok((WithLine(d1, s.lex.line), last));
  }

  /** One element of an array, then more. */
  lemma ItemParts(cfg: Config, level: int, s: PState, d1: Value, last1: PState,
                  s2: PState, acc: seq<Value>, es2: seq<Value>, last: PState)
    requires Setting(cfg) && Reads(cfg, level, s, d1, last1)
    requires Lexed(cfg, last1.lex, s2) && s2.tok != CloseParen
    requires ItemsRead(cfg, level, s2, acc + [WithLine(d1, s.lex.line)], es2, last)
    ensures ItemsRead(cfg, level, s, acc, [WithLine(d1, s.lex.line)] + es2, last)
  {
    var w := WithLine(d1, s.lex.line);
    assert Advance(cfg, last1) == Ok(s2);
    assert ParseValue(cfg, level, s) == Ok((w, s2));
    assert (acc + [w]) + es2 == acc + ([w] + es2);
  }

  // ----- the round trip -----

  /** from_stream() on a value read from the first token up to the sentinel. */
  lemma OneParts(input: string, depth: int, s: PState, d: Value, last: PState)
    requires depth < 0
    requires Lexed(ConfigFor(input, false, depth), Initial(Buffer(input)), s)
    requires Reads(ConfigFor(input, false, depth), -1, s, d, last) && At(Buffer(input), last.lex, |input|)
    ensures ParseOne(input, false, depth) == Ok(WithLine(d, s.lex.line))
  {
    var cfg := ConfigFor(input, false, depth);
    assert Start(cfg) == Ok(s);
    LexTrailingSpace(cfg.buf, false, last.lex, |input|);
    var next := Lex(cfg.buf, false, last.lex).value;
    assert Advance(cfg, last) == Ok(PState(next.1, next.0));
    assert ParseValue(cfg, -1, s) == Ok((WithLine(d, s.lex.line), PState(next.1, next.0)));
  }

  /** Print then parse: from_stream() on the text operator<< writes for a
      readable value, without a depth limit and outside array mode, returns
      a value equal to it (operator==), and from_stream_many() returns that
      value alone. */
  lemma PrintThenParse(v: Value, depth: int)
    requires Readable(v) && depth < 0
    ensures ParseOne(Print(v), false, depth).Ok?
    ensures Equal(ParseOne(Print(v), false, depth).value, v)
    ensures ParseMany(Print(v), false, depth) == Ok([ParseOne(Print(v), false, depth).value])
  {
    var input := Print(v);
    var cfg := ConfigFor(input, false, depth);
    var buf := cfg.buf;
    assert buf[0 .. |input|] == input;
    var L := Initial(buf);
    var s, d, last := DatumReadsBack(cfg, -1, L, 0, v, input, |input|);
    var w := WithLine(d, s.lex.line);
    OneParts(input, depth, s, d, last);
    assert ParseOne(input, false, depth) == Ok(w);
    EqualIffSameStripped(w, v);
    ParseOneIffSingleMany(input, false, depth, w);
  }
}
