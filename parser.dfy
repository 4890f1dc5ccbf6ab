/** The recursive-descent parser of src/parser.cpp.

    The parser holds the current token (the lexer's last result) and the depth
    counter m_current_depth.  The functions below state what read() computes
    from a lexer state and a token; the class Parser at the end holds that
    state in fields and its methods, written with the loops of read(), are
    proved to follow the functions. */
module Parsing {
  import opened Errors
  import opened Values
  import opened Lexing

  /** What stays fixed during a parse: the lexer's buffer and array mode, and
      the depth limit m_depth (negative: no limit). */
  datatype Config = Config(buf: seq<char>, useArrays: bool, depth: int)

  /** The lexer's state together with the current token m_token. */
  datatype PState = PState(lex: LexState, tok: TokenType)

  /** The lexer state is consistent, and an EOF token means the lexer has run
      out of input: what every state the parser reaches satisfies. */
  predicate Ready(cfg: Config, s: PState) {
    Consistent(cfg.buf, s.lex) && (s.tok == TokenEof ==> s.lex.c == EndOfInput)
  }

  /** Lowered by every token the parser consumes. */
  function Measure(cfg: Config, s: PState): nat
    requires Ready(cfg, s)
  {
    2 * Rank(cfg.buf, s.lex) + (if s.tok == TokenEof then 0 else 1)
  }

  /** `m_token = m_lexer.get_next_token();` */
  function Advance(cfg: Config, s: PState): (r: Result<PState>)
    requires Ready(cfg, s)
    ensures r.Ok? ==> Ready(cfg, r.value) && Measure(cfg, r.value) <= Measure(cfg, s)
    ensures r.Ok? && s.tok != TokenEof ==> Measure(cfg, r.value) < Measure(cfg, s)
  {
    var l :- Lex(cfg.buf, cfg.useArrays, s.lex);
    Ok(PState(l.1, l.0))
  }

  /** The end of read(): fetch the token after the value just read. */
  function Finish(cfg: Config, v: Value, s: PState): (r: Result<(Value, PState)>)
    requires Ready(cfg, s)
    ensures r.Ok? ==> r.value.0 == v && Ready(cfg, r.value.1)
    ensures r.Ok? && s.tok != TokenEof ==> Measure(cfg, r.value.1) < Measure(cfg, s)
  {
    var s' :- Advance(cfg, s);
    Ok((v, s'))
  }

  /** The filter of lines 133, 146 and 228: a Nil read at exactly the depth
      limit is dropped. */
  predicate Keep(cfg: Config, level: int, v: Value) {
    cfg.depth < 0 || level != cfg.depth || !v.Nil?
  }

  /** A list or array opened at `level` is beyond the limit and is skipped. */
  predicate TooDeep(cfg: Config, level: int) {
    cfg.depth >= 0 && level > cfg.depth
  }

  /** read() with m_current_depth == cur: the value, stamped with the line the
      lexer was on when it began, and the state after its last token. */
  function ParseValue(cfg: Config, cur: int, s: PState): (r: Result<(Value, PState)>)
    requires Ready(cfg, s)
    ensures r.Ok? ==> Ready(cfg, r.value.1) && Measure(cfg, r.value.1) < Measure(cfg, s)
    ensures r.Ok? ==> r.value.0.line == s.lex.line
    decreases Measure(cfg, s), 2
  {
    var d :- ParseDatum(cfg, cur, s);
    Finish(cfg, WithLine(d.0, s.lex.line), d.1)
  }

  // ----- std::stoi, which read() applies to an INTEGER token -----

  /** The longest run of decimal digits at the front of t. */
  function DigitRun(t: string): (r: string)
    ensures r <= t
    ensures forall k :: 0 <= k < |r| ==> IsDigitChar(r[k])
    ensures |r| < |t| ==> !IsDigitChar(t[|r|])
  {
    if t != [] && IsDigitChar(t[0]) then [t[0]] + DigitRun(t[1..]) else []
  }

  /** t without the one sign character strtol accepts in front. */
  function Unsigned(t: string): string {
    if t != [] && (t[0] == '+' || t[0] == '-') then t[1..] else t
  }

  /** std::stoi in base 10: an optional sign, then as many digits as there are;
      what follows them is ignored.  No digit at all throws invalid_argument, a
      value outside `int` throws out_of_range. */
  function Stoi(t: string, line: int): (r: Result<int>)
    ensures r.Ok? ==> FitsInt(r.value)
    ensures r.Err? ==> r.error.line == line
    ensures r.Err? && r.error.cause == InvalidInteger <==> DigitRun(Unsigned(t)) == []
    ensures r.Err? ==> r.error.cause in {InvalidInteger, IntegerOutOfRange}
  {
    var ds := DigitRun(Unsigned(t));
    var n := if t != [] && t[0] == '-' then -DecimalValue(ds) else DecimalValue(ds);
    if ds == [] then Err(Error(line, InvalidInteger))
    else if !FitsInt(n) then Err(Error(line, IntegerOutOfRange))
    else Ok(n)
  }

  /** The switch of read() on the current token: the value, unstamped, and the
      state on its last token (the token itself for an atom, `)` for a list or
      an array). */
  function ParseDatum(cfg: Config, cur: int, s: PState): (r: Result<(Value, PState)>)
    requires Ready(cfg, s)
    ensures r.Ok? ==> Ready(cfg, r.value.1) && Measure(cfg, r.value.1) <= Measure(cfg, s)
    ensures r.Ok? ==> r.value.1.tok != TokenEof
    decreases Measure(cfg, s), 1
  {
    var line := s.lex.line;
    match s.tok
    case OpenParen => ParseListBody(cfg, cur, s)
    case ArrayStart => ParseArrayBody(cfg, cur, s)
    case SymbolToken => Ok((Symbol(s.lex.token, 0), s))
    case StringToken => Ok((String(s.lex.token, 0), s))
    case IntegerToken =>
      var n :- Stoi(s.lex.token, line);
      Ok((Integer(n, 0), s))
    case RealToken => Ok((Real(s.lex.token, 0), s))
    case TrueToken => Ok((Boolean(true, 0), s))
    case FalseToken => Ok((Boolean(false, 0), s))
    case TokenEof => Err(Error(line, UnexpectedEof))
    case CloseParen => Err(Error(line, UnexpectedClose))
    case Dot => Err(Error(line, UnexpectedDot))
  }

  /** The OPEN_PAREN case of read(), up to its closing parenthesis: `()` is Nil
      and leaves the depth counter alone; a list beyond the limit is skipped
      and is Nil; otherwise the chain of its elements and its tail. */
  function ParseListBody(cfg: Config, cur: int, s: PState): (r: Result<(Value, PState)>)
    requires Ready(cfg, s) && s.tok == OpenParen
    ensures r.Ok? ==> Ready(cfg, r.value.1) && Measure(cfg, r.value.1) < Measure(cfg, s)
    ensures r.Ok? ==> r.value.1.tok == CloseParen
    decreases Measure(cfg, s), 0
  {
    var s1 :- Advance(cfg, s);
    if s1.tok == CloseParen then Ok((Nil(0), s1))
    else ParseListContent(cfg, cur + 1, s1)
  }

  /** A non-empty list opened at `level`: skipped and Nil beyond the limit,
      read otherwise. */
  function ParseListContent(cfg: Config, level: int, s: PState): (r: Result<(Value, PState)>)
    requires Ready(cfg, s)
    ensures r.Ok? ==> Ready(cfg, r.value.1) && Measure(cfg, r.value.1) <= Measure(cfg, s)
    ensures r.Ok? ==> r.value.1.tok == CloseParen
    decreases Measure(cfg, s), 4
  {
    if TooDeep(cfg, level) then
      var s2 :- SkippedList(cfg, level, s);
      Ok((Nil(0), s2))
    else
      ParseListElems(cfg, level, s)
  }

  /** The elements of a list within the limit: the first element is read and
      kept unconditionally, then the rest as ParseListTail reads them. */
  function ParseListElems(cfg: Config, level: int, s: PState): (r: Result<(Value, PState)>)
    requires Ready(cfg, s)
    ensures r.Ok? ==> Ready(cfg, r.value.1) && Measure(cfg, r.value.1) < Measure(cfg, s)
    ensures r.Ok? ==> r.value.1.tok == CloseParen
    decreases Measure(cfg, s), 3
  {
    var r1 :- ParseValue(cfg, level, s);
    var r2 :- ParseListTail(cfg, level, r1.1, [r1.0]);
    Ok((Chain(r2.0, r2.1), r2.2))
  }

  /** The ARRAY_START case of read(), up to its closing parenthesis: `#()` is
      Nil; an array beyond the limit is skipped and is Nil or a translation
      marker; otherwise the array of its elements. */
  function ParseArrayBody(cfg: Config, cur: int, s: PState): (r: Result<(Value, PState)>)
    requires Ready(cfg, s) && s.tok == ArrayStart
    ensures r.Ok? ==> Ready(cfg, r.value.1) && Measure(cfg, r.value.1) < Measure(cfg, s)
    ensures r.Ok? ==> r.value.1.tok == CloseParen
    decreases Measure(cfg, s), 0
  {
    var s1 :- Advance(cfg, s);
    if s1.tok == CloseParen then Ok((Nil(0), s1))
    else ParseArrayContent(cfg, cur + 1, s1)
  }

  /** A non-empty array opened at `level`: skipped beyond the limit (Nil or a
      translation marker), read otherwise. */
  function ParseArrayContent(cfg: Config, level: int, s: PState): (r: Result<(Value, PState)>)
    requires Ready(cfg, s)
    ensures r.Ok? ==> Ready(cfg, r.value.1) && Measure(cfg, r.value.1) <= Measure(cfg, s)
    ensures r.Ok? ==> r.value.1.tok == CloseParen
    decreases Measure(cfg, s), 4
  {
    if TooDeep(cfg, level) then SkippedArray(cfg, level, s)
    else
      var r2 :- ParseArrayElems(cfg, level, s, []);
      Ok((Array(r2.0, 0), r2.1))
  }

  /** The keep loop of a list at `level` after its first element: the elements
      read so far are `acc`; the result is all elements, the tail (Nil, or the
      value after a dot) and the state on the closing parenthesis. */
  function ParseListTail(cfg: Config, level: int, s: PState, acc: seq<Value>)
    : (r: Result<(seq<Value>, Value, PState)>)
    requires Ready(cfg, s)
    ensures r.Ok? ==> Ready(cfg, r.value.2) && Measure(cfg, r.value.2) <= Measure(cfg, s)
    ensures r.Ok? ==> r.value.2.tok == CloseParen && acc <= r.value.0
    decreases Measure(cfg, s), 3
  {
    if s.tok == CloseParen then Ok((acc, Nil(0), s))
    else if s.tok == Dot then
      var s1 :- Advance(cfg, s);
      var r1 :- ParseValue(cfg, level, s1);
      var tail := if Keep(cfg, level, r1.0) then r1.0 else Nil(0);
      if r1.1.tok != CloseParen then Err(Error(r1.1.lex.line, ExpectedClose))
      else Ok((acc, tail, r1.1))
    else
      var r1 :- ParseValue(cfg, level, s);
      ParseListTail(cfg, level, r1.1, if Keep(cfg, level, r1.0) then acc + [r1.0] else acc)
  }

  /** The do-while loop of an array at `level`: every element passes the filter. */
  function ParseArrayElems(cfg: Config, level: int, s: PState, acc: seq<Value>)
    : (r: Result<(seq<Value>, PState)>)
    requires Ready(cfg, s)
    ensures r.Ok? ==> Ready(cfg, r.value.1) && Measure(cfg, r.value.1) < Measure(cfg, s)
    ensures r.Ok? ==> r.value.1.tok == CloseParen && acc <= r.value.0
    ensures r.Ok? ==> forall i :: |acc| <= i < |r.value.0| ==> Keep(cfg, level, r.value.0[i])
    decreases Measure(cfg, s), 3
  {
    var r1 :- ParseValue(cfg, level, s);
    var acc' := if Keep(cfg, level, r1.0) then acc + [r1.0] else acc;
    if r1.1.tok == CloseParen then Ok((acc', r1.1)) else ParseArrayElems(cfg, level, r1.1, acc')
  }

  /** The skip loop of a list beyond the limit, corrected to stop at EOF with
      "Unexpected EOF".  Only `(` is read recursively (at the same depth
      counter, so it is skipped too); every other token is passed over. */
  function SkippedList(cfg: Config, level: int, s: PState): (r: Result<PState>)
    requires Ready(cfg, s)
    ensures r.Ok? ==> Ready(cfg, r.value) && Measure(cfg, r.value) <= Measure(cfg, s)
    ensures r.Ok? ==> r.value.tok == CloseParen
    decreases Measure(cfg, s), 3
  {
    if s.tok == CloseParen then Ok(s)
    else if s.tok == TokenEof then Err(Error(s.lex.line, UnexpectedEof))
    else if s.tok == OpenParen then
      var r1 :- ParseValue(cfg, level, s);
      SkippedList(cfg, level, r1.1)
    else
      var s1 :- Advance(cfg, s);
      SkippedList(cfg, level, s1)
  }

  /** The list skip loop as written: it tests for `)` only.  Run for at most
      `fuel` iterations; None means it was still running.  Only this loop is
      as written: a nested `(` is read by the corrected ParseValue, so an
      inner skip that would hang in the source fails with "Unexpected EOF". */
  function SkipListAsWritten(cfg: Config, level: int, s: PState, fuel: nat): Option<Result<PState>>
    requires Ready(cfg, s)
    decreases fuel
  {
    if s.tok == CloseParen then Some(Ok(s))
    else if fuel == 0 then None
    else if s.tok == OpenParen then
      match ParseValue(cfg, level, s)
      case Err(e) => Some(Err(e))
      case Ok(r1) => SkipListAsWritten(cfg, level, r1.1, fuel - 1)
    else
      match Advance(cfg, s)
      case Err(e) => Some(Err(e))
      case Ok(s1) => SkipListAsWritten(cfg, level, s1, fuel - 1)
  }

  /** The token sequence `_ STRING )` that the skip loop of an array just past
      the limit keeps as a translation marker. */
  predicate IsMarkerStart(cfg: Config, level: int, s: PState) {
    level - 1 == cfg.depth && s.tok == SymbolToken && s.lex.token == "_"
  }

  /** The translation marker #(_ "text"). */
  predicate IsMarker(v: Value) {
    v.Array? && |v.elems| == 2 && v.elems[0] == Symbol("_", 0) && v.elems[1].String?
  }

  /** The skip loop of an array beyond the limit, corrected to stop at EOF.
      Only `#(`-tokens are read recursively.  The result is Nil, or the marker
      #(_ "text") when the array ends right after `_ "text"`; both unstamped. */
  function SkippedArray(cfg: Config, level: int, s: PState): (r: Result<(Value, PState)>)
    requires Ready(cfg, s)
    ensures r.Ok? ==> Ready(cfg, r.value.1) && Measure(cfg, r.value.1) <= Measure(cfg, s)
    ensures r.Ok? ==> r.value.1.tok == CloseParen
    ensures r.Ok? ==> r.value.0 == Nil(0) || IsMarker(r.value.0)
    decreases Measure(cfg, s), 3
  {
    if s.tok == CloseParen then Ok((Nil(0), s))
    else if s.tok == TokenEof then Err(Error(s.lex.line, UnexpectedEof))
    else if s.tok == ArrayStart then
      var r1 :- ParseValue(cfg, level, s);
      SkippedArray(cfg, level, r1.1)
    else if IsMarkerStart(cfg, level, s) then
      var s1 :- Advance(cfg, s);
      if s1.tok == StringToken then
        var s2 :- Advance(cfg, s1);
        if s2.tok == CloseParen then Ok((Array([Symbol("_", 0), String(s1.lex.token, 0)], 0), s2))
        else SkippedArray(cfg, level, s2)
      else SkippedArray(cfg, level, s1)
    else
      var s1 :- Advance(cfg, s);
      SkippedArray(cfg, level, s1)
  }

  /** The array skip loop as written: it too tests for `)` only, and a nested
      `#(` is likewise read by the corrected ParseValue. */
  function SkipArrayAsWritten(cfg: Config, level: int, s: PState, fuel: nat)
    : Option<Result<(Value, PState)>>
    requires Ready(cfg, s)
    decreases fuel
  {
    if s.tok == CloseParen then Some(Ok((Nil(0), s)))
    else if fuel == 0 then None
    else if s.tok == ArrayStart then
      match ParseValue(cfg, level, s)
      case Err(e) => Some(Err(e))
      case Ok(r1) => SkipArrayAsWritten(cfg, level, r1.1, fuel - 1)
    else if IsMarkerStart(cfg, level, s) then
      match Advance(cfg, s)
      case Err(e) => Some(Err(e))
      case Ok(s1) =>
        if s1.tok == StringToken then
          match Advance(cfg, s1)
          case Err(e) => Some(Err(e))
          case Ok(s2) =>
            if s2.tok == CloseParen then Some(Ok((Array([Symbol("_", 0), String(s1.lex.token, 0)], 0), s2)))
            else SkipArrayAsWritten(cfg, level, s2, fuel - 1)
        else SkipArrayAsWritten(cfg, level, s1, fuel - 1)
    else
      match Advance(cfg, s)
      case Err(e) => Some(Err(e))
      case Ok(s1) => SkipArrayAsWritten(cfg, level, s1, fuel - 1)
  }

  /** The parser's constructor reads the first token. */
  function Start(cfg: Config): (r: Result<PState>)
    requires Sentinel(cfg.buf)
    ensures r.Ok? ==> Ready(cfg, r.value)
  {
    var l :- Lex(cfg.buf, cfg.useArrays, Initial(cfg.buf));
    Ok(PState(l.1, l.0))
  }

  /** read_many(): read values until the token is EOF; `acc` holds those read so far. */
  function ParseAll(cfg: Config, cur: int, s: PState, acc: seq<Value>): (r: Result<seq<Value>>)
    requires Ready(cfg, s)
    ensures r.Ok? ==> acc <= r.value
    ensures r.Ok? && s.tok != TokenEof ==> |acc| < |r.value|
    decreases Measure(cfg, s)
  {
    if s.tok == TokenEof then Ok(acc)
    else
      var r1 :- ParseValue(cfg, cur, s);
      ParseAll(cfg, cur, r1.1, acc + [r1.0])
  }

  function ConfigFor(input: string, useArrays: bool, depth: int): (cfg: Config)
    ensures Sentinel(cfg.buf)
  {
    Config(Buffer(input), useArrays, depth)
  }

  /** from_stream(): one value, and then the input must be exhausted. */
  function ParseOne(input: string, useArrays: bool, depth: int): Result<Value> {
    var cfg := ConfigFor(input, useArrays, depth);
    var s :- Start(cfg);
    var r :- ParseValue(cfg, -1, s);
    if r.1.tok != TokenEof then Err(Error(r.1.lex.line, TrailingGarbage)) else Ok(r.0)
  }

  /** from_stream_many(): every value of the input, in order. */
  function ParseMany(input: string, useArrays: bool, depth: int): Result<seq<Value>> {
    var cfg := ConfigFor(input, useArrays, depth);
    var s :- Start(cfg);
    ParseAll(cfg, -1, s, [])
  }

  /** The parser object: the lexer it draws tokens from, the depth limit, the
      current token and the depth counter. */
  class Parser {
    const lexer: Lexer
    const depth: int
    var token: TokenType
    var currentDepth: int

    function Cfg(): Config {
      Config(lexer.buf, lexer.useArrays, depth)
    }

    function State(): PState
      reads this, lexer
    {
      PState(lexer.State(), token)
    }

    predicate Valid()
      reads this, lexer
    {
      Ready(Cfg(), State())
    }

    constructor (lexer: Lexer, depth: int, token: TokenType)
      ensures this.lexer == lexer && this.depth == depth && this.token == token
      ensures currentDepth == -1
    {
      this.lexer := lexer;
      this.depth := depth;
      this.token := token;
      currentDepth := -1;
    }

    /** Parser(lexer, depth): the depth counter starts at -1 and the first token
        is read at once; a lexical error there aborts the construction. */
    static method Create(lexer: Lexer, depth: int) returns (r: Result<Parser>)
      requires lexer.Valid()
      modifies lexer
      ensures Lex(lexer.buf, lexer.useArrays, old(lexer.State())) ==
        if r.Ok? then Ok((r.value.token, lexer.State())) else Err(r.error)
      ensures r.Ok? ==> fresh(r.value) && r.value.lexer == lexer && r.value.depth == depth
      ensures r.Ok? ==> r.value.currentDepth == -1 && r.value.Valid()
    {
      var t := lexer.GetNextToken();
      if t.Err? {
        return Err(t.error);
      }
      var p := new Parser(lexer, depth, t.value);
      return Ok(p);
    }

    /** `m_token = m_lexer.get_next_token();` */
    method Next() returns (r: Result<TokenType>)
      requires Valid()
      modifies this, lexer
      ensures Advance(Cfg(), old(State())) == if r.Ok? then Ok(State()) else Err(r.error)
      ensures r.Ok? ==> Valid()
      ensures currentDepth == old(currentDepth)
    {
      r := lexer.GetNextToken();
      if r.Ok? {
        token := r.value;
      }
    }

    /** read(): on success the value and the new state are those ParseValue
        computes from the old state, and the depth counter is restored. */
    method Read() returns (r: Result<Value>)
      requires Valid()
      modifies this, lexer
      ensures ParseValue(Cfg(), old(currentDepth), old(State())) ==
        if r.Ok? then Ok((r.value, State())) else Err(r.error)
      ensures r.Ok? ==> Valid() && currentDepth == old(currentDepth)
      decreases Measure(Cfg(), State()), 1
    {
      var result := Nil(0);
      var lineNumber := lexer.GetLineNumber();
      match token {
      case OpenParen =>
        var body := ReadList();
        if body.Err? {
          return Err(body.error);
        }
        result := body.value;
      case ArrayStart =>
        var body := ReadArray();
        if body.Err? {
          return Err(body.error);
        }
        result := body.value;
      case SymbolToken =>
        result := Symbol(lexer.GetString(), 0);
      case StringToken =>
        result := String(lexer.GetString(), 0);
      case IntegerToken =>
        var n := Stoi(lexer.GetString(), lexer.GetLineNumber());
        if n.Err? {
          return Err(n.error);
        }
        result := Integer(n.value, 0);
      case RealToken =>
        result := Real(lexer.GetString(), 0);
      case TrueToken =>
        result := Boolean(true, 0);
      case FalseToken =>
        result := Boolean(false, 0);
      case TokenEof =>
        return Err(Error(lexer.GetLineNumber(), UnexpectedEof));
      case CloseParen =>
        return Err(Error(lexer.GetLineNumber(), UnexpectedClose));
      case Dot =>
        return Err(Error(lexer.GetLineNumber(), UnexpectedDot));
      }
      var t := Next();
      if t.Err? {
        return Err(t.error);
      }
      r := Ok(WithLine(result, lineNumber));
    }

    /** The OPEN_PAREN case of read(). */
    method ReadList() returns (r: Result<Value>)
      requires Valid() && token == OpenParen
      modifies this, lexer
      ensures ParseListBody(Cfg(), old(currentDepth), old(State())) ==
        if r.Ok? then Ok((r.value, State())) else Err(r.error)
      ensures r.Ok? ==> Valid() && currentDepth == old(currentDepth)
      decreases Measure(Cfg(), State()), 0
    {
      var t := Next();
      if t.Err? {
        return Err(t.error);
      }
      if token == CloseParen {
        return Ok(Nil(0));
      }
      currentDepth := currentDepth + 1;
      r := ReadListContent();
      if r.Err? {
        return;
      }
      currentDepth := currentDepth - 1;
    }

    /** The list is skipped beyond the depth limit and read otherwise. */
    method ReadListContent() returns (r: Result<Value>)
      requires Valid()
      modifies this, lexer
      ensures ParseListContent(Cfg(), old(currentDepth), old(State())) ==
        if r.Ok? then Ok((r.value, State())) else Err(r.error)
      ensures r.Ok? ==> Valid() && currentDepth == old(currentDepth)
      decreases Measure(Cfg(), State()), 3
    {
      if depth >= 0 && currentDepth > depth {
        var skipped := SkipList();
        if skipped.Err? {
          return Err(skipped.error);
        }
        r := Ok(Nil(0));
      } else {
        r := ReadListElems();
      }
    }

    /** The first element of a list, read and kept unconditionally, then the rest. */
    method ReadListElems() returns (r: Result<Value>)
      requires Valid()
      modifies this, lexer
      ensures ParseListElems(Cfg(), old(currentDepth), old(State())) ==
        if r.Ok? then Ok((r.value, State())) else Err(r.error)
      ensures r.Ok? ==> Valid() && currentDepth == old(currentDepth)
      decreases Measure(Cfg(), State()), 2
    {
      var first := Read();
      if first.Err? {
        return Err(first.error);
      }
      var rest := ReadListTail([first.value]);
      if rest.Err? {
        return Err(rest.error);
      }
      r := Ok(Chain(rest.value.0, rest.value.1));
    }

    /** The ARRAY_START case of read(). */
    method ReadArray() returns (r: Result<Value>)
      requires Valid() && token == ArrayStart
      modifies this, lexer
      ensures ParseArrayBody(Cfg(), old(currentDepth), old(State())) ==
        if r.Ok? then Ok((r.value, State())) else Err(r.error)
      ensures r.Ok? ==> Valid() && currentDepth == old(currentDepth)
      decreases Measure(Cfg(), State()), 0
    {
      var t := Next();
      if t.Err? {
        return Err(t.error);
      }
      if token == CloseParen {
        return Ok(Nil(0));
      }
      currentDepth := currentDepth + 1;
      r := ReadArrayContent();
      if r.Err? {
        return;
      }
      currentDepth := currentDepth - 1;
    }

    /** The array is skipped beyond the depth limit and read otherwise. */
    method ReadArrayContent() returns (r: Result<Value>)
      requires Valid()
      modifies this, lexer
      ensures ParseArrayContent(Cfg(), old(currentDepth), old(State())) ==
        if r.Ok? then Ok((r.value, State())) else Err(r.error)
      ensures r.Ok? ==> Valid() && currentDepth == old(currentDepth)
      decreases Measure(Cfg(), State()), 3
    {
      if depth >= 0 && currentDepth > depth {
        r := SkipArray();
      } else {
        var elems := ReadArrayElems();
        if elems.Err? {
          return Err(elems.error);
        }
        r := Ok(Array(elems.value, 0));
      }
    }

    /** The loop of read() that reads the elements of a list after the first,
        at the current depth: the elements so far are acc0. */
    method ReadListTail(acc0: seq<Value>) returns (r: Result<(seq<Value>, Value)>)
      requires Valid()
      modifies this, lexer
      ensures ParseListTail(Cfg(), old(currentDepth), old(State()), acc0) ==
        if r.Ok? then Ok((r.value.0, r.value.1, State())) else Err(r.error)
      ensures r.Ok? ==> Valid() && currentDepth == old(currentDepth)
      decreases Measure(Cfg(), State()), 2
    {
      ghost var s0 := State();
      var acc := acc0;
      while token != CloseParen
        invariant Valid() && currentDepth == old(currentDepth)
        invariant Measure(Cfg(), State()) <= Measure(Cfg(), s0)
        invariant ParseListTail(Cfg(), currentDepth, State(), acc) == ParseListTail(Cfg(), currentDepth, s0, acc0)
        decreases Measure(Cfg(), State())
      {
        if token == Dot {
          var t := Next();
          if t.Err? {
            return Err(t.error);
          }
          var v := Read();
          if v.Err? {
            return Err(v.error);
          }
          var tail := if Keep(Cfg(), currentDepth, v.value) then v.value else Nil(0);
          if token != CloseParen {
            return Err(Error(lexer.GetLineNumber(), ExpectedClose));
          }
          return Ok((acc, tail));
        }
        var v := Read();
        if v.Err? {
          return Err(v.error);
        }
        if Keep(Cfg(), currentDepth, v.value) {
          acc := acc + [v.value];
        }
      }
      return Ok((acc, Nil(0)));
    }

    /** The do-while loop of read() that fills an array. */
    method ReadArrayElems() returns (r: Result<seq<Value>>)
      requires Valid()
      modifies this, lexer
      ensures ParseArrayElems(Cfg(), old(currentDepth), old(State()), []) ==
        if r.Ok? then Ok((r.value, State())) else Err(r.error)
      ensures r.Ok? ==> Valid() && currentDepth == old(currentDepth)
      decreases Measure(Cfg(), State()), 2
    {
      ghost var s0 := State();
      var arr: seq<Value> := [];
      var more := true;
      while more
        invariant Valid() && currentDepth == old(currentDepth)
        invariant Measure(Cfg(), State()) <= Measure(Cfg(), s0)
        invariant more ==> ParseArrayElems(Cfg(), currentDepth, State(), arr) == ParseArrayElems(Cfg(), currentDepth, s0, [])
        invariant !more ==> ParseArrayElems(Cfg(), currentDepth, s0, []) == Ok((arr, State()))
        decreases Measure(Cfg(), State()), more
      {
        var v := Read();
        if v.Err? {
          return Err(v.error);
        }
        if Keep(Cfg(), currentDepth, v.value) {
          arr := arr + [v.value];
        }
        more := token != CloseParen;
      }
      return Ok(arr);
    }

    /** The loop of read() that passes over a list beyond the depth limit;
        it stops with an error at EOF, which the C++ loop does not test. */
    method SkipList() returns (r: Result<()>)
      requires Valid()
      modifies this, lexer
      ensures SkippedList(Cfg(), old(currentDepth), old(State())) ==
        if r.Ok? then Ok(State()) else Err(r.error)
      ensures r.Ok? ==> Valid() && currentDepth == old(currentDepth)
      decreases Measure(Cfg(), State()), 2
    {
      ghost var s0 := State();
      while token != CloseParen
        invariant Valid() && currentDepth == old(currentDepth)
        invariant Measure(Cfg(), State()) <= Measure(Cfg(), s0)
        invariant SkippedList(Cfg(), currentDepth, State()) == SkippedList(Cfg(), currentDepth, s0)
        decreases Measure(Cfg(), State())
      {
        if token == TokenEof {
          return Err(Error(lexer.GetLineNumber(), UnexpectedEof));
        }
        if token == OpenParen {
          var v := Read();
          if v.Err? {
            return Err(v.error);
          }
        } else {
          var t := Next();
          if t.Err? {
            return Err(t.error);
          }
        }
      }
      return Ok(());
    }

    /** The loop of read() that passes over an array beyond the depth limit,
        keeping a translation marker; it too stops with an error at EOF. */
    method SkipArray() returns (r: Result<Value>)
      requires Valid()
      modifies this, lexer
      ensures SkippedArray(Cfg(), old(currentDepth), old(State())) ==
        if r.Ok? then Ok((r.value, State())) else Err(r.error)
      ensures r.Ok? ==> Valid() && currentDepth == old(currentDepth)
      decreases Measure(Cfg(), State()), 2
    {
      ghost var s0 := State();
      while token != CloseParen
        invariant Valid() && currentDepth == old(currentDepth)
        invariant Measure(Cfg(), State()) <= Measure(Cfg(), s0)
        invariant SkippedArray(Cfg(), currentDepth, State()) == SkippedArray(Cfg(), currentDepth, s0)
        decreases Measure(Cfg(), State())
      {
        if token == TokenEof {
          return Err(Error(lexer.GetLineNumber(), UnexpectedEof));
        }
        if token == ArrayStart {
          var v := Read();
          if v.Err? {
            return Err(v.error);
          }
        } else if currentDepth - 1 == depth && token == SymbolToken && lexer.GetString() == "_" {
          var t := Next();
          if t.Err? {
            return Err(t.error);
          }
          if token == StringToken {
            var str := lexer.GetString();
            t := Next();
            if t.Err? {
              return Err(t.error);
            }
            if token == CloseParen {
              return Ok(Array([Symbol("_", 0), String(str, 0)], 0));
            }
          }
        } else {
          var t := Next();
          if t.Err? {
            return Err(t.error);
          }
        }
      }
      return Ok(Nil(0));
    }

    /** read_many(): values until the token is EOF, in order. */
    method ReadMany() returns (r: Result<seq<Value>>)
      requires Valid()
      modifies this, lexer
      ensures ParseAll(Cfg(), old(currentDepth), old(State()), []) == r
    {
      ghost var s0 := State();
      var results: seq<Value> := [];
      while token != TokenEof
        invariant Valid() && currentDepth == old(currentDepth)
        invariant ParseAll(Cfg(), currentDepth, State(), results) == ParseAll(Cfg(), currentDepth, s0, [])
        decreases Measure(Cfg(), State())
      {
        var v := Read();
        if v.Err? {
          return Err(v.error);
        }
        results := results + [v.value];
      }
      return Ok(results);
    }
  }

  /** from_stream(): builds a lexer and a parser over the input and reads one
      value; what the model computes is ParseOne. */
  method FromStream(input: string, useArrays: bool, depth: int) returns (r: Result<Value>)
    ensures r == ParseOne(input, useArrays, depth)
  {
    var lexer := new Lexer(input, useArrays);
    var parser :- Parser.Create(lexer, depth);
    var v :- parser.Read();
    if parser.token != TokenEof {
      return Err(Error(lexer.GetLineNumber(), TrailingGarbage));
    }
    return Ok(v);
  }

  /** from_stream_many(): every value of the input; what the model computes is ParseMany. */
  method FromStreamMany(input: string, useArrays: bool, depth: int) returns (r: Result<seq<Value>>)
    ensures r == ParseMany(input, useArrays, depth)
  {
    var lexer := new Lexer(input, useArrays);
    var parser :- Parser.Create(lexer, depth);
    r := parser.ReadMany();
  }
}
