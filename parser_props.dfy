/** Properties of the parser of src/parser.cpp: one value against many, the
    depth limit, the Nil filter at the limit, and the skip loops that do not
    stop at the end of the input. */
module ParserProperties {
  import opened Errors
  import opened Values
  import opened Lexing
  import opened Parsing

  // ----- from_stream against from_stream_many -----

  /** from_stream() succeeds with v exactly when from_stream_many() reads the
      single value v: the trailing-garbage check is "nothing after the first value". */
  lemma ParseOneIffSingleMany(input: string, useArrays: bool, depth: int, v: Value)
    ensures ParseOne(input, useArrays, depth) == Ok(v) <==> ParseMany(input, useArrays, depth) == Ok([v])
  {
    var cfg := ConfigFor(input, useArrays, depth);
    var st := Start(cfg);
    if st.Ok? && st.value.tok != TokenEof {
      var s := st.value;
      var r1 := ParseValue(cfg, -1, s);
      if r1.Ok? {
        var (x, s1) := r1.value;
        assert [] + [x] == [x];
        var rest := ParseAll(cfg, -1, s1, [x]);
        assert ParseAll(cfg, -1, s, []) == rest;
        if rest == Ok([v]) {
          assert [x] <= [v];
        }
      }
    }
  }

  // ----- std::stoi on INTEGER tokens -----

  /** On a token of getInteger()'s shape, digits after an optional '-', std::stoi
      reads the same number as getInteger(), or rejects it as out of range. */
  lemma StoiReadsDigits(t: string, line: int)
    requires t != [] && (t[0] == '-' ==> |t| >= 2)
    requires forall k :: (if t[0] == '-' then 1 else 0) <= k < |t| ==> IsDigitChar(t[k])
    ensures Stoi(t, line) ==
      if FitsInt(TokenValue(t)) then Ok(TokenValue(t)) else Err(Error(line, IntegerOutOfRange))
  {
    TokenValueIsDecimal(t);
    var u := Unsigned(t);
    assert u == if t[0] == '-' then t[1..] else t;
    var ds := DigitRun(u);
    assert ds == u;
    if t[0] == '-' {
      assert TokenValue(t) == -DecimalValue(ds);
    } else {
      assert IsDigitChar(t[0]);
      assert TokenValue(t) == DecimalValue(ds);
    }
  }

  /** The lexer makes INTEGER tokens of `1-2`, `5+` and `--5`, which hold a digit
      and no letter.  std::stoi reads the digits in front and ignores the rest,
      or throws when no digit follows the sign; getInteger() would instead fold
      the sign characters into the number. */
  lemma StoiReadsPrefix(line: int)
    ensures Classify("1-2") == IntegerToken && Stoi("1-2", line) == Ok(1)
    ensures Classify("5+") == IntegerToken && Stoi("5+", line) == Ok(5)
    ensures Classify("--5") == IntegerToken && Stoi("--5", line) == Err(Error(line, InvalidInteger))
    ensures TokenValue("1-2") == 72 && TokenValue("5+") == 45 && TokenValue("--5") == 25
  {
    assert HasDigit("1-2") by { assert IsDigitChar("1-2"[0]); }
    assert !HasNonDigit("1-2") by {
      forall k | 0 <= k < 3 ensures !(IsWordChar("1-2"[k]) && !IsDigitChar("1-2"[k])) { }
    }
    assert CountDots("1-2") == 0 by {
      assert "1-2"[..2] == "1-" && "1-"[..1] == "1";
    }
    assert HasDigit("5+") by { assert IsDigitChar("5+"[0]); }
    assert !HasNonDigit("5+") by {
      forall k | 0 <= k < 2 ensures !(IsWordChar("5+"[k]) && !IsDigitChar("5+"[k])) { }
    }
    assert CountDots("5+") == 0 by {
      assert "5+"[..1] == "5";
    }
    assert HasDigit("--5") by { assert IsDigitChar("--5"[2]); }
    assert !HasNonDigit("--5") by {
      forall k | 0 <= k < 3 ensures !(IsWordChar("--5"[k]) && !IsDigitChar("--5"[k])) { }
    }
    assert CountDots("--5") == 0 by {
      assert "--5"[..2] == "--" && "--"[..1] == "-";
    }
    assert DigitRun("1-2") == "1" by {
      assert "1-2"[1..] == "-2";
    }
    assert DecimalValue("1") == 1 by { assert "1"[..0] == []; }
    assert DigitRun("5+") == "5" by {
      assert "5+"[1..] == "+";
    }
    assert DecimalValue("5") == 5 by { assert "5"[..0] == []; }
    assert Unsigned("--5") == "-5";
  }

  // ----- the depth limit -----

  function Max(a: nat, b: nat): nat {
    if a < b then b else a
  }

  /** The largest number of ns, 0 for none. */
  function MaxOf(ns: seq<nat>): (m: nat)
    ensures forall i :: 0 <= i < |ns| ==> ns[i] <= m
  {
    if ns == [] then 0 else Max(ns[0], MaxOf(ns[1..]))
  }

  /** MaxOf is the least upper bound: a bound of every number bounds it. */
  lemma {:induction false} MaxOfLeast(ns: seq<nat>, k: nat)
    requires forall i :: 0 <= i < |ns| ==> ns[i] <= k
    ensures MaxOf(ns) <= k
  {
    if ns != [] {
      MaxOfLeast(ns[1..], k);
    }
  }

  /** How deeply v nests lists and arrays.  The cdr of a pair belongs to the
      same list as the pair, so only the car goes one level down.  A
      translation marker counts as an atom: it is what an array skipped
      beyond the limit leaves behind. */
  function Nesting(v: Value): nat
    decreases v
  {
    match v
    case Cons(a, d, _) => Max(1 + Nesting(a), Nesting(d))
    case Array(es, _) =>
      if IsMarker(v) then 0 else 1 + MaxOf(seq(|es|, i requires 0 <= i < |es| => Nesting(es[i])))
    case _ => 0
  }

  /** Every value of es nests at most k deep. */
  predicate AllNested(es: seq<Value>, k: int) {
    forall i :: 0 <= i < |es| ==> Nesting(es[i]) <= k
  }

  lemma WithLineNesting(v: Value, l: int)
    ensures Nesting(WithLine(v, l)) == Nesting(v)
  {
    match v {
    case Cons(a, d, _) =>
      assert WithLine(v, l) == Cons(a, d, l);
    case Array(es, _) =>
      assert WithLine(v, l) == Array(es, l);
    case _ =>
    }
  }

  /** The pairs of a list add one level: heads and a tail at most k deep
      make a list at most k + 1 deep. */
  lemma {:induction false} ChainNesting(es: seq<Value>, tail: Value, k: nat)
    requires Nesting(tail) <= k && AllNested(es, k)
    ensures Nesting(Chain(es, tail)) <= k + 1
    decreases |es|
  {
    if es != [] {
      ChainNesting(es[1..], tail, k);
    }
  }

  /** An array of values at most k deep is at most k + 1 deep. */
  lemma ArrayNesting(es: seq<Value>, l: int, k: nat)
    requires AllNested(es, k)
    ensures Nesting(Array(es, l)) <= k + 1
  {
    var ns := seq(|es|, i requires 0 <= i < |es| => Nesting(es[i]));
    MaxOfLeast(ns, k);
  }

  /** read() at depth counter cur <= m_depth returns a value nested at most
      m_depth - cur deep: whatever lies deeper was skipped. */
  lemma {:induction false} ValueNesting(cfg: Config, cur: int, s: PState, v: Value, s': PState)
    requires Ready(cfg, s) && 0 <= cfg.depth && cur <= cfg.depth
    requires ParseValue(cfg, cur, s) == Ok((v, s'))
    ensures Nesting(v) <= cfg.depth - cur
    decreases Measure(cfg, s), 1
  {
    var d := ParseDatum(cfg, cur, s).value;
    if s.tok == OpenParen {
      ListBodyNesting(cfg, cur, s, d.0, d.1);
    } else if s.tok == ArrayStart {
      ArrayBodyNesting(cfg, cur, s, d.0, d.1);
    }
    WithLineNesting(d.0, s.lex.line);
  }

  lemma {:induction false} ListBodyNesting(cfg: Config, cur: int, s: PState, v: Value, s': PState)
    requires Ready(cfg, s) && s.tok == OpenParen && 0 <= cfg.depth && cur <= cfg.depth
    requires ParseListBody(cfg, cur, s) == Ok((v, s'))
    ensures Nesting(v) <= cfg.depth - cur
    decreases Measure(cfg, s), 0
  {
    var s1 := Advance(cfg, s).value;
    if s1.tok != CloseParen {
      ListContentNesting(cfg, cur + 1, s1, v, s');
    }
  }

  lemma {:induction false} ListContentNesting(cfg: Config, level: int, s: PState, v: Value, s': PState)
    requires Ready(cfg, s) && 0 <= cfg.depth && level <= cfg.depth + 1
    requires ParseListContent(cfg, level, s) == Ok((v, s'))
    ensures Nesting(v) <= cfg.depth - level + 1
    ensures level == cfg.depth + 1 ==> v == Nil(0)
    decreases Measure(cfg, s), 3
  {
    if !TooDeep(cfg, level) {
      ListElemsNesting(cfg, level, s, v, s');
    }
  }

  /** The elements of a list: its first value, then the keep loop from the
      state after it; the list is the chain of the elements and the tail. */
  lemma ListElemsParts(cfg: Config, level: int, s: PState, v: Value, s': PState)
    returns (x: Value, s1: PState, es: seq<Value>, tail: Value)
    requires Ready(cfg, s) && ParseListElems(cfg, level, s) == Ok((v, s'))
    ensures ParseValue(cfg, level, s) == Ok((x, s1))
    ensures Ready(cfg, s1) && Measure(cfg, s1) < Measure(cfg, s)
    ensures ParseListTail(cfg, level, s1, [x]) == Ok((es, tail, s')) && v == Chain(es, tail)
  {
    var r1 := ParseValue(cfg, level, s).value;
    x, s1 := r1.0, r1.1;
    var r2 := ParseListTail(cfg, level, s1, [x]).value;
    es, tail := r2.0, r2.1;
  }

  lemma {:induction false} ListElemsNesting(cfg: Config, level: int, s: PState, v: Value, s': PState)
    requires Ready(cfg, s) && 0 <= cfg.depth && level <= cfg.depth
    requires ParseListElems(cfg, level, s) == Ok((v, s'))
    ensures Nesting(v) <= cfg.depth - level + 1
    decreases Measure(cfg, s), 2
  {
    var x, s1, es, tail := ListElemsParts(cfg, level, s, v, s');
    ValueNesting(cfg, level, s, x, s1);
    ListTailNesting(cfg, level, s1, [x], es, tail, s');
    ChainNesting(es, tail, cfg.depth - level);
  }

  lemma {:induction false} ListTailNesting(cfg: Config, level: int, s: PState, acc: seq<Value>,
                                           es: seq<Value>, tail: Value, s': PState)
    requires Ready(cfg, s) && 0 <= cfg.depth && level <= cfg.depth && AllNested(acc, cfg.depth - level)
    requires ParseListTail(cfg, level, s, acc) == Ok((es, tail, s'))
    ensures AllNested(es, cfg.depth - level) && Nesting(tail) <= cfg.depth - level
    decreases Measure(cfg, s), 2
  {
    if s.tok == CloseParen {
    } else if s.tok == Dot {
      var s1 := Advance(cfg, s).value;
      var r1 := ParseValue(cfg, level, s1).value;
      ValueNesting(cfg, level, s1, r1.0, r1.1);
    } else {
      var r1 := ParseValue(cfg, level, s).value;
      ValueNesting(cfg, level, s, r1.0, r1.1);
      var acc' := if Keep(cfg, level, r1.0) then acc + [r1.0] else acc;
      ListTailNesting(cfg, level, r1.1, acc', es, tail, s');
    }
  }

  lemma {:induction false} ArrayBodyNesting(cfg: Config, cur: int, s: PState, v: Value, s': PState)
    requires Ready(cfg, s) && s.tok == ArrayStart && 0 <= cfg.depth && cur <= cfg.depth
    requires ParseArrayBody(cfg, cur, s) == Ok((v, s'))
    ensures Nesting(v) <= cfg.depth - cur
    decreases Measure(cfg, s), 0
  {
    var s1 := Advance(cfg, s).value;
    if s1.tok != CloseParen {
      ArrayContentNesting(cfg, cur + 1, s1, v, s');
    }
  }

  lemma {:induction false} ArrayContentNesting(cfg: Config, level: int, s: PState, v: Value, s': PState)
    requires Ready(cfg, s) && 0 <= cfg.depth && level <= cfg.depth + 1
    requires ParseArrayContent(cfg, level, s) == Ok((v, s'))
    ensures Nesting(v) <= cfg.depth - level + 1
    decreases Measure(cfg, s), 3
  {
    if !TooDeep(cfg, level) {
      var r := ParseArrayElems(cfg, level, s, []).value;
      assert v == Array(r.0, 0);
      ArrayElemsNesting(cfg, level, s, [], r.0, r.1);
      ArrayNesting(r.0, 0, cfg.depth - level);
    }
  }

  lemma {:induction false} ArrayElemsNesting(cfg: Config, level: int, s: PState, acc: seq<Value>,
                                             es: seq<Value>, s': PState)
    requires Ready(cfg, s) && 0 <= cfg.depth && level <= cfg.depth && AllNested(acc, cfg.depth - level)
    requires ParseArrayElems(cfg, level, s, acc) == Ok((es, s'))
    ensures AllNested(es, cfg.depth - level)
    decreases Measure(cfg, s), 2
  {
    var r1 := ParseValue(cfg, level, s).value;
    ValueNesting(cfg, level, s, r1.0, r1.1);
    if r1.1.tok != CloseParen {
      var acc' := if Keep(cfg, level, r1.0) then acc + [r1.0] else acc;
      ArrayElemsNesting(cfg, level, r1.1, acc', es, s');
    }
  }

  /** With a limit d >= 0, from_stream() returns a value nested at most d + 1
      deep (the counter starts at -1), translation markers aside. */
  lemma ParseOneNesting(input: string, useArrays: bool, depth: int, v: Value)
    requires depth >= 0 && ParseOne(input, useArrays, depth) == Ok(v)
    ensures Nesting(v) <= depth + 1
  {
    var cfg := ConfigFor(input, useArrays, depth);
    var st := Start(cfg).value;
    var r := ParseValue(cfg, -1, st).value;
    ValueNesting(cfg, -1, st, r.0, r.1);
  }

  // ----- the Nil filter -----

  /** Every element the keep loop of a list adds after its first passes the
      filter: at the depth limit, no Nil is added. */
  lemma {:induction false} ListTailFilters(cfg: Config, level: int, s: PState, acc: seq<Value>)
    requires Ready(cfg, s)
    ensures var r := ParseListTail(cfg, level, s, acc);
      r.Ok? ==> forall i :: |acc| <= i < |r.value.0| ==> Keep(cfg, level, r.value.0[i])
    decreases Measure(cfg, s)
  {
    if s.tok != CloseParen && s.tok != Dot {
      var r1 := ParseValue(cfg, level, s);
      if r1.Ok? {
        var (v, s1) := r1.value;
        var acc' := if Keep(cfg, level, v) then acc + [v] else acc;
        assert ParseListTail(cfg, level, s, acc) == ParseListTail(cfg, level, s1, acc');
        ListTailFilters(cfg, level, s1, acc');
        var r := ParseListTail(cfg, level, s1, acc');
        if r.Ok? {
          forall i | |acc| <= i < |acc'| ensures Keep(cfg, level, r.value.0[i]) {
            assert r.value.0[i] == acc'[i] == v;
          }
        }
      }
    }
  }

  /** At the depth limit, the keep loop of a list adds no Nil after its first element. */
  lemma ListTailAtLimitHasNoNil(cfg: Config, s: PState, acc: seq<Value>)
    requires Ready(cfg, s) && cfg.depth >= 0
    ensures var r := ParseListTail(cfg, cfg.depth, s, acc);
      r.Ok? ==> forall i :: |acc| <= i < |r.value.0| ==> !r.value.0[i].Nil?
  {
    ListTailFilters(cfg, cfg.depth, s, acc);
  }

  /** An array read at the depth limit holds no Nil. */
  lemma ArrayAtLimitHasNoNil(cfg: Config, s: PState)
    requires Ready(cfg, s) && cfg.depth >= 0
    ensures var r := ParseArrayContent(cfg, cfg.depth, s);
      r.Ok? ==> r.value.0.Array? && forall i :: 0 <= i < |r.value.0.elems| ==> !r.value.0.elems[i].Nil?
  {
    assert !TooDeep(cfg, cfg.depth);
  }

  // ----- the skip loops at the end of the input -----

  /** Once the token is EOF the skip loop of a list, as written, runs forever:
      EOF is not `)`, and every further token is EOF again. */
  lemma {:induction false} SkipListAsWrittenNeverStops(cfg: Config, level: int, s: PState, fuel: nat)
    requires Ready(cfg, s) && s.tok == TokenEof
    ensures SkipListAsWritten(cfg, level, s, fuel) == None
    decreases fuel
  {
    if fuel > 0 {
      EndIsFinal(cfg.buf, cfg.useArrays, s.lex);
      SkipListAsWrittenNeverStops(cfg, level, PState(s.lex.(token := []), TokenEof), fuel - 1);
    }
  }

  /** The same holds for the skip loop of an array. */
  lemma {:induction false} SkipArrayAsWrittenNeverStops(cfg: Config, level: int, s: PState, fuel: nat)
    requires Ready(cfg, s) && s.tok == TokenEof
    ensures SkipArrayAsWritten(cfg, level, s, fuel) == None
    decreases fuel
  {
    if fuel > 0 {
      EndIsFinal(cfg.buf, cfg.useArrays, s.lex);
      SkipArrayAsWrittenNeverStops(cfg, level, PState(s.lex.(token := []), TokenEof), fuel - 1);
    }
  }

  /** What one iteration of a list skip does to a token other than `)` and EOF:
      read a nested list after `(`, otherwise take the next token. */
  function ListTurn(cfg: Config, level: int, s: PState): Result<PState>
    requires Ready(cfg, s) && s.tok != CloseParen && s.tok != TokenEof
  {
    if s.tok == OpenParen then
      var r1 := ParseValue(cfg, level, s);
      if r1.Ok? then Ok(r1.value.1) else Err(r1.error)
    else Advance(cfg, s)
  }

  /** One iteration of both list skips on a token other than `)` and EOF:
      they take the same step, or fail with the same error. */
  lemma SkipListStep(cfg: Config, level: int, s: PState, fuel: nat) returns (next: Result<PState>)
    requires Ready(cfg, s) && s.tok != CloseParen && s.tok != TokenEof && fuel > 0
    ensures next == ListTurn(cfg, level, s)
    ensures next.Ok? ==> Ready(cfg, next.value) && Measure(cfg, next.value) < Measure(cfg, s)
    ensures next.Ok? ==>
      && SkippedList(cfg, level, s) == SkippedList(cfg, level, next.value)
      && SkipListAsWritten(cfg, level, s, fuel) == SkipListAsWritten(cfg, level, next.value, fuel - 1)
    ensures next.Err? ==>
      && SkippedList(cfg, level, s) == Err(next.error)
      && SkipListAsWritten(cfg, level, s, fuel) == Some(Err(next.error))
  {
    if s.tok == OpenParen {
      var r1 := ParseValue(cfg, level, s);
      next := if r1.Ok? then Ok(r1.value.1) else Err(r1.error);
    } else {
      next := Advance(cfg, s);
    }
  }

  /** The corrected list skip changes nothing where the loop as written stops. */
  lemma {:induction false} SkippedListAgrees(cfg: Config, level: int, s: PState, fuel: nat)
    requires Ready(cfg, s) && SkipListAsWritten(cfg, level, s, fuel).Some?
    ensures SkippedList(cfg, level, s) == SkipListAsWritten(cfg, level, s, fuel).value
    decreases fuel
  {
    if s.tok == TokenEof {
      SkipListAsWrittenNeverStops(cfg, level, s, fuel);
    } else if s.tok != CloseParen {
      var next := SkipListStep(cfg, level, s, fuel);
      if next.Ok? {
        SkippedListAgrees(cfg, level, next.value, fuel - 1);
      }
    }
  }

  /** What one iteration of an array skip does to a token other than `)` and
      EOF: read a nested array after `#(`, take `_ STRING )` as the marker when
      the array is just past the limit, otherwise take the next token. */
  function ArrayTurn(cfg: Config, level: int, s: PState): (Result<PState>, Option<Value>)
    requires Ready(cfg, s) && s.tok != CloseParen && s.tok != TokenEof
  {
    if s.tok == ArrayStart then
      var r1 := ParseValue(cfg, level, s);
      (if r1.Ok? then Ok(r1.value.1) else Err(r1.error), None)
    else if IsMarkerStart(cfg, level, s) then
      var a := Advance(cfg, s);
      if a.Ok? && a.value.tok == StringToken then
        var b := Advance(cfg, a.value);
        (b, if b.Ok? && b.value.tok == CloseParen
            then Some(Array([Symbol("_", 0), String(a.value.lex.token, 0)], 0)) else None)
      else (a, None)
    else (Advance(cfg, s), None)
  }

  /** One iteration of both array skips on a token other than `)` and EOF. */
  lemma SkipArrayStep(cfg: Config, level: int, s: PState, fuel: nat)
    returns (next: Result<PState>, marker: Option<Value>)
    requires Ready(cfg, s) && s.tok != CloseParen && s.tok != TokenEof && fuel > 0
    ensures (next, marker) == ArrayTurn(cfg, level, s)
    ensures next.Ok? ==> Ready(cfg, next.value) && Measure(cfg, next.value) < Measure(cfg, s)
    ensures next.Ok? && marker.Some? ==>
      && SkippedArray(cfg, level, s) == Ok((marker.value, next.value))
      && SkipArrayAsWritten(cfg, level, s, fuel) == Some(Ok((marker.value, next.value)))
    ensures next.Ok? && marker.None? ==>
      && SkippedArray(cfg, level, s) == SkippedArray(cfg, level, next.value)
      && SkipArrayAsWritten(cfg, level, s, fuel) == SkipArrayAsWritten(cfg, level, next.value, fuel - 1)
    ensures next.Err? ==>
      && SkippedArray(cfg, level, s) == Err(next.error)
      && SkipArrayAsWritten(cfg, level, s, fuel) == Some(Err(next.error))
  {
    marker := None;
    if s.tok == ArrayStart {
      var r1 := ParseValue(cfg, level, s);
      next := if r1.Ok? then Ok(r1.value.1) else Err(r1.error);
    } else if IsMarkerStart(cfg, level, s) {
      next := Advance(cfg, s);
      if next.Ok? && next.value.tok == StringToken {
        var s1 := next.value;
        next := Advance(cfg, s1);
        if next.Ok? && next.value.tok == CloseParen {
          marker := Some(Array([Symbol("_", 0), String(s1.lex.token, 0)], 0));
        }
      }
    } else {
      next := Advance(cfg, s);
    }
  }

  /** The corrected array skip changes nothing where the loop as written stops. */
  lemma {:induction false} SkippedArrayAgrees(cfg: Config, level: int, s: PState, fuel: nat)
    requires Ready(cfg, s) && SkipArrayAsWritten(cfg, level, s, fuel).Some?
    ensures SkippedArray(cfg, level, s) == SkipArrayAsWritten(cfg, level, s, fuel).value
    decreases fuel
  {
    if s.tok == TokenEof {
      SkipArrayAsWrittenNeverStops(cfg, level, s, fuel);
    } else if s.tok != CloseParen {
      var next, marker := SkipArrayStep(cfg, level, s, fuel);
      if next.Ok? && marker.None? {
        SkippedArrayAgrees(cfg, level, next.value, fuel - 1);
      }
    }
  }

  /** Once the list skip as written has stopped, more iterations change nothing. */
  lemma {:induction false} SkipListFuelMono(cfg: Config, level: int, s: PState, f: nat, g: nat)
    requires Ready(cfg, s) && f <= g && SkipListAsWritten(cfg, level, s, f).Some?
    ensures SkipListAsWritten(cfg, level, s, g) == SkipListAsWritten(cfg, level, s, f)
    decreases f
  {
    if s.tok == TokenEof {
      SkipListAsWrittenNeverStops(cfg, level, s, f);
    } else if s.tok != CloseParen {
      var next := SkipListStep(cfg, level, s, f);
      var next' := SkipListStep(cfg, level, s, g);
      if next.Ok? {
        SkipListFuelMono(cfg, level, next.value, f - 1, g - 1);
      }
    }
  }

  /** Where the list skip as written has not stopped within as many iterations
      as there are tokens left, it never stops, and the corrected skip fails
      with "Unexpected EOF" there instead. */
  lemma {:induction false} SkippedListCorrects(cfg: Config, level: int, s: PState)
    requires Ready(cfg, s) && SkipListAsWritten(cfg, level, s, Measure(cfg, s)).None?
    ensures SkippedList(cfg, level, s).Err? && SkippedList(cfg, level, s).error.cause == UnexpectedEof
    ensures forall fuel: nat :: SkipListAsWritten(cfg, level, s, fuel).None?
    decreases Measure(cfg, s)
  {
    if s.tok == TokenEof {
      forall fuel: nat ensures SkipListAsWritten(cfg, level, s, fuel).None? {
        SkipListAsWrittenNeverStops(cfg, level, s, fuel);
      }
    } else {
      var m := Measure(cfg, s);
      var next := SkipListStep(cfg, level, s, m);
      var n := next.value;
      if SkipListAsWritten(cfg, level, n, Measure(cfg, n)).Some? {
        SkipListFuelMono(cfg, level, n, Measure(cfg, n), m - 1);
        assert false;
      }
      SkippedListCorrects(cfg, level, n);
      forall fuel: nat ensures SkipListAsWritten(cfg, level, s, fuel).None? {
        if fuel > 0 {
          var next' := SkipListStep(cfg, level, s, fuel);
        }
      }
    }
  }

  /** The carve-out of an array just past the limit: `_`, a string and `)` give
      the marker #(_ "text") with that string, and the skip ends on the `)`. */
  lemma SkippedArrayKeepsMarker(cfg: Config, level: int, s: PState, s1: PState, s2: PState)
    requires Ready(cfg, s) && IsMarkerStart(cfg, level, s)
    requires Advance(cfg, s) == Ok(s1) && s1.tok == StringToken
    requires Advance(cfg, s1) == Ok(s2) && s2.tok == CloseParen
    ensures SkippedArray(cfg, level, s) == Ok((Array([Symbol("_", 0), String(s1.lex.token, 0)], 0), s2))
  {
  }

  /** Once the array skip as written has stopped, more iterations change nothing. */
  lemma {:induction false} SkipArrayFuelMono(cfg: Config, level: int, s: PState, f: nat, g: nat)
    requires Ready(cfg, s) && f <= g && SkipArrayAsWritten(cfg, level, s, f).Some?
    ensures SkipArrayAsWritten(cfg, level, s, g) == SkipArrayAsWritten(cfg, level, s, f)
    decreases f
  {
    if s.tok == TokenEof {
      SkipArrayAsWrittenNeverStops(cfg, level, s, f);
    } else if s.tok != CloseParen {
      var next, marker := SkipArrayStep(cfg, level, s, f);
      var next', marker' := SkipArrayStep(cfg, level, s, g);
      if next.Ok? && marker.None? {
        SkipArrayFuelMono(cfg, level, next.value, f - 1, g - 1);
      }
    }
  }

  /** Where the array skip as written has not stopped within as many iterations
      as there are tokens left, it never stops, and the corrected skip fails
      with "Unexpected EOF" there instead. */
  lemma {:induction false} SkippedArrayCorrects(cfg: Config, level: int, s: PState)
    requires Ready(cfg, s) && SkipArrayAsWritten(cfg, level, s, Measure(cfg, s)).None?
    ensures SkippedArray(cfg, level, s).Err? && SkippedArray(cfg, level, s).error.cause == UnexpectedEof
    ensures forall fuel: nat :: SkipArrayAsWritten(cfg, level, s, fuel).None?
    decreases Measure(cfg, s)
  {
    if s.tok == TokenEof {
      forall fuel: nat ensures SkipArrayAsWritten(cfg, level, s, fuel).None? {
        SkipArrayAsWrittenNeverStops(cfg, level, s, fuel);
      }
    } else {
      var m := Measure(cfg, s);
      var next, marker := SkipArrayStep(cfg, level, s, m);
      var n := next.value;
      if SkipArrayAsWritten(cfg, level, n, Measure(cfg, n)).Some? {
        SkipArrayFuelMono(cfg, level, n, Measure(cfg, n), m - 1);
        assert false;
      }
      SkippedArrayCorrects(cfg, level, n);
      forall fuel: nat ensures SkipArrayAsWritten(cfg, level, s, fuel).None? {
        if fuel > 0 {
          var next', marker' := SkipArrayStep(cfg, level, s, fuel);
        }
      }
    }
  }

  // ----- concrete inputs -----

  /** The parser's state on the token `1` of "((1", the lexer on the sentinel
      space, and its state once the input is used up. */
  const AfterOne := PState(LexState(4, Char(' '), 0, "1"), IntegerToken)
  const AtEnd := PState(LexState(4, EndOfInput, 0, []), TokenEof)

  /** The tokens of "((1": two opening parentheses, the integer 1, EOF. */
  lemma UnclosedTokens(input: string) returns (cfg: Config, p1: PState, p2: PState)
    requires input == "((1"
    ensures cfg == ConfigFor(input, false, 0) && Ready(cfg, p1) && Ready(cfg, p2)
    ensures Start(cfg) == Ok(p1) && p1.tok == OpenParen
    ensures Advance(cfg, p1) == Ok(p2) && p2.tok == OpenParen
    ensures Ready(cfg, AfterOne) && Advance(cfg, p2) == Ok(AfterOne)
    ensures Ready(cfg, AtEnd) && Advance(cfg, AfterOne) == Ok(AtEnd)
  {
    cfg := ConfigFor(input, false, 0);
    var buf := cfg.buf;
    assert buf == ['(', '(', '1', ' '];
    var st0 := Initial(buf);
    LexParen(buf, false, st0, 0);
    p1 := PState(StepChar(buf, st0.(token := [])), OpenParen);
    LexParen(buf, false, p1.lex, 1);
    p2 := PState(StepChar(buf, p1.lex.(token := [])), OpenParen);
    var st3 := LexAtom(buf, false, p2.lex, 2, 3);
    assert buf[2..3] == "1";
    assert Classify("1") == IntegerToken;
    assert PState(st3, IntegerToken) == AfterOne;
    LexTrailingSpace(buf, false, st3, 3);
  }

  /** A list opened beyond a limit of 0 whose input ends after one more token:
      the corrected skip, and so the whole parse, reports "Unexpected EOF" at
      the line of the end. */
  lemma UnclosedParse(cfg: Config, p1: PState, p2: PState)
    requires cfg.depth == 0 && Ready(cfg, p1) && Ready(cfg, p2)
    requires p1.tok == OpenParen && Advance(cfg, p1) == Ok(p2) && p2.tok == OpenParen
    requires Ready(cfg, AfterOne) && Advance(cfg, p2) == Ok(AfterOne)
    requires Ready(cfg, AtEnd) && Advance(cfg, AfterOne) == Ok(AtEnd)
    ensures SkippedList(cfg, 1, AfterOne) == Err(Error(0, UnexpectedEof))
    ensures ParseValue(cfg, -1, p1) == Err(Error(0, UnexpectedEof))
  {
    assert SkippedList(cfg, 1, AtEnd) == Err(Error(0, UnexpectedEof));
    assert ParseListContent(cfg, 1, AfterOne) == Err(Error(0, UnexpectedEof));
    assert ParseDatum(cfg, 0, p2) == Err(Error(0, UnexpectedEof));
    assert ParseListElems(cfg, 0, p2) == Err(Error(0, UnexpectedEof));
    assert ParseListBody(cfg, -1, p1) == Err(Error(0, UnexpectedEof));
  }

  /** "((1" with depth limit 0: the inner list lies beyond the limit and the
      input ends inside it.  After the token `1` the corrected skip reports
      "Unexpected EOF" at line 0, which is what from_stream() returns; the
      skip loop as written is still running after any number of iterations. */
  lemma UnclosedSkippedList(input: string, fuel: nat)
    requires input == "((1"
    ensures var cfg := ConfigFor(input, false, 0);
      && Ready(cfg, AfterOne)
      && SkippedList(cfg, 1, AfterOne) == Err(Error(0, UnexpectedEof))
      && SkipListAsWritten(cfg, 1, AfterOne, fuel) == None
      && ParseOne(input, false, 0) == Err(Error(0, UnexpectedEof))
  {
    var cfg, p1, p2 := UnclosedTokens(input);
    UnclosedParse(cfg, p1, p2);
    if fuel > 0 {
      SkipListAsWrittenNeverStops(cfg, 1, AtEnd, fuel - 1);
    }
  }

  /** `()` or `#()` read by read() from the state on its opening token: Nil,
      stamped with that token's line, and then the token after it. */
  lemma EmptyParse(cfg: Config, p1: PState, p2: PState, end: PState)
    requires Ready(cfg, p1) && (p1.tok == OpenParen || p1.tok == ArrayStart)
    requires Ready(cfg, p2) && Advance(cfg, p1) == Ok(p2) && p2.tok == CloseParen
    requires Advance(cfg, p2) == Ok(end)
    ensures ParseValue(cfg, -1, p1) == Ok((Nil(p1.lex.line), end))
  {
    if p1.tok == OpenParen {
      assert ParseListBody(cfg, -1, p1) == Ok((Nil(0), p2));
    } else {
      assert ParseArrayBody(cfg, -1, p1) == Ok((Nil(0), p2));
    }
  }

  /** The tokens of `()`: its two parentheses, then EOF. */
  lemma EmptyParensTokens(input: string, useArrays: bool) returns (cfg: Config, p1: PState, p2: PState, end: PState)
    requires input == "()"
    ensures cfg == ConfigFor(input, useArrays, -1)
    ensures Ready(cfg, p1) && Start(cfg) == Ok(p1) && p1.lex.line == 0
    ensures p1.tok == (if useArrays then ArrayStart else OpenParen)
    ensures Ready(cfg, p2) && Advance(cfg, p1) == Ok(p2) && p2.tok == CloseParen
    ensures Advance(cfg, p2) == Ok(end) && end.tok == TokenEof
  {
    cfg := ConfigFor(input, useArrays, -1);
    var buf := cfg.buf;
    assert buf == ['(', ')', ' '];
    var st0 := Initial(buf);
    LexParen(buf, useArrays, st0, 0);
    p1 := PState(StepChar(buf, st0.(token := [])), if useArrays then ArrayStart else OpenParen);
    LexParen(buf, useArrays, p1.lex, 1);
    p2 := PState(StepChar(buf, p1.lex.(token := [])), CloseParen);
    LexTrailingSpace(buf, useArrays, p2.lex, 2);
    end := Advance(cfg, p2).value;
  }

  /** `()` is Nil in either mode: in array mode `(` opens an array, and an
      empty array is Nil too. */
  lemma EmptyParens(input: string, useArrays: bool)
    requires input == "()"
    ensures ParseOne(input, useArrays, -1) == Ok(Nil(0))
  {
    var cfg, p1, p2, end := EmptyParensTokens(input, useArrays);
    EmptyParse(cfg, p1, p2, end);
  }

  /** The tokens of `#()`: ARRAY_START, the closing parenthesis, then EOF. */
  lemma EmptyArrayTokens(input: string) returns (cfg: Config, p1: PState, p2: PState, end: PState)
    requires input == "#()"
    ensures cfg == ConfigFor(input, false, -1)
    ensures Ready(cfg, p1) && Start(cfg) == Ok(p1) && p1.lex.line == 0 && p1.tok == ArrayStart
    ensures Ready(cfg, p2) && Advance(cfg, p1) == Ok(p2) && p2.tok == CloseParen
    ensures Advance(cfg, p2) == Ok(end) && end.tok == TokenEof
  {
    cfg := ConfigFor(input, false, -1);
    var buf := cfg.buf;
    assert buf == ['#', '(', ')', ' '];
    var st0 := Initial(buf);
    var st1 := LexHash(buf, false, st0, 0, 1);
    p1 := PState(st1, ArrayStart);
    LexParen(buf, false, st1, 2);
    p2 := PState(StepChar(buf, st1.(token := [])), CloseParen);
    LexTrailingSpace(buf, false, p2.lex, 3);
    end := Advance(cfg, p2).value;
  }

  /** `#()` is Nil as well. */
  lemma EmptyArrayIsNil(input: string)
    requires input == "#()"
    ensures ParseOne(input, false, -1) == Ok(Nil(0))
  {
    var cfg, p1, p2, end := EmptyArrayTokens(input);
    EmptyParse(cfg, p1, p2, end);
  }
}
