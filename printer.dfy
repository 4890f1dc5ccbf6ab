/** The writer of src/io.cpp: escape_string() and operator<< for every tag
    but Real.  What the writer produces is stated by the functions Print and
    Escape; the methods Write and EscapeString follow the loops of the C++
    code and are proved to produce exactly that text. */
module Printing {
  import opened Values

  // ----- escape_string -----

  /** A `"` or `\` gets a backslash in front; every other character is itself. */
  function EscapeChar(ch: char): string {
    if ch == '"' || ch == '\\' then ['\\', ch] else [ch]
  }

  /** The characters between the quotes, built from the front as the loop does. */
  function EscapeBody(text: string): string {
    if text == [] then [] else EscapeBody(text[..|text| - 1]) + EscapeChar(text[|text| - 1])
  }

  /** escape_string(): the text between double quotes, escaped. */
  function Escape(text: string): string {
    ['"'] + EscapeBody(text) + ['"']
  }

  /** The reading of an escaped body: a backslash takes the next character
      literally, any other character is itself. */
  function Unescaped(s: string): string
    decreases |s|
  {
    if s == [] then []
    else if s[0] == '\\' && |s| >= 2 then [s[1]] + Unescaped(s[2..])
    else [s[0]] + Unescaped(s[1..])
  }

  lemma {:induction false} EscapeBodyAppend(a: string, b: string)
    ensures EscapeBody(a + b) == EscapeBody(a) + EscapeBody(b)
    decreases |b|
  {
    if b == [] {
      assert a + b == a;
    } else {
      var b' := b[..|b| - 1];
      assert (a + b)[..|a + b| - 1] == a + b';
      EscapeBodyAppend(a, b');
    }
  }

  /** The escaped body of a text that starts with ch: ch's escape, then the rest. */
  lemma EscapeBodyCons(ch: char, t: string)
    ensures EscapeBody([ch] + t) == EscapeChar(ch) + EscapeBody(t)
  {
    EscapeBodyAppend([ch], t);
    assert [ch][..0] == [];
  }

  /** Escaping loses nothing: reading the escaped body gives the text back. */
  lemma {:induction false} UnescapeEscaped(text: string)
    ensures Unescaped(EscapeBody(text)) == text
    decreases |text|
  {
    if text != [] {
      var ch, t := text[0], text[1..];
      assert text == [ch] + t;
      EscapeBodyCons(ch, t);
      UnescapeEscaped(t);
      var e := EscapeChar(ch) + EscapeBody(t);
      if ch == '"' || ch == '\\' {
        assert e[0] == '\\' && e[1] == ch && e[2..] == EscapeBody(t);
      } else {
        assert e[0] == ch && e[1..] == EscapeBody(t);
      }
    }
  }

  /** Inside the quotes a `"` never stands on its own: each one is the second
      character of an escape pair. */
  lemma {:induction false} EscapedQuotesArePaired(text: string)
    ensures forall k :: 0 <= k < |EscapeBody(text)| && EscapeBody(text)[k] == '"' ==>
      0 < k && EscapeBody(text)[k - 1] == '\\'
    decreases |text|
  {
    if text != [] {
      var t' := text[..|text| - 1];
      EscapedQuotesArePaired(t');
      var a, b := EscapeBody(t'), EscapeChar(text[|text| - 1]);
      assert EscapeBody(text) == a + b;
      forall k | 0 <= k < |a + b| && (a + b)[k] == '"'
        ensures 0 < k && (a + b)[k - 1] == '\\'
      {
        if k < |a| {
          assert (a + b)[k] == a[k];
        } else {
          assert b[k - |a|] == '"';
        }
      }
    }
  }

  /** escape_string's loop: the quote, each character's escape, the quote. */
  method EscapeString(text: string) returns (out: string)
    ensures out == Escape(text)
  {
    out := ['"'];
    var i := 0;
    while i < |text|
      invariant 0 <= i <= |text|
      invariant out == ['"'] + EscapeBody(text[..i])
    {
      assert text[..i + 1][..i] == text[..i];
      out := out + EscapeChar(text[i]);
      i := i + 1;
    }
    assert text[..i] == text;
    out := out + ['"'];
  }

  // ----- integers -----

  function DigitChar(d: nat): char
    requires d < 10
  {
    ('0' as int + d) as char
  }

  /** The decimal digits of n, most significant first. */
  function NatText(n: nat): (r: string)
    ensures |r| >= 1 && forall k :: 0 <= k < |r| ==> '0' <= r[k] <= '9'
    decreases n
  {
    if n < 10 then [DigitChar(n)] else NatText(n / 10) + [DigitChar(n % 10)]
  }

  /** `os << int` in the classic locale: a minus sign, then the digits. */
  function IntText(n: int): string {
    if n < 0 then ['-'] + NatText(-n) else NatText(n)
  }

  // ----- operator<< -----

  /** operator<<.  A Real is written as the text it was read from: floating
      point formatting is not part of this model. */
  function Print(v: Value): string
    decreases v, 2, 0
  {
    match v
    case Nil(_) => "()"
    case Boolean(b, _) => if b then "#t" else "#f"
    case Integer(n, _) => IntText(n)
    case Real(text, _) => text
    case String(s, _) => Escape(s)
    case Symbol(s, _) => s
    case Cons(_, _, _) => "(" + PrintPairs(v) + ")"
    case Array(_, _) => "#(" + PrintItems(v, 0) + ")"
  }

  /** The do-while loop over a list from the pair p on: the head, then, unless
      the tail is Nil, a space and the rest; a tail that is not a pair is
      written after ". ". */
  function PrintPairs(p: Value): string
    requires p.Cons?
    decreases p, 1, 0
  {
    Print(p.car) +
    if p.cdr.Nil? then ""
    else " " + if p.cdr.Cons? then PrintPairs(p.cdr) else ". " + Print(p.cdr)
  }

  /** The for loop over an array from index i on: elements separated by spaces. */
  function PrintItems(a: Value, i: nat): string
    requires a.Array? && i <= |a.elems|
    decreases a, 0, |a.elems| - i
  {
    if i == |a.elems| then ""
    else (if i != 0 then " " else "") + Print(a.elems[i]) + PrintItems(a, i + 1)
  }

  // ----- reference definitions -----

  /** The texts of the values es, separated by single spaces. */
  function Spaced(es: seq<Value>): string {
    if es == [] then "" else if |es| == 1 then Print(es[0]) else Print(es[0]) + " " + Spaced(es[1..])
  }

  /** A list of the values es that ends in tail (Nil, or any value that is not
      a pair) is written as its elements between parentheses, separated by
      spaces, with a tail other than Nil after " . ". */
  lemma PrintList(es: seq<Value>, tail: Value)
    requires es != [] && !tail.Cons?
    ensures Print(Chain(es, tail)) ==
      "(" + Spaced(es) + (if tail.Nil? then "" else " . " + Print(tail)) + ")"
  {
    PrintPairsOfChain(es, tail);
  }

  lemma {:induction false} PrintPairsOfChain(es: seq<Value>, tail: Value)
    requires es != [] && !tail.Cons?
    ensures PrintPairs(Chain(es, tail)) == Spaced(es) + (if tail.Nil? then "" else " . " + Print(tail))
    decreases |es|
  {
    var rest := Chain(es[1..], tail);
    assert Chain(es, tail) == Cons(es[0], rest, 0);
    if |es| == 1 {
      assert rest == tail;
      if !tail.Nil? {
        assert " " + (". " + Print(tail)) == " . " + Print(tail);
      }
    } else {
      PrintPairsOfChain(es[1..], tail);
    }
  }

  /** An array is written as "#(", its elements separated by spaces, ")". */
  lemma PrintArray(es: seq<Value>, l: int)
    ensures Print(Array(es, l)) == "#(" + Spaced(es) + ")"
  {
    PrintItemsSpaced(Array(es, l), 0);
    assert es[0..] == es;
  }

  lemma {:induction false} PrintItemsSpaced(a: Value, i: nat)
    requires a.Array? && i <= |a.elems|
    ensures PrintItems(a, i) == (if i != 0 && i < |a.elems| then " " else "") + Spaced(a.elems[i..])
    decreases |a.elems| - i
  {
    if i < |a.elems| {
      PrintItemsSpaced(a, i + 1);
      assert a.elems[i..][1..] == a.elems[i + 1..];
    }
  }

  /** Line stamps are never written: a value prints as its stripped form, so
      values that compare equal print alike. */
  lemma {:induction false} PrintIgnoresLines(v: Value)
    ensures Print(Strip(v)) == Print(v)
    decreases v, 2, 0
  {
    match v {
    case Cons(_, _, _) =>
      PairsIgnoreLines(v);
    case Array(es, l) =>
      var es' := Strip(v).elems;
      forall i | 0 <= i < |es| ensures Print(es'[i]) == Print(es[i]) {
        PrintIgnoresLines(es[i]);
      }
      PrintArray(es, l);
      PrintArray(es', 0);
      SpacedPointwise(es', es);
    case _ =>
    }
  }

  lemma {:induction false} SpacedPointwise(xs: seq<Value>, ys: seq<Value>)
    requires |xs| == |ys| && forall i :: 0 <= i < |xs| ==> Print(xs[i]) == Print(ys[i])
    ensures Spaced(xs) == Spaced(ys)
    decreases |xs|
  {
    if |xs| > 1 {
      SpacedPointwise(xs[1..], ys[1..]);
    }
  }

  lemma {:induction false} PairsIgnoreLines(p: Value)
    requires p.Cons?
    ensures PrintPairs(Strip(p)) == PrintPairs(p)
    decreases p, 1, 0
  {
    PrintIgnoresLines(p.car);
    if p.cdr.Cons? {
      PairsIgnoreLines(p.cdr);
    } else if !p.cdr.Nil? {
      PrintIgnoresLines(p.cdr);
    }
  }

  lemma PrintRespectsEqual(a: Value, b: Value)
    requires Equal(a, b)
    ensures Print(a) == Print(b)
  {
    EqualIffSameStripped(a, b);
    PrintIgnoresLines(a);
    PrintIgnoresLines(b);
  }

  // ----- the writer -----

  /** A bound on the recursion of Write: the number of nodes of v. */
  function Size(v: Value): nat
    decreases v
  {
    match v
    case Cons(a, d, _) => 1 + Size(a) + Size(d)
    case Array(es, _) => 1 + Sum(seq(|es|, i requires 0 <= i < |es| => Size(es[i])))
    case _ => 1
  }

  function Sum(ns: seq<nat>): (r: nat)
    ensures forall i :: 0 <= i < |ns| ==> ns[i] <= r
  {
    if ns == [] then 0 else ns[0] + Sum(ns[1..])
  }

  /** operator<<: the atoms directly, a list by walking its pairs with a
      cursor, an array by a loop over its elements; lists and arrays write
      their elements recursively. */
  method Write(v: Value) returns (out: string)
    ensures out == Print(v)
    decreases Size(v)
  {
    match v {
    case Cons(_, _, _) =>
      out := WriteList(v);
    case Array(_, _) =>
      out := WriteArray(v);
    case String(text, _) =>
      out := EscapeString(text);
    case _ =>
      out := Print(v);
    }
  }

  /** The TYPE_ARRAY case of operator<<, with its for loop. */
  method WriteArray(v: Value) returns (out: string)
    requires v.Array?
    ensures out == Print(v)
    decreases Size(v), 0
  {
    var es := v.elems;
    out := "#(";
    var i := 0;
    while i != |es|
      invariant 0 <= i <= |es|
      invariant out + PrintItems(v, i) == "#(" + PrintItems(v, 0)
    {
      ghost var before := out;
      var sep := if i != 0 then " " else "";
      ElementIsSmaller(v, i);
      var s := Write(es[i]);
      out := out + sep + s;
      Regroup(before, sep, s, PrintItems(v, i + 1));
      i := i + 1;
    }
    out := out + ")";
  }

  lemma ElementIsSmaller(a: Value, i: nat)
    requires a.Array? && i < |a.elems|
    ensures Size(a.elems[i]) < Size(a)
  {
    var es := a.elems;
    assert seq(|es|, j requires 0 <= j < |es| => Size(es[j]))[i] == Size(es[i]);
  }

  /** The TYPE_CONS case of operator<<, with its do-while loop. */
  method WriteList(v: Value) returns (out: string)
    requires v.Cons?
    ensures out == Print(v)
    decreases Size(v), 0
  {
    out := "(";
    var cur := v;
    var done := false;
    while !done
      invariant cur == v || Size(cur) < Size(v)
      invariant !done ==> !cur.Nil? && out + Rest(cur) == "(" + PrintPairs(v)
      invariant done ==> out == "(" + PrintPairs(v)
      decreases !done, Size(cur)
    {
      ghost var before := out;
      if !cur.Cons? {
        var s := Write(cur);
        out := out + ". " + s;
        done := true;
      } else {
        var s := Write(cur.car);
        var next := cur.cdr;
        RestOfPair(cur);
        out := out + s;
        if !next.Nil? {
          out := out + " ";
          Regroup(before, s, " ", Rest(next));
        } else {
          done := true;
        }
        cur := next;
      }
    }
    out := out + ")";
  }

  lemma RestOfPair(p: Value)
    requires p.Cons?
    ensures Rest(p) == Print(p.car) + if p.cdr.Nil? then "" else " " + Rest(p.cdr)
  {
  }

  lemma Regroup(a: string, b: string, c: string, d: string)
    ensures a + b + c + d == a + (b + (c + d))
  {
  }

  /** What the do-while loop still has to write when its cursor is at cur. */
  function Rest(cur: Value): string
    requires !cur.Nil?
  {
    if cur.Cons? then PrintPairs(cur) else ". " + Print(cur)
  }
}
