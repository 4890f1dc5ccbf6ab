/** The list utilities of src/util.cpp and the iteration helpers of
    include/sexp/util.hpp.  A list is a chain of pairs; the reference
    functions Elements and Terminal take it apart into the heads of its
    pairs and whatever ends the chain, and the utilities are proved against
    them. */
module ListUtil {
  import opened Errors
  import opened Values

  // ----- reference definitions -----

  /** The heads of the pairs along the cdr chain, in order. */
  function Elements(v: Value): seq<Value> {
    if v.Cons? then [v.car] + Elements(v.cdr) else []
  }

  /** The first value along the cdr chain that is not a pair. */
  function Terminal(v: Value): (r: Value)
    ensures !r.Cons?
  {
    if v.Cons? then Terminal(v.cdr) else v
  }

  /** A chain built from es and a tail that is not a pair comes apart into
      exactly es and that tail. */
  lemma {:induction false} ChainParts(es: seq<Value>, tail: Value)
    requires !tail.Cons?
    ensures Elements(Chain(es, tail)) == es && Terminal(Chain(es, tail)) == tail
    decreases |es|
  {
    if es != [] {
      ChainParts(es[1..], tail);
    }
  }

  // ----- is_list, list_length, list_ref -----

  /** is_list(): Nil, or a pair whose cdr is a list. */
  predicate IsList(v: Value) {
    if v.Nil? then true else if v.Cons? then IsList(v.cdr) else false
  }

  /** list_length(): the pairs along the cdr chain; a tail that is neither
      Nil nor a pair is silently not counted. */
  function ListLength(v: Value): nat {
    if v.Nil? then 0 else if v.Cons? then 1 + ListLength(v.cdr) else 0
  }

  /** list_ref(): the head of the index-th pair.  get_car and get_cdr assert
      a pair, so the index must lie within the list's length. */
  function ListRef(v: Value, index: int): Value
    requires 0 <= index < ListLength(v)
  {
    if index == 0 then v.car else ListRef(v.cdr, index - 1)
  }

  /** A value is a list exactly when its chain of pairs ends in Nil; its
      length is the number of heads, whatever the chain ends in; list_ref
      reads the heads in order. */
  lemma {:induction false} ListShape(v: Value)
    ensures IsList(v) <==> Terminal(v).Nil?
    ensures ListLength(v) == |Elements(v)|
    ensures forall i :: 0 <= i < ListLength(v) ==> ListRef(v, i) == Elements(v)[i]
  {
    if v.Cons? {
      ListShape(v.cdr);
      forall i | 0 <= i < ListLength(v) ensures ListRef(v, i) == Elements(v)[i] {
        if i > 0 {
          assert Elements(v)[i] == Elements(v.cdr)[i - 1];
        }
      }
    }
  }

  /** The lists built from heads es and a tail that is not a pair: a list
      exactly when the tail is Nil, and of length |es| either way, so
      `(1 . 5)` and `(1 2 3 4 . 5)` are not lists and the latter has length 4. */
  lemma ChainIsListIffNil(es: seq<Value>, tail: Value)
    requires !tail.Cons?
    ensures IsList(Chain(es, tail)) <==> tail.Nil?
    ensures ListLength(Chain(es, tail)) == |es|
    ensures forall i :: 0 <= i < |es| ==> ListRef(Chain(es, tail), i) == es[i]
  {
    ChainParts(es, tail);
    ListShape(Chain(es, tail));
  }

  lemma DottedExamples()
    ensures !IsList(Chain([Integer(1, 0)], Integer(5, 0)))
    ensures var l := Chain([Integer(1, 0), Integer(2, 0), Integer(3, 0), Integer(4, 0)], Integer(5, 0));
      !IsList(l) && ListLength(l) == 4
    ensures IsList(Chain([Integer(1, 0), Integer(2, 0)], Nil(0)))
  {
    ChainIsListIffNil([Integer(1, 0)], Integer(5, 0));
    ChainIsListIffNil([Integer(1, 0), Integer(2, 0), Integer(3, 0), Integer(4, 0)], Integer(5, 0));
    ChainIsListIffNil([Integer(1, 0), Integer(2, 0)], Nil(0));
  }

  // ----- assoc_ref -----

  /** An element of an association list that binds key: a pair whose head is
      a symbol with that name. */
  predicate Binds(e: Value, key: string) {
    e.Cons? && e.car.Symbol? && e.car.str == key
  }

  /** assoc_ref(): the cdr of the first element that binds key; Nil at the end
      of a proper list; an error on a tail that is neither Nil nor a pair. */
  function AssocRef(v: Value, key: string): Result<Value> {
    if v.Nil? then Ok(NilValue)
    else if v.Cons? then
      if Binds(v.car, key) then Ok(v.car.cdr) else AssocRef(v.cdr, key)
    else Err(Error(v.line, MalformedAssoc))
  }

  /** The index of the first element of es that binds key, |es| if none does. */
  function FirstBinding(es: seq<Value>, key: string): (r: nat)
    ensures r <= |es|
    ensures r < |es| ==> Binds(es[r], key)
    ensures forall j :: 0 <= j < r ==> !Binds(es[j], key)
  {
    if es == [] then 0 else if Binds(es[0], key) then 0 else 1 + FirstBinding(es[1..], key)
  }

  /** assoc_ref returns the cdr of the first element that binds key, skipping
      every other element; without a binding it is Nil on a list and fails on
      any other tail, with that tail's line. */
  lemma {:induction false} AssocRefFindsFirst(v: Value, key: string)
    ensures var es, i := Elements(v), FirstBinding(Elements(v), key);
      AssocRef(v, key) ==
        if i < |es| then Ok(es[i].cdr)
        else if Terminal(v).Nil? then Ok(NilValue)
        else Err(Error(Terminal(v).line, MalformedAssoc))
  {
    if v.Cons? {
      AssocRefFindsFirst(v.cdr, key);
      assert Elements(v)[1..] == Elements(v.cdr);
    }
  }

  // ----- car, cdr, caar ... cddddr -----

  /** The helper c<path>r of src/util.cpp applies get_car for each `a` and
      get_cdr for each `d` of its path, reading the path from left to right:
      cadr(sx) is sx.get_car().get_cdr(). */
  function CxR(path: string, v: Value): Value
    requires CxRDefined(path, v)
  {
    if path == [] then v else CxR(path[1..], if path[0] == 'a' then v.car else v.cdr)
  }

  /** Every step of the path lands on a pair: get_car and get_cdr assert one. */
  predicate CxRDefined(path: string, v: Value) {
    path == [] || (v.Cons? && CxRDefined(path[1..], if path[0] == 'a' then v.car else v.cdr))
  }

  /** The conventional Lisp reading of the same name, whose path is applied
      from right to left: (cadr x) is (car (cdr x)). */
  function LispCxR(path: string, v: Value): Value
    requires LispCxRDefined(path, v)
    decreases |path|, 1
  {
    if path == [] then v
    else
      var w := LispCxR(path[1..], v);
      if path[0] == 'a' then w.car else w.cdr
  }

  predicate LispCxRDefined(path: string, v: Value)
    decreases |path|, 0
  {
    path == [] || (LispCxRDefined(path[1..], v) && LispCxR(path[1..], v).Cons?)
  }

  function Reverse(s: string): (r: string)
    ensures |r| == |s|
  {
    if s == [] then [] else Reverse(s[1..]) + [s[0]]
  }

  /** A longer path first walks its first part, then the rest. */
  lemma {:induction false} CxRSplits(p: string, q: string, v: Value)
    requires CxRDefined(p + q, v)
    ensures CxRDefined(p, v) && CxRDefined(q, CxR(p, v)) && CxR(p + q, v) == CxR(q, CxR(p, v))
    decreases |p|
  {
    if p != [] {
      assert (p + q)[1..] == p[1..] + q;
      CxRSplits(p[1..], q, if p[0] == 'a' then v.car else v.cdr);
    } else {
      assert p + q == q;
    }
  }

  /** The helpers read their names backwards compared with Lisp: c<path>r here
      is the Lisp function named by the reversed path. */
  lemma {:induction false} CxRIsReversedLisp(path: string, v: Value)
    requires CxRDefined(path, v)
    ensures LispCxRDefined(Reverse(path), v) && CxR(path, v) == LispCxR(Reverse(path), v)
    decreases |path|
  {
    if path != [] {
      var last := path[|path| - 1];
      var init := path[..|path| - 1];
      assert path == init + [last];
      CxRSplits(init, [last], v);
      CxRIsReversedLisp(init, v);
      ReverseOfSnoc(init, last);
      var r := Reverse(path);
      assert r[0] == last && r[1..] == Reverse(init);
    }
  }

  lemma {:induction false} ReverseOfSnoc(s: string, x: char)
    ensures Reverse(s + [x]) == [x] + Reverse(s)
    decreases |s|
  {
    if s == [] {
      assert [x][1..] == [];
    } else {
      assert (s + [x])[1..] == s[1..] + [x];
      ReverseOfSnoc(s[1..], x);
    }
  }

  /** cadr walks to the car and then to its cdr; cdar the other way round. */
  lemma CadrExample(v: Value)
    requires v.Cons? && v.car.Cons?
    ensures CxRDefined("ad", v) && CxR("ad", v) == GetCdr(GetCar(v))
    ensures CxR("ad", v) == LispCxR("da", v)
  {
    assert "ad"[0] == 'a' && "ad"[1..] == "d" && "d"[0] == 'd' && "d"[1..] == [];
    assert CxR("d", v.car) == CxR("", v.car.cdr);
    CxRIsReversedLisp("ad", v);
    assert Reverse("ad") == "da" by {
      assert "ad"[1..][1..] == [];
    }
  }

  // ----- ListIterator and ListAdapter -----

  /** The cell an iterator moves to from cell cur: its cdr while that is a
      pair, otherwise the end; the end stays the end. */
  function Next(cur: Option<Value>): (r: Option<Value>)
    ensures cur.None? ==> r.None?
    ensures r.Some? ==> r.value.Cons? && cur.Some? && cur.value.Cons? && r.value == cur.value.cdr
    ensures cur.Some? && cur.value.Cons? && cur.value.cdr.Cons? ==> r == Some(cur.value.cdr)
    ensures cur.Some? && cur.value.Cons? && !cur.value.cdr.Cons? ==> r.None?
  {
    match cur
    case None => None
    case Some(cell) => if cell.Cons? && cell.cdr.Cons? then Some(cell.cdr) else None
  }

  function CellOf(sx: Value): Option<Value> {
    if sx.Cons? then Some(sx) else None
  }

  /** Where n prefix increments take an iterator from cell cur. */
  function Steps(cur: Option<Value>, n: nat): Option<Value>
    decreases n
  {
    if n == 0 then cur else Steps(Next(cur), n - 1)
  }

  /** ListIterator: the cell it stands on, or none for the end iterator.
      The C++ iterator holds the cell's address and compares addresses; here
      it holds the cell itself, and cells of one list are told apart because
      each is a longer suffix than the next. */
  class ListIterator {
    var cur: Option<Value>

    /** ListIterator(): the end iterator. */
    constructor End()
      ensures cur == None
    {
      cur := None;
    }

    /** ListIterator(sx): at sx when it is a pair, the end otherwise. */
    constructor From(sx: Value)
      ensures cur == CellOf(sx)
    {
      cur := if sx.Cons? then Some(sx) else None;
    }

    /** operator==: the same position. */
    function Equals(rhs: ListIterator): bool
      reads this, rhs
    {
      cur == rhs.cur
    }

    /** operator*: the head of the current pair. */
    function Deref(): Value
      reads this
      requires cur.Some? && cur.value.Cons?
    {
      cur.value.car
    }

    /** Prefix ++: on to the cdr, or to the end when that is not a pair (an
        improper tail is skipped silently); the end stays the end. */
    method Increment()
      modifies this
      ensures cur == Next(old(cur))
    {
      if cur.Some? {
        var c := cur.value;
        if c.Cons? && c.cdr.Cons? {
          cur := Some(c.cdr);
        } else {
          cur := None;
        }
      }
    }

    /** Postfix ++: a copy of the old position, and this iterator advanced. */
    method PostIncrement() returns (tmp: ListIterator)
      modifies this
      ensures fresh(tmp) && tmp.cur == old(cur) && cur == Next(old(cur))
    {
      tmp := new ListIterator.End();
      tmp.cur := cur;
      Increment();
    }
  }

  /** ListAdapter: what a range-for over a list iterates. */
  class ListAdapter {
    const sx: Value

    constructor (sx: Value)
      ensures this.sx == sx
    {
      this.sx := sx;
    }

    method Begin() returns (it: ListIterator)
      ensures fresh(it) && it.cur == CellOf(sx)
    {
      it := new ListIterator.From(sx);
    }

    method End() returns (it: ListIterator)
      ensures fresh(it) && it.cur == None
    {
      it := new ListIterator.End();
    }
  }

  /** An iterator made from a value that is not a pair is already the end. */
  method BeginIsEnd(sx: Value) returns (same: bool)
    ensures same <==> !sx.Cons?
  {
    var a := new ListAdapter(sx);
    var b := a.Begin();
    var e := a.End();
    same := b.Equals(e);
  }

  /** After k steps from the start the iterator stands on the pair whose head
      is the k-th element, until it reaches the end after exactly
      list_length(sx) steps. */
  lemma {:induction false} StepsWalkElements(sx: Value, k: nat)
    requires k <= ListLength(sx)
    ensures ListLength(sx) == |Elements(sx)|
    ensures k < ListLength(sx) ==>
      (Steps(CellOf(sx), k).Some? && Steps(CellOf(sx), k).value.Cons? &&
       Steps(CellOf(sx), k).value.car == Elements(sx)[k])
    ensures k == ListLength(sx) ==> Steps(CellOf(sx), k) == None
    decreases k
  {
    ListShape(sx);
    if k > 0 {
      assert sx.Cons?;
      StepsWalkElements(sx.cdr, k - 1);
      assert Next(CellOf(sx)) == CellOf(sx.cdr);
      if k < ListLength(sx) {
        assert Elements(sx)[k] == Elements(sx.cdr)[k - 1];
      }
    } else if ListLength(sx) == 0 {
      assert !sx.Cons?;
    }
  }

  /** The range-for loop over ListAdapter(sx): collects the head of every
      pair the iterator visits, which are the list's elements in order, as
      many as list_length(sx). */
  method CollectCars(sx: Value) returns (cars: seq<Value>)
    ensures cars == Elements(sx) && |cars| == ListLength(sx)
  {
    var adapter := new ListAdapter(sx);
    var it := adapter.Begin();
    var end := adapter.End();
    cars := [];
    ListShape(sx);
    ghost var k: nat := 0;
    StepsWalkElements(sx, 0);
    while !it.Equals(end)
      invariant k <= ListLength(sx) && it.cur == Steps(CellOf(sx), k) && end.cur == None
      invariant cars == Elements(sx)[..k]
      decreases ListLength(sx) - k
    {
      StepsWalkElements(sx, k);
      cars := cars + [it.Deref()];
      it.Increment();
      StepsAfter(CellOf(sx), k);
      k := k + 1;
      StepsWalkElements(sx, k);
    }
    StepsWalkElements(sx, k);
    assert Elements(sx)[..k] == Elements(sx);
  }

  lemma {:induction false} StepsAfter(cur: Option<Value>, n: nat)
    ensures Steps(cur, n + 1) == Next(Steps(cur, n))
    decreases n
  {
    if n > 0 {
      StepsAfter(Next(cur), n - 1);
    }
  }
}
