/** The S-expression value of include/sexp/value.hpp: a tagged union with
    exclusive ownership of its children.  As a Dafny datatype a value is
    immutable and never shared, so ownership is implicit; the C++ objects that
    hold a value and are updated in place (moves, set_car/set_cdr) are the class
    Slot below.  Besides the tags of the header, the model has the Array variant
    and the line stamp that src/parser.cpp and src/io.cpp use. */
module Values {

  /** Every constructor carries `line`, the source line the parser stamped on
      it (0 for values built by the factories).  A Real keeps the decimal text
      it was read from: floating point is not modelled. */
  datatype Value =
    | Nil(line: int)
    | Boolean(b: bool, line: int)
    | Integer(n: int, line: int)
    | Real(text: string, line: int)
    | String(str: string, line: int)
    | Symbol(str: string, line: int)
    | Cons(car: Value, cdr: Value, line: int)
    | Array(elems: seq<Value>, line: int)

  /** Value::Type, the active tag. */
  datatype Type =
    | TypeNil | TypeBoolean | TypeInteger | TypeReal | TypeString | TypeSymbol | TypeCons | TypeArray

  function TypeOf(v: Value): Type {
    match v
    case Nil(_) => TypeNil
    case Boolean(_, _) => TypeBoolean
    case Integer(_, _) => TypeInteger
    case Real(_, _) => TypeReal
    case String(_, _) => TypeString
    case Symbol(_, _) => TypeSymbol
    case Cons(_, _, _) => TypeCons
    case Array(_, _) => TypeArray
  }

  /** Value::nil(), also what a default-constructed Value and nil_ref() hold. */
  const NilValue: Value := Nil(0)

  /** `explicit operator bool`: everything but Nil is true. */
  predicate Truthy(v: Value) {
    TypeOf(v) != TypeNil
  }

  /** The range of the C++ `int` that Value::integer stores. */
  predicate FitsInt(n: int) {
    -0x8000_0000 <= n <= 0x7fff_ffff
  }

  /** is_real() also accepts integers. */
  predicate IsReal(v: Value) {
    TypeOf(v) == TypeReal || TypeOf(v) == TypeInteger
  }

  lemma TruthyIffNotNil(v: Value)
    ensures !Truthy(v) <==> v.Nil?
    ensures IsReal(v) <==> v.Integer? || v.Real?
  {
  }

  // ----- operator== -----

  /** operator==: different tags are never equal, two Nils always are, atoms
      compare their payloads and pairs (and arrays) compare their children.
      The line stamp takes no part. */
  predicate Equal(a: Value, b: Value)
    decreases a
  {
    if TypeOf(a) != TypeOf(b) then false
    else match a
      case Nil(_) => true
      case Boolean(x, _) => x == b.b
      case Integer(x, _) => x == b.n
      case Real(x, _) => x == b.text
      case String(x, _) => x == b.str
      case Symbol(x, _) => x == b.str
      case Cons(x, y, _) => Equal(x, b.car) && Equal(y, b.cdr)
      case Array(xs, _) =>
        |xs| == |b.elems| && forall i :: 0 <= i < |xs| ==> Equal(xs[i], b.elems[i])
  }

  /** The same value with every line stamp erased: the reference for Equal. */
  function Strip(v: Value): Value
    decreases v
  {
    match v
    case Nil(_) => Nil(0)
    case Boolean(x, _) => Boolean(x, 0)
    case Integer(x, _) => Integer(x, 0)
    case Real(x, _) => Real(x, 0)
    case String(x, _) => String(x, 0)
    case Symbol(x, _) => Symbol(x, 0)
    case Cons(x, y, _) => Cons(Strip(x), Strip(y), 0)
    case Array(xs, _) => Array(seq(|xs|, i requires 0 <= i < |xs| => Strip(xs[i])), 0)
  }

  /** Equality is structural: two values are equal exactly when they agree
      everywhere except in their line stamps. */
  lemma {:induction false} EqualIffSameStripped(a: Value, b: Value)
    ensures Equal(a, b) <==> Strip(a) == Strip(b)
    decreases a
  {
    match a
    case Cons(x, y, _) =>
      if b.Cons? {
        EqualIffSameStripped(x, b.car);
        EqualIffSameStripped(y, b.cdr);
      }
    case Array(xs, _) =>
      if b.Array? {
        var ys := b.elems;
        forall i | 0 <= i < |xs| && i < |ys|
          ensures Equal(xs[i], ys[i]) <==> Strip(xs[i]) == Strip(ys[i])
        {
          EqualIffSameStripped(xs[i], ys[i]);
        }
        if Strip(a) == Strip(b) {
          assert |xs| == |ys|;
          forall i | 0 <= i < |xs| ensures Equal(xs[i], ys[i]) {
            assert Strip(a).elems[i] == Strip(b).elems[i];
          }
        }
        if Equal(a, b) {
          assert Strip(a).elems == Strip(b).elems;
        }
      }
    case _ =>
  }

  lemma EqualIsEquivalence(a: Value, b: Value, c: Value)
    ensures Equal(a, a)
    ensures Equal(a, b) ==> Equal(b, a)
    ensures Equal(a, b) && Equal(b, c) ==> Equal(a, c)
  {
    EqualIffSameStripped(a, a);
    EqualIffSameStripped(a, b);
    EqualIffSameStripped(b, a);
    EqualIffSameStripped(b, c);
    EqualIffSameStripped(a, c);
  }

  /** The chain of pairs whose heads are es, in order, ending in `tail`; the
      pairs carry line 0, as pairs built by the factories do. */
  function Chain(es: seq<Value>, tail: Value): (r: Value)
    ensures es != [] ==> r.Cons? && r.car == es[0]
    ensures es == [] ==> r == tail
    decreases |es|
  {
    if es == [] then tail else Cons(es[0], Chain(es[1..], tail), 0)
  }

  /** set_line(): the same value stamped with line l. */
  function WithLine(v: Value, l: int): (r: Value)
    ensures r.line == l && TypeOf(r) == TypeOf(v) && Strip(r) == Strip(v)
  {
    match v
    case Nil(_) => Nil(l)
    case Boolean(x, _) => Boolean(x, l)
    case Integer(x, _) => Integer(x, l)
    case Real(x, _) => Real(x, l)
    case String(x, _) => String(x, l)
    case Symbol(x, _) => Symbol(x, l)
    case Cons(x, y, _) => Cons(x, y, l)
    case Array(xs, _) => Array(xs, l)
  }

  // ----- the copy constructor -----

  /** Value(Value const&): a deep copy that rebuilds every string and pair. */
  function Clone(v: Value): Value
    decreases v
  {
    match v
    case Nil(l) => Nil(l)
    case Boolean(x, l) => Boolean(x, l)
    case Integer(x, l) => Integer(x, l)
    case Real(x, l) => Real(x, l)
    case String(x, l) => String(x[..], l)
    case Symbol(x, l) => Symbol(x[..], l)
    case Cons(x, y, l) => Cons(Clone(x), Clone(y), l)
    case Array(xs, l) => Array(seq(|xs|, i requires 0 <= i < |xs| => Clone(xs[i])), l)
  }

  /** A copy is the same tree as the original, so it compares equal to it. */
  lemma {:induction false} CloneIsFaithful(v: Value)
    ensures Clone(v) == v
    ensures Equal(Clone(v), v)
    decreases v
  {
    match v {
    case Cons(x, y, _) =>
      CloneIsFaithful(x);
      CloneIsFaithful(y);
    case Array(xs, _) =>
      forall i | 0 <= i < |xs| ensures Clone(xs[i]) == xs[i] {
        CloneIsFaithful(xs[i]);
      }
      assert Clone(v).elems == xs;
    case _ =>
    }
    EqualIsEquivalence(v, v, v);
  }

  // ----- type-checked accessors (each `assert`s its tag) -----

  /** get_car: the head of a pair, from which and the tail the pair is rebuilt. */
  function GetCar(v: Value): (r: Value)
    requires v.Cons?
    ensures v == Cons(r, GetCdr(v), v.line)
  {
    v.car
  }

  /** get_cdr: the tail of a pair. */
  function GetCdr(v: Value): (r: Value)
    requires v.Cons?
    ensures v == Cons(v.car, r, v.line)
  {
    v.cdr
  }

  /** as_bool: the stored flag; the value itself tests true whichever it is. */
  function AsBool(v: Value): (r: bool)
    requires v.Boolean?
    ensures v == Boolean(r, v.line)
    ensures Truthy(v)
  {
    v.b
  }

  /** as_int: the stored integer. */
  function AsInt(v: Value): (r: int)
    requires v.Integer?
    ensures v == Integer(r, v.line)
    ensures IsReal(v) && AsFloat(v) == Widened(r)
  {
    v.n
  }

  /** What as_float reads: the integer it widens, or the stored real. */
  datatype Float = Widened(n: int) | Stored(text: string)

  function AsFloat(v: Value): (r: Float)
    requires IsReal(v)
    ensures v.Integer? ==> r == Widened(v.n)
    ensures v.Real? ==> r == Stored(v.text)
  {
    if v.Real? then Stored(v.text) else Widened(v.n)
  }

  /** as_string serves strings and symbols alike. */
  function AsString(v: Value): (r: string)
    requires v.String? || v.Symbol?
    ensures Equal(v, String(r, 0)) || Equal(v, Symbol(r, 0))
  {
    v.str
  }

  /** as_array: the stored elements. */
  function AsArray(v: Value): (r: seq<Value>)
    requires v.Array?
    ensures v == Array(r, v.line)
    ensures Truthy(v)
  {
    v.elems
  }

  /** A C++ object of type Value: a place that holds a value and whose content
      moves and the pair setters replace. */
  class Slot {
    var v: Value

    /** Value(): the default value is Nil and converts to false. */
    constructor ()
      ensures v == NilValue && !Truthy(v)
    {
      v := NilValue;
    }

    /** One of the factories nil(), boolean(), integer(), real(), string(), symbol(). */
    constructor Of(x: Value)
      requires !x.Cons? && !x.Array?
      ensures v == x
    {
      v := x;
    }

    /** Value(Value&&): takes the tag and payload and leaves the source Nil
        (only the source's tag is reset, its line stamp stays). */
    constructor Move(other: Slot)
      modifies other
      ensures v == old(other.v)
      ensures other.v == Nil(old(other.v).line)
    {
      v := other.v;
      other.v := Nil(other.v.line);
    }

    /** Value(Value const&): a deep copy; the source is untouched. */
    constructor Copy(other: Slot)
      ensures v == Clone(other.v) && Equal(v, other.v)
    {
      v := Clone(other.v);
      CloneIsFaithful(other.v);
    }

    /** operator=(Value&&).  The tag is copied before the source's tag is reset,
        so a self-move leaves the object Nil. */
    method MoveAssign(other: Slot)
      modifies this, other
      ensures other.v == Nil(old(other.v).line)
      ensures other != this ==> v == old(other.v)
      ensures other == this ==> v.Nil?
    {
      v := other.v;
      other.v := Nil(other.v.line);
    }

    /** cons(Value&& car, Value&& cdr): both arguments are moved into a new pair. */
    static method MakeCons(car: Slot, cdr: Slot) returns (r: Slot)
      modifies car, cdr
      ensures fresh(r)
      ensures car != cdr ==> r.v == Cons(old(car.v), old(cdr.v), 0)
      ensures car == cdr ==> r.v == Cons(old(car.v), Nil(old(car.v).line), 0)
      ensures car.v.Nil? && cdr.v.Nil?
    {
      var x := car.v;
      car.v := Nil(car.v.line);
      var y := cdr.v;
      cdr.v := Nil(cdr.v.line);
      r := new Slot.Of(NilValue);
      r.v := Cons(x, y, 0);
    }

    /** set_car(Value&&): replaces only the head of a pair. */
    method SetCar(src: Slot)
      requires v.Cons? && src != this
      modifies this, src
      ensures v == Cons(old(src.v), old(v).cdr, old(v).line)
      ensures src.v == Nil(old(src.v).line)
    {
      var x := src.v;
      src.v := Nil(src.v.line);
      v := Cons(x, v.cdr, v.line);
    }

    /** set_cdr(Value&&): replaces only the tail of a pair. */
    method SetCdr(src: Slot)
      requires v.Cons? && src != this
      modifies this, src
      ensures v == Cons(old(v).car, old(src.v), old(v).line)
      ensures src.v == Nil(old(src.v).line)
    {
      var x := src.v;
      src.v := Nil(src.v.line);
      v := Cons(v.car, x, v.line);
    }
  }

  /** A copy is independent of its original: changing the copy's head leaves
      the original as it was. */
  method CopyIsIndependent(original: Slot, replacement: Slot) returns (copy: Slot)
    requires original.v.Cons? && replacement != original
    modifies replacement
    ensures original.v == old(original.v)
    ensures copy.v == Cons(old(replacement.v), original.v.cdr, original.v.line)
  {
    copy := new Slot.Copy(original);
    CloneIsFaithful(original.v);
    copy.SetCar(replacement);
  }
}
