/**
 * The runtime value of the language: a closed union of four array kinds
 * (numbers, bytes, characters, function handles) and the queries that
 * forward uniformly to whichever kind is active.
 */
module Values {
  import opened Wrappers
  import opened Arrays

  /**
   * A function handle stored as an array element. A boxed value is a
   * constant function; compiled code is opaque to this model.
   */
  datatype Function = Constant(value: Value) | Code(id: nat)

  datatype Value =
    | Num(nums: Array<real>)
    | Byte(bytes: Array<byte>)
    | Char(chars: Array<char>)
    | Func(funcs: Array<Function>)

  datatype Kind = NumKind | ByteKind | CharKind | FuncKind

  function KindOf(v: Value): Kind
  {
    match v
    case Num(_) => NumKind
    case Byte(_) => ByteKind
    case Char(_) => CharKind
    case Func(_) => FuncKind
  }

  predicate IsNumeric(v: Value)
  {
    v.Num? || v.Byte?
  }

  /** The user-facing type name; Num and Byte are both "number". */
  function TypeName(v: Value): (name: string)
    ensures name == "number" <==> IsNumeric(v)
    ensures name == "character" <==> v.Char?
    ensures name == "function" <==> v.Func?
  {
    match v
    case Num(_) => "number"
    case Byte(_) => "number"
    case Char(_) => "character"
    case Func(_) => "function"
  }

  function Shape(v: Value): seq<nat>
  {
    match v
    case Num(a) => a.shape
    case Byte(a) => a.shape
    case Char(a) => a.shape
    case Func(a) => a.shape
  }

  function Rank(v: Value): nat
  {
    |Shape(v)|
  }

  /** The number of elements in the flat buffer of the active kind. */
  function FlatLen(v: Value): nat
  {
    match v
    case Num(a) => |a.data|
    case Byte(a) => |a.data|
    case Char(a) => |a.data|
    case Func(a) => |a.data|
  }

  /**
   * The invariant every value keeps: the active array is well formed, and so is
   * every value boxed inside a function array.
   */
  predicate Valid(v: Value)
  {
    match v
    case Num(a) => WellFormed(a)
    case Byte(a) => WellFormed(a)
    case Char(a) => WellFormed(a)
    case Func(a) =>
      WellFormed(a) &&
      forall i :: 0 <= i < |a.data| && a.data[i].Constant? ==> Valid(a.data[i].value)
  }

  lemma ValidFlatLen(v: Value)
    ensures Valid(v) ==> FlatLen(v) == Product(Shape(v))
  {
  }

  /** The leading dimension, or 1 for a scalar. */
  function RowCount(v: Value): (n: nat)
    ensures Valid(v) ==> n * RowLen(v) == FlatLen(v)
  {
    Arrays.RowCount(Shape(v))
  }

  /** The element count of one row. */
  function RowLen(v: Value): nat
  {
    Arrays.RowLen(Shape(v))
  }

  /** A scalar is one row of one element. */
  lemma ScalarQueries(v: Value)
    ensures Rank(v) == 0 ==> RowCount(v) == 1 && RowLen(v) == 1
    ensures Valid(v) && Rank(v) == 0 ==> FlatLen(v) == 1
  {
  }

  /** Otherwise the leading dimension counts the rows, each of row-length many elements. */
  lemma RowLenSplitsFlatLen(v: Value)
    ensures Rank(v) > 0 ==> RowCount(v) == Shape(v)[0]
    ensures Valid(v) && Rank(v) > 0 ==> Shape(v)[0] * RowLen(v) == FlatLen(v)
  {
  }

  /** The value a builder yields when it received no rows: an empty Byte list. */
  function Default(): (v: Value)
    ensures Valid(v) && v.Byte? && Shape(v) == [0] && FlatLen(v) == 0
  {
    Byte(Array([0], []))
  }

  /** How deeply boxed constants nest inside a value (0 for a non-function array). */
  function Depth(v: Value): nat
    decreases v, if v.Func? then |v.funcs.data| + 1 else 0
  {
    if v.Func? then 1 + MaxDepthFrom(v, 0) else 0
  }

  function MaxDepthFrom(v: Value, i: nat): nat
    requires v.Func? && i <= |v.funcs.data|
    decreases v, |v.funcs.data| - i
  {
    if i == |v.funcs.data| then 0
    else
      var f := v.funcs.data[i];
      var d := if f.Constant? then Depth(f.value) else 0;
      var m := MaxDepthFrom(v, i + 1);
      if d < m then m else d
  }

  lemma {:induction false} DepthOfElementFrom(v: Value, i: nat, j: nat)
    requires v.Func? && i <= j < |v.funcs.data| && v.funcs.data[j].Constant?
    ensures Depth(v.funcs.data[j].value) <= MaxDepthFrom(v, i)
    decreases j - i
  {
    if i < j {
      DepthOfElementFrom(v, i + 1, j);
    }
  }

  /** A value boxed inside a function array is strictly less deeply nested than the array. */
  lemma DepthOfElement(a: Array<Function>, j: nat)
    requires j < |a.data| && a.data[j].Constant?
    ensures Depth(a.data[j].value) < Depth(Func(a))
  {
    DepthOfElementFrom(Func(a), 0, j);
  }

  /**
   * Unboxing a function array (into_unboxed / as_boxed): a scalar holding a
   * boxed constant yields that constant; anything else stays boxed.
   */
  function Unboxed(a: Array<Function>): (r: Option<Value>)
    ensures r.Some? ==> |a.shape| == 0 && |a.data| == 1 && a.data[0] == Constant(r.value)
    ensures r.Some? ==> Depth(r.value) < Depth(Func(a))
    ensures r.Some? && Valid(Func(a)) ==> Valid(r.value)
    ensures (|a.shape| == 0 && |a.data| == 1 && a.data[0].Constant?) ==> r.Some?
  {
    if |a.shape| == 0 && |a.data| == 1 && a.data[0].Constant? then
      DepthOfElement(a, 0);
      Some(a.data[0].value)
    else
      None
  }

  /**
   * The value the deep visitors (generic_into_deep, generic_ref_deep) hand to
   * their per-kind handler: boxed scalars are unwrapped until none is left.
   */
  function Deep(v: Value): (r: Value)
    ensures !(r.Func? && Unboxed(r.funcs).Some?)
    ensures Depth(r) <= Depth(v)
    ensures Valid(v) ==> Valid(r)
    ensures !v.Func? ==> r == v
    ensures v.Func? && Unboxed(v.funcs).None? ==> r == v
    ensures v.Func? && Unboxed(v.funcs).Some? ==> r == Deep(Unboxed(v.funcs).value)
    decreases Depth(v)
  {
    if v.Func? && Unboxed(v.funcs).Some? then Deep(Unboxed(v.funcs).value) else v
  }

  /** Unwrapping twice gives nothing more than unwrapping once. */
  lemma DeepIdempotent(v: Value)
    ensures Deep(Deep(v)) == Deep(v)
  {
  }

  /** The deep visitors see through any number of boxes. */
  lemma {:induction false} DeepOfBoxes(v: Value, n: nat)
    ensures Deep(Boxed(v, n)) == Deep(v)
  {
    if n > 0 {
      DeepOfBoxes(v, n - 1);
      assert Unboxed(Boxed(v, n).funcs) == Some(Boxed(v, n - 1));
    }
  }

  /** A value wrapped in `n` boxes. */
  function Boxed(v: Value, n: nat): (r: Value)
    ensures n > 0 ==> r.Func? && Rank(r) == 0
  {
    if n == 0 then v else Box(Boxed(v, n - 1))
  }

  /** Wrapping a value as a constant function, as a scalar function array. */
  function Box(v: Value): (r: Value)
    ensures Valid(v) ==> Valid(r)
    ensures r.Func? && Rank(r) == 0 && Unboxed(r.funcs) == Some(v)
  {
    Func(Array([], [Constant(v)]))
  }

  // Conversions into a value (the From and FromIterator implementations).

  function FromNum(x: real): (v: Value)
    ensures Valid(v) && v.Num? && Rank(v) == 0 && v.nums.data == [x]
  {
    Num(Array([], [x]))
  }

  function FromByte(b: byte): (v: Value)
    ensures Valid(v) && v.Byte? && Rank(v) == 0 && v.bytes.data == [b]
  {
    Byte(Array([], [b]))
  }

  function FromChar(c: char): (v: Value)
    ensures Valid(v) && v.Char? && Rank(v) == 0 && v.chars.data == [c]
  {
    Char(Array([], [c]))
  }

  function FromFunction(f: Function): (v: Value)
    ensures v.Func? && Rank(v) == 0 && v.funcs.data == [f]
    ensures Valid(v) <==> (f.Constant? ==> Valid(f.value))
  {
    var v := Func(Array([], [f]));
    assert v.funcs.data[0] == f;
    v
  }

  /** A boolean becomes the Byte scalar 1 or 0. */
  function FromBool(b: bool): (v: Value)
    ensures Valid(v) && v.Byte? && Rank(v) == 0
    ensures v.bytes.data[0] == 1 <==> b
    ensures v.bytes.data[0] == 0 <==> !b
  {
    FromByte(if b then 1 else 0)
  }

  /** A machine-sized natural becomes a Num scalar. */
  function FromNat(n: nat): (v: Value)
    ensures Valid(v) && v.Num? && Rank(v) == 0 && v.nums.data[0] == n as real
  {
    FromNum(n as real)
  }

  /** A 32-bit integer becomes a Num scalar. */
  function FromInt(i: int): (v: Value)
    ensures Valid(v) && v.Num? && Rank(v) == 0 && v.nums.data[0] == i as real
  {
    FromNum(i as real)
  }

  /** A list of numbers becomes a rank-1 Num array. */
  function FromNums(xs: seq<real>): (v: Value)
    ensures Valid(v) && v.Num? && Shape(v) == [|xs|] && v.nums.data == xs
  {
    ProductOfList(|xs|);
    Num(Array([|xs|], xs))
  }

  /** A list of naturals becomes a rank-1 Num array of the same numbers. */
  function FromNats(ns: seq<nat>): (v: Value)
    ensures Valid(v) && v.Num? && Shape(v) == [|ns|] && |v.nums.data| == |ns|
    ensures forall i :: 0 <= i < |ns| ==> v.nums.data[i] == ns[i] as real
  {
    FromNums(NatsToReals(ns))
  }

  /** A list of bytes becomes a rank-1 Byte array. */
  function FromBytes(bs: seq<byte>): (v: Value)
    ensures Valid(v) && v.Byte? && Shape(v) == [|bs|] && v.bytes.data == bs
  {
    ProductOfList(|bs|);
    Byte(Array([|bs|], bs))
  }

  /** A string becomes a rank-1 Char array of its characters. */
  function FromString(s: string): (v: Value)
    ensures Valid(v) && v.Char? && Shape(v) == [|s|] && v.chars.data == s
  {
    ProductOfList(|s|);
    Char(Array([|s|], s))
  }

  /** A list of functions becomes a rank-1 Func array. */
  function FromFunctions(fs: seq<Function>): (v: Value)
    ensures v.Func? && Shape(v) == [|fs|] && v.funcs.data == fs
  {
    ProductOfList(|fs|);
    Func(Array([|fs|], fs))
  }

  /** A shape and a buffer of numbers; the buffer must fit the shape. */
  function FromShapeNums(shape: seq<nat>, data: seq<real>): (v: Value)
    requires |data| == Product(shape)
    ensures Valid(v) && v.Num? && Shape(v) == shape && v.nums.data == data
  {
    Num(Array(shape, data))
  }

  /** Element `i` of the flat buffer, as a scalar value of the same kind. */
  function ElementValue(v: Value, i: nat): (r: Value)
    requires i < FlatLen(v)
    ensures Rank(r) == 0 && KindOf(r) == KindOf(v)
    ensures !v.Func? ==> Valid(r)
    ensures Valid(v) ==> Valid(r)
    ensures v.Num? ==> r.nums.data == [v.nums.data[i]]
    ensures v.Byte? ==> r.bytes.data == [v.bytes.data[i]]
    ensures v.Char? ==> r.chars.data == [v.chars.data[i]]
    ensures v.Func? ==> r.funcs.data == [v.funcs.data[i]]
  {
    match v
    case Num(a) => FromNum(a.data[i])
    case Byte(a) => FromByte(a.data[i])
    case Char(a) => FromChar(a.data[i])
    case Func(a) => FromFunction(a.data[i])
  }

  /** The flat per-element sequence (into_flat_values). */
  function FlatValues(v: Value): (rs: seq<Value>)
    ensures |rs| == FlatLen(v)
    ensures forall i :: 0 <= i < |rs| ==> rs[i] == ElementValue(v, i)
  {
    seq(FlatLen(v), i requires 0 <= i < FlatLen(v) => ElementValue(v, i))
  }

  /**
   * Every element boxed as a constant function (coerce_to_function); a function
   * array is returned as it is. coerce_as_function yields the same array without
   * taking ownership.
   */
  function CoerceToFunction(v: Value): (r: Array<Function>)
    ensures r.shape == Shape(v) && |r.data| == FlatLen(v)
    ensures v.Func? ==> r == v.funcs
    ensures !v.Func? ==> forall i :: 0 <= i < |r.data| ==> r.data[i] == Constant(ElementValue(v, i))
    ensures Valid(v) ==> Valid(Func(r))
  {
    if v.Func? then v.funcs
    else
      ValidFlatLen(v);
      Array(Shape(v), seq(FlatLen(v), i requires 0 <= i < FlatLen(v) => Constant(ElementValue(v, i))))
  }

  lemma RowOfFunctionsValid(a: Array<Function>, i: nat)
    requires Valid(Func(a)) && i < Arrays.RowCount(a.shape)
    ensures Valid(Func(Arrays.Row(a, i)))
  {
    var r := Arrays.Row(a, i);
    forall k | 0 <= k < |r.data| && r.data[k].Constant?
      ensures Valid(r.data[k].value)
    {
      assert r.data[k] == a.data[i * Arrays.RowLen(a.shape) + k];
    }
  }

  /** Row `i`, forwarded to the active kind. */
  function Row(v: Value, i: nat): (r: Value)
    requires Valid(v) && i < RowCount(v)
    ensures Valid(r) && KindOf(r) == KindOf(v)
    ensures Rank(v) == 0 ==> r == v
    ensures Rank(v) > 0 ==> Shape(r) == Shape(v)[1..]
    ensures FlatLen(r) == RowLen(v) && i * RowLen(v) + RowLen(v) <= FlatLen(v)
    ensures forall k :: 0 <= k < FlatLen(r) ==> ElementValue(r, k) == ElementValue(v, i * RowLen(v) + k)
  {
    match v
    case Num(a) => Num(Arrays.Row(a, i))
    case Byte(a) => Byte(Arrays.Row(a, i))
    case Char(a) => Char(Arrays.Row(a, i))
    case Func(a) =>
      RowOfFunctionsValid(a, i);
      Func(Arrays.Row(a, i))
  }

  /** The rows in order (rows, into_rows). */
  function Rows(v: Value): (rs: seq<Value>)
    requires Valid(v)
    ensures |rs| == RowCount(v)
    ensures forall i :: 0 <= i < |rs| ==> rs[i] == Row(v, i)
  {
    seq(RowCount(v), i requires 0 <= i < RowCount(v) => Row(v, i))
  }

  /** The rows from last to first (into_rows_rev). */
  function RowsRev(v: Value): (rs: seq<Value>)
    requires Valid(v)
    ensures |rs| == RowCount(v)
    ensures forall i :: 0 <= i < |rs| ==> rs[i] == Rows(v)[RowCount(v) - 1 - i]
  {
    seq(RowCount(v), i requires 0 <= i < RowCount(v) => Row(v, RowCount(v) - 1 - i))
  }

  /** Whether two shapes agree on every axis both have. */
  function ShapePrefixesMatch(a: Value, b: Value): (r: bool)
    ensures r <==> IsPrefix(Shape(a), Shape(b)) || IsPrefix(Shape(b), Shape(a))
  {
    PrefixesMatchIsPrefix(Shape(a), Shape(b));
    PrefixesMatch(Shape(a), Shape(b))
  }

  /** The single function of a scalar function array (as_function). */
  function AsFunction(v: Value): (r: Option<Function>)
    ensures r.Some? <==> v.Func? && Rank(v) == 0 && FlatLen(v) == 1
    ensures r.Some? ==> v == FromFunction(r.value)
  {
    if v.Func? && |v.funcs.shape| == 0 && |v.funcs.data| == 1 then Some(v.funcs.data[0]) else None
  }

  /** The numbers of a Num or Byte value, bytes read as numbers. */
  function Numbers(v: Value): (r: seq<real>)
    requires IsNumeric(v)
    ensures |r| == FlatLen(v)
  {
    if v.Num? then v.nums.data else BytesToReals(v.bytes.data)
  }

  /** Promotion to Num (the `convert` of a Byte array); other kinds are unchanged. */
  function ToNum(v: Value): (r: Value)
    ensures IsNumeric(v) ==> r.Num? && Shape(r) == Shape(v) && r.nums.data == Numbers(v)
    ensures !v.Byte? ==> r == v
    ensures Valid(v) ==> Valid(r)
  {
    if v.Byte? then Num(Array(v.bytes.shape, BytesToReals(v.bytes.data))) else v
  }
}
