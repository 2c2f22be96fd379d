/**
 * Unary pervasive operations: a decision table from the operand's kind to a
 * per-element kernel, with boxed constants inside function arrays transformed
 * one element at a time and boxed again.
 */
module Unary {
  import opened Wrappers
  import opened Arrays
  import opened Values
  import opened Errors

  datatype UnaryOp = Neg | Not | Abs | Sign | Sqrt | Sin | Cos | Tan | Asin | Acos | Floor | Ceil | Round

  /** The operation's name, as the dispatch table knows it. */
  function OpName(op: UnaryOp): string
  {
    match op
    case Neg => "neg"
    case Not => "not"
    case Abs => "abs"
    case Sign => "sign"
    case Sqrt => "sqrt"
    case Sin => "sin"
    case Cos => "cos"
    case Tan => "tan"
    case Asin => "asin"
    case Acos => "acos"
    case Floor => "floor"
    case Ceil => "ceil"
    case Round => "round"
  }

  /** The operations whose Byte row rewrites the bytes in place, so the result stays Byte. */
  predicate KeepsBytes(op: UnaryOp)
  {
    op == Sign || op == Floor || op == Ceil || op == Round
  }

  /**
   * The scalar kernels, which live outside this model: one for numbers, one for
   * bytes that yields a number, and one for bytes that yields a byte.
   */
  datatype Kernels = Kernels(
    num: (UnaryOp, real) -> real,
    byteToNum: (UnaryOp, byte) -> real,
    byteToByte: (UnaryOp, byte) -> byte)

  /** The result of a unary operation on a value. */
  function Apply(op: UnaryOp, v: Value, k: Kernels): (r: Result<Value, Failure>)
    ensures v.Char? ==> r == Err(UnaryTypeError(OpName(op), "character"))
    ensures v.Num? ==> r.Ok? && r.value.Num? && Shape(r.value) == Shape(v) && FlatLen(r.value) == FlatLen(v)
    ensures v.Byte? && KeepsBytes(op) ==>
              r.Ok? && r.value.Byte? && Shape(r.value) == Shape(v) && FlatLen(r.value) == FlatLen(v)
    ensures v.Byte? && !KeepsBytes(op) ==>
              r.Ok? && r.value.Num? && Shape(r.value) == Shape(v) && FlatLen(r.value) == FlatLen(v)
    ensures v.Func? && r.Ok? ==> r.value.Func? && Shape(r.value) == Shape(v) && FlatLen(r.value) == FlatLen(v)
    ensures Valid(v) && r.Ok? ==> Valid(r.value)
    decreases Depth(v), 1
  {
    match v
    case Num(a) =>
      Ok(Num(Array(a.shape, seq(|a.data|, i requires 0 <= i < |a.data| => k.num(op, a.data[i])))))
    case Byte(a) =>
      if KeepsBytes(op) then
        var bytes := seq<byte>(|a.data|, i requires 0 <= i < |a.data| => k.byteToByte(op, a.data[i]));
        Ok(Byte(Array(a.shape, bytes)))
      else
        var nums: seq<real> := seq(|a.data|, i requires 0 <= i < |a.data| => k.byteToNum(op, a.data[i]));
        Ok(Num(Array(a.shape, nums)))
    case Char(_) => Err(UnaryTypeError(OpName(op), "character"))
    case Func(a) =>
      match ApplyElements(op, a, |a.data|, k)
      case Err(e) => Err(e)
      case Ok(fs) => Ok(Func(Array(a.shape, fs)))
  }

  /**
   * The first `n` elements of a function array, each unboxed, transformed and
   * boxed again; the first element that fails stops the whole operation.
   */
  function ApplyElements(op: UnaryOp, a: Array<Function>, n: nat, k: Kernels): (r: Result<seq<Function>, Failure>)
    requires n <= |a.data|
    ensures r.Ok? ==> |r.value| == n
    ensures r.Ok? ==> forall j :: 0 <= j < n ==> r.value[j].Constant?
    ensures r.Ok? && Valid(Func(a)) ==> forall j :: 0 <= j < n ==> Valid(r.value[j].value)
    decreases Depth(Func(a)), 0, n
  {
    if n == 0 then Ok([])
    else
      match ApplyElements(op, a, n - 1, k)
      case Err(e) => Err(e)
      case Ok(fs) =>
        match a.data[n - 1]
        case Code(_) => Err(UnaryTypeError(OpName(op), "function"))
        case Constant(x) =>
          DepthOfElement(a, n - 1);
          match Apply(op, x, k)
          case Err(e) => Err(e)
          case Ok(y) => Ok(fs + [Constant(y)])
  }

  /** Once an element has failed, looking at more elements does not change the error. */
  lemma {:induction false} ApplyElementsErrorSticks(op: UnaryOp, a: Array<Function>, i: nat, n: nat, k: Kernels)
    requires i <= n <= |a.data| && ApplyElements(op, a, i, k).Err?
    ensures ApplyElements(op, a, n, k) == ApplyElements(op, a, i, k)
    decreases n
  {
    if i < n {
      ApplyElementsErrorSticks(op, a, i, n - 1, k);
    }
  }

  /** Element `f` of a function array is a boxed constant on which the operation succeeds. */
  predicate ElementSucceeds(op: UnaryOp, f: Function, k: Kernels)
  {
    f.Constant? && Apply(op, f.value, k).Ok?
  }

  /**
   * The elements go through exactly when every one is a boxed constant whose
   * operation succeeds.
   */
  lemma {:induction false} ApplyElementsSucceed(op: UnaryOp, a: Array<Function>, n: nat, k: Kernels)
    requires n <= |a.data|
    ensures ApplyElements(op, a, n, k).Ok? <==> forall j :: 0 <= j < n ==> ElementSucceeds(op, a.data[j], k)
  {
    if n > 0 {
      ApplyElementsSucceed(op, a, n - 1, k);
    }
  }

  /** When the elements go through, each result is the boxed result of its element. */
  lemma {:induction false} ApplyElementsResults(op: UnaryOp, a: Array<Function>, n: nat, k: Kernels)
    requires n <= |a.data| && ApplyElements(op, a, n, k).Ok?
    ensures forall j :: 0 <= j < n ==>
              ElementSucceeds(op, a.data[j], k) &&
              ApplyElements(op, a, n, k).value[j] == Constant(Apply(op, a.data[j].value, k).value)
  {
    if n > 0 {
      ApplyElementsResults(op, a, n - 1, k);
    }
  }

  /**
   * An element that is not a boxed constant, reached after elements that all
   * succeed, fails the operation with an error naming "function".
   */
  lemma UnboxableElementFails(op: UnaryOp, a: Array<Function>, j: nat, k: Kernels)
    requires j < |a.data| && a.data[j].Code?
    requires forall i :: 0 <= i < j ==> ElementSucceeds(op, a.data[i], k)
    ensures Apply(op, Func(a), k) == Err(UnaryTypeError(OpName(op), "function"))
  {
    ApplyElementsSucceed(op, a, j, k);
    ApplyElementsErrorSticks(op, a, j + 1, |a.data|, k);
  }

  /** On a box, the operation unboxes, transforms the contents and boxes the result. */
  lemma ApplyToBox(op: UnaryOp, x: Value, k: Kernels)
    ensures Apply(op, Box(x), k) ==
              match Apply(op, x, k)
              case Ok(y) => Ok(Box(y))
              case Err(e) => Err(e)
  {
    var a := Box(x).funcs;
    assert a.data[0] == Constant(x);
    assert ApplyElements(op, a, 0, k) == Ok([]);
    var r := Apply(op, x, k);
    if r.Ok? {
      assert [] + [Constant(r.value)] == [Constant(r.value)];
      assert ApplyElements(op, a, 1, k) == Ok([Constant(r.value)]);
    } else {
      assert ApplyElements(op, a, 1, k) == Err(r.error);
    }
  }

  /** A number array maps each element through the number kernel, in place. */
  lemma ApplyToNumbers(op: UnaryOp, v: Value, k: Kernels)
    requires v.Num?
    ensures forall i :: 0 <= i < FlatLen(v) ==> Apply(op, v, k).value.nums.data[i] == k.num(op, v.nums.data[i])
  {
  }

  /** The in-place loop over a number buffer. */
  method MapNumbers(op: UnaryOp, data: seq<real>, k: Kernels) returns (r: seq<real>)
    ensures |r| == |data|
    ensures forall j :: 0 <= j < |data| ==> r[j] == k.num(op, data[j])
  {
    r := data;
    for i := 0 to |r|
      invariant |r| == |data|
      invariant forall j :: 0 <= j < i ==> r[j] == k.num(op, data[j])
      invariant forall j :: i <= j < |r| ==> r[j] == data[j]
    {
      r := r[i := k.num(op, r[i])];
    }
  }

  /** The in-place loop over a byte buffer, for the operations that keep bytes. */
  method MapBytes(op: UnaryOp, data: seq<byte>, k: Kernels) returns (r: seq<byte>)
    ensures |r| == |data|
    ensures forall j :: 0 <= j < |data| ==> r[j] == k.byteToByte(op, data[j])
  {
    r := data;
    for i := 0 to |r|
      invariant |r| == |data|
      invariant forall j :: 0 <= j < i ==> r[j] == k.byteToByte(op, data[j])
      invariant forall j :: i <= j < |r| ==> r[j] == data[j]
    {
      r := r[i := k.byteToByte(op, r[i])];
    }
  }

  /** The loop that builds a new number buffer from a byte buffer. */
  method BytesToNumbers(op: UnaryOp, data: seq<byte>, k: Kernels) returns (r: seq<real>)
    ensures |r| == |data|
    ensures forall j :: 0 <= j < |data| ==> r[j] == k.byteToNum(op, data[j])
  {
    r := [];
    for i := 0 to |data|
      invariant |r| == i
      invariant forall j :: 0 <= j < i ==> r[j] == k.byteToNum(op, data[j])
    {
      r := r + [k.byteToNum(op, data[i])];
    }
  }

  /** The loop over a function array: unbox, recurse, box again, stop at the first failure. */
  method RunElements(op: UnaryOp, a: Array<Function>, k: Kernels) returns (r: Result<seq<Function>, Failure>)
    ensures r == ApplyElements(op, a, |a.data|, k)
    decreases Depth(Func(a)), 0
  {
    var newData: seq<Function> := [];
    for i := 0 to |a.data|
      invariant ApplyElements(op, a, i, k) == Ok(newData)
    {
      match a.data[i] {
        case Code(_) =>
          ApplyElementsErrorSticks(op, a, i + 1, |a.data|, k);
          return Err(UnaryTypeError(OpName(op), "function"));
        case Constant(x) =>
          DepthOfElement(a, i);
          var y := Run(op, x, k);
          if y.Err? {
            ApplyElementsErrorSticks(op, a, i + 1, |a.data|, k);
            return Err(y.error);
          }
          newData := newData + [Constant(y.value)];
      }
    }
    return Ok(newData);
  }

  /** The operation as the source runs it, one kind at a time. */
  method Run(op: UnaryOp, v: Value, k: Kernels) returns (r: Result<Value, Failure>)
    ensures r == Apply(op, v, k)
    decreases Depth(v), 1
  {
    match v {
      case Num(a) =>
        var data := MapNumbers(op, a.data, k);
        assert data == Apply(op, v, k).value.nums.data;
        return Ok(Num(Array(a.shape, data)));
      case Byte(a) =>
        if KeepsBytes(op) {
          var data := MapBytes(op, a.data, k);
          assert data == Apply(op, v, k).value.bytes.data;
          return Ok(Byte(Array(a.shape, data)));
        } else {
          var data := BytesToNumbers(op, a.data, k);
          assert data == Apply(op, v, k).value.nums.data;
          return Ok(Num(Array(a.shape, data)));
        }
      case Char(_) =>
        return Err(UnaryTypeError(OpName(op), "character"));
      case Func(a) =>
        var fs := RunElements(op, a, k);
        if fs.Err? {
          return Err(fs.error);
        }
        return Ok(Func(Array(a.shape, fs.value)));
    }
  }
}
