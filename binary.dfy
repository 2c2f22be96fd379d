/**
 * Binary pervasive operations: for each operation, a decision table from the
 * pair of operand kinds to a kernel (applied in place or to fresh arrays, with
 * a retry on numbers when a byte operation hits a fill error), then unboxing
 * of a boxed scalar, then element-wise lifting over boxes, then a type error.
 */
module Binary {
  import opened Wrappers
  import opened Arrays
  import opened Values
  import opened Errors

  datatype BinaryOp =
    | Add | Sub | Mul | Div | Modulus | Pow | Log | Atan2 | Min | Max
    | IsEq | IsNe | IsLt | IsLe | IsGt | IsGe

  function OpName(op: BinaryOp): string
  {
    match op
    case Add => "add"
    case Sub => "sub"
    case Mul => "mul"
    case Div => "div"
    case Modulus => "modulus"
    case Pow => "pow"
    case Log => "log"
    case Atan2 => "atan2"
    case Min => "min"
    case Max => "max"
    case IsEq => "is_eq"
    case IsNe => "is_ne"
    case IsLt => "is_lt"
    case IsLe => "is_le"
    case IsGt => "is_gt"
    case IsGe => "is_ge"
  }

  predicate IsComparison(op: BinaryOp)
  {
    op == IsEq || op == IsNe || op == IsLt || op == IsLe || op == IsGt || op == IsGe
  }

  /** The scalar kernels a table row can name. */
  datatype Kernel =
    | NumNum | NumChar | CharNum | ByteByte | ByteChar | CharByte | ByteNum | NumByte | CharChar
    | Generic | AlwaysLess | AlwaysGreater

  /**
   * A table row: a kernel that rewrites the left array in place, or a kernel
   * that builds a new array, optionally with a kernel to retry on numbers.
   */
  datatype TableRow = InPlace(kernel: Kernel) | Typed(kernel: Kernel, retry: Option<Kernel>)

  /** The rows shared by mul, div, modulus, pow and log (and, with a Char row, min and max). */
  function ArithmeticRow(ka: Kind, kb: Kind): Option<TableRow>
  {
    match (ka, kb)
    case (NumKind, NumKind) => Some(InPlace(NumNum))
    case (ByteKind, ByteKind) => Some(Typed(ByteByte, Some(NumNum)))
    case (ByteKind, NumKind) => Some(Typed(ByteNum, Some(NumNum)))
    case (NumKind, ByteKind) => Some(Typed(NumByte, Some(NumNum)))
    case _ => None
  }

  /** The rows of the six comparisons. */
  function ComparisonRow(ka: Kind, kb: Kind): Option<TableRow>
  {
    match (ka, kb)
    case (NumKind, NumKind) => Some(Typed(NumNum, None))
    case (ByteKind, ByteKind) => Some(Typed(Generic, Some(NumNum)))
    case (CharKind, CharKind) => Some(Typed(Generic, None))
    case (FuncKind, FuncKind) => Some(Typed(Generic, None))
    case (NumKind, ByteKind) => Some(Typed(NumByte, Some(NumNum)))
    case (ByteKind, NumKind) => Some(Typed(ByteNum, Some(NumNum)))
    case (NumKind, CharKind) => Some(Typed(AlwaysLess, None))
    case (ByteKind, CharKind) => Some(Typed(AlwaysLess, None))
    case (CharKind, NumKind) => Some(Typed(AlwaysGreater, None))
    case (CharKind, ByteKind) => Some(Typed(AlwaysGreater, None))
    case _ => None
  }

  /** The decision table: the row an operation has for a pair of kinds, if any. */
  function Row(op: BinaryOp, ka: Kind, kb: Kind): (r: Option<TableRow>)
    ensures r.Some? && (ka == FuncKind || kb == FuncKind) ==> IsComparison(op) && ka == kb
    ensures r.Some? && r.value.InPlace? ==> ka == kb && (ka == NumKind || ka == CharKind)
    ensures ka == NumKind && kb == NumKind ==> r.Some?
  {
    match op
    case Add =>
      (match (ka, kb)
       case (NumKind, CharKind) => Some(Typed(NumChar, None))
       case (CharKind, NumKind) => Some(Typed(CharNum, None))
       case (ByteKind, CharKind) => Some(Typed(ByteChar, None))
       case (CharKind, ByteKind) => Some(Typed(CharByte, None))
       case _ => ArithmeticRow(ka, kb))
    case Sub =>
      (match (ka, kb)
       case (NumKind, CharKind) => Some(Typed(NumChar, None))
       case (CharKind, CharKind) => Some(Typed(CharChar, None))
       case (ByteKind, CharKind) => Some(Typed(ByteChar, None))
       case _ => ArithmeticRow(ka, kb))
    case Atan2 => if ka == NumKind && kb == NumKind then Some(Typed(NumNum, None)) else None
    case Min => if ka == CharKind && kb == CharKind then Some(InPlace(CharChar)) else ArithmeticRow(ka, kb)
    case Max => if ka == CharKind && kb == CharKind then Some(InPlace(CharChar)) else ArithmeticRow(ka, kb)
    case Mul => ArithmeticRow(ka, kb)
    case Div => ArithmeticRow(ka, kb)
    case Modulus => ArithmeticRow(ka, kb)
    case Pow => ArithmeticRow(ka, kb)
    case Log => ArithmeticRow(ka, kb)
    case _ => ComparisonRow(ka, kb)
  }

  /**
   * bin_pervade and bin_pervade_mut with a table kernel, which live outside this
   * model: they broadcast the operands and apply the kernel, or fail, possibly
   * with an error that a fill value could have avoided.
   */
  type Pervade = (BinaryOp, Kernel, Value, Value) -> Result<Value, Failure>

  /** When a typed row's result is replaced by the retry on numbers. */
  predicate RetryApplies(op: BinaryOp, kernel: Kernel, retry: Option<Kernel>, a: Value, b: Value,
                         numFill: bool, pervade: Pervade)
  {
    (a.Byte? || b.Byte?) && numFill && retry.Some? &&
    pervade(op, kernel, a, b).Err? && IsFill(pervade(op, kernel, a, b).error)
  }

  /**
   * A typed row. With a byte operand and a numeric fill in context the kernel is
   * tried first; a fill error then falls back to the retry kernel on both
   * operands promoted to numbers, if the row names one.
   */
  function RunTyped(op: BinaryOp, kernel: Kernel, retry: Option<Kernel>, a: Value, b: Value,
                    numFill: bool, pervade: Pervade): (r: Result<Value, Failure>)
    ensures RetryApplies(op, kernel, retry, a, b, numFill, pervade) ==>
              r == pervade(op, retry.value, ToNum(a), ToNum(b))
    ensures !RetryApplies(op, kernel, retry, a, b, numFill, pervade) ==> r == pervade(op, kernel, a, b)
  {
    if (a.Byte? || b.Byte?) && numFill then
      match pervade(op, kernel, a, b)
      case Ok(v) => Ok(v)
      case Err(e) =>
        if IsFill(e) then
          if retry.Some? then pervade(op, retry.value, ToNum(a), ToNum(b)) else Err(e)
        else Err(e)
    else
      pervade(op, kernel, a, b)
  }

  // Broadcasting on the box path: shapes must agree on their common prefix, and
  // the shorter operand's element is reused across the longer one's trailing axes.

  predicate Broadcastable(sa: seq<nat>, sb: seq<nat>)
  {
    IsPrefix(sa, sb) || IsPrefix(sb, sa)
  }

  function BroadcastShape(sa: seq<nat>, sb: seq<nat>): seq<nat>
  {
    if IsPrefix(sa, sb) then sb else sa
  }

  function LeftIndex(sa: seq<nat>, sb: seq<nat>, j: nat): nat
    requires Broadcastable(sa, sb)
  {
    if IsPrefix(sa, sb) then
      var m := Product(sb[|sa|..]);
      if m == 0 then 0 else j / m
    else j
  }

  function RightIndex(sa: seq<nat>, sb: seq<nat>, j: nat): nat
    requires Broadcastable(sa, sb)
  {
    if IsPrefix(sa, sb) then j
    else
      var m := Product(sa[|sb|..]);
      if m == 0 then 0 else j / m
  }

  /** Each position of the broadcast result takes an element that exists on both sides. */
  lemma BroadcastIndexInRange(sa: seq<nat>, sb: seq<nat>, j: nat)
    requires Broadcastable(sa, sb) && j < Product(BroadcastShape(sa, sb))
    ensures LeftIndex(sa, sb, j) < Product(sa)
    ensures RightIndex(sa, sb, j) < Product(sb)
  {
    if IsPrefix(sa, sb) {
      ProductOfPrefix(sa, sb);
      DivBelow(j, Product(sa), Product(sb[|sa|..]));
    } else {
      ProductOfPrefix(sb, sa);
      DivBelow(j, Product(sb), Product(sa[|sb|..]));
    }
  }

  /** With equal shapes, broadcasting pairs each element with the one at the same position. */
  lemma BroadcastSameShape(s: seq<nat>, j: nat)
    ensures Broadcastable(s, s) && BroadcastShape(s, s) == s
    ensures LeftIndex(s, s, j) == j && RightIndex(s, s, j) == j
  {
    assert s[|s|..] == [];
  }

  /** A boxed element of a coerced operand is no more nested than the operand, and less if it was a function array. */
  lemma CoercedElementDepth(v: Value, i: nat)
    requires i < FlatLen(v) && CoerceToFunction(v).data[i].Constant?
    ensures Depth(CoerceToFunction(v).data[i].value) <= Depth(v)
    ensures v.Func? ==> Depth(CoerceToFunction(v).data[i].value) < Depth(v)
  {
    if v.Func? {
      DepthOfElement(v.funcs, i);
    }
  }

  /** The result of a binary operation. */
  function Apply(op: BinaryOp, a: Value, b: Value, numFill: bool, pervade: Pervade): (r: Result<Value, Failure>)
    requires Valid(a) && Valid(b)
    ensures Row(op, KindOf(a), KindOf(b)).None? && !a.Func? && !b.Func? ==>
              r == Err(BinaryTypeError(OpName(op), TypeName(a), TypeName(b)))
    ensures Row(op, KindOf(a), KindOf(b)).Some? && Row(op, KindOf(a), KindOf(b)).value.InPlace? ==>
              r == pervade(op, Row(op, KindOf(a), KindOf(b)).value.kernel, a, b)
    decreases Depth(a) + Depth(b), 3
  {
    match Row(op, KindOf(a), KindOf(b))
    case Some(InPlace(kernel)) => pervade(op, kernel, a, b)
    case Some(Typed(kernel, retry)) => RunTyped(op, kernel, retry, a, b, numFill, pervade)
    case None =>
      if a.Func? then
        match Unboxed(a.funcs)
        case Some(x) => Apply(op, x, b, numFill, pervade)
        case None => Lift(op, a, b, numFill, pervade)
      else if b.Func? then
        match Unboxed(b.funcs)
        case Some(y) => Apply(op, a, y, numFill, pervade)
        case None => Lift(op, a, b, numFill, pervade)
      else
        Err(BinaryTypeError(OpName(op), TypeName(a), TypeName(b)))
  }

  /**
   * With no table row, a function operand that is not a box sends the operation
   * to element-wise lifting: on the left first, and on the right only when the
   * left operand is not a function array.
   */
  lemma UnboxableGoesToLift(op: BinaryOp, a: Value, b: Value, numFill: bool, pervade: Pervade)
    requires Valid(a) && Valid(b) && Row(op, KindOf(a), KindOf(b)).None?
    requires (a.Func? && Unboxed(a.funcs).None?) || (!a.Func? && b.Func? && Unboxed(b.funcs).None?)
    ensures Apply(op, a, b, numFill, pervade) == Lift(op, a, b, numFill, pervade)
  {
  }

  /**
   * Lifting over boxes: both operands as function arrays, broadcast, and every
   * pair of elements must be boxes whose contents the operation combines.
   */
  function Lift(op: BinaryOp, a: Value, b: Value, numFill: bool, pervade: Pervade): (r: Result<Value, Failure>)
    requires Valid(a) && Valid(b) && (a.Func? || b.Func?)
    ensures !Broadcastable(Shape(a), Shape(b)) ==> r == Err(ShapeMismatch(Shape(a), Shape(b)))
    ensures r.Ok? ==> r.value.Func? && Shape(r.value) == BroadcastShape(Shape(a), Shape(b))
    decreases Depth(a) + Depth(b), 2
  {
    var fa := CoerceToFunction(a);
    var fb := CoerceToFunction(b);
    if !Broadcastable(fa.shape, fb.shape) then
      Err(ShapeMismatch(fa.shape, fb.shape))
    else
      var shape := BroadcastShape(fa.shape, fb.shape);
      match LiftElements(op, a, b, Product(shape), numFill, pervade)
      case Err(e) => Err(e)
      case Ok(fs) => Ok(Func(Array(shape, fs)))
  }

  /** The boxed contents paired at position `j` of the broadcast result, or the error for a non-box. */
  function LiftPair(a: Value, b: Value, j: nat): (r: Result<(Value, Value), Failure>)
    requires Valid(a) && Valid(b)
    requires Broadcastable(Shape(a), Shape(b)) && j < Product(BroadcastShape(Shape(a), Shape(b)))
    ensures r.Ok? ==> Valid(r.value.0) && Valid(r.value.1)
    ensures r.Ok? && (a.Func? || b.Func?) ==> Depth(r.value.0) + Depth(r.value.1) < Depth(a) + Depth(b)
  {
    var fa := CoerceToFunction(a);
    var fb := CoerceToFunction(b);
    ValidFlatLen(a);
    ValidFlatLen(b);
    BroadcastIndexInRange(fa.shape, fb.shape, j);
    var ia := LeftIndex(fa.shape, fb.shape, j);
    var ib := RightIndex(fa.shape, fb.shape, j);
    if !fa.data[ia].Constant? then Err(Message("First argument is not a box"))
    else if !fb.data[ib].Constant? then Err(Message("Second argument is not a box"))
    else
      CoercedElementDepth(a, ia);
      CoercedElementDepth(b, ib);
      Ok((fa.data[ia].value, fb.data[ib].value))
  }

  /** Position `j` of a lifted result: the box of the operation on the paired contents. */
  function LiftStep(op: BinaryOp, a: Value, b: Value, j: nat, numFill: bool, pervade: Pervade)
    : (r: Result<Function, Failure>)
    requires Valid(a) && Valid(b) && (a.Func? || b.Func?)
    requires Broadcastable(Shape(a), Shape(b)) && j < Product(BroadcastShape(Shape(a), Shape(b)))
    ensures r.Ok? ==> r.value.Constant?
    decreases Depth(a) + Depth(b), 0
  {
    match LiftPair(a, b, j)
    case Err(e) => Err(e)
    case Ok(pair) =>
      match Apply(op, pair.0, pair.1, numFill, pervade)
      case Err(e) => Err(e)
      case Ok(v) => Ok(Constant(v))
  }

  /** The first `n` elements of a lifted result; the first failure stops the operation. */
  function LiftElements(op: BinaryOp, a: Value, b: Value, n: nat, numFill: bool, pervade: Pervade)
    : (r: Result<seq<Function>, Failure>)
    requires Valid(a) && Valid(b) && (a.Func? || b.Func?)
    requires Broadcastable(Shape(a), Shape(b)) && n <= Product(BroadcastShape(Shape(a), Shape(b)))
    ensures r.Ok? ==> |r.value| == n
    decreases Depth(a) + Depth(b), 1, n
  {
    if n == 0 then Ok([])
    else
      match LiftElements(op, a, b, n - 1, numFill, pervade)
      case Err(e) => Err(e)
      case Ok(fs) =>
        match LiftStep(op, a, b, n - 1, numFill, pervade)
        case Err(e) => Err(e)
        case Ok(f) => Ok(fs + [f])
  }

  /** Every one of the first `n` positions of a lifted result goes through. */
  predicate StepsSucceed(op: BinaryOp, a: Value, b: Value, n: nat, numFill: bool, pervade: Pervade)
    requires Valid(a) && Valid(b) && (a.Func? || b.Func?)
    requires Broadcastable(Shape(a), Shape(b)) && n <= Product(BroadcastShape(Shape(a), Shape(b)))
  {
    forall j :: 0 <= j < n ==> LiftStep(op, a, b, j, numFill, pervade).Ok?
  }

  /** When every position goes through, so does the lifted result. */
  lemma {:induction false} LiftElementsSucceed(op: BinaryOp, a: Value, b: Value, n: nat, numFill: bool, pervade: Pervade)
    requires Valid(a) && Valid(b) && (a.Func? || b.Func?)
    requires Broadcastable(Shape(a), Shape(b)) && n <= Product(BroadcastShape(Shape(a), Shape(b)))
    ensures StepsSucceed(op, a, b, n, numFill, pervade) ==> LiftElements(op, a, b, n, numFill, pervade).Ok?
  {
    if n > 0 {
      LiftElementsSucceed(op, a, b, n - 1, numFill, pervade);
    }
  }

  /** Each element of a lifted result is its position's box. */
  lemma {:induction false} LiftElementsResults(op: BinaryOp, a: Value, b: Value, n: nat, numFill: bool, pervade: Pervade)
    requires Valid(a) && Valid(b) && (a.Func? || b.Func?)
    requires Broadcastable(Shape(a), Shape(b)) && n <= Product(BroadcastShape(Shape(a), Shape(b)))
    ensures LiftElements(op, a, b, n, numFill, pervade).Ok? ==>
            forall j :: 0 <= j < n ==>
              LiftStep(op, a, b, j, numFill, pervade).Ok? &&
              LiftElements(op, a, b, n, numFill, pervade).value[j] == LiftStep(op, a, b, j, numFill, pervade).value
  {
    if n > 0 {
      LiftElementsResults(op, a, b, n - 1, numFill, pervade);
    }
  }

  /** Lifting with broadcastable shapes is the broadcast array of the lifted elements. */
  lemma LiftUnfold(op: BinaryOp, a: Value, b: Value, numFill: bool, pervade: Pervade)
    requires Valid(a) && Valid(b) && (a.Func? || b.Func?) && Broadcastable(Shape(a), Shape(b))
    ensures var shape := BroadcastShape(Shape(a), Shape(b));
            var elements := LiftElements(op, a, b, Product(shape), numFill, pervade);
            Lift(op, a, b, numFill, pervade) ==
              if elements.Ok? then Ok(Func(Array(shape, elements.value))) else Err(elements.error)
  {
    assert CoerceToFunction(a).shape == Shape(a) && CoerceToFunction(b).shape == Shape(b);
  }

  /** Lifting over boxes goes through exactly when the shapes broadcast and every position does. */
  lemma LiftSucceeds(op: BinaryOp, a: Value, b: Value, numFill: bool, pervade: Pervade)
    requires Valid(a) && Valid(b) && (a.Func? || b.Func?)
    ensures Lift(op, a, b, numFill, pervade).Ok? <==>
              Broadcastable(Shape(a), Shape(b)) &&
              StepsSucceed(op, a, b, Product(BroadcastShape(Shape(a), Shape(b))), numFill, pervade)
  {
    if Broadcastable(Shape(a), Shape(b)) {
      var n := Product(BroadcastShape(Shape(a), Shape(b)));
      LiftUnfold(op, a, b, numFill, pervade);
      LiftElementsResults(op, a, b, n, numFill, pervade);
      LiftElementsSucceed(op, a, b, n, numFill, pervade);
    }
  }

  /** Each element of a lifted result is its position's box. */
  lemma LiftResults(op: BinaryOp, a: Value, b: Value, numFill: bool, pervade: Pervade)
    requires Valid(a) && Valid(b) && (a.Func? || b.Func?) && Lift(op, a, b, numFill, pervade).Ok?
    ensures Broadcastable(Shape(a), Shape(b))
    ensures |Lift(op, a, b, numFill, pervade).value.funcs.data| == Product(BroadcastShape(Shape(a), Shape(b)))
    ensures forall j :: 0 <= j < Product(BroadcastShape(Shape(a), Shape(b))) ==>
              LiftStep(op, a, b, j, numFill, pervade).Ok? &&
              Lift(op, a, b, numFill, pervade).value.funcs.data[j] == LiftStep(op, a, b, j, numFill, pervade).value
  {
    var n := Product(BroadcastShape(Shape(a), Shape(b)));
    LiftUnfold(op, a, b, numFill, pervade);
    LiftElementsResults(op, a, b, n, numFill, pervade);
  }

  /** A position whose left element is not a box fails with the first-argument error. */
  lemma LeftNotABox(op: BinaryOp, a: Value, b: Value, j: nat, numFill: bool, pervade: Pervade)
    requires Valid(a) && Valid(b) && a.Func?
    requires Broadcastable(Shape(a), Shape(b)) && j < Product(BroadcastShape(Shape(a), Shape(b)))
    requires LeftIndex(Shape(a), Shape(b), j) < |a.funcs.data| && a.funcs.data[LeftIndex(Shape(a), Shape(b), j)].Code?
    ensures LiftStep(op, a, b, j, numFill, pervade) == Err(Message("First argument is not a box"))
  {
  }

  /**
   * With equal shapes and a non-function right operand, position `j` combines
   * the contents of box `j` with element `j` of the right operand.
   */
  lemma LiftStepSameShape(op: BinaryOp, a: Value, b: Value, j: nat, numFill: bool, pervade: Pervade)
    requires Valid(a) && Valid(b) && a.Func? && !b.Func? && Shape(a) == Shape(b)
    requires j < |a.funcs.data| && a.funcs.data[j].Constant?
    ensures Product(BroadcastShape(Shape(a), Shape(b))) == |a.funcs.data| && j < FlatLen(b)
    ensures LiftStep(op, a, b, j, numFill, pervade) ==
              match Apply(op, a.funcs.data[j].value, ElementValue(b, j), numFill, pervade)
              case Ok(v) => Ok(Constant(v))
              case Err(e) => Err(e)
  {
    BroadcastSameShape(Shape(a), j);
    ValidFlatLen(a);
    ValidFlatLen(b);
  }

  // The decision tables.

  /** Only rows with a Byte side name a retry, and the retry is always the number kernel. */
  lemma RetryRowsHaveByteSide(op: BinaryOp, ka: Kind, kb: Kind)
    ensures Row(op, ka, kb).Some? && Row(op, ka, kb).value.Typed? && Row(op, ka, kb).value.retry.Some? ==>
              (ka == ByteKind || kb == ByteKind) && Row(op, ka, kb).value.retry.value == NumNum
  {
  }

  /** Arithmetic has no row for function arrays, so those always go to unboxing or lifting. */
  lemma ArithmeticHasNoFunctionRows(op: BinaryOp, ka: Kind, kb: Kind)
    requires !IsComparison(op) && (ka == FuncKind || kb == FuncKind)
    ensures Row(op, ka, kb).None?
  {
  }

  /**
   * Comparisons have a row for every pair of non-function kinds and for two
   * function arrays; numbers are always less than characters.
   */
  lemma ComparisonsCoverKinds(op: BinaryOp, ka: Kind, kb: Kind)
    requires IsComparison(op)
    ensures Row(op, ka, kb).Some? <==> (ka == FuncKind <==> kb == FuncKind)
    ensures (ka == NumKind || ka == ByteKind) && kb == CharKind ==> Row(op, ka, kb) == Some(Typed(AlwaysLess, None))
    ensures ka == CharKind && (kb == NumKind || kb == ByteKind) ==> Row(op, ka, kb) == Some(Typed(AlwaysGreater, None))
  {
  }

  /** sub has no row for a character minus a number: it is a type error. */
  lemma SubCharNumFails(a: Value, b: Value, numFill: bool, pervade: Pervade)
    requires Valid(a) && Valid(b) && a.Char? && b.Num?
    ensures Apply(Sub, a, b, numFill, pervade) == Err(BinaryTypeError("sub", "character", "number"))
  {
  }

  /** atan2 is defined on two number arrays only. */
  lemma Atan2OnlyNumbers(a: Value, b: Value, numFill: bool, pervade: Pervade)
    requires Valid(a) && Valid(b) && !a.Func? && !b.Func? && !(a.Num? && b.Num?)
    ensures Apply(Atan2, a, b, numFill, pervade) == Err(BinaryTypeError("atan2", TypeName(a), TypeName(b)))
  {
  }

  // Retrying on numbers.

  /** A typed row's result is the retry on numbers exactly when the retry applies, and the kernel's otherwise. */
  lemma TypedRowRetry(op: BinaryOp, a: Value, b: Value, numFill: bool, pervade: Pervade)
    requires Valid(a) && Valid(b)
    requires Row(op, KindOf(a), KindOf(b)).Some? && Row(op, KindOf(a), KindOf(b)).value.Typed?
    ensures var row := Row(op, KindOf(a), KindOf(b)).value;
            RetryApplies(op, row.kernel, row.retry, a, b, numFill, pervade) ==>
              Apply(op, a, b, numFill, pervade) == pervade(op, row.retry.value, ToNum(a), ToNum(b))
    ensures var row := Row(op, KindOf(a), KindOf(b)).value;
            !RetryApplies(op, row.kernel, row.retry, a, b, numFill, pervade) ==>
              Apply(op, a, b, numFill, pervade) == pervade(op, row.kernel, a, b)
  {
    var row := Row(op, KindOf(a), KindOf(b)).value;
    assert Apply(op, a, b, numFill, pervade) == RunTyped(op, row.kernel, row.retry, a, b, numFill, pervade);
  }

  /** Without a numeric fill in context, a typed row never retries. */
  lemma NoFillNoRetry(op: BinaryOp, a: Value, b: Value, pervade: Pervade)
    requires Valid(a) && Valid(b)
    requires Row(op, KindOf(a), KindOf(b)).Some? && Row(op, KindOf(a), KindOf(b)).value.Typed?
    ensures Apply(op, a, b, false, pervade) == pervade(op, Row(op, KindOf(a), KindOf(b)).value.kernel, a, b)
  {
    TypedRowRetry(op, a, b, false, pervade);
  }

  // Unboxing.

  /** A boxed scalar on the left with no table row is unboxed and the operation repeated. */
  lemma BoxOnLeftUnwraps(op: BinaryOp, a: Value, b: Value, numFill: bool, pervade: Pervade)
    requires Valid(a) && Valid(b) && a.Func? && Row(op, KindOf(a), KindOf(b)).None?
    requires Unboxed(a.funcs).Some?
    ensures Valid(Unboxed(a.funcs).value)
    ensures Apply(op, a, b, numFill, pervade) == Apply(op, Unboxed(a.funcs).value, b, numFill, pervade)
  {
  }

  /** A boxed scalar on the right of a non-function value is unboxed likewise. */
  lemma BoxOnRightUnwraps(op: BinaryOp, a: Value, b: Value, numFill: bool, pervade: Pervade)
    requires Valid(a) && Valid(b) && !a.Func? && b.Func? && Row(op, KindOf(a), KindOf(b)).None?
    requires Unboxed(b.funcs).Some?
    ensures Valid(Unboxed(b.funcs).value)
    ensures Apply(op, a, b, numFill, pervade) == Apply(op, a, Unboxed(b.funcs).value, numFill, pervade)
  {
  }
}
