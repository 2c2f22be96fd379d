/**
 * Equality, the total order across kinds, and what hashing feeds the hasher.
 * Num and Byte form one group compared by number; Char sorts after them and
 * Func after Char.
 */
module Order {
  import opened Arrays
  import opened Values
  import opened Compression

  datatype Ordering = Less | Equal | Greater

  function Flip(o: Ordering): (r: Ordering)
    ensures r == Less <==> o == Greater
    ensures r == Greater <==> o == Less
  {
    match o
    case Less => Greater
    case Equal => Equal
    case Greater => Less
  }

  /** Lexicographic comparison of two number sequences; a proper prefix sorts first. */
  function LexCmp(s: seq<real>, t: seq<real>): Ordering
  {
    if |s| == 0 && |t| == 0 then Equal
    else if |s| == 0 then Less
    else if |t| == 0 then Greater
    else if s[0] < t[0] then Less
    else if s[0] > t[0] then Greater
    else LexCmp(s[1..], t[1..])
  }

  lemma {:induction false} LexCmpFlip(s: seq<real>, t: seq<real>)
    ensures LexCmp(t, s) == Flip(LexCmp(s, t))
  {
    if |s| > 0 && |t| > 0 && s[0] == t[0] {
      LexCmpFlip(s[1..], t[1..]);
    }
  }

  lemma {:induction false} LexCmpEqual(s: seq<real>, t: seq<real>)
    ensures LexCmp(s, t) == Equal <==> s == t
  {
    if |s| > 0 && |t| > 0 && s[0] == t[0] {
      LexCmpEqual(s[1..], t[1..]);
      if s[1..] == t[1..] {
        assert s == [s[0]] + s[1..] && t == [t[0]] + t[1..];
      }
    }
  }

  lemma {:induction false} LexCmpTransitive(s: seq<real>, t: seq<real>, u: seq<real>)
    requires LexCmp(s, t) == Less && LexCmp(t, u) == Less
    ensures LexCmp(s, u) == Less
  {
    if |s| > 0 && |t| > 0 && |u| > 0 && s[0] == t[0] && t[0] == u[0] {
      LexCmpTransitive(s[1..], t[1..], u[1..]);
    }
  }

  /**
   * What transitivity demands of three comparisons: `ab` of x with y, `bc` of y
   * with z, and `ac` of x with z.
   */
  predicate TransitiveOn(ab: Ordering, bc: Ordering, ac: Ordering)
  {
    (ab == Less && bc == Less ==> ac == Less) &&
    (ab == Less && bc == Equal ==> ac == Less) &&
    (ab == Equal && bc == Less ==> ac == Less) &&
    (ab == Equal && bc == Equal ==> ac == Equal)
  }

  /** The element order is transitive, Equal included. */
  lemma LexCmpTransitiveOn(s: seq<real>, t: seq<real>, u: seq<real>)
    ensures TransitiveOn(LexCmp(s, t), LexCmp(t, u), LexCmp(s, u))
  {
    LexCmpEqual(s, t);
    LexCmpEqual(t, u);
    LexCmpEqual(s, u);
    if LexCmp(s, t) == Less && LexCmp(t, u) == Less {
      LexCmpTransitive(s, t, u);
    }
  }

  /**
   * The order of Array's own Ord, which lives outside this model: shapes first,
   * then the elements, both lexicographically, elements read as numbers.
   */
  function ArrayCmp(sa: seq<nat>, da: seq<real>, sb: seq<nat>, db: seq<real>): Ordering
  {
    var c := LexCmp(NatsToReals(sa), NatsToReals(sb));
    if c != Equal then c else LexCmp(da, db)
  }

  lemma ArrayCmpFlip(sa: seq<nat>, da: seq<real>, sb: seq<nat>, db: seq<real>)
    ensures ArrayCmp(sb, db, sa, da) == Flip(ArrayCmp(sa, da, sb, db))
  {
    LexCmpFlip(NatsToReals(sa), NatsToReals(sb));
    LexCmpFlip(da, db);
  }

  lemma ArrayCmpEqual(sa: seq<nat>, da: seq<real>, sb: seq<nat>, db: seq<real>)
    ensures ArrayCmp(sa, da, sb, db) == Equal <==> sa == sb && da == db
  {
    LexCmpEqual(NatsToReals(sa), NatsToReals(sb));
    LexCmpEqual(da, db);
    if NatsToReals(sa) == NatsToReals(sb) {
      NatsToRealsInjective(sa, sb);
    }
  }

  /** The array order is transitive. */
  lemma ArrayCmpTransitive(sa: seq<nat>, da: seq<real>, sb: seq<nat>, db: seq<real>, sc: seq<nat>, dc: seq<real>)
    ensures TransitiveOn(ArrayCmp(sa, da, sb, db), ArrayCmp(sb, db, sc, dc), ArrayCmp(sa, da, sc, dc))
  {
    LexCmpTransitiveOn(NatsToReals(sa), NatsToReals(sb), NatsToReals(sc));
    LexCmpTransitiveOn(da, db, dc);
  }

  /** The kind group a value sorts in: numbers, then characters, then functions. */
  function Group(v: Value): nat
  {
    match v
    case Num(_) => 0
    case Byte(_) => 0
    case Char(_) => 1
    case Func(_) => 2
  }

  /**
   * Ord for values. `funcCmp` is the order of function arrays, which depends on
   * Function's own order and is not part of this model.
   */
  function Cmp(a: Value, b: Value, funcCmp: (Array<Function>, Array<Function>) -> Ordering): (r: Ordering)
    ensures Group(a) < Group(b) ==> r == Less
    ensures Group(a) > Group(b) ==> r == Greater
    ensures a.Func? && b.Func? ==> r == funcCmp(a.funcs, b.funcs)
  {
    match (a, b)
    case (Num(x), Num(y)) => ArrayCmp(x.shape, x.data, y.shape, y.data)
    case (Byte(x), Byte(y)) => ArrayCmp(x.shape, BytesToReals(x.data), y.shape, BytesToReals(y.data))
    case (Char(x), Char(y)) => ArrayCmp(x.shape, CharsToReals(x.data), y.shape, CharsToReals(y.data))
    case (Func(x), Func(y)) => funcCmp(x, y)
    case (Num(x), Byte(y)) => ArrayCmp(x.shape, x.data, y.shape, BytesToReals(y.data))
    case (Byte(x), Num(y)) => ArrayCmp(x.shape, BytesToReals(x.data), y.shape, y.data)
    case (Num(_), _) => Less
    case (_, Num(_)) => Greater
    case (Byte(_), _) => Less
    case (_, Byte(_)) => Greater
    case (Char(_), _) => Less
    case (_, Char(_)) => Greater
  }

  /** PartialEq for values: same kinds compare arrays, Num against Byte compares numbers. */
  function ValueEq(a: Value, b: Value): (r: bool)
    ensures Group(a) != Group(b) ==> !r
    ensures a.Char? && b.Char? ==> (r <==> a == b)
    ensures a.Func? && b.Func? ==> (r <==> a == b)
  {
    match (a, b)
    case (Num(x), Num(y)) => x == y
    case (Byte(x), Byte(y)) => x == y
    case (Char(x), Char(y)) => x == y
    case (Func(x), Func(y)) => x == y
    case (Num(x), Byte(y)) => x.shape == y.shape && x.data == BytesToReals(y.data)
    case (Byte(x), Num(y)) => x.shape == y.shape && BytesToReals(x.data) == y.data
    case _ => false
  }

  /** Two numeric values are equal exactly when their shapes and their numbers agree. */
  lemma EqNumeric(a: Value, b: Value)
    requires IsNumeric(a) && IsNumeric(b)
    ensures ValueEq(a, b) <==> Shape(a) == Shape(b) && Numbers(a) == Numbers(b)
  {
    if a.Byte? && b.Byte? && BytesToReals(a.bytes.data) == BytesToReals(b.bytes.data) {
      BytesToRealsInjective(a.bytes.data, b.bytes.data);
    }
  }

  lemma EqReflexive(v: Value)
    ensures ValueEq(v, v)
  {
  }

  lemma EqSymmetric(a: Value, b: Value)
    ensures ValueEq(a, b) == ValueEq(b, a)
  {
  }

  /** Equality is transitive, also through a chain that crosses between Num and Byte. */
  lemma EqTransitive(a: Value, b: Value, c: Value)
    requires ValueEq(a, b) && ValueEq(b, c)
    ensures ValueEq(a, c)
  {
    if IsNumeric(a) {
      EqNumeric(a, b);
      EqNumeric(b, c);
      EqNumeric(a, c);
    }
  }

  /** A Num value is compared with a Byte value by promoting the bytes to numbers. */
  lemma CmpNumByteNumeric(a: Value, b: Value, funcCmp: (Array<Function>, Array<Function>) -> Ordering)
    requires IsNumeric(a) && IsNumeric(b)
    ensures Cmp(a, b, funcCmp) == Cmp(ToNum(a), ToNum(b), funcCmp)
    ensures Cmp(a, b, funcCmp) == ArrayCmp(Shape(a), Numbers(a), Shape(b), Numbers(b))
  {
  }

  /**
   * Swapping the operands reverses the order, given that the order of function
   * arrays does so too.
   */
  lemma CmpFlip(a: Value, b: Value, funcCmp: (Array<Function>, Array<Function>) -> Ordering)
    requires a.Func? && b.Func? ==> funcCmp(b.funcs, a.funcs) == Flip(funcCmp(a.funcs, b.funcs))
    ensures Cmp(b, a, funcCmp) == Flip(Cmp(a, b, funcCmp))
  {
    if Group(a) == Group(b) && !a.Func? {
      ArrayCmpFlip(Shape(a), Reals(a), Shape(b), Reals(b));
    }
  }

  /**
   * The order across kinds is transitive, given that the order of function
   * arrays is transitive on the function arrays among the three values.
   */
  lemma CmpTransitive(a: Value, b: Value, c: Value, funcCmp: (Array<Function>, Array<Function>) -> Ordering)
    requires a.Func? && b.Func? && c.Func? ==>
               TransitiveOn(funcCmp(a.funcs, b.funcs), funcCmp(b.funcs, c.funcs), funcCmp(a.funcs, c.funcs))
    ensures TransitiveOn(Cmp(a, b, funcCmp), Cmp(b, c, funcCmp), Cmp(a, c, funcCmp))
  {
    if Group(a) == Group(b) == Group(c) && !a.Func? {
      assert Cmp(a, b, funcCmp) == ArrayCmp(Shape(a), Reals(a), Shape(b), Reals(b));
      assert Cmp(b, c, funcCmp) == ArrayCmp(Shape(b), Reals(b), Shape(c), Reals(c));
      assert Cmp(a, c, funcCmp) == ArrayCmp(Shape(a), Reals(a), Shape(c), Reals(c));
      ArrayCmpTransitive(Shape(a), Reals(a), Shape(b), Reals(b), Shape(c), Reals(c));
    }
  }

  /** The elements of a non-function value as numbers (characters by code point). */
  function Reals(v: Value): (r: seq<real>)
    requires !v.Func?
    ensures IsNumeric(v) ==> r == Numbers(v)
  {
    match v
    case Num(a) => a.data
    case Byte(a) => BytesToReals(a.data)
    case Char(a) => CharsToReals(a.data)
  }

  /** Outside function arrays, the order calls two values equal exactly when == does. */
  lemma CmpEqualIsEq(a: Value, b: Value, funcCmp: (Array<Function>, Array<Function>) -> Ordering)
    requires !a.Func? && !b.Func?
    ensures Cmp(a, b, funcCmp) == Equal <==> ValueEq(a, b)
  {
    if Group(a) == Group(b) {
      ArrayCmpEqual(Shape(a), Reals(a), Shape(b), Reals(b));
      if IsNumeric(a) {
        EqNumeric(a, b);
      } else if Reals(a) == Reals(b) {
        CharsToRealsInjective(a.chars.data, b.chars.data);
      }
    }
  }

  /** compress does not change what a value is equal to. */
  lemma CompressKeepsEquality(v: Value)
    ensures ValueEq(v, Compressed(v))
  {
    if Compressible(v) {
      CompressKeepsNumbers(v);
      EqNumeric(v, Compressed(v));
    } else {
      EqReflexive(v);
    }
  }

  /** compress does not change where a value sorts, on either side of a comparison. */
  lemma CompressKeepsOrder(v: Value, w: Value, funcCmp: (Array<Function>, Array<Function>) -> Ordering)
    ensures Cmp(Compressed(v), w, funcCmp) == Cmp(v, w, funcCmp)
    ensures Cmp(w, Compressed(v), funcCmp) == Cmp(w, v, funcCmp)
  {
    if Compressible(v) {
      CompressKeepsNumbers(v);
      if IsNumeric(w) {
        CmpNumByteNumeric(Compressed(v), w, funcCmp);
        CmpNumByteNumeric(v, w, funcCmp);
        CmpNumByteNumeric(w, Compressed(v), funcCmp);
        CmpNumByteNumeric(w, v, funcCmp);
      }
    }
  }

  // Hashing. What a value's hash feeds the hasher: a kind tag, then the array.

  datatype HashInput = HashInput(tag: nat, shape: seq<nat>, elements: seq<real>, funcs: seq<Function>)

  /** The hasher input as written: Num is tagged 0 and Byte 1, each followed by its own array. */
  function HashInputAsWritten(v: Value): (h: HashInput)
    ensures h.tag == 0 <==> v.Num?
    ensures h.tag == 1 <==> v.Byte?
    ensures h.shape == Shape(v)
    ensures IsNumeric(v) ==> h.elements == Numbers(v)
  {
    match v
    case Num(a) => HashInput(0, a.shape, a.data, [])
    case Byte(a) => HashInput(1, a.shape, BytesToReals(a.data), [])
    case Char(a) => HashInput(2, a.shape, CharsToReals(a.data), [])
    case Func(a) => HashInput(3, a.shape, [], a.data)
  }

  /** The scalar 1 as a number equals the scalar 1 as a byte, yet their hasher inputs differ. */
  lemma HashAsWrittenSplitsEqualValues()
    ensures ValueEq(FromNum(1.0), FromByte(1))
    ensures HashInputAsWritten(FromNum(1.0)) != HashInputAsWritten(FromByte(1))
  {
    assert BytesToReals([1]) == [1.0];
  }

  /** The hasher input that agrees with ==: Num and Byte share a tag and hash their numbers. */
  function HashInputOf(v: Value): (h: HashInput)
    ensures h.tag == 0 <==> IsNumeric(v)
    ensures h.shape == Shape(v)
    ensures IsNumeric(v) ==> h.elements == Numbers(v)
  {
    match v
    case Num(a) => HashInput(0, a.shape, a.data, [])
    case Byte(a) => HashInput(0, a.shape, BytesToReals(a.data), [])
    case Char(a) => HashInput(2, a.shape, CharsToReals(a.data), [])
    case Func(a) => HashInput(3, a.shape, [], a.data)
  }

  /** Equal values feed the hasher the same input, and only equal values do. */
  lemma HashAgreesWithEq(a: Value, b: Value)
    ensures ValueEq(a, b) <==> HashInputOf(a) == HashInputOf(b)
  {
    if IsNumeric(a) && IsNumeric(b) {
      EqNumeric(a, b);
    } else if a.Char? && b.Char? && CharsToReals(a.chars.data) == CharsToReals(b.chars.data) {
      CharsToRealsInjective(a.chars.data, b.chars.data);
    }
  }

  /** compress changes the as-written hasher input of the number scalar 1. */
  lemma CompressChangesHashAsWritten()
    ensures ValueEq(FromNum(1.0), Compressed(FromNum(1.0)))
    ensures HashInputAsWritten(Compressed(FromNum(1.0))) != HashInputAsWritten(FromNum(1.0))
  {
    assert Compressible(FromNum(1.0)) by {
      assert (1.0).Floor == 1;
    }
    CompressKeepsEquality(FromNum(1.0));
  }

  /** With the shared Num/Byte tag, compress leaves the hasher input unchanged. */
  lemma CompressKeepsHash(v: Value)
    ensures HashInputOf(Compressed(v)) == HashInputOf(v)
  {
    CompressKeepsEquality(v);
    HashAgreesWithEq(v, Compressed(v));
  }
}
