/**
 * Shapes and flat row-major buffers: the part of `Array<T>` that `Value`
 * forwards its shape, length and row queries to.
 */
module Arrays {

  /** An element of a Byte array: an integer in [0, 255]. */
  type byte = x: int | 0 <= x < 256

  /** A shape (one size per axis) and a flat row-major buffer. */
  datatype Array<T> = Array(shape: seq<nat>, data: seq<T>)

  /** The number of elements a shape holds; the empty shape (a scalar) holds one. */
  function Product(shape: seq<nat>): nat
  {
    if |shape| == 0 then 1 else shape[0] * Product(shape[1..])
  }

  /** A list of `n` elements holds `n` elements. */
  lemma ProductOfList(n: nat)
    ensures Product([n]) == n
  {
    assert [n][1..] == [];
  }

  /** The array invariant: the buffer holds exactly as many elements as the shape. */
  predicate WellFormed<T>(a: Array<T>)
  {
    |a.data| == Product(a.shape)
  }

  /** The number of rows: the leading dimension, or 1 for a scalar. */
  function RowCount(shape: seq<nat>): nat
  {
    if |shape| == 0 then 1 else shape[0]
  }

  /** The number of elements in one row: the product of every dimension after the first. */
  function RowLen(shape: seq<nat>): (n: nat)
    ensures Product(shape) == RowCount(shape) * n
  {
    if |shape| == 0 then 1 else Product(shape[1..])
  }

  lemma RowEndWithin(rows: nat, len: nat, i: nat)
    requires i < rows
    ensures i * len + len <= rows * len
  {
    assert rows * len == (i + 1) * len + (rows - i - 1) * len;
  }

  /**
   * Row `i` of an array: the slice of the buffer at the given leading index,
   * with the leading axis dropped. A scalar's only row is the scalar itself.
   */
  function Row<T>(a: Array<T>, i: nat): (r: Array<T>)
    requires WellFormed(a) && i < RowCount(a.shape)
    ensures WellFormed(r)
    ensures |a.shape| == 0 ==> r == a
    ensures |a.shape| > 0 ==> r.shape == a.shape[1..]
    ensures |r.data| == RowLen(a.shape) && i * RowLen(a.shape) + |r.data| <= |a.data|
    ensures forall k :: 0 <= k < |r.data| ==> r.data[k] == a.data[i * RowLen(a.shape) + k]
  {
    if |a.shape| == 0 then a
    else
      var n := RowLen(a.shape);
      RowEndWithin(a.shape[0], n, i);
      Array(a.shape[1..], a.data[i * n .. i * n + n])
  }

  /** The rows of an array, in order. */
  function Rows<T>(a: Array<T>): (rs: seq<Array<T>>)
    requires WellFormed(a)
    ensures |rs| == RowCount(a.shape)
    ensures forall i :: 0 <= i < |rs| ==> rs[i] == Row(a, i)
  {
    seq(RowCount(a.shape), i requires 0 <= i < RowCount(a.shape) => Row(a, i))
  }

  /** The buffers of a sequence of arrays, concatenated in order. */
  function Flatten<T>(rs: seq<Array<T>>): seq<T>
  {
    if |rs| == 0 then [] else Flatten(rs[..|rs| - 1]) + rs[|rs| - 1].data
  }

  lemma {:induction false} FlattenRowsPrefix<T>(a: Array<T>, m: nat)
    requires WellFormed(a) && |a.shape| > 0 && m <= a.shape[0]
    ensures m * RowLen(a.shape) <= |a.data|
    ensures Flatten(Rows(a)[..m]) == a.data[..m * RowLen(a.shape)]
  {
    var n := RowLen(a.shape);
    if m == 0 {
      assert Rows(a)[..0] == [];
    } else {
      FlattenRowsPrefix(a, m - 1);
      RowEndWithin(a.shape[0], n, m - 1);
      assert Rows(a)[..m][..m - 1] == Rows(a)[..m - 1];
      var r := Row(a, m - 1);
      assert (m - 1) * n + n == m * n;
      assert a.data[..m * n] == a.data[..(m - 1) * n] + r.data;
    }
  }

  /** Concatenating the rows of an array gives back its buffer. */
  lemma RowsReassemble<T>(a: Array<T>)
    requires WellFormed(a)
    ensures Flatten(Rows(a)) == a.data
  {
    if |a.shape| == 0 {
      assert Rows(a) == [a];
      assert Flatten(Rows(a)) == Flatten([]) + a.data;
    } else {
      FlattenRowsPrefix(a, a.shape[0]);
      assert Rows(a)[..a.shape[0]] == Rows(a);
    }
  }

  /** `s` is a leading part of `t`. */
  predicate IsPrefix(s: seq<nat>, t: seq<nat>)
  {
    |s| <= |t| && t[..|s|] == s
  }

  /** Two shapes agree wherever both have an axis (the zip-and-compare of shape_prefixes_match). */
  predicate PrefixesMatch(s: seq<nat>, t: seq<nat>)
  {
    forall i :: 0 <= i < |s| && i < |t| ==> s[i] == t[i]
  }

  lemma PrefixesMatchIsPrefix(s: seq<nat>, t: seq<nat>)
    ensures PrefixesMatch(s, t) <==> IsPrefix(s, t) || IsPrefix(t, s)
  {
    if PrefixesMatch(s, t) {
      if |s| <= |t| {
        assert t[..|s|] == s;
      } else {
        assert s[..|t|] == t;
      }
    }
  }

  /** Along a prefix, the element count splits into the prefix's and the rest's. */
  lemma {:induction false} ProductOfPrefix(s: seq<nat>, t: seq<nat>)
    requires IsPrefix(s, t)
    ensures Product(t) == Product(s) * Product(t[|s|..])
  {
    if |s| > 0 {
      assert IsPrefix(s[1..], t[1..]);
      ProductOfPrefix(s[1..], t[1..]);
      assert t[1..][|s[1..]|..] == t[|s|..];
      assert s[0] == t[0];
      calc {
        Product(t);
        t[0] * Product(t[1..]);
        t[0] * (Product(s[1..]) * Product(t[|s|..]));
        (s[0] * Product(s[1..])) * Product(t[|s|..]);
      }
    } else {
      assert t[0..] == t;
    }
  }

  lemma DivBelow(i: nat, p: nat, k: nat)
    requires i < p * k
    ensures k > 0 && i / k < p
  {
  }

  /** Byte elements as numbers (`byte as f64`). */
  function BytesToReals(s: seq<byte>): (r: seq<real>)
    ensures |r| == |s| && forall i :: 0 <= i < |s| ==> r[i] == s[i] as real
  {
    seq(|s|, i requires 0 <= i < |s| => s[i] as real)
  }

  /** Characters as their code points, so that the numeric order is the character order. */
  function CharsToReals(s: seq<char>): (r: seq<real>)
    ensures |r| == |s| && forall i :: 0 <= i < |s| ==> r[i] == (s[i] as int) as real
  {
    seq(|s|, i requires 0 <= i < |s| => (s[i] as int) as real)
  }

  /** Shape sizes as numbers. */
  function NatsToReals(s: seq<nat>): (r: seq<real>)
    ensures |r| == |s| && forall i :: 0 <= i < |s| ==> r[i] == s[i] as real
  {
    seq(|s|, i requires 0 <= i < |s| => s[i] as real)
  }

  lemma BytesToRealsInjective(x: seq<byte>, y: seq<byte>)
    ensures BytesToReals(x) == BytesToReals(y) <==> x == y
  {
    if BytesToReals(x) == BytesToReals(y) {
      assert forall i :: 0 <= i < |x| ==> BytesToReals(x)[i] == BytesToReals(y)[i];
    }
  }

  lemma CharsToRealsInjective(x: seq<char>, y: seq<char>)
    ensures CharsToReals(x) == CharsToReals(y) <==> x == y
  {
    if CharsToReals(x) == CharsToReals(y) {
      assert forall i :: 0 <= i < |x| ==> CharsToReals(x)[i] == CharsToReals(y)[i];
    }
  }

  lemma NatsToRealsInjective(x: seq<nat>, y: seq<nat>)
    ensures NatsToReals(x) == NatsToReals(y) <==> x == y
  {
    if NatsToReals(x) == NatsToReals(y) {
      assert forall i :: 0 <= i < |x| ==> NatsToReals(x)[i] == NatsToReals(y)[i];
    }
  }
}
