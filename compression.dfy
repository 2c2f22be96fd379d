/**
 * Narrowing a number array to a byte array when every number is a whole
 * number between 0 and 255, so that no information is lost.
 */
module Compression {
  import opened Arrays
  import opened Values
  import opened Extract

  /** A Num value whose every element fits a byte exactly. */
  predicate Compressible(v: Value)
  {
    v.Num? && forall i :: 0 <= i < |v.nums.data| ==> IsByteValue(v.nums.data[i])
  }

  /** The value compress leaves behind. */
  function Compressed(v: Value): (r: Value)
    ensures Compressible(v) ==> r.Byte? && Shape(r) == Shape(v) && FlatLen(r) == FlatLen(v)
    ensures !Compressible(v) ==> r == v
  {
    if Compressible(v) then
      Byte(Array(v.nums.shape, seq(|v.nums.data|, i requires 0 <= i < |v.nums.data| => SaturateToByte(v.nums.data[i]))))
    else
      v
  }

  /**
   * compress: the check over every number, then the loop that pushes each one
   * cast to a byte; the value is replaced only when the check passes.
   */
  method Compress(v: Value) returns (r: Value)
    ensures r == Compressed(v)
  {
    if !v.Num? {
      return v;
    }
    var nums := v.nums;
    if !(forall i :: 0 <= i < |nums.data| ==> IsByteValue(nums.data[i])) {
      return v;
    }
    var bytes: seq<byte> := [];
    for i := 0 to |nums.data|
      invariant |bytes| == i
      invariant forall j :: 0 <= j < i ==> bytes[j] == SaturateToByte(nums.data[j])
    {
      bytes := bytes + [SaturateToByte(nums.data[i])];
    }
    r := Byte(Array(nums.shape, bytes));
  }

  /** A compressible value becomes a byte array of the same shape holding the same numbers. */
  lemma CompressKeepsNumbers(v: Value)
    requires Compressible(v)
    ensures Compressed(v).Byte?
    ensures Shape(Compressed(v)) == Shape(v)
    ensures Numbers(Compressed(v)) == Numbers(v)
  {
    var r := Compressed(v);
    forall i | 0 <= i < |v.nums.data|
      ensures Numbers(r)[i] == v.nums.data[i]
    {
    }
  }

  /** Every other value, whatever its kind, is left as it is. */
  lemma CompressLeavesOthers(v: Value)
    requires !Compressible(v)
    ensures Compressed(v) == v
  {
  }

  /** compress keeps a value well formed. */
  lemma CompressKeepsValid(v: Value)
    requires Valid(v)
    ensures Valid(Compressed(v))
  {
  }

  /** The result of compress is never compressible again: it is a byte array or was refused. */
  lemma CompressedIsFinal(v: Value)
    ensures !Compressible(Compressed(v))
  {
  }

  /** Compressing twice gives what compressing once gives. */
  lemma CompressIdempotent(v: Value)
    ensures Compressed(Compressed(v)) == Compressed(v)
  {
    CompressedIsFinal(v);
  }

  /** Promoting a compressed value back to numbers gives back the original value. */
  lemma CompressThenPromote(v: Value)
    requires Compressible(v)
    ensures ToNum(Compressed(v)) == v
  {
    CompressKeepsNumbers(v);
  }

  /** A byte array promoted to numbers compresses back to itself. */
  lemma PromoteThenCompress(v: Value)
    requires v.Byte?
    ensures Compressible(ToNum(v))
    ensures Compressed(ToNum(v)) == v
  {
    var n := ToNum(v);
    forall i | 0 <= i < |n.nums.data|
      ensures IsByteValue(n.nums.data[i]) && SaturateToByte(n.nums.data[i]) == v.bytes.data[i]
    {
      ByteIsInteger(v.bytes.data[i]);
    }
    assert Compressed(n).bytes.data == v.bytes.data;
  }
}
