/**
 * Validated extraction: scalars, lists, strings and byte buffers taken out of a
 * value after checking, in a fixed order, its kind, its rank, its fractional
 * part and its sign. Every failure carries the caller's requirement text.
 */
module Extract {
  import opened Wrappers
  import opened Arrays
  import opened Values
  import opened Errors

  /** A number without a fractional part. */
  predicate IsInteger(x: real)
  {
    x == x.Floor as real
  }

  /** A non-negative number without a fractional part. */
  predicate IsNatural(x: real)
  {
    IsInteger(x) && x >= 0.0
  }

  /** A number with no fractional part that fits a byte. */
  predicate IsByteValue(x: real)
  {
    IsInteger(x) && 0.0 <= x <= 255.0
  }

  /** The cast `f as isize`: truncation toward zero. */
  function Truncate(x: real): (i: int)
    ensures IsInteger(x) ==> i as real == x
    ensures x >= 0.0 ==> 0 <= i && i as real <= x
    ensures x < 0.0 ==> i <= 0 && x <= i as real
    ensures x >= 0.0 ==> x < i as real + 1.0
    ensures x < 0.0 ==> i as real < x + 1.0
  {
    if x >= 0.0 || IsInteger(x) then x.Floor else x.Floor + 1
  }

  /** The cast `f as usize`: truncation toward zero, negatives saturate to 0. */
  function TruncateToNat(x: real): (n: nat)
    ensures IsNatural(x) ==> n as real == x
  {
    if x < 0.0 then 0 else x.Floor
  }

  /** The cast `f as u8`: truncation toward zero, saturating at 0 and 255. */
  function SaturateToByte(x: real): (b: byte)
    ensures x <= 0.0 ==> b == 0
    ensures x >= 255.0 ==> b == 255
    ensures IsByteValue(x) ==> b as real == x
  {
    if x <= 0.0 then 0 else if x >= 255.0 then 255 else x.Floor
  }

  /** The single number of a numeric scalar. */
  function ScalarNumber(v: Value): real
    requires Valid(v) && IsNumeric(v) && Rank(v) == 0
  {
    ValidFlatLen(v);
    Numbers(v)[0]
  }

  lemma ByteIsInteger(b: byte)
    ensures IsNatural(b as real)
  {
    assert (b as real).Floor == b;
  }

  /** as_bool: a numeric scalar without fractional part; true when non-zero. */
  function AsBool(v: Value, requirement: string): (r: Result<bool, Failure>)
    requires Valid(v)
    ensures !IsNumeric(v) ==> r == Err(Unmet(requirement, ItIs(TypeName(v))))
    ensures IsNumeric(v) && Rank(v) > 0 ==> r == Err(Unmet(requirement, RankIs(Rank(v))))
    ensures IsNumeric(v) && Rank(v) == 0 && !IsInteger(ScalarNumber(v)) ==>
              r == Err(Unmet(requirement, HasFractionalPart))
    ensures r.Ok? <==> IsNumeric(v) && Rank(v) == 0 && IsInteger(ScalarNumber(v))
    ensures r.Ok? ==> (r.value <==> ScalarNumber(v) != 0.0)
  {
    ValidFlatLen(v);
    match v
    case Num(a) =>
      if |a.shape| > 0 then Err(Unmet(requirement, RankIs(|a.shape|)))
      else if !IsInteger(a.data[0]) then Err(Unmet(requirement, HasFractionalPart))
      else Ok(a.data[0] != 0.0)
    case Byte(a) =>
      if |a.shape| > 0 then Err(Unmet(requirement, RankIs(|a.shape|)))
      else
        ByteIsInteger(a.data[0]);
        Ok(a.data[0] != 0)
    case _ => Err(Unmet(requirement, ItIs(TypeName(v))))
  }

  /**
   * as_nat: a numeric scalar that is not negative and has no fractional part;
   * the sign is checked before the fractional part.
   */
  function AsNat(v: Value, requirement: string): (r: Result<nat, Failure>)
    requires Valid(v)
    ensures !IsNumeric(v) ==> r == Err(Unmet(requirement, ItIs(TypeName(v))))
    ensures IsNumeric(v) && Rank(v) > 0 ==> r == Err(Unmet(requirement, RankIs(Rank(v))))
    ensures IsNumeric(v) && Rank(v) == 0 && ScalarNumber(v) < 0.0 ==>
              r == Err(Unmet(requirement, IsNegative))
    ensures IsNumeric(v) && Rank(v) == 0 && ScalarNumber(v) >= 0.0 && !IsInteger(ScalarNumber(v)) ==>
              r == Err(Unmet(requirement, HasFractionalPart))
    ensures r.Ok? <==> IsNumeric(v) && Rank(v) == 0 && IsNatural(ScalarNumber(v))
    ensures r.Ok? ==> r.value as real == ScalarNumber(v)
    ensures v.Byte? && Rank(v) == 0 ==> r.Ok?
  {
    ValidFlatLen(v);
    match v
    case Num(a) =>
      if |a.shape| > 0 then Err(Unmet(requirement, RankIs(|a.shape|)))
      else if a.data[0] < 0.0 then Err(Unmet(requirement, IsNegative))
      else if !IsInteger(a.data[0]) then Err(Unmet(requirement, HasFractionalPart))
      else Ok(TruncateToNat(a.data[0]))
    case Byte(a) =>
      if |a.shape| > 0 then Err(Unmet(requirement, RankIs(|a.shape|)))
      else
        ByteIsInteger(a.data[0]);
        Ok(a.data[0])
    case _ => Err(Unmet(requirement, ItIs(TypeName(v))))
  }

  /** as_int: a numeric scalar without fractional part. */
  function AsInt(v: Value, requirement: string): (r: Result<int, Failure>)
    requires Valid(v)
    ensures !IsNumeric(v) ==> r == Err(Unmet(requirement, ItIs(TypeName(v))))
    ensures IsNumeric(v) && Rank(v) > 0 ==> r == Err(Unmet(requirement, RankIs(Rank(v))))
    ensures IsNumeric(v) && Rank(v) == 0 && !IsInteger(ScalarNumber(v)) ==>
              r == Err(Unmet(requirement, HasFractionalPart))
    ensures r.Ok? <==> IsNumeric(v) && Rank(v) == 0 && IsInteger(ScalarNumber(v))
    ensures r.Ok? ==> r.value as real == ScalarNumber(v)
  {
    ValidFlatLen(v);
    match v
    case Num(a) =>
      if |a.shape| > 0 then Err(Unmet(requirement, RankIs(|a.shape|)))
      else if !IsInteger(a.data[0]) then Err(Unmet(requirement, HasFractionalPart))
      else Ok(Truncate(a.data[0]))
    case Byte(a) =>
      if |a.shape| > 0 then Err(Unmet(requirement, RankIs(|a.shape|)))
      else
        ByteIsInteger(a.data[0]);
        Ok(a.data[0])
    case _ => Err(Unmet(requirement, ItIs(TypeName(v))))
  }

  /** as_num: any numeric scalar, bytes read as numbers. */
  function AsNum(v: Value, requirement: string): (r: Result<real, Failure>)
    requires Valid(v)
    ensures !IsNumeric(v) ==> r == Err(Unmet(requirement, ItIs(TypeName(v))))
    ensures IsNumeric(v) && Rank(v) > 0 ==> r == Err(Unmet(requirement, RankIs(Rank(v))))
    ensures r.Ok? <==> IsNumeric(v) && Rank(v) == 0
    ensures r.Ok? ==> r.value == ScalarNumber(v)
  {
    ValidFlatLen(v);
    match v
    case Num(a) =>
      if |a.shape| > 0 then Err(Unmet(requirement, RankIs(|a.shape|))) else Ok(a.data[0])
    case Byte(a) =>
      if |a.shape| > 0 then Err(Unmet(requirement, RankIs(|a.shape|))) else Ok(a.data[0] as real)
    case _ => Err(Unmet(requirement, ItIs(TypeName(v))))
  }

  /**
   * The element loop shared by as_number_list and as_number_array: every number
   * must pass `test`, and each is converted in order; the first one that fails
   * stops the loop.
   */
  method CheckAndConvert<T>(nums: seq<real>, test: real -> bool, convert: real -> T)
    returns (r: Option<seq<T>>)
    ensures r.Some? <==> forall i :: 0 <= i < |nums| ==> test(nums[i])
    ensures r.Some? ==> |r.value| == |nums|
    ensures r.Some? ==> forall i :: 0 <= i < |nums| ==> r.value[i] == convert(nums[i])
  {
    var result: seq<T> := [];
    for i := 0 to |nums|
      invariant |result| == i
      invariant forall j :: 0 <= j < i ==> test(nums[j]) && result[j] == convert(nums[j])
    {
      if !test(nums[i]) {
        return None;
      }
      result := result + [convert(nums[i])];
    }
    return Some(result);
  }

  /**
   * as_number_list: a numeric scalar or list whose every number passes `test`,
   * converted element by element. A number that fails yields the bare requirement.
   */
  method AsNumberList<T>(v: Value, requirement: string, test: real -> bool, convert: real -> T)
    returns (r: Result<seq<T>, Failure>)
    ensures !IsNumeric(v) ==> r == Err(Unmet(requirement, ItIsPlural(TypeName(v))))
    ensures IsNumeric(v) && Rank(v) > 1 ==> r == Err(Unmet(requirement, RankIs(Rank(v))))
    ensures IsNumeric(v) && Rank(v) <= 1 && !(forall i :: 0 <= i < FlatLen(v) ==> test(Numbers(v)[i])) ==>
              r == Err(Message(requirement))
    ensures r.Ok? <==> IsNumeric(v) && Rank(v) <= 1 && forall i :: 0 <= i < FlatLen(v) ==> test(Numbers(v)[i])
    ensures r.Ok? ==> |r.value| == FlatLen(v)
    ensures r.Ok? ==> forall i :: 0 <= i < FlatLen(v) ==> r.value[i] == convert(Numbers(v)[i])
  {
    if !IsNumeric(v) {
      return Err(Unmet(requirement, ItIsPlural(TypeName(v))));
    }
    if Rank(v) > 1 {
      return Err(Unmet(requirement, RankIs(Rank(v))));
    }
    var converted := CheckAndConvert(Numbers(v), test, convert);
    if converted.None? {
      return Err(Message(requirement));
    }
    return Ok(converted.value);
  }

  /**
   * as_number_array: like as_number_list, but the shape is checked by `testShape`
   * instead of the rank, and the result keeps the value's shape.
   */
  method AsNumberArray<T>(v: Value, requirement: string, testShape: seq<nat> -> bool,
                          testNum: real -> bool, convert: real -> T)
    returns (r: Result<Array<T>, Failure>)
    ensures !IsNumeric(v) ==> r == Err(Unmet(requirement, TypeIs(TypeName(v))))
    ensures IsNumeric(v) && !testShape(Shape(v)) ==> r == Err(Unmet(requirement, ShapeIs(Shape(v))))
    ensures IsNumeric(v) && testShape(Shape(v)) && !(forall i :: 0 <= i < FlatLen(v) ==> testNum(Numbers(v)[i])) ==>
              r == Err(Message(requirement))
    ensures r.Ok? <==> IsNumeric(v) && testShape(Shape(v)) && forall i :: 0 <= i < FlatLen(v) ==> testNum(Numbers(v)[i])
    ensures r.Ok? ==> r.value.shape == Shape(v) && |r.value.data| == FlatLen(v)
    ensures r.Ok? ==> forall i :: 0 <= i < FlatLen(v) ==> r.value.data[i] == convert(Numbers(v)[i])
    ensures r.Ok? && Valid(v) ==> WellFormed(r.value)
  {
    if !IsNumeric(v) {
      return Err(Unmet(requirement, TypeIs(TypeName(v))));
    }
    if !testShape(Shape(v)) {
      return Err(Unmet(requirement, ShapeIs(Shape(v))));
    }
    var converted := CheckAndConvert(Numbers(v), testNum, convert);
    if converted.None? {
      return Err(Message(requirement));
    }
    ValidFlatLen(v);
    return Ok(Array(Shape(v), converted.value));
  }

  /** as_indices: a numeric scalar or list of integers. */
  method AsIndices(v: Value, requirement: string) returns (r: Result<seq<int>, Failure>)
    ensures !IsNumeric(v) ==> r == Err(Unmet(requirement, ItIsPlural(TypeName(v))))
    ensures IsNumeric(v) && Rank(v) > 1 ==> r == Err(Unmet(requirement, RankIs(Rank(v))))
    ensures r.Ok? <==> IsNumeric(v) && Rank(v) <= 1 && forall i :: 0 <= i < FlatLen(v) ==> IsInteger(Numbers(v)[i])
    ensures r.Ok? ==> |r.value| == FlatLen(v)
    ensures r.Ok? ==> forall i :: 0 <= i < FlatLen(v) ==> r.value[i] as real == Numbers(v)[i]
    ensures IsNumeric(v) && Rank(v) <= 1 && !r.Ok? ==> r == Err(Message(requirement))
  {
    r := AsNumberList(v, requirement, IsInteger, Truncate);
  }

  /** as_naturals: a numeric scalar or list of non-negative integers. */
  method AsNaturals(v: Value, requirement: string) returns (r: Result<seq<nat>, Failure>)
    ensures !IsNumeric(v) ==> r == Err(Unmet(requirement, ItIsPlural(TypeName(v))))
    ensures IsNumeric(v) && Rank(v) > 1 ==> r == Err(Unmet(requirement, RankIs(Rank(v))))
    ensures r.Ok? <==> IsNumeric(v) && Rank(v) <= 1 && forall i :: 0 <= i < FlatLen(v) ==> IsNatural(Numbers(v)[i])
    ensures r.Ok? ==> |r.value| == FlatLen(v)
    ensures r.Ok? ==> forall i :: 0 <= i < FlatLen(v) ==> r.value[i] as real == Numbers(v)[i]
    ensures IsNumeric(v) && Rank(v) <= 1 && !r.Ok? ==> r == Err(Message(requirement))
  {
    r := AsNumberList(v, requirement, IsNatural, TruncateToNat);
  }

  /** as_integers: a numeric scalar or list of integers. */
  method AsIntegers(v: Value, requirement: string) returns (r: Result<seq<int>, Failure>)
    ensures !IsNumeric(v) ==> r == Err(Unmet(requirement, ItIsPlural(TypeName(v))))
    ensures IsNumeric(v) && Rank(v) > 1 ==> r == Err(Unmet(requirement, RankIs(Rank(v))))
    ensures r.Ok? <==> IsNumeric(v) && Rank(v) <= 1 && forall i :: 0 <= i < FlatLen(v) ==> IsInteger(Numbers(v)[i])
    ensures r.Ok? ==> |r.value| == FlatLen(v)
    ensures r.Ok? ==> forall i :: 0 <= i < FlatLen(v) ==> r.value[i] as real == Numbers(v)[i]
    ensures IsNumeric(v) && Rank(v) <= 1 && !r.Ok? ==> r == Err(Message(requirement))
  {
    r := AsNumberList(v, requirement, IsInteger, Truncate);
  }

  /** as_string: a character scalar or list, as a string. */
  function AsString(v: Value, requirement: string): (r: Result<string, Failure>)
    ensures !v.Char? ==> r == Err(Unmet(requirement, TypeIs(TypeName(v))))
    ensures v.Char? && Rank(v) > 1 ==> r == Err(Unmet(requirement, RankIs(Rank(v))))
    ensures r.Ok? <==> v.Char? && Rank(v) <= 1
    ensures r.Ok? ==> r.value == v.chars.data
  {
    match v
    case Char(a) =>
      if |a.shape| > 1 then Err(Unmet(requirement, RankIs(|a.shape|))) else Ok(a.data)
    case _ => Err(Unmet(requirement, TypeIs(TypeName(v))))
  }

  /** The UTF-8 encoding of one Unicode scalar value (section 3 of RFC 3629). */
  function Utf8Char(c: char): (bs: seq<byte>)
    ensures 1 <= |bs| <= 4
    ensures |bs| == 1 <==> (c as int) < 0x80
    ensures |bs| == 1 ==> bs[0] == c as int
    ensures forall i :: 1 <= i < |bs| ==> 0x80 <= bs[i] < 0xC0
  {
    var cp := c as int;
    if cp < 0x80 then [cp]
    else if cp < 0x800 then [0xC0 + cp / 0x40, 0x80 + cp % 0x40]
    else if cp < 0x10000 then [0xE0 + cp / 0x1000, 0x80 + (cp / 0x40) % 0x40, 0x80 + cp % 0x40]
    else [0xF0 + cp / 0x40000, 0x80 + (cp / 0x1000) % 0x40, 0x80 + (cp / 0x40) % 0x40, 0x80 + cp % 0x40]
  }

  /** The code point that a well-formed 1- to 4-byte UTF-8 sequence encodes. */
  function Utf8Decode(bs: seq<byte>): int
    requires 1 <= |bs| <= 4
  {
    var b := seq(|bs|, i requires 0 <= i < |bs| => bs[i] as int);
    if |b| == 1 then b[0]
    else if |b| == 2 then (b[0] - 0xC0) * 0x40 + (b[1] - 0x80)
    else if |b| == 3 then (b[0] - 0xE0) * 0x1000 + (b[1] - 0x80) * 0x40 + (b[2] - 0x80)
    else (b[0] - 0xF0) * 0x40000 + (b[1] - 0x80) * 0x1000 + (b[2] - 0x80) * 0x40 + (b[3] - 0x80)
  }

  /** Encoding one character loses nothing: decoding gives back its code point. */
  lemma Utf8CharRoundTrip(c: char)
    ensures Utf8Decode(Utf8Char(c)) == c as int
  {
    var cp := c as int;
    if cp >= 0x10000 {
      assert cp == (cp / 0x40000) * 0x40000 + ((cp / 0x1000) % 0x40) * 0x1000 + ((cp / 0x40) % 0x40) * 0x40 + cp % 0x40;
    } else if cp >= 0x800 {
      assert cp == (cp / 0x1000) * 0x1000 + ((cp / 0x40) % 0x40) * 0x40 + cp % 0x40;
    }
  }

  /** The UTF-8 encoding of a string: its characters' encodings in order. */
  function Utf8Encode(s: string): seq<byte>
  {
    if |s| == 0 then [] else Utf8Encode(s[..|s| - 1]) + Utf8Char(s[|s| - 1])
  }

  /** A string of ASCII characters encodes as one byte per character, each its code. */
  lemma {:induction false} Utf8EncodeAscii(s: string)
    requires forall i :: 0 <= i < |s| ==> (s[i] as int) < 0x80
    ensures |Utf8Encode(s)| == |s|
    ensures forall i :: 0 <= i < |s| ==> Utf8Encode(s)[i] == s[i] as int
  {
    if |s| > 0 {
      Utf8EncodeAscii(s[..|s| - 1]);
    }
  }

  /**
   * into_bytes: a rank-1 Byte, Num or Char array as bytes. Numbers are cast with
   * saturation, characters are UTF-8 encoded; function arrays are refused.
   */
  function IntoBytes(v: Value, requirement: string): (r: Result<seq<byte>, Failure>)
    ensures v.Func? ==> r == Err(Unmet(requirement, TypeIs(TypeName(v))))
    ensures !v.Func? && Rank(v) != 1 ==> r == Err(Unmet(requirement, RankIs(Rank(v))))
    ensures r.Ok? <==> !v.Func? && Rank(v) == 1
    ensures r.Ok? && v.Byte? ==> r.value == v.bytes.data
    ensures r.Ok? && v.Num? ==> |r.value| == FlatLen(v)
    ensures r.Ok? && v.Num? ==>
              forall i :: 0 <= i < FlatLen(v) ==> r.value[i] == SaturateToByte(v.nums.data[i])
    ensures r.Ok? && v.Char? ==> r.value == Utf8Encode(v.chars.data)
  {
    match v
    case Byte(a) =>
      if |a.shape| != 1 then Err(Unmet(requirement, RankIs(|a.shape|))) else Ok(a.data)
    case Num(a) =>
      if |a.shape| != 1 then Err(Unmet(requirement, RankIs(|a.shape|)))
      else Ok(seq(|a.data|, i requires 0 <= i < |a.data| => SaturateToByte(a.data[i])))
    case Char(a) =>
      if |a.shape| != 1 then Err(Unmet(requirement, RankIs(|a.shape|))) else Ok(Utf8Encode(a.data))
    case Func(_) => Err(Unmet(requirement, TypeIs(TypeName(v))))
  }

  // Conversions into a value and back out again.

  lemma FromNumRoundTrip(x: real, requirement: string)
    ensures AsNum(FromNum(x), requirement) == Ok(x)
  {
  }

  lemma FromBoolRoundTrip(b: bool, requirement: string)
    ensures AsBool(FromBool(b), requirement) == Ok(b)
  {
  }

  lemma FromNatRoundTrip(n: nat, requirement: string)
    ensures AsNat(FromNat(n), requirement) == Ok(n)
  {
  }

  lemma FromIntRoundTrip(i: int, requirement: string)
    ensures AsInt(FromInt(i), requirement) == Ok(i)
  {
  }

  lemma FromStringRoundTrip(s: string, requirement: string)
    ensures AsString(FromString(s), requirement) == Ok(s)
  {
  }

  /** A byte list comes back out unchanged, whether stored as bytes or promoted to numbers. */
  lemma IntoBytesRoundTrip(bs: seq<byte>, requirement: string)
    ensures IntoBytes(FromBytes(bs), requirement) == Ok(bs)
    ensures IntoBytes(ToNum(FromBytes(bs)), requirement) == Ok(bs)
  {
    var r := IntoBytes(ToNum(FromBytes(bs)), requirement);
    forall i | 0 <= i < |bs|
      ensures r.value[i] == bs[i]
    {
      ByteIsInteger(bs[i]);
    }
    assert r.value == bs;
  }

  /** A negative number with a fractional part is reported as negative: the sign is checked first. */
  lemma AsNatChecksSignFirst(x: real, requirement: string)
    requires x < 0.0 && !IsInteger(x)
    ensures AsNat(FromNum(x), requirement) == Err(Unmet(requirement, IsNegative))
  {
  }

  /** as_int accepts a negative integer that as_nat refuses. */
  lemma AsIntAcceptsNegatives(i: int, requirement: string)
    requires i < 0
    ensures AsInt(FromInt(i), requirement) == Ok(i)
    ensures AsNat(FromInt(i), requirement) == Err(Unmet(requirement, IsNegative))
  {
  }
}
