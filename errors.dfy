/**
 * Failures raised by the value core. Argument-checking failures keep the
 * caller's requirement text and the defect that was observed, which together
 * make up the message.
 */
module Errors {

  /** What an extractor observed that breaks the caller's requirement. */
  datatype Defect =
    | RankIs(rank: nat)             // ", but its rank is <r>"
    | ItIs(typeName: string)        // ", but it is <type>"
    | ItIsPlural(typeName: string)  // ", but it is <type>s"
    | TypeIs(typeName: string)      // ", but its type is <type>"
    | ShapeIs(shape: seq<nat>)      // ", but its shape is <shape>"
    | HasFractionalPart             // ", but it has a fractional part"
    | IsNegative                    // ", but it is negative"

  datatype Failure =
      /** A requirement together with the defect that breaks it. */
    | Unmet(requirement: string, defect: Defect)
      /** A failure whose whole message is the given text. */
    | Message(text: string)
      /** A unary pervasive operation applied to an operand kind it does not support. */
    | UnaryTypeError(op: string, typeName: string)
      /** A binary pervasive operation applied to a pair of kinds it does not support. */
    | BinaryTypeError(op: string, left: string, right: string)
      /** Broadcasting found shapes that do not agree on their common prefix. */
    | ShapeMismatch(leftShape: seq<nat>, rightShape: seq<nat>)
      /** A failure raised inside an element kernel, array pervasion or append. */
    | Kernel(text: string, fill: bool)

  /** A failure that a fill value could repair, which triggers the numeric retry. */
  predicate IsFill(e: Failure)
  {
    e.ShapeMismatch? || (e.Kernel? && e.fill)
  }

  function DigitChar(d: nat): (c: char)
    requires d < 10
    ensures '0' <= c <= '9'
  {
    "0123456789"[d]
  }

  /** The number a string of decimal digits denotes, most significant digit first. */
  function DigitsValue(s: string): nat
    requires forall i :: 0 <= i < |s| ==> '0' <= s[i] <= '9'
  {
    if |s| == 0 then 0 else 10 * DigitsValue(s[..|s| - 1]) + (s[|s| - 1] as int - '0' as int)
  }

  /** Decimal notation of a natural number: digits only, no leading zero, denoting `n`. */
  function NatToString(n: nat): (s: string)
    ensures |s| > 0 && forall i :: 0 <= i < |s| ==> '0' <= s[i] <= '9'
    ensures |s| > 1 ==> s[0] != '0'
    ensures DigitsValue(s) == n
  {
    if n < 10 then [DigitChar(n)]
    else
      var prefix := NatToString(n / 10);
      var s := prefix + [DigitChar(n % 10)];
      assert s[..|s| - 1] == prefix;
      s
  }

  function JoinDims(shape: seq<nat>): string
  {
    if |shape| == 0 then ""
    else if |shape| == 1 then NatToString(shape[0])
    else NatToString(shape[0]) + " × " + JoinDims(shape[1..])
  }

  /** A shape as it appears in messages. */
  function FormatShape(shape: seq<nat>): string
  {
    "[" + JoinDims(shape) + "]"
  }

  function DefectText(d: Defect): string
  {
    match d
    case RankIs(r) => "its rank is " + NatToString(r)
    case ItIs(t) => "it is " + t
    case ItIsPlural(t) => "it is " + t + "s"
    case TypeIs(t) => "its type is " + t
    case ShapeIs(s) => "its shape is " + FormatShape(s)
    case HasFractionalPart => "it has a fractional part"
    case IsNegative => "it is negative"
  }

  /**
   * The message the execution context receives for an argument-checking failure:
   * the requirement, verbatim, followed by the observed defect.
   */
  function Render(e: Failure): (s: string)
    requires e.Unmet? || e.Message?
    ensures e.Message? ==> s == e.text
    ensures e.Unmet? ==> |s| > |e.requirement| + 5 && s[..|e.requirement|] == e.requirement
    ensures e.Unmet? ==> s[|e.requirement|..|e.requirement| + 6] == ", but "
    ensures e.Unmet? ==> s[|e.requirement| + 6..] == DefectText(e.defect)
  {
    match e
    case Unmet(req, d) => req + ", but " + DefectText(d)
    case Message(t) => t
  }
}
