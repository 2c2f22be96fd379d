# Uiua runtime values, modelled in Dafny

This project models the runtime value type of the Uiua array language
(`src/value.rs`). A value is exactly one of four arrays: numbers (`Num`),
bytes (`Byte`), characters (`Char`) or function handles (`Func`). A boxed value
is a function array holding a constant function. The model covers:

- the shape, rank, row and length queries;
- the validated extractors (`as_bool`, `as_nat`, `as_int`, `as_num`,
  `as_number_list` and its wrappers, `as_number_array`, `as_string`,
  `into_bytes`) with their fixed check order and requirement-carrying failures;
- `compress`, the coercions to function arrays and the `From` conversions;
- equality, the cross-kind total order and the hash input;
- the unary and binary pervasive dispatch tables, with the numeric fill retry,
  unboxing of boxed scalars and element-wise lifting over boxes;
- the `ValueBuilder` state machine.

Modules, in dependency order: `Wrappers` (Option, Result), `Arrays` (shape,
flat buffer, rows, prefix shapes), `Values` (the union and its queries,
conversions and coercions), `Errors` (structured failures and their messages),
`Extract`, `Compression`, `Order`, `Unary`, `Binary` and `Builder`.

Numbers are `real`. Bytes are integers in [0, 255]. Characters are Dafny
`char`s, compared and converted by code point. Every array keeps the invariant
that its buffer length equals the product of its shape (`Values.Valid`, which
also covers values boxed inside function arrays). The source asserts this
with `validate_shape`. Functions that read an element of a scalar, such as the
scalar extractors and the binary dispatch, require that invariant.

Pieces that live outside `src/value.rs` are parameters:

- the scalar kernels of the unary operations (`Unary.Kernels`);
- `bin_pervade`/`bin_pervade_mut` with a table kernel (`Binary.Pervade`);
- `append` (`Builder.Append`);
- the order of function arrays (the `funcCmp` argument of `Order.Cmp`).

The unary kernels cannot fail: they are plain functions on numbers and bytes.
The order of function arrays returns an ordering and cannot fail either.
`Binary.Pervade` and `Builder.Append` can fail. They return a `Result`, and its
error case records whether a fill value could repair it (`Errors.IsFill`).
Whether a numeric fill is set in the execution context is the boolean `numFill`.

Rust's `Hash` contract requires that equal values hash alike. `PartialEq`
(src/value.rs:959-971) makes the number 1 equal to the byte 1. `Hash` tags Num
with 0 and Byte with 1 (src/value.rs:1004 and 1008), so those two equal values
feed the hasher different input. The same split means `compress` changes a
value's hash while keeping it equal. The model follows the code
(`Order.HashInputAsWritten`) and records the discrepancy under Findings.

## Model

| member | source | states |
|---|---|---|
| Values.TypeName | src/value.rs:130-136 | Num and Byte are "number", Char is "character", Func is "function", each if and only if |
| Values.ValidFlatLen | src/value.rs:159-166 | a well-formed value's flat length is the product of its shape |
| Values.ScalarQueries | src/value.rs:143-158 | a value of rank 0 has one row of one element, and a well-formed one holds exactly one element |
| Values.RowLenSplitsFlatLen | src/value.rs:143-166 | above rank 0 the row count is the leading dimension, and for a well-formed value it times the row length is the flat length |
| Values.RowCount | src/value.rs:143-150 | row count times row length is the flat length of a well-formed value |
| Values.Default | src/value.rs:29-33 | the default value is a well-formed empty Byte list of shape [0] |
| Values.DepthOfElement | src/value.rs:243-244 | a value boxed in a function array nests less deeply than the array, so unboxing terminates |
| Values.Unboxed | src/value.rs:243-245 | unboxing succeeds exactly on a scalar function array holding a constant, yields that constant, and keeps it well formed |
| Values.Deep | src/value.rs:232-248 | a boxed scalar is replaced by the deep view of its contents; a non-box function array and every non-function value pass unchanged; no unboxable scalar is left |
| Values.DeepIdempotent | src/value.rs:232-248 | taking the deep view twice is the same as once |
| Values.DeepOfBoxes | src/value.rs:232-248 | any number of boxes around a value give the deep view of the value itself |
| Values.Box | src/value.rs:723-727 | boxing gives a scalar function array that unboxes to the boxed value |
| Values.FromNum | src/value.rs:658-664 | a number becomes a well-formed Num scalar holding it |
| Values.FromByte | src/value.rs:658-664 | a byte becomes a well-formed Byte scalar holding it |
| Values.FromChar | src/value.rs:658-664 | a character becomes a well-formed Char scalar holding it |
| Values.FromFunction | src/value.rs:723-727 | a function becomes a well-formed Func scalar holding it |
| Values.FromBool | src/value.rs:699-703 | true becomes the byte 1 and false the byte 0 |
| Values.FromNat | src/value.rs:705-709 | a natural number becomes the Num scalar of the same value |
| Values.FromInt | src/value.rs:729-733 | an integer becomes the Num scalar of the same value |
| Values.FromNums | src/value.rs:670-674 | a list of numbers becomes a rank-1 Num array holding them in order |
| Values.FromNats | src/value.rs:693-697 | a list of naturals becomes a rank-1 Num array of the same numbers |
| Values.FromBytes | src/value.rs:670-674 | a byte list becomes a rank-1 Byte array holding it |
| Values.FromString | src/value.rs:711-721 | a string becomes a rank-1 Char array of its characters |
| Values.FromFunctions | src/value.rs:670-674 | a function list becomes a rank-1 Func array holding it |
| Values.FromShapeNums | src/value.rs:675-679 | a shape and a buffer of matching length become a well-formed Num array |
| Values.ElementValue | src/value.rs:122-129 | element i becomes a scalar of the same kind holding exactly element i |
| Values.FlatValues | src/value.rs:122-129 | the flat values are the elements in order, one per buffer entry |
| Values.CoerceToFunction | src/value.rs:634-656 | a function array is returned as is; any other value keeps its shape and each element becomes a constant function holding that element |
| Values.RowOfFunctionsValid | src/value.rs:210-217 | a row of a well-formed function array is well formed |
| Values.Row | src/value.rs:210-217 | row i keeps the kind, drops the leading axis, and its element k is element i times row length plus k of the value; a scalar's row is itself |
| Values.Rows | src/value.rs:98-113 | there are row-count many rows, in order |
| Values.RowsRev | src/value.rs:114-121 | the reversed rows are the rows from last to first |
| Values.ShapePrefixesMatch | src/value.rs:140-142 | two shapes match exactly when one is a prefix of the other |
| Values.AsFunction | src/value.rs:88-97 | a function is returned exactly for a scalar function array, and it rebuilds that array |
| Values.ToNum | src/value.rs:815 | promoting bytes to numbers keeps shape and numbers; other kinds are unchanged |
| Arrays.Row | src/value.rs:210-217 | an array's row is the matching slice of its buffer, element by element |
| Arrays.Rows | src/value.rs:98-105 | the rows are listed in order |
| Arrays.RowsReassemble | src/value.rs:98-105 | concatenating the rows gives back the whole buffer |
| Arrays.PrefixesMatchIsPrefix | src/value.rs:140-142 | axis-wise agreement on shared axes is the same as one shape being a prefix of the other |
| Arrays.ProductOfPrefix | src/value.rs:140-142 | along a prefix, the element count splits into the prefix's count times the rest's |
| Arrays.BytesToRealsInjective | src/value.rs:965-966 | reading bytes as numbers loses nothing |
| Errors.NatToString | src/value.rs:370 | ranks are written in decimal: digits only, no leading zero, and the digits denote the rank |
| Errors.Render | src/value.rs:392-421 | an argument failure's message is the requirement, verbatim, then ", but ", then exactly the defect's text; a bare failure is the requirement alone |
| Extract.Truncate | src/value.rs:363 | casting to a signed integer is exact on integers, and otherwise gives the integer nearest the number on the side of zero, less than one away |
| Extract.TruncateToNat | src/value.rs:407 | casting a non-negative number to an index is exact on natural numbers |
| Extract.SaturateToByte | src/value.rs:602 | casting to a byte saturates at 0 and 255 and is exact on byte values |
| Extract.AsBool | src/value.rs:365-391 | type, then rank, then fractional part are checked in that order; success holds if and only if all pass, and gives true exactly for non-zero |
| Extract.AsNat | src/value.rs:392-421 | type, rank, sign and fractional part are checked in that order; success holds if and only if the operand is a natural-number scalar and yields it; a Byte scalar always succeeds |
| Extract.AsInt | src/value.rs:422-448 | type, rank and fractional part are checked in that order; success yields the integer |
| Extract.AsNum | src/value.rs:449-471 | type, then rank; success yields the number, bytes read as numbers |
| Extract.CheckAndConvert | src/value.rs:497-504 | the loop succeeds exactly when every element passes the test, and then yields each element converted in order |
| Extract.AsNumberList | src/value.rs:483-526 | non-numeric fails with "it is <type>s"; rank above 1 fails with the rank; a failing element fails with the bare requirement; success yields flat-length many converted elements |
| Extract.AsNumberArray | src/value.rs:527-576 | type, then the shape test, then every element; success keeps the shape and converts each element |
| Extract.AsIndices | src/value.rs:362-364 | a numeric scalar or list of integers is accepted and yields those integers; a non-numeric value fails with "it is <type>s", a rank above 1 with the rank, and a failing element with the bare requirement |
| Extract.AsNaturals | src/value.rs:472-479 | only a numeric scalar or list of non-negative integers is accepted, and it is returned exactly; a non-numeric value fails with "it is <type>s", a rank above 1 with the rank, and a failing element with the bare requirement |
| Extract.AsIntegers | src/value.rs:480-482 | only a numeric scalar or list of integers is accepted, and it is returned exactly; a non-numeric value fails with "it is <type>s", a rank above 1 with the rank, and a failing element with the bare requirement |
| Extract.AsString | src/value.rs:577-589 | a Char scalar or list gives its characters; other kinds fail with the type, higher ranks with the rank |
| Extract.Utf8Char | src/value.rs:608 | one character encodes to 1-4 bytes, a single byte exactly for ASCII, continuation bytes in 0x80-0xBF |
| Extract.Utf8CharRoundTrip | src/value.rs:608 | decoding a character's encoding gives back its code point |
| Extract.Utf8EncodeAscii | src/value.rs:608 | an ASCII string encodes to its codes, one byte each |
| Extract.IntoBytes | src/value.rs:590-617 | functions fail with the type and ranks other than 1 with the rank; bytes pass through, numbers saturate, characters are UTF-8 encoded |
| Extract.FromNumRoundTrip | src/value.rs:449-471 | a number converted to a value is extracted back unchanged |
| Extract.FromBoolRoundTrip | src/value.rs:365-391 | a boolean converted to a value is extracted back unchanged |
| Extract.FromNatRoundTrip | src/value.rs:392-421 | a natural converted to a value is extracted back unchanged |
| Extract.FromIntRoundTrip | src/value.rs:422-448 | an integer converted to a value is extracted back unchanged |
| Extract.FromStringRoundTrip | src/value.rs:577-589 | a string converted to a value is extracted back unchanged |
| Extract.IntoBytesRoundTrip | src/value.rs:590-617 | a byte list comes back unchanged, also after promotion to numbers |
| Extract.AsNatChecksSignFirst | src/value.rs:400-405 | a negative fractional number is reported as negative, not as fractional |
| Extract.AsIntAcceptsNegatives | src/value.rs:392-448 | a negative integer passes as_int and fails as_nat as negative |
| Compression.Compressed | src/value.rs:618-633 | a compressible Num value becomes a Byte value of the same shape and length; anything else is unchanged |
| Compression.Compress | src/value.rs:618-633 | the check-then-push loop yields the compressed value |
| Compression.CompressKeepsNumbers | src/value.rs:618-633 | a compressible Num value becomes a Byte value of the same shape and the same numbers |
| Compression.CompressLeavesOthers | src/value.rs:618-633 | any other value is left unchanged |
| Compression.CompressKeepsValid | src/value.rs:618-633 | compression keeps a value well formed |
| Compression.CompressedIsFinal | src/value.rs:618-633 | a compressed value is never compressible again |
| Compression.CompressIdempotent | src/value.rs:618-633 | compressing twice equals compressing once |
| Compression.CompressThenPromote | src/value.rs:618-633 | promoting a compressed value back to numbers restores it |
| Compression.PromoteThenCompress | src/value.rs:618-633 | a Byte value promoted to numbers compresses back to itself |
| Order.LexCmpFlip | src/value.rs:981-985 | swapping operands reverses the element order |
| Order.LexCmpEqual | src/value.rs:981-985 | elements compare equal exactly when the sequences are equal |
| Order.LexCmpTransitive | src/value.rs:981-985 | the element order is transitive |
| Order.LexCmpTransitiveOn | src/value.rs:981-985 | the element order is transitive with Equal steps too |
| Order.ArrayCmpFlip | src/value.rs:981-985 | swapping operands reverses the array order |
| Order.ArrayCmpEqual | src/value.rs:981-985 | arrays compare equal exactly when shapes and elements are equal |
| Order.ArrayCmpTransitive | src/value.rs:981-985 | the array order is transitive, with Less and Equal steps |
| Order.Cmp | src/value.rs:981-998 | Num and Byte sort below Char, Char below Func, and two function arrays use the function order |
| Order.CmpNumByteNumeric | src/value.rs:988-989 | numeric values compare by their numbers, as if both were Num |
| Order.CmpFlip | src/value.rs:981-998 | swapping operands reverses the order, given that the function order does |
| Order.CmpTransitive | src/value.rs:981-998 | the order across kinds is transitive, with Less and Equal steps, given that the function order is |
| Order.Reals | src/value.rs:981-987 | the elements compared are the numbers of Num and Byte values |
| Order.CmpEqualIsEq | src/value.rs:959-998 | outside function arrays, the order says Equal exactly when == holds |
| Order.ValueEq | src/value.rs:959-971 | values of different kind groups are never equal; Char and Func pairs are equal exactly when identical |
| Order.EqNumeric | src/value.rs:959-971 | two numeric values are equal exactly when shapes and numbers agree, also across Num and Byte |
| Order.EqReflexive | src/value.rs:959-973 | every value equals itself |
| Order.EqSymmetric | src/value.rs:959-973 | equality is symmetric |
| Order.EqTransitive | src/value.rs:959-973 | equality is transitive, also through a Num/Byte chain |
| Order.CompressKeepsEquality | src/value.rs:618-633 | a value equals its compressed form |
| Order.CompressKeepsOrder | src/value.rs:618-633 | compressing a value does not change how it compares with any value, on either side |
| Order.HashInputAsWritten | src/value.rs:1000-1021 | Num is tagged 0 and Byte 1, each followed by its own shape and its numbers |
| Order.HashInputOf | src/value.rs:1000-1021 | the corrected input tags Num and Byte alike and hashes their numbers |
| Order.CompressChangesHashAsWritten | src/value.rs:1000-1021 | compressing the number 1 keeps it equal but changes its as-written hasher input |
| Order.CompressKeepsHash | src/value.rs:1000-1021 | with the corrected input, compressing never changes the hasher input |
| Order.HashAsWrittenSplitsEqualValues | src/value.rs:1000-1021 | the number 1 and the byte 1 are equal, yet their hash inputs differ |
| Order.HashAgreesWithEq | src/value.rs:1000-1021 | with a shared Num/Byte tag, hash inputs are equal exactly when the values are |
| Unary.Apply | src/value.rs:735-784 | Char fails naming "character"; Num stays Num; Byte stays Byte for sign, floor, ceil and round and becomes Num otherwise; a function array keeps its shape; shape and validity are kept |
| Unary.ApplyElements | src/value.rs:754-763 | the elements processed so far are all constants, one per element, and well formed |
| Unary.ApplyElementsErrorSticks | src/value.rs:756-761 | the first failing element's error is the operation's error |
| Unary.ApplyElementsSucceed | src/value.rs:754-763 | a function array goes through exactly when every element is a constant on which the operation succeeds |
| Unary.ApplyElementsResults | src/value.rs:756-762 | each new element is the box of its element's result |
| Unary.UnboxableElementFails | src/value.rs:757-759 | a non-constant element fails the operation naming "function" |
| Unary.ApplyToBox | src/value.rs:754-763 | on a box, the operation transforms the contents and boxes the result |
| Unary.ApplyToNumbers | src/value.rs:743-746 | a number array maps each element through the kernel |
| Unary.MapNumbers | src/value.rs:743-746 | the in-place loop rewrites each number with the kernel |
| Unary.MapBytes | src/value.rs:743-746 | the in-place loop rewrites each byte with the byte kernel |
| Unary.BytesToNumbers | src/value.rs:747-752 | the building loop yields the kernel's number for each byte, in order |
| Unary.RunElements | src/value.rs:754-763 | the element loop yields exactly the specified elements or first error |
| Unary.Run | src/value.rs:735-770 | the operation as run yields exactly the specified result |
| Binary.Row | src/value.rs:857-957 | only comparisons have rows with a function side, and then both sides are function arrays; in-place rows pair Num with Num or Char with Char; every operation has a Num/Num row |
| Binary.RunTyped | src/value.rs:808-823 | the retry on numbers replaces the kernel's result exactly when there is a byte side, a numeric fill, a fill error and a retry kernel; otherwise the kernel's result, error included, stands |
| Binary.RetryRowsHaveByteSide | src/value.rs:857-957 | every row with a retry kernel has a Byte side, and its retry is the number kernel |
| Binary.ArithmeticHasNoFunctionRows | src/value.rs:857-933 | arithmetic has no row involving function arrays |
| Binary.ComparisonsCoverKinds | src/value.rs:935-957 | comparisons have a row for every non-function pair and for two function arrays; numbers against characters are always less, and characters against numbers always greater |
| Binary.SubCharNumFails | src/value.rs:869-878 | sub on a character and a number fails naming both types |
| Binary.Atan2OnlyNumbers | src/value.rs:915 | atan2 on anything but two Num arrays fails naming both types |
| Binary.TypedRowRetry | src/value.rs:808-823 | a typed row's result is the retry on numbers exactly when the retry applies, else the kernel's result |
| Binary.NoFillNoRetry | src/value.rs:786-793 | without a numeric fill a typed row's result is the kernel's result |
| Binary.Apply | src/value.rs:795-855 | a pair with no row and no function side fails naming both types; an in-place row is the kernel's result |
| Binary.UnboxableGoesToLift | src/value.rs:824-847 | with no table row, a function operand that is not a box, on the left or else on the right, sends the operation to element-wise lifting |
| Binary.BoxOnLeftUnwraps | src/value.rs:824-826 | a boxed scalar on the left with no row is unboxed and the operation repeated |
| Binary.BoxOnRightUnwraps | src/value.rs:837-839 | a boxed scalar on the right of a non-function value is unboxed likewise |
| Binary.CoercedElementDepth | src/value.rs:827-833 | the box contents combined by lifting nest less deeply than the operands, so lifting terminates |
| Binary.BroadcastIndexInRange | src/value.rs:829 | each broadcast position pairs elements that exist on both sides |
| Binary.BroadcastSameShape | src/value.rs:829 | with equal shapes, broadcasting pairs equal positions |
| Binary.Lift | src/value.rs:827-834 | shapes that do not share a prefix fail with a shape mismatch; success gives a function array of the broadcast shape |
| Binary.LiftPair | src/value.rs:830-831 | the paired box contents are well formed and nest less deeply than the operands |
| Binary.LiftStep | src/value.rs:830-832 | a lifted position yields a constant function |
| Binary.LiftElements | src/value.rs:829-833 | the lifted elements number one per position |
| Binary.LiftElementsSucceed | src/value.rs:829-833 | when every position goes through, the lifted elements do |
| Binary.LiftElementsResults | src/value.rs:829-833 | each lifted element is its position's box |
| Binary.LiftUnfold | src/value.rs:827-834 | lifting is the broadcast-shaped array of the lifted elements, or their first error |
| Binary.LiftSucceeds | src/value.rs:827-834 | lifting goes through exactly when the shapes broadcast and every position goes through |
| Binary.LiftResults | src/value.rs:827-834 | a lifted result holds one box per position, each its position's result |
| Binary.LeftNotABox | src/value.rs:830 | a position whose left element is not a box fails with "First argument is not a box" |
| Binary.LiftStepSameShape | src/value.rs:827-834 | with equal shapes, position j combines the contents of box j with element j of the other operand |
| Builder.WithLeadingAxis | src/value.rs:1067 | inserting the leading axis prepends 1 to the shape and keeps the buffer |
| Builder.LeadingAxisRow | src/value.rs:1066-1068 | the first row stored is well formed, has one row, and that row is the row given |
| Builder.ValueBuilder.constructor | src/value.rs:1048-1054 | a new builder has no value, no rows and no capacity |
| Builder.ValueBuilder.WithCapacity | src/value.rs:1055-1061 | a builder made with a capacity has no value and no rows |
| Builder.ValueBuilder.AddRow | src/value.rs:1062-1072 | the first row is stored under a leading axis of 1; later rows are appended; rows grows by one on success and nothing changes when appending fails |
| Builder.ValueBuilder.Finish | src/value.rs:1073-1075 | a builder with no rows yields the default empty Byte list, otherwise its value |
| Builder.BuildOneRow | src/value.rs:47-49 | a builder given one row finishes with that row under a leading axis of 1 |

## Left out

- Values.Row: that a scalar's row is the scalar itself rests on `Array::row`, which lives outside src/value.rs and is not part of this model.
- Values.Default: the shape [0] of the default value rests on `Array::default`, which lives outside src/value.rs and is not part of this model.
- Errors.FormatShape: the text of a shape in messages ("[2 × 3]") is assumed. `format_shape` lives outside src/value.rs and is not part of this model.
- Floating point: numbers are exact reals. NaN, infinities, rounding and the `f64::EPSILON` tolerance in the fractional checks are not modelled. "Has a fractional part" means the number differs from its floor.
- Extract.AsBool, Extract.AsNat, Extract.AsInt, Extract.AsNum: these require the array invariant, which every constructor in the source keeps, rather than handling a malformed scalar.
- Extract.Truncate, Extract.TruncateToNat: machine-width overflow of `as isize` and `as usize` is not modelled.
- Unary.Kernels, Binary.Pervade, Builder.Append: the scalar kernels, `bin_pervade`, `bin_pervade_mut`, `append` and their fill handling live in other modules. They are parameters here, so results are stated relative to them.
- Unary.Apply: the Byte kernels of the operations other than sign, floor, ceil and round are taken to return numbers, so their results are Num arrays.
- Binary.Lift: the broadcasting of `bin_pervade` on the box path is modelled by the prefix rule without fill values. Positions are visited in buffer order, and the first failure is returned.
- Order.Cmp: the order of `Array` itself lives outside this file. It is modelled as shapes first, then elements, both lexicographically, with elements read as numbers. The order of function arrays is a parameter.
- Order.ValueEq: function arrays are equal when structurally identical. The equality of compiled functions is not part of this model.
- Order.Cmp: `partial_cmp` always returns `Some(cmp)` and is not a separate member.
- Builder.ValueBuilder.AddRow: when `append` fails, the model keeps the stored value unchanged. In the source that value is whatever `append` left behind.
- Builder.ValueBuilder.AddRow: `reserve_min` only reserves memory and has no effect on values.
- In-place updates (`compress`, in-place kernels, `shape_mut`) are modelled by returning new values, because values are immutable data here. `Arc` sharing and `Cow` copy-on-write are not modelled.
- Parallel iteration in the unary kernels is modelled as a sequential loop.
- `signature`, `as_primitive` and `as_flipped_primitive` depend on `Function` internals, which are not part of this model.
- `show`, `Debug` and `Display` only format values.
- `first_dim_zero` delegates to `Array::first_dim_zero`, which is not part of this model.
- The `generic_*` visitors are represented by matching on the value's kind; the deep ones by `Values.Deep`.
- `as_num_array`, `as_byte_array`, `as_char_array`, `as_func_array` and `into_func_array` are the datatype's discriminators and destructors.
- The environment-passing visitors (`generic_ref_env_*`) and the `Uiua` error constructor are not modelled. Failures are built as structured values.
- The text of the per-operation type errors lives in the kernel modules. Those errors are modelled as the operation's name plus the operand type names.

## Findings

| source | as written | input that shows it | evidently intended | confidence | as-written member | corrected member |
|---|---|---|---|---|---|---|
| src/value.rs:1000-1021 | `Hash` tags Num with 0 and Byte with 1, so equal Num and Byte values feed the hasher different inputs | the number scalar 1 and the byte scalar 1: `==` holds, the hash inputs differ | equal values hash alike: Num and Byte share a tag and hash their numbers | medium, not executed | Order.HashAsWrittenSplitsEqualValues | Order.HashAgreesWithEq |
| src/value.rs:618-633 | `compress` turns a Num array into an equal Byte array, so with the tags above it changes the value's hash | the number scalar 1: it compresses to the byte scalar 1, which is equal to it but has a different hash input | compressing keeps the hash, as it keeps equality | medium, not executed | Order.CompressChangesHashAsWritten | Order.CompressKeepsHash |
