/**
 * Building a value one row at a time: the first row becomes a value with a
 * leading axis of length 1, and every later row is appended to it.
 */
module Builder {
  import opened Wrappers
  import opened Arrays
  import opened Values
  import opened Errors

  /** Two values of the same kind share the same flat buffer. */
  predicate SameBuffer(a: Value, b: Value)
  {
    match (a, b)
    case (Num(x), Num(y)) => x.data == y.data
    case (Byte(x), Byte(y)) => x.data == y.data
    case (Char(x), Char(y)) => x.data == y.data
    case (Func(x), Func(y)) => x.data == y.data
    case _ => false
  }

  /** The value with a leading axis of length 1 inserted into its shape. */
  function WithLeadingAxis(v: Value): (r: Value)
    ensures Shape(r) == [1] + Shape(v)
    ensures SameBuffer(r, v) && FlatLen(r) == FlatLen(v)
  {
    match v
    case Num(a) => Num(Array([1] + a.shape, a.data))
    case Byte(a) => Byte(Array([1] + a.shape, a.data))
    case Char(a) => Char(Array([1] + a.shape, a.data))
    case Func(a) => Func(Array([1] + a.shape, a.data))
  }

  /** Inserting the axis keeps a value well formed, and its only row is the value itself. */
  lemma LeadingAxisRow(v: Value)
    requires Valid(v)
    ensures Valid(WithLeadingAxis(v))
    ensures Values.RowCount(WithLeadingAxis(v)) == 1
    ensures Values.Row(WithLeadingAxis(v), 0) == v
  {
    var r := WithLeadingAxis(v);
    ValidFlatLen(v);
    assert Product([1] + Shape(v)) == Product(Shape(v));
    assert ([1] + Shape(v))[1..] == Shape(v);
    match v {
      case Num(a) => assert Arrays.Row(r.nums, 0).data == a.data;
      case Byte(a) => assert Arrays.Row(r.bytes, 0).data == a.data;
      case Char(a) => assert Arrays.Row(r.chars, 0).data == a.data;
      case Func(a) => assert Arrays.Row(r.funcs, 0).data == a.data;
    }
  }

  /**
   * Appending one value to another along the leading axis, with the same
   * promotion, broadcasting and fill rules as the binary operations; it lives
   * outside this model.
   */
  type Append = (Value, Value) -> Result<Value, Failure>

  class ValueBuilder {
    var value: Option<Value>
    var rows: nat
    var capacity: nat

    /** A builder holds a value exactly when it has received a row. */
    predicate Consistent()
      reads this
    {
      value.None? <==> rows == 0
    }

    /** new: no value, no rows, no capacity. */
    constructor ()
      ensures Consistent()
      ensures value == None && rows == 0 && capacity == 0
    {
      value := None;
      rows := 0;
      capacity := 0;
    }

    /** with_capacity, and Value::builder: no value, no rows, the given capacity. */
    constructor WithCapacity(capacity: nat)
      ensures Consistent()
      ensures value == None && rows == 0 && this.capacity == capacity
    {
      value := None;
      rows := 0;
      this.capacity := capacity;
    }

    /**
     * add_row: the first row is stored with a leading axis of length 1; later
     * rows are appended. The row count grows by one on success, and nothing
     * changes when appending fails.
     */
    method AddRow(row: Value, append: Append) returns (r: Result<(), Failure>)
      requires Consistent()
      modifies this
      ensures Consistent()
      ensures capacity == old(capacity)
      ensures old(value).None? ==> r == Ok(()) && value == Some(WithLeadingAxis(row)) && rows == old(rows) + 1
      ensures old(value).Some? && append(old(value).value, row).Ok? ==>
                r == Ok(()) && value == Some(append(old(value).value, row).value) && rows == old(rows) + 1
      ensures old(value).Some? && append(old(value).value, row).Err? ==>
                r == Err(append(old(value).value, row).error) && value == old(value) && rows == old(rows)
    {
      if value.Some? {
        var appended := append(value.value, row);
        if appended.Err? {
          return Err(appended.error);
        }
        value := Some(appended.value);
      } else {
        value := Some(WithLeadingAxis(row));
      }
      rows := rows + 1;
      return Ok(());
    }

    /** finish: the built value, or the default empty byte list when no row was added. */
    method Finish() returns (v: Value)
      requires Consistent()
      ensures rows == 0 ==> v == Default()
      ensures rows > 0 ==> value == Some(v)
    {
      v := if value.Some? then value.value else Default();
    }
  }

  /** A builder given one row finishes with that row under a leading axis of length 1. */
  method BuildOneRow(capacity: nat, row: Value, append: Append) returns (v: Value)
    requires Valid(row)
    ensures Valid(v) && Shape(v) == [1] + Shape(row) && SameBuffer(v, row)
    ensures Values.RowCount(v) == 1 && Values.Row(v, 0) == row
  {
    var b := new ValueBuilder.WithCapacity(capacity);
    var r := b.AddRow(row, append);
    v := b.Finish();
    LeadingAxisRow(row);
  }
}
