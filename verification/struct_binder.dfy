/**
 * `ScanStruct(fill, dst, cols)`: binds the columns of one row to the fields of
 * a struct. Each column is resolved to a field address of `dst`; the
 * addresses, in column order, are handed to the row source's `fill`, whose
 * error comes back unchanged. How a column name is matched against a field's
 * tag or name is not part of this model: it is the `resolve` parameter.
 */
module StructBinder {
  import opened GoTypes

  /** Errors ScanStruct can return: its own check on the column list, or
      whatever the row source's `fill` reports. */
  datatype Error = NoColumns | Driver(message: string)

  /** The row source's `fill(dest ...interface{}) error`, given the field
      addresses (field positions within `dst`) in column order. */
  type FillFunc = seq<nat> -> Option<Error>

  /** The field of `dst` that a column name resolves to, if any. */
  type Resolver = (Value, string) -> Option<nat>

  /** `dst` is a non-nil pointer to a struct. */
  predicate IsStructPointer(dst: Value)
  {
    dst.Ref? && dst.targetType.Struct? && dst.target.Some?
  }

  /** The address list handed to `fill`: one entry per column that resolves,
      in column order; a column that resolves to no field is skipped. */
  function FieldAddresses(dst: Value, cols: seq<string>, resolve: Resolver): (addrs: seq<nat>)
    ensures |addrs| <= |cols|
    ensures forall a :: a in addrs ==> exists i :: 0 <= i < |cols| && resolve(dst, cols[i]) == Some(a)
    ensures forall i :: 0 <= i < |cols| && resolve(dst, cols[i]).Some? ==> resolve(dst, cols[i]).value in addrs
    ensures (forall i :: 0 <= i < |cols| ==> resolve(dst, cols[i]).Some?) ==>
              |addrs| == |cols| && forall i :: 0 <= i < |cols| ==> resolve(dst, cols[i]) == Some(addrs[i])
  {
    if |cols| == 0 then []
    else
      var rest := FieldAddresses(dst, cols[1..], resolve);
      match resolve(dst, cols[0])
      case Some(a) => [a] + rest
      case None => rest
  }

  /** A single column contributes its field's address when it resolves, and
      nothing when it does not. */
  lemma FieldAddressesOfOneColumn(dst: Value, col: string, resolve: Resolver)
    ensures resolve(dst, col).Some? ==> FieldAddresses(dst, [col], resolve) == [resolve(dst, col).value]
    ensures resolve(dst, col).None? ==> FieldAddresses(dst, [col], resolve) == []
  {
  }

  /** Resolution works column by column, in column order: the addresses of a
      concatenated column list are the addresses of its first part followed
      by those of its second. With FieldAddressesOfOneColumn this fixes the
      list for every column list, partial matches included. */
  lemma {:induction false} FieldAddressesAppend(dst: Value, c1: seq<string>, c2: seq<string>, resolve: Resolver)
    ensures FieldAddresses(dst, c1 + c2, resolve) == FieldAddresses(dst, c1, resolve) + FieldAddresses(dst, c2, resolve)
  {
    if |c1| == 0 {
      assert c1 + c2 == c2;
    } else {
      assert (c1 + c2)[0] == c1[0];
      assert (c1 + c2)[1..] == c1[1..] + c2;
      FieldAddressesAppend(dst, c1[1..], c2, resolve);
    }
  }

  /** `ScanStruct(fill, dst, cols)`: an empty (nil) column list is refused
      before `fill` is consulted; otherwise the result is exactly what `fill`
      returns for the resolved addresses, success or error. */
  function ScanStruct(fill: FillFunc, dst: Value, cols: seq<string>, resolve: Resolver): (err: Option<Error>)
    requires IsStructPointer(dst)
    ensures |cols| == 0 ==> err == Some(NoColumns)
    ensures |cols| > 0 ==> err == fill(FieldAddresses(dst, cols, resolve))
  {
    if |cols| == 0 then Some(NoColumns)
    else fill(FieldAddresses(dst, cols, resolve))
  }
}
