/**
 * The table-driven tests of the row scanner, as data: each table row is the
 * row's name, the destination(s) it passes and the answer it wants. The
 * lemmas state that the model gives the wanted answer on every row.
 */
module ScannerTests {
  import opened GoTypes
  import opened Classifier
  import opened StructBinder

  datatype BuiltinCase = BuiltinCase(name: string, test: Value, want: bool)
  datatype VariadicCase = VariadicCase(name: string, test: seq<Value>, want: bool)

  /** `struct { Str string }`, the anonymous struct the tables use. */
  const StrStruct: seq<Field> := [Field("Str", "", Scalar(String))]

  /** `&v`: a non-nil pointer to `v`. */
  function AddrOf(v: Value): (p: Value)
    ensures TypeOf(p) == Ptr(TypeOf(v))
  {
    Ref(TypeOf(v), Some(v))
  }

  /** `[]T{x}` for a builtin kind T: a one-item slice. */
  function SliceOf(k: ScalarKind): (s: Value)
    ensures TypeOf(s) == Slice(Scalar(k))
  {
    List(Scalar(k), [Prim(k)])
  }

  /** `[]interface{}{1}`. */
  const InterfaceSlice: Value := List(Iface, [Prim(Int)])
  /** `[]struct{ Str string }{{"hello"}, {"world"}}`. */
  const StructSlice: Value := List(Struct(StrStruct), [Record(StrStruct), Record(StrStruct)])

  /** The allow-listed kinds in the order every table lists them. */
  const TableKinds: seq<(string, ScalarKind)> := [
    ("string", String), ("uint", Uint), ("uint8", Uint8), ("uint16", Uint16),
    ("uint32", Uint32), ("uint64", Uint64), ("int", Int), ("int8", Int8),
    ("int16", Int16), ("int32", Int32), ("int64", Int64), ("float32", Float32),
    ("float64", Float64), ("complex64", Complex64), ("complex128", Complex128),
    ("bool", Bool), ("time", Time)
  ]

  /** The positive rows of one table: one per kind, built by `shape`. */
  function PositiveRows(shape: ScalarKind -> Value, suffix: string): seq<BuiltinCase>
  {
    seq(|TableKinds|, i requires 0 <= i < |TableKinds| => BuiltinCase(TableKinds[i].0 + suffix, shape(TableKinds[i].1), true))
  }

  /** Test_isBuiltin: scalars, then a `[]interface{}`, a struct and a struct slice. */
  const IsBuiltinCases: seq<BuiltinCase> :=
    PositiveRows(k => Prim(k), "") + [
      BuiltinCase("interface slice", InterfaceSlice, false),
      BuiltinCase("struct", Record(StrStruct), false),
      BuiltinCase("struct slice", StructSlice, false)
    ]

  /** Test_isBuiltinPointers: pointers to scalars, then `&[]interface{}` and `&struct`. */
  const IsBuiltinPointerCases: seq<BuiltinCase> :=
    PositiveRows(k => AddrOf(Prim(k)), "") + [
      BuiltinCase("interface slice", AddrOf(InterfaceSlice), false),
      BuiltinCase("struct", AddrOf(Record(StrStruct)), false)
    ]

  /** Test_isBuiltinSlice: slices of scalars, then `[]interface{}` and a struct slice. */
  const IsBuiltinSliceCases: seq<BuiltinCase> :=
    PositiveRows(k => SliceOf(k), " slice") + [
      BuiltinCase("interface slice", InterfaceSlice, false),
      BuiltinCase("struct slice", StructSlice, false)
    ]

  /** Test_isBuiltinSlicePointer: pointers to slices of scalars, then the two negatives. */
  const IsBuiltinSlicePointerCases: seq<BuiltinCase> :=
    PositiveRows(k => AddrOf(SliceOf(k)), " slice pointer") + [
      BuiltinCase("interface slice pointer", AddrOf(InterfaceSlice), false),
      BuiltinCase("struct slice pointer", AddrOf(StructSlice), false)
    ]

  /** Test_isVariadic. */
  const IsVariadicCases: seq<VariadicCase> := [
    VariadicCase("single string", [Prim(String)], true),
    VariadicCase("couple strings", [Prim(String), Prim(String)], true),
    VariadicCase("single int", [Prim(Int)], true),
    VariadicCase("builtin slice", [List(Scalar(String), [Prim(String), Prim(String)])], true),
    VariadicCase("struct", [Record(StrStruct)], false),
    VariadicCase("struct slice", [List(Struct(StrStruct), [Record(StrStruct)])], false),
    VariadicCase("interface slice", [List(Iface, [Prim(String), Prim(String), Prim(Int)])], false)
  ]

  predicate Passes(cases: seq<BuiltinCase>)
  {
    forall i :: 0 <= i < |cases| ==> IsBuiltin(cases[i].test) == cases[i].want
  }

  lemma IsBuiltinTablesPass()
    ensures Passes(IsBuiltinCases)
    ensures Passes(IsBuiltinPointerCases)
    ensures Passes(IsBuiltinSliceCases)
    ensures Passes(IsBuiltinSlicePointerCases)
  {
  }

  lemma IsVariadicTablePasses()
    ensures forall i :: 0 <= i < |IsVariadicCases| ==> IsVariadic(IsVariadicCases[i].test) == IsVariadicCases[i].want
  {
  }

  /** The fill stub of Test_scanStruct: it writes nothing and reports no error. */
  const NilFill: FillFunc := addrs => None

  /** Test_scanStruct: with the stub fill, a non-empty column list (the test
      struct's own columns, or just "id") scans without error, and a nil
      column list is an error. */
  lemma ScanStructTablePasses(dst: Value, testCols: seq<string>, resolve: Resolver)
    requires IsStructPointer(dst) && |testCols| > 0
    ensures ScanStruct(NilFill, dst, testCols, resolve) == None
    ensures ScanStruct(NilFill, dst, ["id"], resolve) == None
    ensures ScanStruct(NilFill, dst, [], resolve) != None
  {
  }
}
