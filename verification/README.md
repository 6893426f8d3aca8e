# pgxscan destination classifier, modelled in Dafny

pgxscan binds one database result row onto destinations supplied by the
caller. First it has to decide what kind of destination it was given. A list
of destinations that are each "builtin" is bound by position: the row
source's `fill` receives them as they are. A single destination that is not
builtin is a struct, bound field by field through `ScanStruct`. The scanner
refuses a call with no destination, and a call with several destinations
that are not all builtin; that routing is not part of this model. This
project models the classification, and the argument check `ScanStruct`
makes before it calls `fill`, as they are fixed by the table-driven tests in
`scanner_test.go`.

- `go_types.dfy` (module `GoTypes`): Go's static types as far as the
  classifier sees them (`Scalar(kind)`, `Struct(fields)`, `Iface`,
  `Slice(elem)`, `Ptr(elem)`). It also models a value passed as
  `interface{}`: a slice carries its static element type beside its items,
  and a pointer carries the type it points to. `time.Time` is a struct in
  Go, but the classifier lists it by name, so here it is a scalar kind.
- `classifier.dfy` (module `Classifier`): `isBuiltin` as a type switch over
  the dynamic type, and `isVariadic` over a list of arguments.
- `struct_binder.dfy` (module `StructBinder`): `ScanStruct(fill, dst, cols)`.
  The row source's `fill` is a parameter, and so is the step that resolves a
  column name to a field of `dst`.
- `scanner_tests.dfy` (module `ScannerTests`): the test tables as constant
  data, with lemmas that the model gives the wanted answer on every row.

Every test covers one of four shapes around a leaf type T: `T`, `*T`, `[]T`
and `*[]T`, where T is a scalar kind, a struct, `interface{}` or some other
type (an `Other` leaf). That set is
the predicate `GoTypes.Covered`. Inside it, a destination is builtin exactly
when its innermost element type is an allow-listed scalar kind. Deeper
shapes (`**int`, `[][]int`) and `isVariadic()` with no argument are not
fixed by any test. The functions return an answer for them, because they
need a body: `false` for the deeper shapes, following the closed type
switch, and `true` for no argument. No contract or lemma says anything about
those cases.

## Model

| member | source | states |
|---|---|---|
| `Classifier.IsBuiltinType` | scanner_test.go:138-252 | for every tested shape (T, *T, []T, *[]T over a leaf T), the type is builtin if and only if its innermost element type is one of the allow-listed scalar kinds; so structs and `interface{}` never qualify at these depths, whatever their fields |
| `Classifier.IsBuiltin` | scanner_test.go:254-260 | classifies an `interface{}` argument by its dynamic type: within the tested shapes it is builtin if and only if the innermost element type of that type is an allow-listed kind |
| `Classifier.IsVariadic` | scanner_test.go:62-130 | for a non-empty argument list, the result is true if and only if every argument is builtin |
| `Classifier.ScalarShapesAreBuiltin` | scanner_test.go:139-223 | every allow-listed kind (string, uint to uint64, int to int64, float32/64, complex64/128, bool, time.Time) is builtin as a value, behind a pointer, as a slice element type, and behind a pointer to such a slice |
| `Classifier.StructShapesAreNotBuiltin` | scanner_test.go:230-252 | a struct is not builtin, for any field list (all-string fields included), whether as a value, behind a pointer, as a slice element type, or behind a pointer to such a slice |
| `Classifier.InterfaceSlicesAreNotBuiltin` | scanner_test.go:225-229 | `[]interface{}` and `*[]interface{}` are not builtin |
| `Classifier.ClassifiedByTypeAlone` | scanner_test.go:115-121 | two values with the same dynamic type are classified alike: the items of a slice and the target of a pointer play no part |
| `Classifier.SingleArgumentVariadic` | scanner_test.go:69-96 | a single argument is variadic exactly when it is builtin |
| `Classifier.NonBuiltinArgumentWins` | scanner_test.go:97-114 | one non-builtin argument, at any position, makes the whole argument list non-variadic |
| `Classifier.BoxingHidesBuiltinItems` | scanner_test.go:115-121 | builtin items that are variadic when passed one by one are not variadic once boxed in a single `[]interface{}`: the static element type decides, not the values |
| `StructBinder.FieldAddresses` | scanner_test.go:46-51 | the address list given to `fill` is no longer than the column list. Every address comes from some column, and every column that resolves contributes its address. When every column resolves, the list has one address per column, in column order |
| `StructBinder.FieldAddressesOfOneColumn` | scanner_test.go:51 | a single column yields its field's address when it resolves and no address when it does not, so an unmatched column is skipped |
| `StructBinder.FieldAddressesAppend` | scanner_test.go:46-51 | resolution goes column by column in column order: the addresses for `c1 + c2` are those for `c1` followed by those for `c2`; with the one-column lemma this gives one address per matched column, in column order, for partial matches too |
| `StructBinder.ScanStruct` | scanner_test.go:43-59 | an empty (nil) column list yields the no-columns error without consulting `fill`. Otherwise the result is exactly what `fill` returns for the resolved addresses, so an error from `fill` passes through unwrapped |
| `ScannerTests.IsBuiltinTablesPass` | scanner_test.go:132-623 | every row of Test_isBuiltin, Test_isBuiltinPointers, Test_isBuiltinSlice and Test_isBuiltinSlicePointer gets the wanted answer |
| `ScannerTests.IsVariadicTablePasses` | scanner_test.go:62-122 | every row of Test_isVariadic gets the wanted answer |
| `ScannerTests.ScanStructTablePasses` | scanner_test.go:39-60 | with a fill that reports no error, any struct pointer scans without error for a non-empty column list and for the single column "id", and the scan fails for a nil column list |

## Left out

- `NewScanner` and `Scanner.Scan`: their only test (scanner_test.go:10-36) needs a live database, a schema, fixture rows and a `COUNT(*)` query. The routing that `Scan` does on top of `isVariadic` is not part of this model.
- Matching a column to a struct field by its tag or by its field name is not modelled. It is the `resolve` parameter of `ScanStruct`, because the implementation and the `internal/test` package are not part of this model.
- `ScannerTests.ScanStructTablePasses`: the contents of `test.TestStruct` and `test.TestCols` are not known. The lemma holds for every struct pointer and every non-empty column list, so it covers them on the assumption that `test.TestCols` is non-empty.
- The writes `fill` makes into destination memory: `fill` is modelled only by the error it returns.
- Payloads of values (`1.56`, `"hello"`, `time.Now()`): only a value's dynamic type matters to the classifier. No floating-point or clock behaviour is modelled.
- The `*ToPtr` helpers (`stringToPtr`, `intToPtr`, ...): they are written as `ScannerTests.AddrOf`, which takes the address of a value.
- An untyped `nil` argument (no dynamic type at all) is not modelled: every `Value` has a type. Types the tests never use (arrays, maps, channels, funcs, `uintptr`, defined types, non-empty interfaces) share one `Other` leaf and are not told apart.
- A Go slice can be nil or empty, and a Dafny sequence cannot tell these apart. A nil column list and an empty one are therefore the same input, and both are refused.
- IsVariadic: its contract says nothing about a call with no argument, because no test fixes that case.
- IsBuiltinType: its contract says nothing about shapes nested deeper than a pointer to a slice (`**int`, `[][]int`, `[]*int`), because no test fixes them.
