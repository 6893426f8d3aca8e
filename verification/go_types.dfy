/**
 * The part of Go's type system that the row scanner's classifier looks at:
 * the static type of a destination and the value a caller hands over as an
 * `interface{}` argument. Payloads (the number 1, the string "hello", the
 * float 1.56, the current time) are abstracted away: the classifier only
 * ever inspects a value's dynamic type.
 */
module GoTypes {

  datatype Option<+T> = None | Some(value: T)

  /** The atomic kinds the classifier knows by name. `Time` is Go's
      `time.Time`: a struct in Go, but one the classifier lists on its own,
      so it is a kind here and not a `Struct`. */
  datatype ScalarKind =
    | String
    | Uint | Uint8 | Uint16 | Uint32 | Uint64
    | Int | Int8 | Int16 | Int32 | Int64
    | Float32 | Float64
    | Complex64 | Complex128
    | Bool
    | Time

  /** A struct field: its name, its mapping tag ("" when it has none) and its type. */
  datatype Field = Field(name: string, tag: string, typ: GoType)

  /** Static Go types. The shapes the tests use have constructors of their
      own; every other type (arrays, maps, channels, funcs, uintptr, defined
      types such as `type ID int`, which a type switch on `int` does not
      match, non-empty interfaces) is an `Other` leaf, named for reading. */
  datatype GoType =
    | Scalar(kind: ScalarKind)     // string, intN, uintN, floatN, complexN, bool, time.Time
    | Struct(fields: seq<Field>)   // struct { ... }, named or anonymous
    | Iface                        // interface{}
    | Slice(elem: GoType)          // []elem
    | Ptr(elem: GoType)            // *elem
    | Other(name: string)          // any type not listed above

  /** A value passed as `interface{}`. A slice records its static element
      type besides its items: for `[]interface{}{"one", 4}` the element type
      is `Iface` while the items are a string and an int. A pointer records
      the type it points to and, unless it is nil, the value it points at.
      Go only builds values whose items have type `elemType` (any type when
      it is `Iface`) and whose target has type `targetType`; the datatype
      does not enforce this, and the classifier never looks at items or
      targets, so nothing here depends on it. */
  datatype Value =
    | Prim(kind: ScalarKind)
    | Record(fields: seq<Field>)
    | List(elemType: GoType, items: seq<Value>)
    | Ref(targetType: GoType, target: Option<Value>)
    | Opaque(name: string)         // a value of an `Other` type

  /** The dynamic type `reflect.TypeOf` reports for a value. A value
      stored in an `interface{}` never has `interface{}` as its dynamic type. */
  function TypeOf(v: Value): (t: GoType)
    ensures !t.Iface?
  {
    match v
    case Prim(k) => Scalar(k)
    case Record(fs) => Struct(fs)
    case List(e, _) => Slice(e)
    case Ref(e, _) => Ptr(e)
    case Opaque(n) => Other(n)
  }

  /** The innermost element type: pointers and slices stripped. */
  function Innermost(t: GoType): GoType
  {
    match t
    case Ptr(e) => Innermost(e)
    case Slice(e) => Innermost(e)
    case _ => t
  }

  /** A type that is neither a pointer nor a slice. */
  predicate IsLeaf(t: GoType)
  {
    t.Scalar? || t.Struct? || t.Iface? || t.Other?
  }

  /** The shapes the scanner's test tables exercise: T, *T, []T and *[]T
      where T is a leaf. Deeper shapes (**int, [][]int, []*int, ...) are
      not covered by any test, and no contract here speaks about them. */
  predicate Covered(t: GoType)
  {
    || IsLeaf(t)
    || (t.Ptr? && IsLeaf(t.elem))
    || (t.Slice? && IsLeaf(t.elem))
    || (t.Ptr? && t.elem.Slice? && IsLeaf(t.elem.elem))
  }

  /** For a covered shape the innermost element type is the leaf reached
      through at most a pointer and a slice. */
  lemma InnermostOfCovered(t: GoType)
    ensures Covered(t) ==>
      Innermost(t) == (if IsLeaf(t) then t else if IsLeaf(t.elem) then t.elem else t.elem.elem)
  {
  }
}
