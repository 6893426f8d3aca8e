/**
 * The destination classifier of the row scanner: `isBuiltin` decides whether
 * one destination can be handed to the row source as it is, and `isVariadic`
 * decides whether a list of destinations can be bound by position or has to
 * go through struct field binding.
 */
module Classifier {
  import opened GoTypes

  /** The type switch behind `isBuiltin`: a builtin scalar kind, a pointer to
      one, a slice of one, or a pointer to such a slice. Within the shapes the
      tests cover, that is exactly "the innermost element type is a builtin
      scalar kind": structs (whatever their fields) and `interface{}` never
      qualify, at any of these depths. */
  function IsBuiltinType(t: GoType): (r: bool)
    ensures Covered(t) ==> (r <==> Innermost(t).Scalar?)
  {
    InnermostOfCovered(t);
    match t
    case Scalar(_) => true
    case Ptr(Scalar(_)) => true
    case Slice(Scalar(_)) => true
    case Ptr(Slice(Scalar(_))) => true
    case _ => false
  }

  /** `isBuiltin(v)`: classifies the argument by its dynamic type only; the
      items of a slice and the target of a pointer are never looked at. */
  function IsBuiltin(v: Value): (r: bool)
    ensures Covered(TypeOf(v)) ==> (r <==> Innermost(TypeOf(v)).Scalar?)
  {
    IsBuiltinType(TypeOf(v))
  }

  /** `isVariadic(vs...)`: the destinations can be bound one per column
      exactly when every one of them is builtin; a single non-builtin argument
      sends the whole call to struct binding. With no argument at all the
      model answers true, but nothing here relies on that case. */
  function IsVariadic(vs: seq<Value>): (r: bool)
    ensures |vs| > 0 ==> (r <==> forall i :: 0 <= i < |vs| ==> IsBuiltin(vs[i]))
  {
    if |vs| == 0 then true
    else IsBuiltin(vs[0]) && IsVariadic(vs[1..])
  }

  /** Every allow-listed kind is builtin as a value, behind a pointer, as the
      element type of a slice and behind a pointer to such a slice. */
  lemma ScalarShapesAreBuiltin(k: ScalarKind)
    ensures IsBuiltinType(Scalar(k))
    ensures IsBuiltinType(Ptr(Scalar(k)))
    ensures IsBuiltinType(Slice(Scalar(k)))
    ensures IsBuiltinType(Ptr(Slice(Scalar(k))))
  {
  }

  /** A struct is never builtin, even when all its fields are: not as a
      value, not behind a pointer, not as a slice element type. */
  lemma StructShapesAreNotBuiltin(fields: seq<Field>)
    ensures !IsBuiltinType(Struct(fields))
    ensures !IsBuiltinType(Ptr(Struct(fields)))
    ensures !IsBuiltinType(Slice(Struct(fields)))
    ensures !IsBuiltinType(Ptr(Slice(Struct(fields))))
  {
  }

  /** A slice of `interface{}`, or a pointer to one, is not builtin: its
      element type is not statically a builtin kind. */
  lemma InterfaceSlicesAreNotBuiltin()
    ensures !IsBuiltinType(Slice(Iface))
    ensures !IsBuiltinType(Ptr(Slice(Iface)))
  {
  }

  /** Two values of the same dynamic type are classified alike: what a slice
      holds, or whether a pointer is nil, makes no difference. */
  lemma ClassifiedByTypeAlone(v: Value, w: Value)
    requires TypeOf(v) == TypeOf(w)
    ensures IsBuiltin(v) == IsBuiltin(w)
  {
  }

  /** One argument is variadic exactly when it is builtin. */
  lemma SingleArgumentVariadic(v: Value)
    ensures IsVariadic([v]) == IsBuiltin(v)
  {
  }

  /** The decision is all-or-nothing: one non-builtin argument, wherever it
      stands, makes the whole list non-variadic. */
  lemma NonBuiltinArgumentWins(vs: seq<Value>, i: nat)
    requires i < |vs| && !IsBuiltin(vs[i])
    ensures !IsVariadic(vs)
  {
  }

  /** Classification follows the static element type, not the values: items
      that are variadic when passed one by one stop being so once they are
      boxed in a `[]interface{}`. */
  lemma BoxingHidesBuiltinItems(items: seq<Value>)
    requires |items| > 0
    requires forall i :: 0 <= i < |items| ==> IsBuiltin(items[i])
    ensures IsVariadic(items)
    ensures !IsVariadic([List(Iface, items)])
  {
  }
}
