/** The mapping from a Waterline attribute to its GraphQL type (waterlineTypesToGraphQLType). */
module TypeMapper {
  import opened Wrappers
  import opened Descriptors

  /** The type with one non-null wrapper removed. */
  function Nullable(t: GqlType): GqlType {
    if t.NonNull? then t.of else t
  }

  /**
   * `string`, `number` and `boolean` map to String, Int and Boolean; every
   * other type, an absent one included, maps to CustomJson; the result is
   * non-null exactly when the attribute is required.
   */
  function MapAttributeType(a: Attribute): (t: GqlType)
    ensures t.NonNull? <==> a.required
    ensures Nullable(t).Leaf?
    ensures Nullable(t).scalar == String <==> a.typ == Some("string")
    ensures Nullable(t).scalar == Int <==> a.typ == Some("number")
    ensures Nullable(t).scalar == Boolean <==> a.typ == Some("boolean")
    ensures Nullable(t).scalar != Float
  {
    var base :=
      match a.typ
      case Some("string") => Leaf(String)
      case Some("number") => Leaf(Int)
      case Some("boolean") => Leaf(Boolean)
      case _ => Leaf(CustomJson);
    if a.required then NonNull(base) else base
  }
}
