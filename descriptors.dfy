/**
 * Waterline model descriptors as the schema builder reads them, and the
 * GraphQL type and field descriptions it produces, as plain values in place
 * of the graphql-js objects.
 */
module Descriptors {
  import opened Wrappers

  /** One entry of a model's `attributes`. A `type` of `None` is an absent type. */
  datatype Attribute = Attribute(typ: Option<string>, required: bool, description: Option<string>)

  /** One entry of a model's `associations`; `model` is set for to-one associations. */
  datatype Association = Association(alias: string, model: Option<string>, description: Option<string>)

  /** The `graphql` block of a model: whether it is exposed as queries and as mutations. */
  datatype GraphqlFlags = GraphqlFlags(query: bool, mutation: bool)

  datatype ModelDescriptor = ModelDescriptor(
    description: Option<string>,
    attributes: map<string, Attribute>,
    associations: seq<Association>,
    graphql: Option<GraphqlFlags>)
  {
    /** `thisModel.graphql && thisModel.graphql.query` */
    predicate ExposesQuery() {
      graphql.Some? && graphql.value.query
    }

    /** `thisModel.graphql && thisModel.graphql.mutation` */
    predicate ExposesMutation() {
      graphql.Some? && graphql.value.mutation
    }
  }

  /** Truthiness of an optional string (`undefined` and `''` are falsy). */
  predicate Present(s: Option<string>) {
    s.Some? && s.value != ""
  }

  /** An association with a truthy `model`: the only kind that adds an object field. */
  predicate ToOne(a: Association) {
    Present(a.model)
  }

  /** The attribute keys that never become fields: `skipFields`. */
  const SkipFields: seq<string> := ["createdAt", "updatedAt"]

  /** An attribute becomes a field when it has a type and its key is not skipped. */
  predicate Converted(key: string, a: Attribute) {
    Present(a.typ) && key !in SkipFields
  }

  /** The built-in scalars plus the pass-through `CustomJson` scalar. */
  datatype Scalar = String | Int | Float | Boolean | CustomJson

  /**
   * A GraphQL type reference. `ObjectRef(id)` is the object type registered
   * for model `id`; `Undefined` is what an unregistered registry lookup yields.
   */
  datatype GqlType =
    | Leaf(scalar: Scalar)
    | NonNull(of: GqlType)
    | ListOf(element: GqlType)
    | ObjectRef(model: string)
    | Undefined

  /** How a field's value is obtained: by property, or through another model's single-record query. */
  datatype Resolver = ByProperty | ViaTargetQuery(target: string, alias: string)

  datatype Field = Field(typ: GqlType, description: Option<string>, resolver: Resolver)

  /** `gqlSchemaManager.types[id]` as a type reference. */
  function TypeRef(registered: set<string>, id: string): (t: GqlType)
    ensures t.ObjectRef? <==> id in registered
    ensures t.ObjectRef? ==> t.model == id
    ensures !t.ObjectRef? ==> t == Undefined
  {
    if id in registered then ObjectRef(id) else Undefined
  }
}
