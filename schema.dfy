/**
 * The schema composer (getGraphQLSchemaFrom) and the module-level registry it
 * fills (`gqlSchemaManager`). The registry is an object whose dictionaries
 * the two passes update in place and which keeps its entries from one call
 * to the next; here it is a class whose methods are proved against the
 * specification functions below.
 */
module SchemaComposer {
  import opened Wrappers
  import opened JsValues
  import opened Descriptors
  import opened FieldBuilder
  import opened Queries
  import opened Mutations

  /**
   * A model's object type: named after the model, described by it, with a
   * field thunk that is forced against the registry as it is at that time.
   */
  datatype ObjectTypeDef = ObjectTypeDef(name: string, description: Option<string>, model: ModelDescriptor)
  {
    function Fields(registered: set<string>): map<string, Field> {
      ObjectFields(model, registered)
    }
  }

  /** A model's filter-argument input type, named `<modelID>Args`. */
  datatype InputTypeDef = InputTypeDef(name: string, description: Option<string>, model: ModelDescriptor)
  {
    function Fields(): map<string, Field> {
      FilterFields(model)
    }
  }

  /** The root Query and Mutation field maps; `None` where the merge had nothing to reduce. */
  datatype Schema = Schema(query: Option<map<string, QueryDef>>, mutation: Option<map<string, MutationDef>>)

  function ObjectTypeFor(m: ModelDescriptor, modelID: string): ObjectTypeDef {
    ObjectTypeDef(modelID, m.description, m)
  }

  function InputTypeFor(m: ModelDescriptor, modelID: string): InputTypeDef {
    InputTypeDef(modelID + "Args", m.description, m)
  }

  /** The entries a pass over the models among `ids` registers: one per model that `selected` accepts. */
  function Among<V>(models: map<string, ModelDescriptor>, ids: set<string>, selected: ModelDescriptor -> bool,
                    entry: (ModelDescriptor, string) -> V): map<string, V>
  {
    map id | id in models && id in ids && selected(models[id]) :: entry(models[id], id)
  }

  /** Visiting one more model adds its entry exactly when it is selected. */
  lemma AmongStep<V>(models: map<string, ModelDescriptor>, done: set<string>, modelID: string,
                     selected: ModelDescriptor -> bool, entry: (ModelDescriptor, string) -> V)
    requires modelID in models
    ensures Among(models, done + {modelID}, selected, entry) ==
      if selected(models[modelID])
      then Among(models, done, selected, entry)[modelID := entry(models[modelID], modelID)]
      else Among(models, done, selected, entry)
  {
  }

  /** What the query pass registers for the models among `ids`. */
  function QueryTypesAmong(models: map<string, ModelDescriptor>, ids: set<string>): map<string, ObjectTypeDef> {
    Among(models, ids, QueryExposed, ObjectTypeFor)
  }

  function FindArgsTypesAmong(models: map<string, ModelDescriptor>, ids: set<string>): map<string, InputTypeDef> {
    Among(models, ids, QueryExposed, InputTypeFor)
  }

  /** The queries the first pass registers for a model: typed by the object type just registered for it. */
  function RegisteredQueries(m: ModelDescriptor, modelID: string): map<string, QueryDef> {
    QueriesFor(ObjectRef(modelID), modelID)
  }

  /** `ExposesQuery` as a value that `Among` can take. */
  predicate QueryExposed(m: ModelDescriptor) {
    m.ExposesQuery()
  }

  function QueryMapsAmong(models: map<string, ModelDescriptor>, ids: set<string>): map<string, map<string, QueryDef>> {
    Among(models, ids, QueryExposed, RegisteredQueries)
  }

  /**
   * A type the query pass registers is built from that model's own
   * descriptor: forcing its field thunk gives the model's object fields, and
   * its `<id>Args` type has the model's filter fields.
   */
  lemma RegisteredTypeFields(models: map<string, ModelDescriptor>, ids: set<string>, id: string,
                             registered: set<string>)
    requires id in QueryTypesAmong(models, ids)
    ensures id in models && id in FindArgsTypesAmong(models, ids)
    ensures QueryTypesAmong(models, ids)[id].Fields(registered) == ObjectFields(models[id], registered)
    ensures FindArgsTypesAmong(models, ids)[id].Fields() == FilterFields(models[id])
  {
  }

  /** What the mutation pass registers, given the object types registered by then. */
  function MutationMapsAmong(models: map<string, ModelDescriptor>, ids: set<string>, registered: set<string>)
    : map<string, map<string, MutationDef>>
  {
    map id | id in models && id in ids && models[id].ExposesMutation() ::
      MutationsFor(models[id], TypeRef(registered, id), id)
  }

  /**
   * `root` is a union of the per-model field maps: every field of every part
   * is in it, and each of its fields comes from some part.
   */
  ghost predicate IsMergeOf<D>(root: map<string, D>, parts: map<string, map<string, D>>) {
    (forall id, k | id in parts && k in parts[id] :: k in root) &&
    (forall k {:trigger root[k]} | k in root ::
      exists id :: id in parts && k in parts[id] && root[k] == parts[id][k])
  }

  /**
   * The unseeded `_.reduce(registry, _.merge)` over a registry dictionary:
   * `root` is undefined exactly when the dictionary is empty, and otherwise
   * a merge of its entries that has also become the dictionary's entry for
   * the first id visited, the accumulator `_.merge` wrote into. `after` is
   * the dictionary afterwards.
   */
  ghost predicate MergedInto<D>(root: Option<map<string, D>>, registered: map<string, map<string, D>>,
                                after: map<string, map<string, D>>)
  {
    (root.None? <==> |registered| == 0) &&
    (root.None? ==> after == registered) &&
    (root.Some? ==>
      IsMergeOf(root.value, registered) &&
      exists first :: first in registered && after == registered[first := root.value])
  }

  /**
   * `_.reduce(parts, _.merge)` with no initial value: `undefined` for no parts,
   * otherwise the union of the parts, taken in some order. The accumulator
   * starts as the part under `first`, the first id the reduce visits, and
   * `_.merge` writes the others into that very object, so the result is what
   * the registry then holds under `first`.
   */
  method MergeFields<D>(parts: map<string, map<string, D>>) returns (root: Option<map<string, D>>, first: string)
    ensures root.None? <==> |parts| == 0
    ensures root.Some? ==> first in parts && IsMergeOf(root.value, parts)
  {
    if |parts| == 0 {
      return None, "";
    }
    first :| first in parts;
    var total: map<string, D> := parts[first];
    var pending := parts.Keys - {first};
    while pending != {}
      invariant pending <= parts.Keys && first !in pending
      invariant forall id, k | id in parts && id !in pending && k in parts[id] :: k in total
      invariant forall k | k in total ::
        exists id :: id in parts && id !in pending && k in parts[id] && total[k] == parts[id][k]
      decreases pending
    {
      var id :| id in pending;
      total := total + parts[id];
      pending := pending - {id};
    }
    root := Some(total);
  }

  /** Visiting one more model in the second pass adds at most that model's mutations. */
  lemma MutationPassStep(models: map<string, ModelDescriptor>, done: set<string>, registered: set<string>,
                         modelID: string)
    requires modelID in models
    ensures models[modelID].ExposesMutation() ==>
      MutationMapsAmong(models, done + {modelID}, registered)
        == MutationMapsAmong(models, done, registered)[modelID :=
             MutationsFor(models[modelID], TypeRef(registered, modelID), modelID)]
    ensures !models[modelID].ExposesMutation() ==>
      MutationMapsAmong(models, done + {modelID}, registered) == MutationMapsAmong(models, done, registered)
  {
  }

  /**
   * The registry's three query-pass dictionaries agree: the same models have
   * an object type, a filter type and queries, each named after the model,
   * and the queries refer to that model's own object type.
   */
  ghost predicate Consistent(types: map<string, ObjectTypeDef>, findArgsTypes: map<string, InputTypeDef>,
                             queries: map<string, map<string, QueryDef>>)
  {
    types.Keys == findArgsTypes.Keys == queries.Keys &&
    forall id | id in types ::
      types[id] == ObjectTypeFor(types[id].model, id) &&
      findArgsTypes[id] == InputTypeFor(types[id].model, id) &&
      queries[id] == QueriesFor(ObjectRef(id), id)
  }

  /** Two consistent registries together are consistent. */
  lemma ConsistentUnion(types: map<string, ObjectTypeDef>, findArgsTypes: map<string, InputTypeDef>,
                        queries: map<string, map<string, QueryDef>>,
                        moreTypes: map<string, ObjectTypeDef>, moreArgs: map<string, InputTypeDef>,
                        moreQueries: map<string, map<string, QueryDef>>)
    requires Consistent(types, findArgsTypes, queries) && Consistent(moreTypes, moreArgs, moreQueries)
    ensures Consistent(types + moreTypes, findArgsTypes + moreArgs, queries + moreQueries)
  {
    var t, f, q := types + moreTypes, findArgsTypes + moreArgs, queries + moreQueries;
    assert t.Keys == types.Keys + moreTypes.Keys;
    assert f.Keys == findArgsTypes.Keys + moreArgs.Keys;
    assert q.Keys == queries.Keys + moreQueries.Keys;
    forall id | id in t
      ensures t[id] == ObjectTypeFor(t[id].model, id)
      ensures f[id] == InputTypeFor(t[id].model, id)
      ensures q[id] == QueriesFor(ObjectRef(id), id)
    {
      if id in moreTypes {
        assert t[id] == moreTypes[id] && f[id] == moreArgs[id] && q[id] == moreQueries[id];
      } else {
        assert t[id] == types[id] && f[id] == findArgsTypes[id] && q[id] == queries[id];
      }
    }
  }

  /** What a query pass registers is consistent on its own. */
  lemma QueryPassConsistent(models: map<string, ModelDescriptor>, ids: set<string>)
    ensures Consistent(QueryTypesAmong(models, ids), FindArgsTypesAmong(models, ids), QueryMapsAmong(models, ids))
  {
    var t, f, q := QueryTypesAmong(models, ids), FindArgsTypesAmong(models, ids), QueryMapsAmong(models, ids);
    assert t.Keys == f.Keys;
    assert t.Keys == q.Keys by {
      forall id ensures id in t <==> id in q {
        assert id in t <==> id in models && id in ids && QueryExposed(models[id]);
      }
    }
    forall id | id in t
      ensures t[id] == ObjectTypeFor(t[id].model, id)
      ensures f[id] == InputTypeFor(t[id].model, id)
      ensures q[id] == QueriesFor(ObjectRef(id), id)
    {
      assert t[id] == ObjectTypeFor(models[id], id);
      assert q[id] == RegisteredQueries(models[id], id);
    }
  }

  /** A query pass over any models keeps the registry consistent. */
  lemma QueryPassKeepsConsistent(types: map<string, ObjectTypeDef>, findArgsTypes: map<string, InputTypeDef>,
                                 queries: map<string, map<string, QueryDef>>, models: map<string, ModelDescriptor>)
    requires Consistent(types, findArgsTypes, queries)
    ensures Consistent(types + QueryTypesAmong(models, models.Keys),
                       findArgsTypes + FindArgsTypesAmong(models, models.Keys),
                       queries + QueryMapsAmong(models, models.Keys))
  {
    QueryPassConsistent(models, models.Keys);
    ConsistentUnion(types, findArgsTypes, queries, QueryTypesAmong(models, models.Keys),
                    FindArgsTypesAmong(models, models.Keys), QueryMapsAmong(models, models.Keys));
  }

  lemma UnionUpdate<V>(base: map<string, V>, part: map<string, V>, k: string, v: V)
    ensures (base + part)[k := v] == base + part[k := v]
  {
  }

  /** No two parts share a field name. */
  predicate NoCollisions<D>(parts: map<string, map<string, D>>) {
    forall id1, id2, k | id1 in parts && id2 in parts && k in parts[id1] && k in parts[id2] :: id1 == id2
  }

  /** Without collisions the merge is determined: every field is the one its part defines. */
  lemma MergeWithoutCollisions<D>(root: map<string, D>, parts: map<string, map<string, D>>)
    requires IsMergeOf(root, parts) && NoCollisions(parts)
    ensures forall id, k | id in parts && k in parts[id] :: k in root && root[k] == parts[id][k]
  {
    forall id, k | id in parts && k in parts[id]
      ensures k in root && root[k] == parts[id][k]
    {
      var id' :| id' in parts && k in parts[id'] && root[k] == parts[id'][k];
    }
  }

  /** The queries registered for a model are named after it. */
  lemma RegisteredQueryKey(types: map<string, ObjectTypeDef>, findArgsTypes: map<string, InputTypeDef>,
                           queries: map<string, map<string, QueryDef>>, id: string, k: string)
    requires Consistent(types, findArgsTypes, queries) && id in queries && k in queries[id]
    ensures id in types && (k == id || k == id + "s") && queries[id] == QueriesFor(ObjectRef(id), id)
  {
    assert id in types;
    assert queries[id] == QueriesFor(ObjectRef(id), id);
    QueryNames(id, k);
  }

  /** A model's queries are named after it. */
  lemma QueryNames(id: string, k: string)
    requires k in QueriesFor(ObjectRef(id), id)
    ensures k == id || k == id + "s"
  {
  }

  /** The registered model a root query field comes from. */
  lemma RootQueryOrigin(types: map<string, ObjectTypeDef>, findArgsTypes: map<string, InputTypeDef>,
                        queries: map<string, map<string, QueryDef>>, root: map<string, QueryDef>, k: string)
    returns (id: string)
    requires Consistent(types, findArgsTypes, queries) && IsMergeOf(root, queries) && k in root
    ensures id in types && (k == id || k == id + "s")
    ensures root[k] == QueriesFor(ObjectRef(id), id)[k]
  {
    id :| id in queries && k in queries[id] && root[k] == queries[id][k];
    RegisteredQueryKey(types, findArgsTypes, queries, id, k);
  }

  /** Every model of a consistent registry contributes its single-record and its list query to the root. */
  lemma RootHasRegisteredQueries(types: map<string, ObjectTypeDef>, findArgsTypes: map<string, InputTypeDef>,
                                 queries: map<string, map<string, QueryDef>>, root: map<string, QueryDef>)
    requires Consistent(types, findArgsTypes, queries) && IsMergeOf(root, queries)
    ensures forall id | id in types :: id in root && id + "s" in root
  {
    forall id | id in types
      ensures id in root && id + "s" in root
    {
      assert queries[id] == QueriesFor(ObjectRef(id), id);
      assert id in queries[id] && id + "s" in queries[id];
    }
  }

  /**
   * Every root query belongs to a registered model, named by its resolver:
   * the single-record query is named after the model and returns its object
   * type, the list query is named with an `s` and returns a list of it.
   */
  lemma RootQueriesAreRegistered(types: map<string, ObjectTypeDef>, findArgsTypes: map<string, InputTypeDef>,
                                 queries: map<string, map<string, QueryDef>>, root: map<string, QueryDef>)
    requires Consistent(types, findArgsTypes, queries) && IsMergeOf(root, queries)
    ensures forall k | k in root ::
      root[k].resolver.model in types &&
      (root[k].resolver.SingleRecord? ==> k == root[k].resolver.model && root[k].typ == ObjectRef(k)) &&
      (root[k].resolver.ListRecords? ==>
         k == root[k].resolver.model + "s" && root[k].typ == ListOf(ObjectRef(root[k].resolver.model)) &&
         root[k].args == FindArgs(root[k].resolver.model))
  {
    forall k | k in root
      ensures root[k].resolver.model in types
      ensures root[k].resolver.SingleRecord? ==> k == root[k].resolver.model && root[k].typ == ObjectRef(k)
      ensures root[k].resolver.ListRecords? ==>
        k == root[k].resolver.model + "s" && root[k].typ == ListOf(ObjectRef(root[k].resolver.model)) &&
        root[k].args == FindArgs(root[k].resolver.model)
    {
      var id := RootQueryOrigin(types, findArgsTypes, queries, root, k);
    }
  }

  /**
   * The type a model's mutations get from the second pass: its own object
   * type when the first pass (of this call or an earlier one) registered it,
   * `undefined` for a model exposed for mutations only and never registered.
   */
  lemma MutationTypeAfterQueryPass(oldTypes: map<string, ObjectTypeDef>, models: map<string, ModelDescriptor>,
                                   modelID: string)
    requires modelID in models && models[modelID].ExposesMutation()
    ensures var registered := (oldTypes + QueryTypesAmong(models, models.Keys)).Keys;
      var ms := MutationMapsAmong(models, models.Keys, registered);
      modelID in ms &&
      forall k | k in ms[modelID] ::
        ms[modelID][k].typ == (if models[modelID].ExposesQuery() || modelID in oldTypes then ObjectRef(modelID)
                               else Undefined)
  {
    var registered := (oldTypes + QueryTypesAmong(models, models.Keys)).Keys;
    assert modelID in registered <==> models[modelID].ExposesQuery() || modelID in oldTypes;
    var t := TypeRef(registered, modelID);
    assert MutationMapsAmong(models, models.Keys, registered)[modelID] == MutationsFor(models[modelID], t, modelID);
    MutationsTyped(models[modelID], t, modelID);
  }

  /** The mutations a pass registers for a model are named after it. */
  lemma RegisteredMutationKey(models: map<string, ModelDescriptor>, registered: set<string>, id: string, k: string)
    requires id in MutationMapsAmong(models, models.Keys, registered)
    requires k in MutationMapsAmong(models, models.Keys, registered)[id]
    ensures id in models && models[id].ExposesMutation()
    ensures k == CreateName(id) || k == UpdateName(id) || k == DeleteName(id)
  {
    MutationArguments(models[id], TypeRef(registered, id), id);
  }

  /** The model exposed for mutations that a root mutation field comes from. */
  lemma RootMutationOrigin(models: map<string, ModelDescriptor>, registered: set<string>,
                           root: map<string, MutationDef>, k: string)
    returns (id: string)
    requires IsMergeOf(root, MutationMapsAmong(models, models.Keys, registered)) && k in root
    ensures id in models && models[id].ExposesMutation()
    ensures k == CreateName(id) || k == UpdateName(id) || k == DeleteName(id)
  {
    var parts := MutationMapsAmong(models, models.Keys, registered);
    id :| id in parts && k in parts[id] && root[k] == parts[id][k];
    RegisteredMutationKey(models, registered, id, k);
  }

  /** Every model exposed for mutations contributes its create, update and delete fields to the root. */
  lemma RootHasPassMutations(models: map<string, ModelDescriptor>, registered: set<string>,
                             root: map<string, MutationDef>)
    requires IsMergeOf(root, MutationMapsAmong(models, models.Keys, registered))
    ensures forall id | id in models && models[id].ExposesMutation() ::
      CreateName(id) in root && UpdateName(id) in root && DeleteName(id) in root
  {
    var parts := MutationMapsAmong(models, models.Keys, registered);
    forall id | id in models && models[id].ExposesMutation()
      ensures CreateName(id) in root && UpdateName(id) in root && DeleteName(id) in root
    {
      MutationArguments(models[id], TypeRef(registered, id), id);
      assert id in parts;
    }
  }

  /** Every root mutation belongs to a model exposed for mutations. */
  lemma RootMutationsAreExposed(models: map<string, ModelDescriptor>, registered: set<string>,
                                root: map<string, MutationDef>)
    requires IsMergeOf(root, MutationMapsAmong(models, models.Keys, registered))
    ensures forall k | k in root ::
      (exists id :: id in models && models[id].ExposesMutation() &&
         (k == CreateName(id) || k == UpdateName(id) || k == DeleteName(id)))
  {
    forall k | k in root
      ensures exists id :: (id in models && models[id].ExposesMutation() &&
        (k == CreateName(id) || k == UpdateName(id) || k == DeleteName(id)))
    {
      var id := RootMutationOrigin(models, registered, root, k);
    }
  }

  /** `gqlSchemaManager` */
  class SchemaManager {
    var types: map<string, ObjectTypeDef>
    var findArgsTypes: map<string, InputTypeDef>
    var queries: map<string, map<string, QueryDef>>
    var mutations: map<string, map<string, MutationDef>>
    var waterlineModels: map<string, ModelDescriptor>

    /**
     * The query pass registers the three entries together: the same models
     * have an object type, a filter type and queries, each named after the
     * model, and the queries refer to that model's own object type. Building
     * a schema merges every model's queries into one entry, so this holds of
     * a fresh registry and of what the passes register, not of the registry
     * after the merge.
     */
    ghost predicate Valid()
      reads this
    {
      Consistent(types, findArgsTypes, queries)
    }

    constructor ()
      ensures Valid()
      ensures types == map[] && findArgsTypes == map[] && queries == map[]
      ensures mutations == map[] && waterlineModels == map[]
    {
      types := map[];
      findArgsTypes := map[];
      queries := map[];
      mutations := map[];
      waterlineModels := map[];
    }

    /** Registering one model's type, filter type and queries, the type first. */
    method RegisterQueryModel(thisModel: ModelDescriptor, modelID: string)
      modifies this`types, this`findArgsTypes, this`queries
      ensures types == old(types)[modelID := ObjectTypeFor(thisModel, modelID)]
      ensures findArgsTypes == old(findArgsTypes)[modelID := InputTypeFor(thisModel, modelID)]
      ensures queries == old(queries)[modelID := QueriesFor(ObjectRef(modelID), modelID)]
    {
      types := types[modelID := ObjectTypeFor(thisModel, modelID)];
      findArgsTypes := findArgsTypes[modelID := InputTypeFor(thisModel, modelID)];
      queries := queries[modelID := QueriesFor(TypeRef(types.Keys, modelID), modelID)];
    }

    /**
     * The first pass's callback for one model: a model exposed for queries
     * gets its type, its filter type and its queries; any other model adds
     * nothing. Stated against the pass's progress over the ids in `done`.
     */
    method EachQueryModel(models: map<string, ModelDescriptor>, modelID: string, ghost done: set<string>,
                          ghost baseTypes: map<string, ObjectTypeDef>, ghost baseArgs: map<string, InputTypeDef>,
                          ghost baseQueries: map<string, map<string, QueryDef>>)
      requires modelID in models
      requires types == baseTypes + QueryTypesAmong(models, done)
      requires findArgsTypes == baseArgs + FindArgsTypesAmong(models, done)
      requires queries == baseQueries + QueryMapsAmong(models, done)
      modifies this`types, this`findArgsTypes, this`queries
      ensures types == baseTypes + QueryTypesAmong(models, done + {modelID})
      ensures findArgsTypes == baseArgs + FindArgsTypesAmong(models, done + {modelID})
      ensures queries == baseQueries + QueryMapsAmong(models, done + {modelID})
    {
      var thisModel := models[modelID];
      AmongStep(models, done, modelID, QueryExposed, ObjectTypeFor);
      AmongStep(models, done, modelID, QueryExposed, InputTypeFor);
      AmongStep(models, done, modelID, QueryExposed, RegisteredQueries);
      if thisModel.ExposesQuery() {
        UnionUpdate(baseTypes, QueryTypesAmong(models, done), modelID, ObjectTypeFor(thisModel, modelID));
        UnionUpdate(baseArgs, FindArgsTypesAmong(models, done), modelID, InputTypeFor(thisModel, modelID));
        UnionUpdate(baseQueries, QueryMapsAmong(models, done), modelID, QueriesFor(ObjectRef(modelID), modelID));
        RegisterQueryModel(thisModel, modelID);
      }
    }

    /** The first pass: `_.each` over the models in some order. */
    method RegisterQueries(models: map<string, ModelDescriptor>)
      modifies this`types, this`findArgsTypes, this`queries
      ensures types == old(types) + QueryTypesAmong(models, models.Keys)
      ensures findArgsTypes == old(findArgsTypes) + FindArgsTypesAmong(models, models.Keys)
      ensures queries == old(queries) + QueryMapsAmong(models, models.Keys)
    {
      var pending := models.Keys;
      ghost var done: set<string> := {};
      while pending != {}
        invariant pending <= models.Keys && done == models.Keys - pending
        invariant types == old(types) + QueryTypesAmong(models, done)
        invariant findArgsTypes == old(findArgsTypes) + FindArgsTypesAmong(models, done)
        invariant queries == old(queries) + QueryMapsAmong(models, done)
        decreases pending
      {
        var modelID :| modelID in pending;
        EachQueryModel(models, modelID, done, old(types), old(findArgsTypes), old(queries));
        pending := pending - {modelID};
        done := done + {modelID};
      }
      assert done == models.Keys;
    }

    /**
     * The second pass's callback for one model: a model exposed for mutations
     * gets its mutations, typed by whatever object type is registered under
     * its id by now; any other model adds nothing.
     */
    method EachMutationModel(models: map<string, ModelDescriptor>, modelID: string, registered: set<string>,
                             ghost done: set<string>, ghost baseMutations: map<string, map<string, MutationDef>>)
      requires modelID in models
      requires mutations == baseMutations + MutationMapsAmong(models, done, registered)
      modifies this`mutations
      ensures mutations == baseMutations + MutationMapsAmong(models, done + {modelID}, registered)
    {
      var thisModel := models[modelID];
      MutationPassStep(models, done, registered, modelID);
      if thisModel.ExposesMutation() {
        var built := BuildMutations(thisModel, TypeRef(registered, modelID), modelID);
        UnionUpdate(baseMutations, MutationMapsAmong(models, done, registered), modelID, built);
        mutations := mutations[modelID := built];
      }
    }

    /** The second pass, over the object types the first pass left registered. */
    method RegisterMutations(models: map<string, ModelDescriptor>)
      modifies this`mutations
      ensures mutations == old(mutations) + MutationMapsAmong(models, models.Keys, types.Keys)
    {
      var pending := models.Keys;
      ghost var done: set<string> := {};
      while pending != {}
        invariant pending <= models.Keys && done == models.Keys - pending
        invariant mutations == old(mutations) + MutationMapsAmong(models, done, types.Keys)
        decreases pending
      {
        var modelID :| modelID in pending;
        EachMutationModel(models, modelID, types.Keys, done, old(mutations));
        pending := pending - {modelID};
        done := done + {modelID};
      }
      assert done == models.Keys;
    }

    /**
     * The two passes of one call, queries first: the registry keeps what it
     * held and gains the exposed models' entries, and a consistent registry
     * stays consistent.
     */
    method RegisterModels(models: map<string, ModelDescriptor>)
      modifies this`types, this`findArgsTypes, this`queries, this`mutations
      ensures types == old(types) + QueryTypesAmong(models, models.Keys)
      ensures findArgsTypes == old(findArgsTypes) + FindArgsTypesAmong(models, models.Keys)
      ensures queries == old(queries) + QueryMapsAmong(models, models.Keys)
      ensures mutations == old(mutations) + MutationMapsAmong(models, models.Keys, types.Keys)
      ensures old(Valid()) ==> Valid()
    {
      if Valid() {
        QueryPassKeepsConsistent(types, findArgsTypes, queries, models);
      }
      RegisterQueries(models);
      RegisterMutations(models);
    }

    /**
     * `_.reduce(gqlSchemaManager.mutations, _.merge)`: the merged root, which
     * is also what the registry now holds for the first model visited.
     */
    method MergeMutations() returns (root: Option<map<string, MutationDef>>)
      modifies this`mutations
      ensures MergedInto(root, old(mutations), mutations)
    {
      var first;
      root, first := MergeFields(mutations);
      if root.Some? {
        mutations := mutations[first := root.value];
      }
    }

    /**
     * `_.reduce(gqlSchemaManager.queries, _.merge)`, run when the schema
     * constructor forces the `Query` field thunk: the merged root, which is
     * also what the registry now holds for the first model visited.
     */
    method MergeQueries() returns (root: Option<map<string, QueryDef>>)
      modifies this`queries
      ensures MergedInto(root, old(queries), queries)
    {
      var first;
      root, first := MergeFields(queries);
      if root.Some? {
        queries := queries[first := root.value];
      }
    }

    /**
     * Falsy models are refused before anything is touched. Otherwise the
     * registry keeps what earlier calls put in it and gains this call's
     * entries, and the schema's roots are the merges of everything
     * registered. Both merges leave their result in the registry's entry for
     * the first model they visit: the mutation merge at once, the query merge
     * when the schema constructor forces the `Query` field thunk. What the
     * passes registered is consistent whenever the registry was.
     */
    method GetGraphQLSchemaFrom(models: Option<map<string, ModelDescriptor>>) returns (r: Result<Schema, JsError>)
      modifies this
      ensures models.None? ==> r == Failure(InvalidModels) && unchanged(this)
      ensures models.Some? ==>
        waterlineModels == models.value &&
        types == old(types) + QueryTypesAmong(models.value, models.value.Keys) &&
        findArgsTypes == old(findArgsTypes) + FindArgsTypesAmong(models.value, models.value.Keys)
      ensures models.Some? && old(Valid()) ==>
        Consistent(types, findArgsTypes, old(queries) + QueryMapsAmong(models.value, models.value.Keys))
      ensures models.Some? ==> r.Success?
      ensures models.Some? && r.Success? ==>
        MergedInto(r.value.query, old(queries) + QueryMapsAmong(models.value, models.value.Keys), queries)
      ensures models.Some? && r.Success? ==>
        MergedInto(r.value.mutation, old(mutations) + MutationMapsAmong(models.value, models.value.Keys, types.Keys),
                   mutations)
    {
      if models.None? {
        return Failure(InvalidModels);
      }
      waterlineModels := models.value;
      RegisterModels(models.value);
      var mutationFields := MergeMutations();
      var queryFields := MergeQueries();
      r := Success(Schema(queryFields, mutationFields));
    }
  }
}
