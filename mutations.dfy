/**
 * The per-model mutations (createGraphQLMutations): their names, their
 * argument sets, and the call each resolver makes.
 */
module Mutations {
  import opened Wrappers
  import opened JsValues
  import opened Descriptors
  import opened FieldBuilder

  /** `toUpperCase` on one character, for the ASCII letters. */
  function UpperCase(c: char): char {
    if 'a' <= c <= 'z' then (c as int - 32) as char else c
  }

  /**
   * `capitalizeFirstLetter`: the first character upper-cased, the rest kept;
   * the empty string stays empty.
   */
  function CapitalizeFirstLetter(s: string): (r: string)
    ensures |r| == |s|
    ensures forall i | 1 <= i < |s| :: r[i] == s[i]
    ensures s != [] ==> !('a' <= r[0] <= 'z')
    ensures s != [] && !('a' <= s[0] <= 'z') ==> r == s
    ensures s != [] && 'a' <= s[0] <= 'z' ==> r[0] as int == s[0] as int - 32
  {
    if s == [] then [] else [UpperCase(s[0])] + s[1..]
  }

  /** Capitalising twice is capitalising once. */
  lemma CapitalizeIdempotent(s: string)
    ensures CapitalizeFirstLetter(CapitalizeFirstLetter(s)) == CapitalizeFirstLetter(s)
  {
  }

  /**
   * A mutation field: its type, its arguments, and the `name` property the
   * source sets on it (`'create' + modelID`, not capitalised). Delete's single
   * `id` argument is whatever the converted `id` field is, possibly undefined.
   */
  datatype MutationDef =
    | CreateDef(typ: GqlType, args: map<string, Field>, name: string)
    | UpdateDef(typ: GqlType, args: map<string, Field>, name: string)
    | DeleteDef(typ: GqlType, idArg: Option<Field>, name: string)

  function CreateName(modelID: string): string { "create" + CapitalizeFirstLetter(modelID) }
  function UpdateName(modelID: string): string { "update" + CapitalizeFirstLetter(modelID) }
  function DeleteName(modelID: string): string { "delete" + CapitalizeFirstLetter(modelID) }

  /** The three mutations of one model. */
  function MutationsFor(m: ModelDescriptor, graphqlType: GqlType, modelID: string): map<string, MutationDef> {
    var converted := AttributeFields(m.attributes);
    map[
      CreateName(modelID) := CreateDef(graphqlType, converted - {"id"}, "create" + modelID),
      UpdateName(modelID) := UpdateDef(graphqlType, converted, "update" + modelID),
      DeleteName(modelID) := DeleteDef(graphqlType, if "id" in converted then Some(converted["id"]) else None,
                                       "delete" + modelID)]
  }

  /** The mutation builder: converts the attributes with the shared loop, then fills the three entries. */
  method BuildMutations(m: ModelDescriptor, graphqlType: GqlType, modelID: string)
    returns (mutations: map<string, MutationDef>)
    ensures mutations == MutationsFor(m, graphqlType, modelID)
  {
    var convertedFields := ConvertAttributes(m.attributes);
    var modelIDField := if "id" in convertedFields then Some(convertedFields["id"]) else None;
    var fieldsForCreate := convertedFields - {"id"};
    mutations := map[];
    mutations := mutations[CreateName(modelID) := CreateDef(graphqlType, fieldsForCreate, "create" + modelID)];
    mutations := mutations[UpdateName(modelID) := UpdateDef(graphqlType, convertedFields, "update" + modelID)];
    mutations := mutations[DeleteName(modelID) := DeleteDef(graphqlType, modelIDField, "delete" + modelID)];
  }

  lemma PrefixedNamesDiffer(a: string, b: string, suffix: string)
    requires |a| == |b| && a != b
    ensures a + suffix != b + suffix
  {
    assert (a + suffix)[..|a|] == a;
    assert (b + suffix)[..|b|] == b;
  }

  /**
   * The three names are distinct, and the arguments are fixed by the
   * attributes: update takes every converted attribute, create the same
   * without `id`, delete only the converted `id` field.
   */
  lemma MutationArguments(m: ModelDescriptor, graphqlType: GqlType, modelID: string)
    ensures var ms := MutationsFor(m, graphqlType, modelID);
      |ms| == 3 &&
      ms.Keys == {CreateName(modelID), UpdateName(modelID), DeleteName(modelID)} &&
      ms[UpdateName(modelID)].UpdateDef? &&
      (forall k :: k in ms[UpdateName(modelID)].args <==> k in m.attributes && Converted(k, m.attributes[k])) &&
      (forall k | k in ms[UpdateName(modelID)].args :: ms[UpdateName(modelID)].args[k] == AttributeField(m.attributes[k])) &&
      ms[CreateName(modelID)].CreateDef? &&
      ms[CreateName(modelID)].args == ms[UpdateName(modelID)].args - {"id"} &&
      ms[DeleteName(modelID)].DeleteDef? &&
      (ms[DeleteName(modelID)].idArg.Some? <==> "id" in m.attributes && Converted("id", m.attributes["id"])) &&
      (ms[DeleteName(modelID)].idArg.Some? ==>
        ms[DeleteName(modelID)].idArg.value == AttributeField(m.attributes["id"]))
  {
    var suffix := CapitalizeFirstLetter(modelID);
    PrefixedNamesDiffer("create", "update", suffix);
    PrefixedNamesDiffer("create", "delete", suffix);
    PrefixedNamesDiffer("update", "delete", suffix);
  }

  /** All three mutations return the type they were built with. */
  lemma MutationsTyped(m: ModelDescriptor, graphqlType: GqlType, modelID: string)
    ensures forall k | k in MutationsFor(m, graphqlType, modelID) ::
      MutationsFor(m, graphqlType, modelID)[k].typ == graphqlType
  {
  }

  /** The data-access call a mutation resolver makes. */
  datatype MutationCall =
    | CreateRecord(values: map<string, Json>)                    // create(args).fetch()
    | UpdateRecords(matchId: Value, values: map<string, Json>)   // update({id: args.id}).set(args).fetch()
    | DestroyRecords(criteria: map<string, Json>)                // destroy(args).fetch()

  /**
   * The resolvers: create hands its arguments on, update matches on `args.id`
   * and sets all arguments, delete refuses an empty argument object with an
   * Error value and otherwise destroys by its arguments.
   */
  function ResolveMutation(def: MutationDef, args: map<string, Json>): (r: Result<MutationCall, JsError>)
    ensures r.Failure? <==> def.DeleteDef? && |args| == 0
    ensures r.Failure? ==> r.error == MissingParameter("must provide at least one parameter")
    ensures def.CreateDef? ==> r == Success(CreateRecord(args))
    ensures def.UpdateDef? ==>
      (r.Success? && r.value.UpdateRecords? && r.value.values == args &&
       (r.value.matchId.Some? <==> "id" in args) && (r.value.matchId.Some? ==> r.value.matchId.value == args["id"]))
    ensures def.DeleteDef? && args != map[] ==> r == Success(DestroyRecords(args))
  {
    match def
    case CreateDef(_, _, _) => Success(CreateRecord(args))
    case UpdateDef(_, _, _) => Success(UpdateRecords(Lookup(args, "id"), args))
    case DeleteDef(_, _, _) =>
      if |args| == 0 then Failure(MissingParameter("must provide at least one parameter"))
      else Success(DestroyRecords(args))
  }
}
