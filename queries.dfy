/**
 * The per-model queries (createGraphQLQueries): the single-record query, the
 * list query with its argument set, and the decisions their resolvers make —
 * which data-access call is issued, with what criteria, and what shape of
 * result comes back. The data-access calls themselves are not modelled.
 */
module Queries {
  import opened Wrappers
  import opened JsValues
  import opened Descriptors
  import opened FilterTranslator

  /** One argument of a query or mutation field. */
  datatype ArgDef = ArgDef(name: string, typ: GqlType)

  /** Which resolver a query field carries, and for which model. */
  datatype QueryResolver = SingleRecord(model: string) | ListRecords(model: string)

  datatype QueryDef = QueryDef(typ: GqlType, args: map<string, ArgDef>, resolver: QueryResolver)

  /**
   * The list query's arguments (getFindArgsForWaterlineModel): the same six
   * for every model, with `where`, `populate` and `aggregate` taking
   * arbitrary JSON.
   */
  function FindArgs(modelID: string): (args: map<string, ArgDef>)
    ensures args.Keys == {"where", "sort", "skip", "limit", "populate", "aggregate"}
    ensures forall k | k in args :: args[k].name == (if k == "where" then "criteria" else k)
    ensures forall k | k in {"where", "populate", "aggregate"} :: args[k].typ == Leaf(CustomJson)
    ensures args["sort"].typ == Leaf(String) && args["skip"].typ == Leaf(Int) && args["limit"].typ == Leaf(Int)
  {
    map[
      "where" := ArgDef("criteria", Leaf(CustomJson)),
      "sort" := ArgDef("sort", Leaf(String)),
      "skip" := ArgDef("skip", Leaf(Int)),
      "limit" := ArgDef("limit", Leaf(Int)),
      "populate" := ArgDef("populate", Leaf(CustomJson)),
      "aggregate" := ArgDef("aggregate", Leaf(CustomJson))]
  }

  /**
   * The queries of one model: `<modelID>` fetches one record by a required
   * integer id, `<modelID>s` lists records; both are typed by `graphqlType`.
   */
  function QueriesFor(graphqlType: GqlType, modelID: string): (q: map<string, QueryDef>)
    ensures q.Keys == {modelID, modelID + "s"}
    ensures q[modelID].resolver == SingleRecord(modelID) && q[modelID].typ == graphqlType
    ensures q[modelID].args.Keys == {"id"} && q[modelID].args["id"].typ == NonNull(Leaf(Int))
    ensures q[modelID + "s"].resolver == ListRecords(modelID) && q[modelID + "s"].typ == ListOf(graphqlType)
    ensures q[modelID + "s"].args == FindArgs(modelID)
  {
    assert modelID != modelID + "s" by {
      assert |modelID + "s"| == |modelID| + 1;
    }
    map[
      modelID := QueryDef(graphqlType, map["id" := ArgDef("id", NonNull(Leaf(Int)))], SingleRecord(modelID)),
      modelID + "s" := QueryDef(ListOf(graphqlType), FindArgs(modelID), ListRecords(modelID))]
  }

  /**
   * The id the single-record resolver finds by, `id || (where && where.id)`:
   * a truthy `id` argument, else a falsy `where` itself, else `where.id`.
   */
  function ByIdKey(args: map<string, Json>): (id: Value)
    ensures Truthy(Lookup(args, "id")) ==> id == Lookup(args, "id")
    ensures !Truthy(Lookup(args, "id")) && !Truthy(Lookup(args, "where")) ==> id == Lookup(args, "where")
    ensures !Truthy(Lookup(args, "id")) && Truthy(Lookup(args, "where")) ==>
      id == (if args["where"].Obj? then Lookup(args["where"].fields, "id") else None)
  {
    var id := Lookup(args, "id");
    var where := Lookup(args, "where");
    if Truthy(id) then id
    else if !Truthy(where) then where
    else match Prop(where, "id") case Success(v) => v case Failure(_) => None
  }

  /** A zero id is falsy: `<model>(id: 0)` finds by an undefined id. */
  lemma ZeroIdIsDropped()
    ensures ByIdKey(map["id" := Num(0)]) == None
  {
  }

  /**
   * The resolver of a to-one association field: it calls the target model's
   * single-record query with `where.id` set to `obj[alias].id || obj[alias]`.
   * The result is the id that query then finds by. Reading the target's
   * queries fails when the target was never registered; reading `.id` fails
   * when the parent record has no value under the alias.
   */
  function ResolveAssociation(registered: set<string>, target: string, alias: string, obj: map<string, Json>)
    : (r: Result<Value, JsError>)
    ensures target !in registered ==> r == Failure(TypeError)
    ensures target in registered && (alias !in obj || obj[alias] == Null) ==> r == Failure(TypeError)
    ensures (target in registered && alias in obj && obj[alias].Obj? && "id" in obj[alias].fields &&
             Truthy(Some(obj[alias].fields["id"]))) ==>
      r == Success(Some(obj[alias].fields["id"]))
    ensures (target in registered && alias in obj && obj[alias] != Null &&
             !(obj[alias].Obj? && "id" in obj[alias].fields && Truthy(Some(obj[alias].fields["id"])))) ==>
      r == Success(Some(obj[alias]))
  {
    if target !in registered then Failure(TypeError)
    else
      var linked := Lookup(obj, alias);
      var linkedId :- Prop(linked, "id");
      var whereId := if Truthy(linkedId) then linkedId.value else linked.value;
      Success(ByIdKey(map["where" := Obj(map["id" := whereId])]))
  }

  /** The data-access call the list resolver makes. */
  datatype ListCall =
    | FindPopulated(criteria: Json, association: Value, subCriteria: Value)  // find(criteria).populate(association[, subCriteria])
    | CountRecords(criteria: Json)                                          // count(criteria)
    | SumOf(field: Value, where: Value)                                     // sum(field).where(where)
    | AverageOf(field: Value, where: Value)                                 // avg(field).where(where)
    | NoCall                                                                // nothing; the resolver returns undefined
    | FindRecords(criteria: Json)                                           // find(criteria)
  {
    predicate HasCriteria() {
      FindPopulated? || CountRecords? || FindRecords?
    }
  }

  /** What the list resolver returns: the records, `[{count: value}]`, or undefined. */
  datatype ResultShape = Records | CountWrapped | NoResult

  /** Aggregates, sum and average included, come back as a one-element list keyed `count`. */
  function Shape(c: ListCall): (s: ResultShape)
    ensures s == CountWrapped <==> c.CountRecords? || c.SumOf? || c.AverageOf?
    ensures s == NoResult <==> c.NoCall?
  {
    match c
    case FindPopulated(_, _, _) => Records
    case FindRecords(_) => Records
    case NoCall => NoResult
    case _ => CountWrapped
  }

  /** `v[0]`, undefined where it cannot be read. */
  function Head(v: Value): Value {
    match At(v, 0) case Success(x) => x case Failure(_) => None
  }

  /** `v[1]`, undefined where it cannot be read. */
  function Second(v: Value): Value {
    match At(v, 1) case Success(x) => x case Failure(_) => None
  }

  /** An aggregate operation the list resolver knows. */
  predicate KnownAggregate(op: Value) {
    op == Some(Str("count")) || op == Some(Str("sum")) || op == Some(Str("average"))
  }

  /**
   * The list resolver's branch choice: populate if `populate` is truthy,
   * else an aggregate if `aggregate` is truthy, else a plain find. Reading
   * `populate[0].criteria` throws when the first element is undefined or
   * null, and reading `whereClause['where']` for a sum or average throws when
   * the criteria are null. (`populate[0]` and `aggregate[i]` are only read
   * on truthy values, where they cannot throw.)
   */
  function Dispatch(populate: Value, aggregate: Value, whereClause: Json): (r: Result<ListCall, JsError>)
    ensures r.Failure? <==>
      (Truthy(populate) && (Head(populate).None? || Head(populate) == Some(Null))) ||
      (!Truthy(populate) && Truthy(aggregate) && whereClause == Null &&
        (Head(aggregate) == Some(Str("sum")) || Head(aggregate) == Some(Str("average"))))
    ensures r.Failure? ==> r.error == TypeError
    ensures r.Success? && r.value.FindPopulated? <==> Truthy(populate) && r.Success?
    ensures r.Success? && r.value.FindPopulated? ==>
      r.value.criteria == whereClause &&
      r.value.association == Prop(Head(populate), "type").value &&
      r.value.subCriteria == (var sub := Prop(Head(populate), "criteria").value; if Truthy(sub) then sub else None)
    ensures r.Success? && r.value.CountRecords? <==>
      !Truthy(populate) && Truthy(aggregate) && Head(aggregate) == Some(Str("count"))
    ensures r.Success? && r.value.CountRecords? ==> r.value.criteria == whereClause
    ensures r.Success? && r.value.SumOf? <==>
      !Truthy(populate) && Truthy(aggregate) && Head(aggregate) == Some(Str("sum")) && whereClause != Null
    ensures r.Success? && r.value.AverageOf? <==>
      !Truthy(populate) && Truthy(aggregate) && Head(aggregate) == Some(Str("average")) && whereClause != Null
    ensures r.Success? && (r.value.SumOf? || r.value.AverageOf?) ==>
      r.value.field == Second(aggregate) && r.value.where == Prop(Some(whereClause), "where").value
    ensures r.Success? && r.value.NoCall? <==>
      !Truthy(populate) && Truthy(aggregate) && !KnownAggregate(Head(aggregate))
    ensures r.Success? && r.value.FindRecords? <==> !Truthy(populate) && !Truthy(aggregate)
    ensures r.Success? && r.value.FindRecords? ==> r.value.criteria == whereClause
  {
    if Truthy(populate) then
      var first := Head(populate);
      if first.None? || first == Some(Null) then Failure(TypeError)
      else
        var sub := Prop(first, "criteria").value;
        Success(FindPopulated(whereClause, Prop(first, "type").value, if Truthy(sub) then sub else None))
    else if Truthy(aggregate) then
      var op := Head(aggregate);
      if op == Some(Str("count")) then
        Success(CountRecords(whereClause))
      else if op == Some(Str("sum")) || op == Some(Str("average")) then
        if whereClause == Null then Failure(TypeError)
        else if op == Some(Str("sum")) then Success(SumOf(Second(aggregate), Prop(Some(whereClause), "where").value))
        else Success(AverageOf(Second(aggregate), Prop(Some(whereClause), "where").value))
      else
        Success(NoCall)
    else
      Success(FindRecords(whereClause))
  }

  /** The criteria the list resolver serialises: its arguments without `populate` and `aggregate`. */
  function ListCriteria(args: map<string, Json>): map<string, Json> {
    args - {"populate", "aggregate"}
  }

  /**
   * The parsed criteria after the for-in loop over `where`: null throws, an
   * object `where` loses its empty-string entries, anything else is kept.
   */
  function CleanCriteria(whereClause: Json): (r: Result<Json, JsError>)
    ensures r.Failure? <==> whereClause == Null
    ensures r.Failure? ==> r.error == TypeError
    ensures r.Success? ==> NoEmptyFilters(r.value)
    ensures r.Success? && whereClause.Obj? ==>
      r.value.Obj? && r.value.fields.Keys == whereClause.fields.Keys &&
      forall k | k in whereClause.fields && k != "where" :: r.value.fields[k] == whereClause.fields[k]
    ensures r.Success? && whereClause.Obj? && "where" in whereClause.fields && whereClause.fields["where"].Obj? ==>
      var before, after := whereClause.fields["where"].fields, r.value.fields["where"];
      after.Obj? &&
      (forall k | k in before :: (k in after.fields <==> before[k] != Str("")) && (k in after.fields ==> after.fields[k] == before[k])) &&
      (forall k | k in after.fields :: k in before)
    ensures r.Success? && !(whereClause.Obj? && "where" in whereClause.fields && whereClause.fields["where"].Obj?) ==>
      r.value == whereClause
  {
    match whereClause
    case Null => Failure(TypeError)
    case Obj(f) =>
      if "where" in f && f["where"].Obj? then
        Success(Obj(f["where" := Obj(NonEmptyFilters(f["where"].fields))]))
      else Success(whereClause)
    case _ => Success(whereClause)
  }

  /** No entry of an object `where` in the criteria is the empty string. */
  predicate NoEmptyFilters(c: Json) {
    c.Obj? && "where" in c.fields && c.fields["where"].Obj? ==>
      forall k | k in c.fields["where"].fields :: c.fields["where"].fields[k] != Str("")
  }

  /** The text the list resolver hands to JSON.parse: its criteria, serialised and translated. */
  function ListCriteriaText(args: map<string, Json>, stringify: Json -> string): string {
    TranslateOperators(stringify(Obj(ListCriteria(args))))
  }

  /** The list resolver from its arguments to the call it makes. */
  function ListQueryCall(args: map<string, Json>, stringify: Json -> string, parse: string -> Option<Json>)
    : Result<ListCall, JsError>
  {
    match parse(ListCriteriaText(args, stringify))
    case None => Failure(SyntaxError)
    case Some(parsed) =>
      var whereClause :- CleanCriteria(parsed);
      Dispatch(Lookup(args, "populate"), Lookup(args, "aggregate"), whereClause)
  }

  /**
   * The list resolver. `stringify` and `parse` stand for JSON.stringify and
   * JSON.parse, `parse` giving `None` where JSON.parse throws. The resolver
   * throws a SyntaxError exactly when the translated text does not parse,
   * and the criteria it hands on have been through the operator translation
   * and have no empty-string `where` entry left.
   */
  method ResolveList(args: map<string, Json>, stringify: Json -> string, parse: string -> Option<Json>)
    returns (r: Result<ListCall, JsError>)
    ensures r == ListQueryCall(args, stringify, parse)
    ensures r == Failure(SyntaxError) <==> parse(ListCriteriaText(args, stringify)).None?
    ensures r.Success? && r.value.HasCriteria() ==> NoEmptyFilters(r.value.criteria)
  {
    var populate := Lookup(args, "populate");
    var aggregate := Lookup(args, "aggregate");
    var criteria := args - {"populate", "aggregate"};
    var text := TranslateOperators(stringify(Obj(criteria)));
    var parsed := parse(text);
    if parsed.None? {
      return Failure(SyntaxError);
    }
    var whereClause := parsed.value;
    if whereClause == Null {
      return Failure(TypeError);
    }
    if whereClause.Obj? && "where" in whereClause.fields && whereClause.fields["where"].Obj? {
      var kept := DropEmptyFilters(whereClause.fields["where"].fields);
      whereClause := Obj(whereClause.fields["where" := Obj(kept)]);
    }
    r := Dispatch(populate, aggregate, whereClause);
  }
}
