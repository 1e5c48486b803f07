# sails-hook-graphql schema builder, modelled in Dafny

This project models `graphQLService.js`, the service that turns the Waterline (Sails ORM) model
descriptors of an application into a GraphQL schema. The service does the following:

- It maps each attribute's Waterline type to a GraphQL scalar, made non-null when the attribute
  is required.
- It derives the fields of each model's object type: the attributes, the synthetic `count` and
  `average` fields, and the to-one associations.
- It derives the fields of the model's `<modelID>Args` filter type: the attributes and every
  association alias.
- It builds a single-record query and a list query per model. The list resolver first rewrites
  the serialised criteria (`gte`→`>=`, `gt`→`>`, `lte`→`<=`, `lt`→`<`, `neq`→`!=`). It then
  drops empty-string `where` entries and chooses between a populated find, an aggregate and a
  plain find.
- It builds create, update and delete mutations per model.
- It fills the module-level registry (`gqlSchemaManager`) in two passes over the models. It then
  merges the per-model query maps and mutation maps into the root `Query` and `Mutation` types.

Modules, one per part of the service:

| file | module | what it holds |
|---|---|---|
| wrappers.dfy | `Wrappers` | `Option` and `Result` |
| js_values.dfy | `JsValues` | JSON values, `undefined` as `None`, truthiness, property and index reads that throw `TypeError` on `undefined`/`null` |
| descriptors.dfy | `Descriptors` | model descriptors, GraphQL type references, fields, `skipFields` |
| type_mapper.dfy | `TypeMapper` | `waterlineTypesToGraphQLType` |
| field_builder.dfy | `FieldBuilder` | the field thunks of the object type and the filter type, as methods over a `convertedFields` map |
| filter_translator.dfy | `FilterTranslator` | the operator replace chain and the removal of empty `where` entries |
| queries.dfy | `Queries` | the find arguments, the two queries, the association resolver, the list resolver's dispatch |
| mutations.dfy | `Mutations` | `capitalizeFirstLetter`, the three mutations and their resolvers |
| schema.dfy | `SchemaComposer` | the `gqlSchemaManager` registry as a class, its two passes, the root merges |

Modelling choices:

- The lazy `fields: () => …` thunks are evaluated against the registry as it is when they are
  forced. The functions therefore take the set of registered object-type ids as a parameter.
- The object types of the registry stand behind `ObjectRef(id)`. `Undefined` is what reading an
  id the registry does not hold yields.
- The three copies of the attribute loop are one method, `FieldBuilder.ConvertAttributes`.
- `JSON.stringify` and `JSON.parse` are parameters of the list resolver. `parse` yields `None` where
  JSON.parse throws, and the resolver then fails with `SyntaxError`.
- `_.each` and the `for…in` loop visit keys in an order the model leaves open. The proofs hold for
  every order.

Where the documented behaviour of the service and this code differ, the model follows the code:

- `count` and `average` are assigned after the attributes, so they replace same-named attributes.
- An association whose target model is not exposed for queries gets type `undefined`, because the
  registry holds no type for it.
- A model exposed for mutations only gets mutations of type `undefined`.
- This version has no global aggregate queries, no hidden-field configuration and no switch to
  disable the hook.

## Model

| member | source | states |
|---|---|---|
| JsValues.Prop | graphQLService.js:124 | reading a property fails with TypeError exactly on `undefined` and `null`; an object yields its entry for the key (`undefined` when absent), any other value yields `undefined` |
| JsValues.At | graphQLService.js:262 | indexing fails with TypeError exactly on `undefined` and `null`; an array yields its element and a string its one-character string (`undefined` past the end), an object its entry under the decimal key, a boolean or number `undefined` |
| Descriptors.TypeRef | graphQLService.js:117 | a registry lookup is the model's object type exactly when the id is registered, otherwise `undefined` |
| TypeMapper.MapAttributeType | graphQLService.js:33-53 | `string`→String, `number`→Int, `boolean`→Boolean, anything else→CustomJson (never Float); non-null exactly when `required` is truthy |
| FieldBuilder.ConvertAttributes | graphQLService.js:92-101 | a key becomes a field iff the attribute has a truthy type and the key is not `createdAt`/`updatedAt`; the field has the mapped type and the attribute's description |
| FieldBuilder.AssociationField | graphQLService.js:113-129 | object type: only an association with a truthy `model` adds a field, typed by the registry lookup and resolved through the target's single-record query; filter type: every alias adds a String field |
| FieldBuilder.BuildObjectFields | graphQLService.js:89-129 | the loop builds exactly the specified map: attributes, then `count`/`average`, then to-one associations in order |
| FieldBuilder.BuildFilterFields | graphQLService.js:158-179 | the loop builds exactly the specified map: attributes, then every association alias in order |
| FieldBuilder.OverlayAt | graphQLService.js:114-129 | after the association pass, a key holds the field of the last association with that alias that adds a field, and otherwise keeps its earlier value |
| FieldBuilder.LastAliasFieldIsLast | graphQLService.js:173-179 | the winning association for an alias is the last one in the list with that alias |
| FieldBuilder.ObjectFieldAt | graphQLService.js:103-129 | precedence in the object type: to-one association over `count`/`average` over attributes |
| FieldBuilder.FilterFieldAt | graphQLService.js:160-179 | in the filter type an association alias is a String field and shadows the attribute of the same name |
| FieldBuilder.SyntheticFieldsPresent | graphQLService.js:103-179 | the object type always has `count` and `average` fields, whatever the attributes; the filter type has a field for every association alias |
| FieldBuilder.AttributeFieldsAgree | graphQLService.js:160-169 | a key that is neither an association alias nor `count`/`average` is a field of the object type exactly when it is one of the filter type, with the same field in both; `createdAt`/`updatedAt` appear in neither |
| FilterTranslator.ReplaceAllWithoutPattern | graphQLService.js:249 | a global replace leaves text without the pattern unchanged |
| FilterTranslator.ReplaceAllLeavesNo | graphQLService.js:249-253 | a global replace leaves no occurrence of the pattern when the replacement cannot form one |
| FilterTranslator.ChainLeavesNoPatterns | graphQLService.js:248-253 | the ordered chain leaves none of its patterns when no symbol can form a pattern |
| FilterTranslator.ChainWithoutPatterns | graphQLService.js:248-253 | the chain is the identity on text containing none of its patterns |
| FilterTranslator.OperatorsApart | graphQLService.js:249-253 | no replacement symbol contains or completes any operator name |
| FilterTranslator.TranslateWithoutOperators | graphQLService.js:248-253 | criteria text containing no operator name comes back unchanged |
| FilterTranslator.TranslateLeavesNoOperators | graphQLService.js:248-253 | no operator name survives anywhere in the text, names and values included, and translating again changes nothing |
| FilterTranslator.OperatorAlone | graphQLService.js:248-253 | each operator name on its own becomes its symbol (`gte`→`>=`, …, `neq`→`!=`) |
| FilterTranslator.OperatorKeyTranslated | graphQLService.js:248-253 | a quoted operator key between operator-free text becomes its quoted symbol; `gte`/`gt` and `lte`/`lt` do not disturb each other |
| FilterTranslator.EscapedNewlineBeforeEq | graphQLService.js:248-254 | the translation also rewrites string values: the serialised value `"\neq"` (a newline, then `eq`) becomes `"\!="`, an escape JSON.parse rejects |
| Queries.CleanCriteria | graphQLService.js:254-259 | null parsed criteria throw a TypeError at `whereClause.where`; otherwise exactly the `''` entries of an object `where` are removed and none is added, every other entry and every other criterion kept, and non-object criteria or `where` pass unchanged |
| FilterTranslator.DropEmptyFilters | graphQLService.js:255-259 | exactly the `where` entries equal to `''` are removed; every other entry is kept unchanged |
| Queries.FindArgs | graphQLService.js:55-82 | the list query's six arguments: `where` (named `criteria`), `populate` and `aggregate` CustomJson, `sort` String, `skip`/`limit` Int |
| Queries.QueriesFor | graphQLService.js:215-240 | per model exactly `<id>` (non-null Int `id`, single record, the object type) and `<id>s` (the find arguments, a list of the object type) |
| Queries.ByIdKey | graphQLService.js:229 | finds by a truthy `id`, else by a falsy `where` itself, else by `where.id` |
| Queries.ZeroIdIsDropped | graphQLService.js:229 | `id: 0` is falsy, so the record is looked up by an undefined id |
| Queries.ResolveAssociation | graphQLService.js:119-127 | TypeError for an unregistered target or a missing/null linked value; a truthy embedded `id` is used, otherwise the linked value itself |
| Queries.Shape | graphQLService.js:267-299 | count, sum and average come back as `[{count: value}]`; only an unknown aggregate returns nothing |
| Queries.Dispatch | graphQLService.js:260-299 | exactly one branch: populate (with `populate[0].criteria` when truthy), else count/sum/average, else nothing for other aggregates, else plain find; failure exactly on a nullish `populate[0]` or null criteria for sum/average |
| Queries.ResolveList | graphQLService.js:241-260 | the resolver throws a SyntaxError exactly when the translated criteria text does not parse, and a TypeError when it parses to `null`; otherwise it makes the call of the clean–dispatch pipeline, and the criteria it hands on have no empty-string `where` entry |
| Mutations.CapitalizeFirstLetter | graphQLService.js:305-307 | length kept, only the first character changes, and it is never a lower-case ASCII letter afterwards |
| Mutations.CapitalizeIdempotent | graphQLService.js:305-307 | capitalising twice equals capitalising once |
| Mutations.BuildMutations | graphQLService.js:309-393 | the builder yields exactly the three specified mutations |
| Mutations.MutationArguments | graphQLService.js:323-372 | three distinct names; update takes every converted attribute as that attribute's converted field (mapped type and description), create the same without `id`, delete only the converted `id` field |
| Mutations.MutationsTyped | graphQLService.js:327-372 | all three mutations return the type they were built with |
| Mutations.ResolveMutation | graphQLService.js:331-389 | create passes its arguments on, update matches on `args.id` and sets all arguments, delete fails with "must provide at least one parameter" exactly when the arguments are empty and otherwise destroys by exactly its arguments |
| SchemaComposer.MergeFields | graphQLService.js:440-452 | undefined exactly when nothing is registered; otherwise every registered field is in the root, every root field comes from some model, and the id whose entry served as the accumulator is registered |
| SchemaComposer.AmongStep | graphQLService.js:403-423 | visiting one more model in a pass adds that model's entry exactly when its `graphql` flag selects it, and leaves the other entries as they were |
| SchemaComposer.RegisteredTypeFields | graphQLService.js:404-416 | a type the query pass registers has its model's object fields when forced, and its `<id>Args` type has that model's filter fields |
| SchemaComposer.MutationPassStep | graphQLService.js:426-436 | visiting one model in the second pass adds its mutations exactly when it is exposed for mutations |
| SchemaComposer.QueryPassConsistent | graphQLService.js:403-423 | what a query pass registers covers the same models in all three maps, each entry named after its model, the queries typed by its own object type |
| SchemaComposer.QueryPassKeepsConsistent | graphQLService.js:403-423 | after a query pass the registry still has types, filter types and queries for the same models, each named after its model |
| SchemaComposer.MergeWithoutCollisions | graphQLService.js:440-452 | when no two models share a field name, the root holds every model's own field unchanged |
| SchemaComposer.RootHasRegisteredQueries | graphQLService.js:440-445 | every registered model contributes `<id>` and `<id>s` to the root Query type |
| SchemaComposer.RootQueriesAreRegistered | graphQLService.js:440-445 | every root query belongs to a registered model and returns that model's object type (or a list of it) |
| SchemaComposer.MutationTypeAfterQueryPass | graphQLService.js:426-436 | mutations are typed by the model's own object type when a query pass registered it, and `undefined` otherwise |
| SchemaComposer.RootHasPassMutations | graphQLService.js:447-452 | every model exposed for mutations contributes its create, update and delete fields |
| SchemaComposer.RootMutationsAreExposed | graphQLService.js:447-452 | every root mutation belongs to a model exposed for mutations |
| SchemaComposer.SchemaManager.constructor | graphQLService.js:16-23 | the registry starts empty |
| SchemaComposer.SchemaManager.RegisterQueryModel | graphQLService.js:405-422 | registering one model stores its object type, its `<id>Args` type and its queries typed by that object type, and nothing else |
| SchemaComposer.SchemaManager.EachQueryModel | graphQLService.js:403-423 | the first pass's per-model callback extends the registry by exactly that model's entries when it is exposed for queries |
| SchemaComposer.SchemaManager.RegisterQueries | graphQLService.js:403-423 | the first pass adds exactly the exposed models' types, filter types and queries to what was registered before |
| SchemaComposer.SchemaManager.EachMutationModel | graphQLService.js:426-436 | the second pass's per-model callback adds that model's mutations, typed by the registry lookup, exactly when it is exposed for mutations |
| SchemaComposer.SchemaManager.RegisterMutations | graphQLService.js:426-436 | the second pass adds exactly the mutation-exposed models' mutations, typed by the registry after the first pass |
| SchemaComposer.SchemaManager.RegisterModels | graphQLService.js:403-436 | the two passes, queries first: every registry dictionary keeps its entries and gains the exposed models' ones, and a consistent registry stays consistent |
| SchemaComposer.SchemaManager.MergeQueries | graphQLService.js:440-444 | undefined exactly when no queries are registered; otherwise the root is the merge of all registered query maps, and the registry's entry for the first model visited now holds that root while the others are unchanged |
| SchemaComposer.SchemaManager.MergeMutations | graphQLService.js:447-452 | undefined exactly when no mutations are registered; otherwise the root is the merge of all registered mutation maps, and the registry's entry for the first model visited now holds that root while the others are unchanged |
| SchemaComposer.SchemaManager.GetGraphQLSchemaFrom | graphQLService.js:395-465 | falsy models fail and change nothing; otherwise types and filter types keep earlier entries and gain this call's; the root Query is the merge of all registered queries (consistent ones when the registry was), the root Mutation the merge of all registered mutations, and each root is left in its dictionary's entry for the first model visited |

## Left out

- Waterline I/O: `find`, `limit`, `count`, `sum`, `avg`, `create`, `update`, `destroy`, `fetch`,
  promises and `await`. The model says which call is made and with which arguments, not what it
  returns.
- The try/catch blocks that return a caught exception as the resolver's value. They only wrap the
  I/O above.
- The graphql-js constructors (`GraphQLObjectType`, `GraphQLInputObjectType`, `GraphQLNonNull`,
  `GraphQLList`, `GraphQLSchema`) and the `CustomJson` scalar's `serialize`. They become
  datatypes.
- Validation of the resulting schema by graphql-js. This includes the rejection of an `undefined`
  field type, of an undefined root `Query` field map, and of the `Mutation` type that the code
  always builds, with `fields: undefined` when no model is exposed for mutations. The model's
  `Schema.mutation` is then `None`.
- `JSON.stringify` and `JSON.parse` themselves. They are parameters of `Queries.ResolveList`.
- SchemaComposer.MergeFields: lodash `_.merge` deep-merges two same-named fields from different
  models, while the model takes one of them whole. It also does not fix the order of
  `_.reduce`.
- SchemaComposer.SchemaManager.GetGraphQLSchemaFrom: the `Query` field thunk is not a closure in
  the model. The schema constructor forces it once during the call (line 459), and the model
  makes its merge at that point (`MergeQueries`). Because that merge leaves every model's queries
  in one registry entry, the model does not promise `Valid()` after the call. It promises
  consistency only of what the passes registered, and only when the registry was consistent
  before the call (a fresh one always is).
- Queries.ResolveList: whether a text parses is left to the `parse` parameter. The model shows the
  rewrite producing an escape JSON does not have (`FilterTranslator.EscapedNewlineBeforeEq`); it
  does not define JSON's grammar to prove that the parse then fails.
- `gqlSchemaManager.connectionTypes`: nothing reads or writes it.
- Float aggregates: `average` and `avg` results are not modelled as numbers, and JSON numbers are
  integers.
- Mutations.CapitalizeFirstLetter: `toUpperCase` is modelled for ASCII letters only. Other
  characters are left unchanged.
- `where` given as an array: the for-in loop would delete array elements equal to `''` and leave
  holes. The model leaves array-valued `where` unchanged.
- JsValues.Prop: it does not model `length` or numeric keys on strings and arrays, which only a
  `where` or `populate` of those shapes would reach.
- The commented-out collection-association and populate code, and the commented-out update
  guard. That code is inactive.
