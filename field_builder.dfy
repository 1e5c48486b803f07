/**
 * The field maps of the two per-model types: the object type
 * (createGraphQLTypeForWaterlineModel) and the filter-argument input type
 * (createFindArgsTypeForWaterlineModel). Both thunks fill a local
 * `convertedFields` dictionary step by step; here each is a method with a
 * loop, proved equal to a specification function, and the lemmas say what
 * the specification functions contain.
 */
module FieldBuilder {
  import opened Wrappers
  import opened Descriptors
  import opened TypeMapper

  /** The field an attribute becomes: its mapped type and its description. */
  function AttributeField(a: Attribute): Field {
    Field(MapAttributeType(a), a.description, ByProperty)
  }

  /** Every converted attribute, under its own key. */
  function AttributeFields(attrs: map<string, Attribute>): map<string, Field> {
    map k | k in attrs && Converted(k, attrs[k]) :: AttributeField(attrs[k])
  }

  /** The synthetic fields written into every object type. */
  const CountField: Field := Field(NonNull(Leaf(String)), None, ByProperty)
  const AverageField: Field := Field(NonNull(Leaf(Float)), None, ByProperty)

  /**
   * Which of the two types the associations are added to. The object type's
   * thunk reads the registry's types when it is forced; `registered` is the
   * set of model ids registered at that moment.
   */
  datatype Target = ObjectType(registered: set<string>) | FilterType

  /**
   * The field one association adds, if any: on the object type only a to-one
   * association adds one, typed by the target's registered type and resolved
   * through the target's single-record query; on the filter type every
   * association adds a String field.
   */
  function AssociationField(t: Target, a: Association): (f: Option<Field>)
    ensures t.FilterType? ==> f == Some(Field(Leaf(String), a.description, ByProperty))
    ensures t.ObjectType? ==> (f.Some? <==> ToOne(a))
    ensures t.ObjectType? && f.Some? ==>
      f.value == Field(TypeRef(t.registered, a.model.value), a.description, ViaTargetQuery(a.model.value, a.alias))
  {
    match t
    case ObjectType(registered) =>
      if ToOne(a) then
        Some(Field(TypeRef(registered, a.model.value), a.description, ViaTargetQuery(a.model.value, a.alias)))
      else None
    case FilterType => Some(Field(Leaf(String), a.description, ByProperty))
  }

  /** `base` after the associations, in order, have written their fields over it. */
  function Overlay(base: map<string, Field>, assocs: seq<Association>, t: Target): map<string, Field>
    decreases |assocs|
  {
    if assocs == [] then base
    else
      var prev := Overlay(base, assocs[..|assocs| - 1], t);
      var a := assocs[|assocs| - 1];
      match AssociationField(t, a)
      case Some(f) => prev[a.alias := f]
      case None => prev
  }

  /** The field of the last association named `k` that adds one, if any. */
  function LastAliasField(assocs: seq<Association>, t: Target, k: string): Option<Field>
    decreases |assocs|
  {
    if assocs == [] then None
    else
      var a := assocs[|assocs| - 1];
      if a.alias == k && AssociationField(t, a).Some? then AssociationField(t, a)
      else LastAliasField(assocs[..|assocs| - 1], t, k)
  }

  /** The object type's fields: attributes, then count and average, then to-one associations. */
  function ObjectFields(m: ModelDescriptor, registered: set<string>): map<string, Field> {
    Overlay(AttributeFields(m.attributes)["count" := CountField]["average" := AverageField],
            m.associations, ObjectType(registered))
  }

  /** The filter-argument type's fields: attributes, then every association alias. */
  function FilterFields(m: ModelDescriptor): map<string, Field> {
    Overlay(AttributeFields(m.attributes), m.associations, FilterType)
  }

  /**
   * The attribute loop shared by both types and the mutations: exactly the
   * attributes that have a type and are not skipped become fields, each with
   * its mapped type and its description.
   */
  method ConvertAttributes(attrs: map<string, Attribute>) returns (converted: map<string, Field>)
    ensures forall k :: k in converted <==> k in attrs && Converted(k, attrs[k])
    ensures forall k :: k in converted ==>
      converted[k] == Field(MapAttributeType(attrs[k]), attrs[k].description, ByProperty)
    ensures converted == AttributeFields(attrs)
  {
    converted := map[];
    var keys := attrs.Keys;
    while keys != {}
      invariant keys <= attrs.Keys
      invariant converted == map k | k in attrs.Keys - keys && Converted(k, attrs[k]) :: AttributeField(attrs[k])
      decreases keys
    {
      var key :| key in keys;
      var attribute := attrs[key];
      if Present(attribute.typ) && key !in SkipFields {
        converted := converted[key := Field(MapAttributeType(attribute), attribute.description, ByProperty)];
      }
      keys := keys - {key};
    }
  }

  /** The object type's `fields` thunk. */
  method BuildObjectFields(m: ModelDescriptor, registered: set<string>) returns (fields: map<string, Field>)
    ensures fields == ObjectFields(m, registered)
  {
    fields := ConvertAttributes(m.attributes);
    fields := fields["count" := CountField];
    fields := fields["average" := AverageField];
    ghost var base := fields;
    var associations := m.associations;
    var i := 0;
    while i < |associations|
      invariant 0 <= i <= |associations|
      invariant fields == Overlay(base, associations[..i], ObjectType(registered))
    {
      var association := associations[i];
      if ToOne(association) {
        var target := association.model.value;
        fields := fields[association.alias :=
          Field(TypeRef(registered, target), association.description, ViaTargetQuery(target, association.alias))];
      }
      assert associations[..i + 1][..i] == associations[..i];
      i := i + 1;
    }
    assert associations[..i] == associations;
  }

  /** The filter-argument type's `fields` thunk. */
  method BuildFilterFields(m: ModelDescriptor) returns (fields: map<string, Field>)
    ensures fields == FilterFields(m)
  {
    fields := ConvertAttributes(m.attributes);
    ghost var base := fields;
    var associations := m.associations;
    var i := 0;
    while i < |associations|
      invariant 0 <= i <= |associations|
      invariant fields == Overlay(base, associations[..i], FilterType)
    {
      var association := associations[i];
      fields := fields[association.alias := Field(Leaf(String), association.description, ByProperty)];
      assert associations[..i + 1][..i] == associations[..i];
      i := i + 1;
    }
    assert associations[..i] == associations;
  }

  /** Overlaying gives each key the last association's field, else the base's entry. */
  lemma {:induction false} OverlayAt(base: map<string, Field>, assocs: seq<Association>, t: Target, k: string)
    ensures LastAliasField(assocs, t, k).Some? ==>
      k in Overlay(base, assocs, t) && Overlay(base, assocs, t)[k] == LastAliasField(assocs, t, k).value
    ensures LastAliasField(assocs, t, k).None? ==>
      (k in Overlay(base, assocs, t) <==> k in base) &&
      (k in base ==> Overlay(base, assocs, t)[k] == base[k])
    decreases |assocs|
  {
    if assocs != [] {
      OverlayAt(base, assocs[..|assocs| - 1], t, k);
    }
  }

  /**
   * The last association named `k` that adds a field decides it: none adds
   * one exactly when no association named `k` contributes, and otherwise the
   * field is that of an association named `k` after which no other one named
   * `k` contributes.
   */
  lemma {:induction false} LastAliasFieldIsLast(assocs: seq<Association>, t: Target, k: string)
    ensures LastAliasField(assocs, t, k).None? <==>
      forall i | 0 <= i < |assocs| && assocs[i].alias == k :: AssociationField(t, assocs[i]).None?
    ensures LastAliasField(assocs, t, k).Some? ==>
      exists i :: 0 <= i < |assocs| && assocs[i].alias == k &&
        AssociationField(t, assocs[i]) == LastAliasField(assocs, t, k) &&
        forall j | i < j < |assocs| && assocs[j].alias == k :: AssociationField(t, assocs[j]).None?
    decreases |assocs|
  {
    if assocs != [] {
      var n := |assocs| - 1;
      var init := assocs[..n];
      LastAliasFieldIsLast(init, t, k);
      var a := assocs[n];
      if a.alias == k && AssociationField(t, a).Some? {
        assert assocs[n].alias == k;
      } else {
        assert forall i | 0 <= i < n :: init[i] == assocs[i];
        if LastAliasField(init, t, k).Some? {
          var i :| 0 <= i < |init| && init[i].alias == k &&
            AssociationField(t, init[i]) == LastAliasField(init, t, k) &&
            forall j | i < j < |init| && init[j].alias == k :: AssociationField(t, init[j]).None?;
          assert assocs[i] == init[i];
        }
      }
    }
  }

  /**
   * Precedence in the object type: a to-one association's alias wins over
   * everything; otherwise `count` and `average` are the synthetic fields
   * whatever the attributes say; otherwise a key is a field exactly when it
   * is a converted attribute, with that attribute's field.
   */
  lemma ObjectFieldAt(m: ModelDescriptor, registered: set<string>, k: string)
    ensures var fs := ObjectFields(m, registered);
      match LastAliasField(m.associations, ObjectType(registered), k)
      case Some(f) => k in fs && fs[k] == f
      case None =>
        if k == "count" then k in fs && fs[k] == CountField
        else if k == "average" then k in fs && fs[k] == AverageField
        else
          (k in fs <==> k in m.attributes && Converted(k, m.attributes[k])) &&
          (k in fs ==> fs[k] == AttributeField(m.attributes[k]))
  {
    var base := AttributeFields(m.attributes)["count" := CountField]["average" := AverageField];
    OverlayAt(base, m.associations, ObjectType(registered), k);
  }

  /**
   * Precedence in the filter type: an association's alias wins and is a
   * String field; otherwise a key is a field exactly when it is a converted
   * attribute.
   */
  lemma FilterFieldAt(m: ModelDescriptor, k: string)
    ensures var fs := FilterFields(m);
      match LastAliasField(m.associations, FilterType, k)
      case Some(f) => k in fs && fs[k] == f && f.typ == Leaf(String)
      case None =>
        (k in fs <==> k in m.attributes && Converted(k, m.attributes[k])) &&
        (k in fs ==> fs[k] == AttributeField(m.attributes[k]))
  {
    OverlayAt(AttributeFields(m.attributes), m.associations, FilterType, k);
    LastAliasFieldIsLast(m.associations, FilterType, k);
  }

  /** The object type always has `count` and `average`; the filter type has every association alias. */
  lemma SyntheticFieldsPresent(m: ModelDescriptor, registered: set<string>)
    ensures "count" in ObjectFields(m, registered) && "average" in ObjectFields(m, registered)
    ensures forall i | 0 <= i < |m.associations| :: m.associations[i].alias in FilterFields(m)
  {
    ObjectFieldAt(m, registered, "count");
    ObjectFieldAt(m, registered, "average");
    forall i | 0 <= i < |m.associations|
      ensures m.associations[i].alias in FilterFields(m)
    {
      var k := m.associations[i].alias;
      LastAliasFieldIsLast(m.associations, FilterType, k);
      FilterFieldAt(m, k);
    }
  }

  /**
   * Apart from association aliases and the two synthetic names, the object
   * type and the filter type have the same fields, and `createdAt` and
   * `updatedAt` are in neither.
   */
  lemma AttributeFieldsAgree(m: ModelDescriptor, registered: set<string>, k: string)
    requires k != "count" && k != "average"
    requires forall i | 0 <= i < |m.associations| :: m.associations[i].alias != k
    ensures k in ObjectFields(m, registered) <==> k in FilterFields(m)
    ensures k in FilterFields(m) ==> ObjectFields(m, registered)[k] == FilterFields(m)[k]
    ensures k in SkipFields ==> k !in ObjectFields(m, registered) && k !in FilterFields(m)
  {
    LastAliasFieldIsLast(m.associations, ObjectType(registered), k);
    LastAliasFieldIsLast(m.associations, FilterType, k);
    ObjectFieldAt(m, registered, k);
    FilterFieldAt(m, k);
  }
}
