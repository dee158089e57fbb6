/**
 * The configuration pass that completes every entity with what Doctrine knows
 * about its class: the primary key field and the properties metadata.
 *
 * Doctrine is abstract: a lookup from a class name to the outcome of asking
 * the registry for the class's entity manager, and the class's metadata.
 */
module MetadataPass {
  import opened PhpString
  import opened PhpArray
  import opened Errors

  /** `ClassMetadata::TO_MANY`: the ONE_TO_MANY (4) and MANY_TO_MANY (8) bits. */
  const TO_MANY: int := 12

  /** The parts of a Doctrine `ClassMetadata` the pass reads. */
  datatype ClassMetadata = ClassMetadata(
    name: string,
    // what getSingleIdentifierFieldName() returns; None when Doctrine raises
    singleIdentifierFieldName: Option<Value>,
    isIdentifierComposite: bool,
    fieldMappings: seq<Entry>,
    associationMappings: seq<Entry>)

  /** The outcome of `getManagerForClass($class)` followed by `getMetadataFor($class)`. */
  datatype ManagerLookup =
    | ReflectionFailure               // getManagerForClass raised a ReflectionException
    | NoManager                       // getManagerForClass returned null
    | Manager(metadata: ClassMetadata)

  datatype Doctrine = Doctrine(
    managerForClass: Value -> ManagerLookup,
    // property_exists($dtoClass, 'id')
    hasIdProperty: Value -> bool)

  /** `$type & ClassMetadata::TO_MANY`, for PHP's two's-complement integers:
      bits 2 and 3 of t are (t div 4) mod 4 with floor division. Any value that
      is not an integer counts as 0. */
  predicate ToMany(associationType: Value) {
    associationType.Int? && (associationType.i / 4) % 4 != 0
  }

  /** The properties entry built for one association mapping. */
  function AssociationProperty(association: Value): Value {
    var merged := SetAll(Arr(Entries(association)),
                         [Entry("type", Str("association")),
                          Entry("associationType", At(association, "type"))]);
    if ToMany(At(association, "type")) then Set(merged, "sortable", Bool(false)) else merged
  }

  function AssociationEntries(associations: seq<Entry>): (r: seq<Entry>)
    ensures |r| == |associations|
    ensures forall i :: 0 <= i < |r| ==>
      r[i] == Entry(associations[i].key, AssociationProperty(associations[i].val))
  {
    seq(|associations|, i requires 0 <= i < |associations| =>
      Entry(associations[i].key, AssociationProperty(associations[i].val)))
  }

  /** The properties metadata of a class: the field mappings, then the
      associations written over them. */
  function PropertiesOf(md: ClassMetadata): Value {
    SetAll(SetAll(EmptyArray, md.fieldMappings), AssociationEntries(md.associationMappings))
  }

  /** What the loop body does to one entity configuration. */
  function ProcessEntity(d: Doctrine, name: string, entity: Value): Result<Value> {
    var e := if IsSet(entity, "search_class") then Set(entity, "class", At(entity, "search_class")) else entity;
    if !IsSet(e, "class") && IsSet(e, "dto_class") then
      var pk := if d.hasIdProperty(At(e, "dto_class")) then Str("id") else Null;
      Ok(Set(Set(e, "primary_key_field_name", pk), "properties", EmptyArray))
    else
      match d.managerForClass(At(e, "class"))
      case ReflectionFailure => Err(InvalidType(ClassDoesNotExist, At(e, "class"), name))
      case NoManager => Err(InvalidType(NotMappedEntity, At(e, "class"), name))
      case Manager(md) =>
        match md.singleIdentifierFieldName
        case None => Err(Raised("Doctrine ClassMetadata::getSingleIdentifierFieldName"))
        case Some(pk) =>
          if md.isIdentifierComposite then Err(CompositePrimaryKey(md.name))
          else Ok(Set(Set(e, "primary_key_field_name", pk), "properties", PropertiesOf(md)))
  }

  /** What the loop does to one entity, seen from the loop. */
  type Step = (string, Value) -> Result<Value>

  function EntityStep(d: Doctrine): Step {
    (name: string, entity: Value) => ProcessEntity(d, name, entity)
  }

  /** The foreach over the entities that writes each result back under its
      name, stopping at the first exception. */
  function RewriteEntities(step: Step, config: Value, es: seq<Entry>): Result<Value>
    decreases |es|
  {
    if |es| == 0 then Ok(config)
    else match step(es[0].key, es[0].val)
      case Err(x) => Err(x)
      case Ok(e) => RewriteEntities(step, Set2(config, "entities", es[0].key, e), es[1..])
  }

  function EntitiesOf(config: Value): seq<Entry> {
    Entries(At(config, "entities"))
  }

  function Processed(d: Doctrine, config: Value): Result<Value> {
    RewriteEntities(EntityStep(d), config, EntitiesOf(config))
  }

  // ---------------------------------------------------------------------------
  // The pass as the source runs it.

  method ProcessEntityPropertiesMetadata(md: ClassMetadata) returns (r: Result<Value>)
    ensures r == if md.isIdentifierComposite then Err(CompositePrimaryKey(md.name)) else Ok(PropertiesOf(md))
  {
    var properties := EmptyArray;
    if md.isIdentifierComposite {
      return Err(CompositePrimaryKey(md.name));
    }
    var fields := md.fieldMappings;
    var i := 0;
    while i < |fields|
      invariant 0 <= i <= |fields|
      invariant properties == SetAll(EmptyArray, fields[..i])
    {
      SetAllAppend(EmptyArray, fields[..i], [fields[i]]);
      assert fields[..i + 1] == fields[..i] + [fields[i]];
      properties := Set(properties, fields[i].key, fields[i].val);
      i := i + 1;
    }
    assert fields[..i] == fields;
    var associations := md.associationMappings;
    var j := 0;
    while j < |associations|
      invariant 0 <= j <= |associations|
      invariant properties == SetAll(SetAll(EmptyArray, fields), AssociationEntries(associations[..j]))
    {
      var name := associations[j].key;
      var association := associations[j].val;
      ghost var before := properties;
      var merged := SetAll(Arr(Entries(association)),
                           [Entry("type", Str("association")),
                            Entry("associationType", At(association, "type"))]);
      properties := Set(properties, name, merged);
      if ToMany(At(association, "type")) {
        properties := Set2(properties, name, "sortable", Bool(false));
      }
      AssociationStep(before, name, association);
      AssociationEntriesSnoc(associations, j);
      SetAllAppend(SetAll(EmptyArray, fields), AssociationEntries(associations[..j]),
                   [Entry(name, AssociationProperty(association))]);
      j := j + 1;
    }
    assert associations[..j] == associations;
    return Ok(properties);
  }

  /** One pass of the association loop stores the association's property. */
  lemma AssociationStep(before: Value, name: string, association: Value)
    ensures var merged := SetAll(Arr(Entries(association)),
                                 [Entry("type", Str("association")),
                                  Entry("associationType", At(association, "type"))]);
      (if ToMany(At(association, "type")) then Set2(Set(before, name, merged), name, "sortable", Bool(false))
       else Set(before, name, merged))
      == Set(before, name, AssociationProperty(association))
  {
    var merged := SetAll(Arr(Entries(association)),
                         [Entry("type", Str("association")),
                          Entry("associationType", At(association, "type"))]);
    if ToMany(At(association, "type")) {
      GetSet(before, name, merged, name);
      SetSet(before, name, merged, Set(merged, "sortable", Bool(false)));
    }
  }

  lemma AssociationEntriesSnoc(associations: seq<Entry>, j: nat)
    requires j < |associations|
    ensures AssociationEntries(associations[..j + 1])
         == AssociationEntries(associations[..j]) + [Entry(associations[j].key, AssociationProperty(associations[j].val))]
  {
  }

  /** The body of the loop of `process` for one entity: the configuration
      written back under its name, or the exception. */
  method CompleteEntity(d: Doctrine, entityName: string, entity: Value) returns (r: Result<Value>)
    ensures r == ProcessEntity(d, entityName, entity)
  {
    var entityConfig := entity;
    if IsSet(entityConfig, "search_class") {
      entityConfig := Set(entityConfig, "class", At(entityConfig, "search_class"));
    }
    if !IsSet(entityConfig, "class") && IsSet(entityConfig, "dto_class") {
      var pk := if d.hasIdProperty(At(entityConfig, "dto_class")) then Str("id") else Null;
      entityConfig := Set(entityConfig, "primary_key_field_name", pk);
      entityConfig := Set(entityConfig, "properties", EmptyArray);
      return Ok(entityConfig);
    }
    var lookup := d.managerForClass(At(entityConfig, "class"));
    if lookup.ReflectionFailure? {
      return Err(InvalidType(ClassDoesNotExist, At(entityConfig, "class"), entityName));
    }
    if lookup.NoManager? {
      return Err(InvalidType(NotMappedEntity, At(entityConfig, "class"), entityName));
    }
    var md := lookup.metadata;
    if md.singleIdentifierFieldName.None? {
      return Err(Raised("Doctrine ClassMetadata::getSingleIdentifierFieldName"));
    }
    entityConfig := Set(entityConfig, "primary_key_field_name", md.singleIdentifierFieldName.value);
    var properties := ProcessEntityPropertiesMetadata(md);
    if properties.Err? {
      return Err(properties.error);
    }
    r := Ok(Set(entityConfig, "properties", properties.value));
  }

  method Process(d: Doctrine, config: Value) returns (r: Result<Value>)
    ensures r == Processed(d, config)
  {
    var backendConfig := config;
    var entities := EntitiesOf(config);
    var i := 0;
    while i < |entities|
      invariant 0 <= i <= |entities|
      invariant RewriteEntities(EntityStep(d), backendConfig, entities[i..]) == Processed(d, config)
    {
      var entityName := entities[i].key;
      assert entities[i..][0] == entities[i] && entities[i..][1..] == entities[i + 1..];
      var entityConfig := CompleteEntity(d, entityName, entities[i].val);
      if entityConfig.Err? {
        return Err(entityConfig.error);
      }
      backendConfig := Set2(backendConfig, "entities", entityName, entityConfig.value);
      i := i + 1;
    }
    return Ok(backendConfig);
  }

  // ---------------------------------------------------------------------------
  // What the pass guarantees.

  /** Bits of the Doctrine association types. */
  lemma ToManyTypes()
    ensures ToMany(Int(4)) && ToMany(Int(8)) && ToMany(Int(TO_MANY))
    ensures !ToMany(Int(1)) && !ToMany(Int(2)) && !ToMany(Int(3)) && !ToMany(Null)
  {
  }

  /** An association property is the association mapping with `type` set to
      'association', `associationType` holding the mapping's own type, and
      `sortable` forced to false exactly for to-many associations. No other key
      of the mapping changes. */
  lemma AssociationPropertyFacts(association: Value, k: string)
    ensures At(AssociationProperty(association), "type") == Str("association")
    ensures At(AssociationProperty(association), "associationType") == At(association, "type")
    ensures ToMany(At(association, "type")) ==> At(AssociationProperty(association), "sortable") == Bool(false)
    ensures !ToMany(At(association, "type")) ==>
              Get(AssociationProperty(association), "sortable") == Get(association, "sortable")
    ensures k != "type" && k != "associationType" && k != "sortable" ==>
              Get(AssociationProperty(association), k) == Get(association, k)
  {
    var base := Arr(Entries(association));
    var es := [Entry("type", Str("association")), Entry("associationType", At(association, "type"))];
    var merged := SetAll(base, es);
    assert Get(base, k) == Get(association, k) && Get(base, "sortable") == Get(association, "sortable");
    GetSetAll(base, es, "type");
    GetSetAll(base, es, "associationType");
    GetSetAll(base, es, "sortable");
    GetSetAll(base, es, k);
    GetSet(merged, "sortable", Bool(false), "sortable");
    GetSet(merged, "sortable", Bool(false), "type");
    GetSet(merged, "sortable", Bool(false), "associationType");
    GetSet(merged, "sortable", Bool(false), k);
  }

  lemma {:induction false} GetProperties(md: ClassMetadata, k: string)
    ensures Get(PropertiesOf(md), k) ==
      if HasKey(AssociationEntries(md.associationMappings), k)
      then Some(LastValue(AssociationEntries(md.associationMappings), k))
      else if HasKey(md.fieldMappings, k) then Some(LastValue(md.fieldMappings, k))
      else None
  {
    GetSetAll(SetAll(EmptyArray, md.fieldMappings), AssociationEntries(md.associationMappings), k);
    GetSetAll(EmptyArray, md.fieldMappings, k);
  }

  lemma AssociationKeys(associations: seq<Entry>, k: string)
    ensures HasKey(AssociationEntries(associations), k) <==> HasKey(associations, k)
  {
    HasKeyAt(associations, k);
    HasKeyAt(AssociationEntries(associations), k);
  }

  /** Every association becomes a property, and overwrites a field of the same name. */
  lemma PropertyOfAssociation(md: ClassMetadata, i: nat)
    requires UniqueKeys(md.associationMappings) && i < |md.associationMappings|
    ensures Get(PropertiesOf(md), md.associationMappings[i].key)
         == Some(AssociationProperty(md.associationMappings[i].val))
  {
    var assoc := AssociationEntries(md.associationMappings);
    assert assoc[i] == Entry(md.associationMappings[i].key, AssociationProperty(md.associationMappings[i].val));
    assert UniqueKeys(assoc) by {
      forall a, b | 0 <= a < b < |assoc| ensures assoc[a].key != assoc[b].key {
        assert assoc[a].key == md.associationMappings[a].key && assoc[b].key == md.associationMappings[b].key;
      }
    }
    LastValueUnique(assoc, i);
    GetProperties(md, md.associationMappings[i].key);
  }

  /** A field mapping with no association of the same name is copied verbatim. */
  lemma PropertyOfField(md: ClassMetadata, i: nat)
    requires UniqueKeys(md.fieldMappings) && i < |md.fieldMappings|
    requires !HasKey(md.associationMappings, md.fieldMappings[i].key)
    ensures Get(PropertiesOf(md), md.fieldMappings[i].key) == Some(md.fieldMappings[i].val)
  {
    AssociationKeys(md.associationMappings, md.fieldMappings[i].key);
    LastValueUnique(md.fieldMappings, i);
    GetProperties(md, md.fieldMappings[i].key);
  }

  /** Nothing but fields and associations becomes a property. */
  lemma NoOtherProperty(md: ClassMetadata, k: string)
    requires !HasKey(md.fieldMappings, k) && !HasKey(md.associationMappings, k)
    ensures Get(PropertiesOf(md), k) == None
  {
    AssociationKeys(md.associationMappings, k);
    GetProperties(md, k);
  }

  /** With `search_class` set, `class` is replaced by it and the DTO branch is never taken. */
  lemma SearchClassWins(d: Doctrine, name: string, entity: Value)
    requires IsSet(entity, "search_class")
    ensures ProcessEntity(d, name, entity) == ProcessEntity(d, name, Set(entity, "class", At(entity, "search_class")))
    ensures ProcessEntity(d, name, entity).Ok? ==>
              At(ProcessEntity(d, name, entity).value, "class") == At(entity, "search_class")
    ensures ProcessEntity(d, name, entity).Ok? ==>
              Get(ProcessEntity(d, name, entity).value, "properties") != Some(EmptyArray)
              || d.managerForClass(At(entity, "search_class")).Manager?
  {
    var e := Set(entity, "class", At(entity, "search_class"));
    SetSet(entity, "class", At(entity, "search_class"), At(entity, "search_class"));
    GetSet(entity, "class", At(entity, "search_class"), "class");
    GetSet(entity, "class", At(entity, "search_class"), "search_class");
    var r := ProcessEntity(d, name, entity);
    if r.Ok? {
      var md := d.managerForClass(At(e, "class")).metadata;
      var pk := md.singleIdentifierFieldName.value;
      var e1 := Set(e, "primary_key_field_name", pk);
      GetSet(e, "primary_key_field_name", pk, "class");
      GetSet(e1, "properties", PropertiesOf(md), "class");
    }
  }

  /** A DTO-only entity gets `primary_key_field_name` "id" when the DTO has an
      `id` property and null otherwise, empty `properties`, and Doctrine is not
      consulted: the outcome does not depend on the manager lookup. */
  lemma DtoEntity(d: Doctrine, d2: Doctrine, name: string, entity: Value)
    requires !IsSet(entity, "search_class") && !IsSet(entity, "class") && IsSet(entity, "dto_class")
    requires d2.hasIdProperty == d.hasIdProperty
    ensures ProcessEntity(d, name, entity).Ok?
    ensures ProcessEntity(d, name, entity) == ProcessEntity(d2, name, entity)
    ensures At(ProcessEntity(d, name, entity).value, "primary_key_field_name")
         == if d.hasIdProperty(At(entity, "dto_class")) then Str("id") else Null
    ensures At(ProcessEntity(d, name, entity).value, "properties") == EmptyArray
  {
    var pk := if d.hasIdProperty(At(entity, "dto_class")) then Str("id") else Null;
    var e1 := Set(entity, "primary_key_field_name", pk);
    GetSet(entity, "primary_key_field_name", pk, "primary_key_field_name");
    GetSet(e1, "properties", EmptyArray, "primary_key_field_name");
    GetSet(e1, "properties", EmptyArray, "properties");
  }

  /** The two failures of the manager lookup are told apart. */
  lemma LookupFailures(d: Doctrine, name: string, entity: Value)
    requires !IsSet(entity, "search_class") && IsSet(entity, "class")
    ensures d.managerForClass(At(entity, "class")).ReflectionFailure? ==>
              ProcessEntity(d, name, entity) == Err(InvalidType(ClassDoesNotExist, At(entity, "class"), name))
    ensures d.managerForClass(At(entity, "class")).NoManager? ==>
              ProcessEntity(d, name, entity) == Err(InvalidType(NotMappedEntity, At(entity, "class"), name))
  {
  }

  /** A mapped entity gets the single identifier field name as its primary key
      and the class's properties metadata; a composite key fails. */
  lemma MappedEntity(d: Doctrine, name: string, entity: Value, md: ClassMetadata, pk: Value)
    requires !IsSet(entity, "search_class") && IsSet(entity, "class")
    requires d.managerForClass(At(entity, "class")) == Manager(md)
    requires md.singleIdentifierFieldName == Some(pk)
    ensures md.isIdentifierComposite ==> ProcessEntity(d, name, entity) == Err(CompositePrimaryKey(md.name))
    ensures !md.isIdentifierComposite ==>
              ProcessEntity(d, name, entity).Ok? &&
              At(ProcessEntity(d, name, entity).value, "primary_key_field_name") == pk &&
              At(ProcessEntity(d, name, entity).value, "properties") == PropertiesOf(md)
  {
    var e1 := Set(entity, "primary_key_field_name", pk);
    GetSet(entity, "primary_key_field_name", pk, "primary_key_field_name");
    GetSet(e1, "properties", PropertiesOf(md), "primary_key_field_name");
    GetSet(e1, "properties", PropertiesOf(md), "properties");
  }

  /** Each entity replaced by what the step made of it (kept when it failed). */
  function Rewritten(step: Step, es: seq<Entry>): (r: seq<Entry>)
    ensures |r| == |es|
    ensures forall i :: 0 <= i < |es| ==> r[i] == Entry(es[i].key, Outcome(step, es[i]))
  {
    seq(|es|, i requires 0 <= i < |es| => Entry(es[i].key, Outcome(step, es[i])))
  }

  function Outcome(step: Step, e: Entry): Value {
    var r := step(e.key, e.val);
    if r.Ok? then r.value else e.val
  }

  predicate AllSucceed(step: Step, es: seq<Entry>) {
    forall i :: 0 <= i < |es| ==> step(es[i].key, es[i].val).Ok?
  }

  /** Assigning a key whose first occurrence is at index i replaces that entry. */
  lemma {:induction false} PutAt(es: seq<Entry>, i: nat, x: Value)
    requires i < |es| && forall j :: 0 <= j < i ==> es[j].key != es[i].key
    ensures Put(es, es[i].key, x) == es[..i] + [Entry(es[i].key, x)] + es[i + 1..]
  {
    if i > 0 {
      PutAt(es[1..], i - 1, x);
      assert es[1..][..i - 1] == es[1..i];
      assert es[1..][i..] == es[i + 1..];
    }
  }

  /** The pass stops at the first entity that fails and reports its error. */
  lemma {:induction false} FirstFailure(step: Step, config: Value, es: seq<Entry>)
    ensures RewriteEntities(step, config, es).Err? <==> !AllSucceed(step, es)
    ensures RewriteEntities(step, config, es).Err? ==>
            exists i :: 0 <= i < |es| && step(es[i].key, es[i].val) == RewriteEntities(step, config, es) &&
                        AllSucceed(step, es[..i])
    decreases |es|
  {
    if |es| > 0 {
      var first := step(es[0].key, es[0].val);
      var tail := es[1..];
      if first.Ok? {
        FirstFailure(step, Set2(config, "entities", es[0].key, first.value), tail);
        if RewriteEntities(step, config, es).Err? {
          var i :| 0 <= i < |tail| && step(tail[i].key, tail[i].val) == RewriteEntities(step, config, es) &&
                   AllSucceed(step, tail[..i]);
          assert tail[i] == es[i + 1];
          var pre := es[..i + 1];
          forall j | 0 <= j < |pre| ensures step(pre[j].key, pre[j].val).Ok? {
            if j > 0 { assert pre[j] == tail[..i][j - 1]; }
          }
        } else {
          forall i | 0 <= i < |es| ensures step(es[i].key, es[i].val).Ok? {
            if i > 0 { assert es[i] == tail[i - 1]; }
          }
        }
      } else {
        assert es[..0] == [];
      }
    }
  }

  /** The loop state after the first i entities: those are rewritten, the
      rest untouched. */
  lemma {:induction false} RewriteShape(step: Step, config: Value, es: seq<Entry>, i: nat)
    requires i <= |es| && UniqueKeys(es) && AllSucceed(step, es)
    requires At(config, "entities") == Arr(Rewritten(step, es[..i]) + es[i..])
    ensures RewriteEntities(step, config, es[i..]) ==
            if i == |es| then Ok(config)
            else Ok(Set(config, "entities", Arr(Rewritten(step, es))))
    decreases |es| - i
  {
    if i < |es| {
      var next := Rewritten(step, es[..i + 1]) + es[i + 1..];
      var config2 := Set2(config, "entities", es[i].key, step(es[i].key, es[i].val).value);
      RewriteOne(step, config, es, i);
      assert es[i..][0] == es[i] && es[i..][1..] == es[i + 1..];
      assert RewriteEntities(step, config, es[i..]) == RewriteEntities(step, config2, es[i + 1..]);
      GetSet(config, "entities", Arr(next), "entities");
      RewriteShape(step, config2, es, i + 1);
      SetSet(config, "entities", Arr(next), Arr(Rewritten(step, es)));
      if i + 1 == |es| {
        assert es[..i + 1] == es;
        assert next == Rewritten(step, es);
      }
    }
  }

  /** Writing back entity i turns it into its rewritten form in place. */
  lemma RewriteOne(step: Step, config: Value, es: seq<Entry>, i: nat)
    requires i < |es| && UniqueKeys(es) && AllSucceed(step, es)
    requires At(config, "entities") == Arr(Rewritten(step, es[..i]) + es[i..])
    ensures Set2(config, "entities", es[i].key, step(es[i].key, es[i].val).value)
         == Set(config, "entities", Arr(Rewritten(step, es[..i + 1]) + es[i + 1..]))
  {
    var e := step(es[i].key, es[i].val).value;
    var cur := Rewritten(step, es[..i]) + es[i..];
    assert cur[i] == es[i];
    forall j | 0 <= j < i ensures cur[j].key != cur[i].key {
      assert cur[j].key == es[j].key;
    }
    PutAt(cur, i, e);
    var next := Rewritten(step, es[..i + 1]) + es[i + 1..];
    assert cur[..i] + [Entry(es[i].key, e)] + cur[i + 1..] == next;
  }

  /** When every entity succeeds, the loop replaces `entities` by the rewritten
      entities, keeping their order and every other top-level key. */
  lemma RewriteWhole(step: Step, config: Value)
    requires UniqueKeys(EntitiesOf(config)) && AllSucceed(step, EntitiesOf(config))
    ensures RewriteEntities(step, config, EntitiesOf(config)) ==
            if EntitiesOf(config) == [] then Ok(config)
            else Ok(Set(config, "entities", Arr(Rewritten(step, EntitiesOf(config)))))
  {
    var es := EntitiesOf(config);
    if es != [] {
      assert Rewritten(step, es[..0]) + es[0..] == es;
      RewriteShape(step, config, es, 0);
    }
  }

  /** Only `entities` is rewritten: every other top-level key is unchanged. */
  lemma {:induction false} OtherKeysUnchanged(step: Step, config: Value, es: seq<Entry>, k: string)
    requires k != "entities"
    ensures RewriteEntities(step, config, es).Ok? ==>
              Get(RewriteEntities(step, config, es).value, k) == if es == [] then Get(config, k) else Get(Arr(Entries(config)), k)
    decreases |es|
  {
    if |es| > 0 {
      var first := step(es[0].key, es[0].val);
      if first.Ok? {
        var next := Set2(config, "entities", es[0].key, first.value);
        GetSet(config, "entities", Set(At(config, "entities"), es[0].key, first.value), k);
        OtherKeysUnchanged(step, next, es[1..], k);
      }
    }
  }

  /** The pass leaves every top-level key but `entities` as it was. */
  lemma OnlyEntitiesChange(d: Doctrine, config: Value, k: string)
    requires config.Arr? && k != "entities" && Processed(d, config).Ok?
    ensures Get(Processed(d, config).value, k) == Get(config, k)
  {
    OtherKeysUnchanged(EntityStep(d), config, EntitiesOf(config), k);
  }

  /** With unique entity names, each entity's configuration after the pass is
      what `ProcessEntity` made of it, at the same position. */
  lemma ProcessedEntities(d: Doctrine, config: Value)
    requires UniqueKeys(EntitiesOf(config)) && Processed(d, config).Ok?
    ensures EntitiesOf(config) != [] ==>
            EntitiesOf(Processed(d, config).value) == Rewritten(EntityStep(d), EntitiesOf(config))
    ensures forall i :: 0 <= i < |EntitiesOf(config)| ==>
            Ok(Rewritten(EntityStep(d), EntitiesOf(config))[i].val)
              == ProcessEntity(d, EntitiesOf(config)[i].key, EntitiesOf(config)[i].val)
  {
    var step := EntityStep(d);
    FirstFailure(step, config, EntitiesOf(config));
    RewriteWhole(step, config);
    if EntitiesOf(config) != [] {
      GetSet(config, "entities", Arr(Rewritten(step, EntitiesOf(config))), "entities");
    }
  }

  /** Processing one entity a second time changes nothing. */
  /** The loop body writes two keys and leaves every other key alone. */
  lemma ProcessedFieldAt(e: Value, pk: Value, props: Value, k: string)
    requires k != "primary_key_field_name" && k != "properties"
    ensures Get(Set(Set(e, "primary_key_field_name", pk), "properties", props), k) == Get(e, k)
  {
    GetSet(e, "primary_key_field_name", pk, k);
    GetSet(Set(e, "primary_key_field_name", pk), "properties", props, k);
  }

  /** Writing the same two values again changes nothing. */
  lemma ProcessedRewrite(e: Value, pk: Value, props: Value)
    ensures var e2 := Set(Set(e, "primary_key_field_name", pk), "properties", props);
      Set(Set(e2, "primary_key_field_name", pk), "properties", props) == e2
  {
    var e1 := Set(e, "primary_key_field_name", pk);
    var e2 := Set(e1, "properties", props);
    GetSet(e1, "properties", props, "properties");
    GetSet(e, "primary_key_field_name", pk, "primary_key_field_name");
    GetSet(e1, "properties", props, "primary_key_field_name");
    SetExisting(e2, "primary_key_field_name", pk);
    SetExisting(e2, "properties", props);
  }

  lemma EntityIdempotent(d: Doctrine, name: string, entity: Value)
    requires ProcessEntity(d, name, entity).Ok?
    ensures ProcessEntity(d, name, ProcessEntity(d, name, entity).value) == ProcessEntity(d, name, entity)
  {
    var e := if IsSet(entity, "search_class") then Set(entity, "class", At(entity, "search_class")) else entity;
    if !IsSet(e, "class") && IsSet(e, "dto_class") {
      DtoEntityIdempotent(d, name, entity);
    } else {
      MappedEntityIdempotent(d, name, entity);
    }
  }

  /** `search_class` copied into `class` is copied again to the same value. */
  lemma SearchClassApplied(entity: Value)
    ensures var e := if IsSet(entity, "search_class") then Set(entity, "class", At(entity, "search_class")) else entity;
      && Get(e, "search_class") == Get(entity, "search_class")
      && (IsSet(entity, "search_class") ==> At(e, "class") == At(entity, "search_class"))
      && (forall k :: k != "class" ==> Get(e, k) == Get(entity, k))
  {
    if IsSet(entity, "search_class") {
      forall k | k != "class" ensures Get(Set(entity, "class", At(entity, "search_class")), k) == Get(entity, k) {
        GetSet(entity, "class", At(entity, "search_class"), k);
      }
      GetSet(entity, "class", At(entity, "search_class"), "class");
    }
  }

  /** The same entity seen again: its `search_class` step changes nothing. */
  lemma ReprocessedSearch(e: Value, pk: Value, props: Value)
    requires !IsSet(e, "search_class") || At(e, "class") == At(e, "search_class")
    ensures var e2 := Set(Set(e, "primary_key_field_name", pk), "properties", props);
      && (IsSet(e2, "search_class") ==> Set(e2, "class", At(e2, "search_class")) == e2)
      && Get(e2, "class") == Get(e, "class") && Get(e2, "dto_class") == Get(e, "dto_class")
      && Set(Set(e2, "primary_key_field_name", pk), "properties", props) == e2
  {
    var e2 := Set(Set(e, "primary_key_field_name", pk), "properties", props);
    ProcessedFieldAt(e, pk, props, "search_class");
    ProcessedFieldAt(e, pk, props, "class");
    ProcessedFieldAt(e, pk, props, "dto_class");
    ProcessedRewrite(e, pk, props);
    if IsSet(e2, "search_class") {
      SetExisting(e2, "class", At(e2, "search_class"));
    }
  }

  lemma DtoEntityIdempotent(d: Doctrine, name: string, entity: Value)
    requires var e := if IsSet(entity, "search_class") then Set(entity, "class", At(entity, "search_class")) else entity;
      !IsSet(e, "class") && IsSet(e, "dto_class")
    ensures ProcessEntity(d, name, ProcessEntity(d, name, entity).value) == ProcessEntity(d, name, entity)
  {
    var e := if IsSet(entity, "search_class") then Set(entity, "class", At(entity, "search_class")) else entity;
    SearchClassApplied(entity);
    var pk := if d.hasIdProperty(At(e, "dto_class")) then Str("id") else Null;
    var e2 := Set(Set(e, "primary_key_field_name", pk), "properties", EmptyArray);
    assert ProcessEntity(d, name, entity) == Ok(e2);
    ReprocessedSearch(e, pk, EmptyArray);
  }

  lemma MappedEntityIdempotent(d: Doctrine, name: string, entity: Value)
    requires ProcessEntity(d, name, entity).Ok?
    requires var e := if IsSet(entity, "search_class") then Set(entity, "class", At(entity, "search_class")) else entity;
      !(!IsSet(e, "class") && IsSet(e, "dto_class"))
    ensures ProcessEntity(d, name, ProcessEntity(d, name, entity).value) == ProcessEntity(d, name, entity)
  {
    var e := if IsSet(entity, "search_class") then Set(entity, "class", At(entity, "search_class")) else entity;
    SearchClassApplied(entity);
    var md := d.managerForClass(At(e, "class")).metadata;
    var pk := md.singleIdentifierFieldName.value;
    var e2 := Set(Set(e, "primary_key_field_name", pk), "properties", PropertiesOf(md));
    assert ProcessEntity(d, name, entity) == Ok(e2);
    ReprocessedSearch(e, pk, PropertiesOf(md));
  }

  /** Running the pass on its own output changes nothing. */
  lemma Idempotent(d: Doctrine, config: Value)
    requires UniqueKeys(EntitiesOf(config))
    requires Processed(d, config).Ok?
    ensures Processed(d, Processed(d, config).value) == Processed(d, config)
  {
    var step := EntityStep(d);
    var es := EntitiesOf(config);
    FirstFailure(step, config, es);
    RewriteWhole(step, config);
    if es != [] {
      var pes := Rewritten(step, es);
      var c1 := Set(config, "entities", Arr(pes));
      GetSet(config, "entities", Arr(pes), "entities");
      assert EntitiesOf(c1) == pes;
      assert UniqueKeys(pes) by {
        forall a, b | 0 <= a < b < |pes| ensures pes[a].key != pes[b].key {
          assert pes[a].key == es[a].key && pes[b].key == es[b].key;
        }
      }
      forall i | 0 <= i < |pes| ensures step(pes[i].key, pes[i].val) == step(es[i].key, es[i].val) {
        EntityIdempotent(d, es[i].key, es[i].val);
      }
      RewriteWhole(step, c1);
      assert Rewritten(step, pes) == pes;
      SetExisting(c1, "entities", Arr(pes));
    }
  }
}
