/**
 * `Autocomplete::find`: the guards in front of the search of an entity, and
 * the mapping of the page of results to `{id, text}` records.
 */
module Autocompletion {
  import opened PhpString
  import opened PhpArray
  import opened Errors
  import opened Configuration

  /** What `findByAllProperties` returns: one page of results. */
  datatype Paginator = Paginator(currentPageResults: seq<Value>, hasNextPage: bool)

  /** The finder, the property accessor's `getValue` and the `(string)` cast
      of a result object, kept abstract. */
  datatype Collaborators = Collaborators(
    findByAllProperties: (Value, Value, Value, Value) -> Paginator,
    getValue: (Value, Value) -> Value,
    toText: Value -> string)

  /** The record for one result. */
  function ResultRecord(c: Collaborators, entity: Value, entityConfig: Value): Value {
    Arr([Entry("id", c.getValue(entity, At(entityConfig, "primary_key_field_name"))), Entry("text", Str(c.toText(entity)))])
  }

  /** The list of records, one per result in order, under the keys 0, 1, … */
  function Results(c: Collaborators, entities: seq<Value>, entityConfig: Value): (r: Value)
    ensures r.Arr? && |r.entries| == |entities|
    ensures forall i :: 0 <= i < |entities| ==> r.entries[i] == Entry(IntToDecimal(i), ResultRecord(c, entities[i], entityConfig))
  {
    Arr(seq(|entities|, i requires 0 <= i < |entities| => Entry(IntToDecimal(i), ResultRecord(c, entities[i], entityConfig))))
  }

  /** Each record carries the result's primary key value as `id` and its
      string form as `text`. */
  lemma ResultsFacts(c: Collaborators, entities: seq<Value>, entityConfig: Value, i: nat)
    requires i < |entities|
    ensures var record := Results(c, entities, entityConfig).entries[i].val;
      && At(record, "id") == c.getValue(entities[i], At(entityConfig, "primary_key_field_name"))
      && At(record, "text") == Str(c.toText(entities[i]))
      && Keys(Entries(record)) == ["id", "text"]
  {
    var record := Results(c, entities, entityConfig).entries[i].val;
    assert record == ResultRecord(c, entities[i], entityConfig);
    assert "id"[0] != "text"[0];
    assert Entries(record)[1..] == [Entry("text", Str(c.toText(entities[i])))];
    assert Entries(record)[1..][1..] == [];
    assert PhpArray.Find(Entries(record)[1..], "text") == Some(Str(c.toText(entities[i])));
    assert Keys(Entries(record)[1..]) == ["text"];
  }

  /** `processResults` */
  method ProcessResults(c: Collaborators, entities: seq<Value>, entityConfig: Value) returns (r: Value)
    ensures r == Results(c, entities, entityConfig)
  {
    var results: seq<Entry> := [];
    for i := 0 to |entities|
      invariant |results| == i
      invariant forall j :: 0 <= j < i ==> results[j] == Entry(IntToDecimal(j), ResultRecord(c, entities[j], entityConfig))
    {
      results := results + [Entry(IntToDecimal(i), ResultRecord(c, entities[i], entityConfig))];
    }
    r := Arr(results);
    assert r.entries == Results(c, entities, entityConfig).entries;
  }

  method Find(manager: ConfigManager, c: Collaborators, entity: Value, query: Value, page: Value) returns (r: Result<Value>)
    modifies manager, manager.cacheManager
    ensures Falsy(entity) || Falsy(query) ==> r == Ok(Arr([Entry("results", EmptyArray)])) && unchanged(manager, manager.cacheManager)
    ensures !Falsy(entity) && !Falsy(query) ==> match old(manager.Resolved()) {
      case Err(e) => r == Err(e)
      case Ok(config) =>
        var entityConfig := Path(config, ["entities", KeyOf(entity)]);
        if entityConfig == Null then r == Err(UnknownAutocompleteEntity(entity))
        else
          var paginator := c.findByAllProperties(entityConfig, query, page, Path(config, ["show", "max_results"]));
          r == Ok(Arr([Entry("results", Results(c, paginator.currentPageResults, entityConfig)),
                       Entry("has_next_page", Bool(paginator.hasNextPage))])) }
    ensures !Falsy(entity) && !Falsy(query) ==> manager.ReadEffect()
  {
    if Falsy(entity) || Falsy(query) {
      return Ok(Arr([Entry("results", EmptyArray)]));
    }
    var backendConfig := manager.GetBackendConfig(Null);
    if backendConfig.Err? {
      return Err(backendConfig.error);
    }
    var entityConfig := Path(backendConfig.value, ["entities", KeyOf(entity)]);
    if entityConfig == Null {
      return Err(UnknownAutocompleteEntity(entity));
    }
    var paginator := c.findByAllProperties(entityConfig, query, page, Path(backendConfig.value, ["show", "max_results"]));
    var results := ProcessResults(c, paginator.currentPageResults, entityConfig);
    r := Ok(Arr([Entry("results", results), Entry("has_next_page", Bool(paginator.hasNextPage))]));
  }
}
