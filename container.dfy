/**
 * The fragment of Symfony's `ContainerBuilder` the compiler passes use:
 * definitions in registration order, their tags, their constructor
 * arguments and the method calls queued on them.
 */
module Container {
  import opened PhpArray
  import opened Errors

  datatype Reference = Reference(id: string)
  datatype Tag = Tag(name: string, attributes: Value)
  datatype MethodCall = MethodCall(methodName: string, arguments: seq<Reference>)
  datatype Definition = Definition(className: string, isAbstract: bool, tags: seq<Tag>, arguments: map<nat, seq<Reference>>, calls: seq<MethodCall>)

  /** One entry of `findTaggedServiceIds`: a service id and the attributes of
      each of its tags with that name. */
  datatype TaggedService = TaggedService(id: string, attributes: seq<Value>)

  function TagAttributes(tags: seq<Tag>, name: string): seq<Value>
    decreases |tags|
  {
    if |tags| == 0 then []
    else (if tags[0].name == name then [tags[0].attributes] else []) + TagAttributes(tags[1..], name)
  }

  function TaggedIn(order: seq<string>, definitions: map<string, Definition>, name: string): (r: seq<TaggedService>)
    ensures forall i :: 0 <= i < |r| ==> r[i].id in order && r[i].id in definitions && |r[i].attributes| > 0
    decreases |order|
  {
    if |order| == 0 then []
    else
      var id := order[0];
      var rest := TaggedIn(order[1..], definitions, name);
      if id in definitions && |TagAttributes(definitions[id].tags, name)| > 0
      then [TaggedService(id, TagAttributes(definitions[id].tags, name))] + rest
      else rest
  }

  /** `findTaggedServiceIds($name, true)`: the same walk, stopped by the
      first tagged definition that is abstract. */
  function StrictTaggedIn(order: seq<string>, definitions: map<string, Definition>, name: string): (r: Result<seq<TaggedService>>)
    ensures r.Ok? <==> forall i :: 0 <= i < |TaggedIn(order, definitions, name)| ==>
      !definitions[TaggedIn(order, definitions, name)[i].id].isAbstract
    ensures r.Ok? ==> r.value == TaggedIn(order, definitions, name)
    ensures r.Err? ==> (r.error.AbstractTaggedService? && r.error.tagName == name
      && r.error.serviceId in order && r.error.serviceId in definitions
      && definitions[r.error.serviceId].isAbstract
      && |TagAttributes(definitions[r.error.serviceId].tags, name)| > 0)
    ensures r.Err? ==> FirstAbstract(TaggedIn(order, definitions, name), definitions, r.error.serviceId)
    decreases |order|
  {
    if |order| == 0 then Ok([])
    else
      var id := order[0];
      if id in definitions && |TagAttributes(definitions[id].tags, name)| > 0 then
        if definitions[id].isAbstract then
          assert TaggedIn(order, definitions, name)[0].id == id;
          Err(AbstractTaggedService(id, name))
        else
          var rest := StrictTaggedIn(order[1..], definitions, name);
          var all := TaggedIn(order, definitions, name);
          TaggedHead(order, definitions, name);
          match rest
          case Err(e) =>
            var later := TaggedIn(order[1..], definitions, name);
            var j :| 0 <= j < |later| && definitions[later[j].id].isAbstract;
            assert all[j + 1] == later[j];
            FirstAbstractPastHead(all, later, definitions, e.serviceId);
            Err(e)
          case Ok(tagged) => Ok([all[0]] + tagged)
      else
        assert TaggedIn(order, definitions, name) == TaggedIn(order[1..], definitions, name);
        StrictTaggedIn(order[1..], definitions, name)
  }

  /** `id` is the first service of `tagged` whose definition is abstract. */
  predicate FirstAbstract(tagged: seq<TaggedService>, definitions: map<string, Definition>, id: string) {
    exists k :: 0 <= k < |tagged| && tagged[k].id == id && NoAbstractBefore(tagged, definitions, k)
  }

  predicate NoAbstractBefore(tagged: seq<TaggedService>, definitions: map<string, Definition>, k: int) {
    forall j :: 0 <= j < k && j < |tagged| ==> tagged[j].id in definitions && !definitions[tagged[j].id].isAbstract
  }

  /** Behind a concrete head, the first abstract service of the rest is the
      first of the whole list. */
  lemma FirstAbstractPastHead(all: seq<TaggedService>, rest: seq<TaggedService>, definitions: map<string, Definition>, id: string)
    requires |all| == |rest| + 1 && all[1..] == rest
    requires all[0].id in definitions && !definitions[all[0].id].isAbstract
    requires FirstAbstract(rest, definitions, id)
    ensures FirstAbstract(all, definitions, id)
  {
    var k :| 0 <= k < |rest| && rest[k].id == id && NoAbstractBefore(rest, definitions, k);
    assert all[k + 1] == rest[k];
    forall j | 0 <= j < k + 1 && j < |all| ensures all[j].id in definitions && !definitions[all[j].id].isAbstract {
      if j > 0 {
        assert all[j] == rest[j - 1];
      }
    }
  }

  /** A tagged first definition heads the list, followed by the rest's. */
  lemma TaggedHead(order: seq<string>, definitions: map<string, Definition>, name: string)
    requires |order| > 0 && order[0] in definitions && |TagAttributes(definitions[order[0]].tags, name)| > 0
    ensures var all := TaggedIn(order, definitions, name);
      var rest := TaggedIn(order[1..], definitions, name);
      && |all| == |rest| + 1 && all[0].id == order[0]
      && all == [TaggedService(order[0], TagAttributes(definitions[order[0]].tags, name))] + rest
      && forall i :: 1 <= i < |all| ==> all[i] == rest[i - 1]
  {
  }

  /** `isset($attributes['priority']) ? $attributes['priority'] : 0` for integer priorities. */
  function TagPriority(attributes: Value): int {
    if IsSet(attributes, "priority") && At(attributes, "priority").Int? then At(attributes, "priority").i else 0
  }

  predicate Distinct<T(==)>(xs: seq<T>) {
    forall i, j :: 0 <= i < j < |xs| ==> xs[i] != xs[j]
  }

  function Ids(tagged: seq<TaggedService>): (r: seq<string>)
    ensures |r| == |tagged| && forall i :: 0 <= i < |tagged| ==> r[i] == tagged[i].id
  {
    seq(|tagged|, i requires 0 <= i < |tagged| => tagged[i].id)
  }

  /** With definitions registered once each, every service is found once. */
  lemma {:induction false} TaggedDistinct(order: seq<string>, definitions: map<string, Definition>, name: string)
    requires Distinct(order)
    ensures Distinct(Ids(TaggedIn(order, definitions, name)))
    decreases |order|
  {
    if |order| > 0 {
      var rest := TaggedIn(order[1..], definitions, name);
      assert Distinct(order[1..]) by {
        forall i, j | 0 <= i < j < |order[1..]| ensures order[1..][i] != order[1..][j] {
          assert order[1..][i] == order[i + 1] && order[1..][j] == order[j + 1];
        }
      }
      TaggedDistinct(order[1..], definitions, name);
      forall i | 0 <= i < |rest| ensures rest[i].id != order[0] {
        var k :| 0 <= k < |order[1..]| && order[1..][k] == rest[i].id;
        assert order[k + 1] == rest[i].id;
      }
      var r := TaggedIn(order, definitions, name);
      if r != rest {
        assert r == [r[0]] + rest;
        forall i, j | 0 <= i < j < |r| ensures Ids(r)[i] != Ids(r)[j] {
          assert r[j] == rest[j - 1];
          if i > 0 { assert r[i] == rest[i - 1]; }
        }
      }
    }
  }

  class ContainerBuilder {
    var order: seq<string>
    var definitions: map<string, Definition>

    constructor(order: seq<string>, definitions: map<string, Definition>)
      ensures this.order == order && this.definitions == definitions
    {
      this.order := order;
      this.definitions := definitions;
    }

    /** `findTaggedServiceIds($name)`: the tagged definitions in registration
        order, each with the attributes of its tags of that name. */
    function FindTaggedServiceIds(name: string): seq<TaggedService>
      reads this
    {
      TaggedIn(order, definitions, name)
    }

    /** `findTaggedServiceIds($name, true)`, which throws for an abstract
        tagged definition. */
    function FindTaggedServiceIdsStrict(name: string): Result<seq<TaggedService>>
      reads this
    {
      StrictTaggedIn(order, definitions, name)
    }

    /** `getDefinition($id)`, which throws for an unknown id. */
    function GetDefinition(id: string): (r: Result<Definition>)
      reads this
      ensures r.Ok? <==> id in definitions
      ensures r.Ok? ==> r.value == definitions[id]
      ensures r.Err? ==> r.error == ServiceNotFound(id)
    {
      if id in definitions then Ok(definitions[id]) else Err(ServiceNotFound(id))
    }

    predicate Has(id: string)
      reads this
    {
      id in definitions
    }

    method AddMethodCall(id: string, call: MethodCall)
      requires id in definitions
      modifies this
      ensures order == old(order)
      ensures definitions == old(definitions)[id := old(definitions)[id].(calls := old(definitions)[id].calls + [call])]
    {
      var d := definitions[id];
      definitions := definitions[id := d.(calls := d.calls + [call])];
    }

    method ReplaceArgument(id: string, index: nat, value: seq<Reference>)
      requires id in definitions
      modifies this
      ensures order == old(order)
      ensures definitions == old(definitions)[id := old(definitions)[id].(arguments := old(definitions)[id].arguments[index := value])]
    {
      var d := definitions[id];
      definitions := definitions[id := d.(arguments := d.arguments[index := value])];
    }

    method RemoveDefinition(id: string)
      modifies this
      ensures order == old(order)
      ensures definitions == old(definitions) - {id}
    {
      definitions := definitions - {id};
    }
  }
}
