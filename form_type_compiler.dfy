/**
 * `EasyAdminFormTypePass`: wires the form type guessers into the guesser
 * chain and hands the tagged type configurators, by priority, to the
 * EasyAdmin form type.
 */
module FormTypeCompiler {
  import opened PhpArray
  import opened Errors
  import opened PrioritySort
  import opened Container

  const GUESSER_CHAIN: string := "easyadmin.form.type_guesser_chain"
  const GUESSER_TAG: string := "form.type_guesser"
  const CONFIGURATOR_TAG: string := "easyadmin.form.type.configurator"
  const CONFIGURATOR_INTERFACE: string := "EasyCorp\\Bundle\\EasyAdminBundle\\Form\\Type\\Configurator\\TypeConfiguratorInterface"
  const CKEDITOR_CONFIGURATOR: string := "easyadmin.form.type.configurator.ivory_ckeditor"
  const CKEDITOR_CONFIG_MANAGER: string := "ivory_ck_editor.config_manager"
  const FORM_TYPE: string := "easyadmin.form.type"

  /** `(new ReflectionClass($class))->implementsInterface($interface)` */
  type Reflection = (string, string) -> bool

  /** `SplPriorityQueue`: extraction by non-increasing priority. The order of
      equal priorities is left unspecified. */
  class PriorityQueue {
    var elements: seq<Prioritized<Reference>>

    predicate Valid()
      reads this
    {
      NonIncreasing(elements)
    }

    constructor()
      ensures Valid() && elements == []
    {
      elements := [];
    }

    method Insert(value: Reference, priority: int)
      requires Valid()
      modifies this
      ensures Valid()
      ensures multiset(elements) == old(multiset(elements)) + multiset{Prioritized(value, priority)}
    {
      InsertSorted(Prioritized(value, priority), elements);
      InsertMultiset(Prioritized(value, priority), elements);
      elements := PrioritySort.Insert(Prioritized(value, priority), elements);
    }

    /** `iterator_to_array($queue)` */
    function ToArray(): seq<Reference>
      reads this
    {
      Items(elements)
    }
  }

  function GuesserReferences(tagged: seq<TaggedService>): (r: seq<Reference>)
    ensures |r| == |tagged| && forall i :: 0 <= i < |tagged| ==> r[i] == Reference(tagged[i].id)
  {
    seq(|tagged|, i requires 0 <= i < |tagged| => Reference(tagged[i].id))
  }

  /** One queue entry per tag of the service, at that tag's priority. */
  function TagEntries(id: string, attributes: seq<Value>): (r: seq<Prioritized<Reference>>)
    ensures |r| == |attributes|
    ensures forall i :: 0 <= i < |attributes| ==> r[i] == Prioritized(Reference(id), TagPriority(attributes[i]))
  {
    seq(|attributes|, i requires 0 <= i < |attributes| => Prioritized(Reference(id), TagPriority(attributes[i])))
  }

  /** The ckeditor configurator stays only with the ckeditor bundle present and no default configuration. */
  predicate KeepsCkeditor(definitions: map<string, Definition>, defaultConfigIsNull: bool) {
    CKEDITOR_CONFIG_MANAGER in definitions && defaultConfigIsNull
  }

  datatype Registration = Registration(result: Result<seq<Prioritized<Reference>>>, definitions: map<string, Definition>)

  /** The registration loop, service by service: what is queued, or the
      exception, and the definitions left in the container. */
  function Registrations(tagged: seq<TaggedService>, definitions: map<string, Definition>, implements: Reflection, defaultConfigIsNull: bool): Registration
    decreases |tagged|
  {
    if |tagged| == 0 then Registration(Ok([]), definitions)
    else
      var id := tagged[0].id;
      if id !in definitions then Registration(Err(ServiceNotFound(id)), definitions)
      else if !implements(definitions[id].className, CONFIGURATOR_INTERFACE) then Registration(Err(NotATypeConfigurator(id)), definitions)
      else if id == CKEDITOR_CONFIGURATOR && !KeepsCkeditor(definitions, defaultConfigIsNull) then
        Registrations(tagged[1..], definitions - {id}, implements, defaultConfigIsNull)
      else
        Prepend(TagEntries(id, tagged[0].attributes), Registrations(tagged[1..], definitions, implements, defaultConfigIsNull))
  }

  function Prepend(entries: seq<Prioritized<Reference>>, later: Registration): Registration {
    Registration(if later.result.Ok? then Ok(entries + later.result.value) else later.result, later.definitions)
  }

  method ConfigureTypeGuesserChain(container: ContainerBuilder) returns (r: Result<()>)
    modifies container
    ensures container.order == old(container.order)
    ensures GUESSER_CHAIN !in old(container.definitions) ==>
      r == Err(ServiceNotFound(GUESSER_CHAIN)) && container.definitions == old(container.definitions)
    ensures GUESSER_CHAIN in old(container.definitions) ==>
      var d := old(container.definitions)[GUESSER_CHAIN];
      && r == Ok(())
      && container.definitions == old(container.definitions)[GUESSER_CHAIN :=
           d.(arguments := d.arguments[0 := GuesserReferences(old(container.FindTaggedServiceIds(GUESSER_TAG)))])]
  {
    var definition := container.GetDefinition(GUESSER_CHAIN);
    var guesserIds := container.FindTaggedServiceIds(GUESSER_TAG);
    if definition.Err? {
      return Err(definition.error);
    }
    container.ReplaceArgument(GUESSER_CHAIN, 0, GuesserReferences(guesserIds));
    r := Ok(());
  }

  /** `foreach ($tags as $tag) $configurators->insert(new Reference($id), $priority)` */
  method InsertTags(configurators: PriorityQueue, id: string, tags: seq<Value>)
    requires configurators.Valid()
    modifies configurators
    ensures configurators.Valid()
    ensures multiset(configurators.elements) == old(multiset(configurators.elements)) + multiset(TagEntries(id, tags))
  {
    for t := 0 to |tags|
      invariant configurators.Valid()
      invariant multiset(configurators.elements) == old(multiset(configurators.elements)) + multiset(TagEntries(id, tags[..t]))
    {
      var priority := TagPriority(tags[t]);
      configurators.Insert(Reference(id), priority);
      assert TagEntries(id, tags[..t + 1]) == TagEntries(id, tags[..t]) + [Prioritized(Reference(id), priority)];
    }
    assert tags[..|tags|] == tags;
  }

  /** The loop over the tagged configurators; on success the queue holds
      exactly the registrations. */
  method RegisterAll(container: ContainerBuilder, configurators: PriorityQueue, tagged: seq<TaggedService>, implements: Reflection, defaultConfigIsNull: bool)
    returns (r: Result<()>)
    requires configurators.Valid() && configurators.elements == []
    modifies container, configurators
    ensures configurators.Valid()
    ensures container.order == old(container.order)
    ensures var reg := Registrations(tagged, old(container.definitions), implements, defaultConfigIsNull);
      && container.definitions == reg.definitions
      && (r.Ok? <==> reg.result.Ok?)
      && (r.Err? ==> r == Err(reg.result.error))
      && (r.Ok? ==> multiset(configurators.elements) == multiset(reg.result.value))
  {
    ghost var whole := Registrations(tagged, container.definitions, implements, defaultConfigIsNull);
    ghost var done: seq<Prioritized<Reference>> := [];
    assert tagged[0..] == tagged;
    if whole.result.Ok? {
      assert [] + whole.result.value == whole.result.value;
    }
    assert Prepend(done, whole) == whole;
    for i := 0 to |tagged|
      invariant configurators.Valid() && multiset(configurators.elements) == multiset(done)
      invariant container.order == old(container.order)
      invariant whole == Prepend(done, Registrations(tagged[i..], container.definitions, implements, defaultConfigIsNull))
    {
      var id := tagged[i].id;
      assert tagged[i..][1..] == tagged[i + 1..];
      var definition := container.GetDefinition(id);
      if definition.Err? {
        return Err(definition.error);
      }
      if !implements(definition.value.className, CONFIGURATOR_INTERFACE) {
        return Err(NotATypeConfigurator(id));
      }
      if id == CKEDITOR_CONFIGURATOR && !(container.Has(CKEDITOR_CONFIG_MANAGER) && defaultConfigIsNull) {
        container.RemoveDefinition(CKEDITOR_CONFIGURATOR);
        continue;
      }
      ghost var later := Registrations(tagged[i + 1..], container.definitions, implements, defaultConfigIsNull);
      InsertTags(configurators, id, tagged[i].attributes);
      PrependAssoc(done, TagEntries(id, tagged[i].attributes), later);
      done := done + TagEntries(id, tagged[i].attributes);
    }
    assert tagged[|tagged|..] == [];
    assert done + [] == done;
    r := Ok(());
  }

  method RegisterTypeConfigurators(container: ContainerBuilder, implements: Reflection, defaultConfigIsNull: bool) returns (r: Result<()>)
    modifies container
    ensures container.order == old(container.order)
    ensures var reg := Registrations(old(container.FindTaggedServiceIds(CONFIGURATOR_TAG)), old(container.definitions), implements, defaultConfigIsNull);
      match reg.result {
        case Err(e) => r == Err(e) && container.definitions == reg.definitions
        case Ok(entries) =>
          if FORM_TYPE !in reg.definitions then r == Err(ServiceNotFound(FORM_TYPE)) && container.definitions == reg.definitions
          else
            var d := reg.definitions[FORM_TYPE];
            && r == Ok(())
            && exists queued: seq<Prioritized<Reference>> ::
                 && NonIncreasing(queued) && multiset(queued) == multiset(entries)
                 && container.definitions == reg.definitions[FORM_TYPE := d.(arguments := d.arguments[1 := Items(queued)])] }
  {
    var configurators := new PriorityQueue();
    var tagged := container.FindTaggedServiceIds(CONFIGURATOR_TAG);
    r := RegisterAll(container, configurators, tagged, implements, defaultConfigIsNull);
    if r.Err? {
      return;
    }
    var formType := container.GetDefinition(FORM_TYPE);
    if formType.Err? {
      return Err(formType.error);
    }
    ghost var queued := configurators.elements;
    container.ReplaceArgument(FORM_TYPE, 1, configurators.ToArray());
    assert configurators.ToArray() == Items(queued);
    r := Ok(());
  }

  lemma PrependAssoc(a: seq<Prioritized<Reference>>, b: seq<Prioritized<Reference>>, later: Registration)
    ensures Prepend(a, Prepend(b, later)) == Prepend(a + b, later)
  {
    if later.result.Ok? {
      assert a + (b + later.result.value) == (a + b) + later.result.value;
    }
  }

  method Process(container: ContainerBuilder, implements: Reflection, defaultConfigIsNull: bool) returns (r: Result<()>)
    modifies container
    ensures container.order == old(container.order)
    ensures GUESSER_CHAIN !in old(container.definitions) ==>
      r == Err(ServiceNotFound(GUESSER_CHAIN)) && container.definitions == old(container.definitions)
    ensures GUESSER_CHAIN in old(container.definitions) ==>
      var d := old(container.definitions)[GUESSER_CHAIN];
      var chained := old(container.definitions)[GUESSER_CHAIN :=
        d.(arguments := d.arguments[0 := GuesserReferences(old(container.FindTaggedServiceIds(GUESSER_TAG)))])];
      var reg := Registrations(TaggedIn(old(container.order), chained, CONFIGURATOR_TAG), chained, implements, defaultConfigIsNull);
      match reg.result {
        case Err(e) => r == Err(e) && container.definitions == reg.definitions
        case Ok(entries) =>
          if FORM_TYPE !in reg.definitions then r == Err(ServiceNotFound(FORM_TYPE)) && container.definitions == reg.definitions
          else
            var f := reg.definitions[FORM_TYPE];
            && r == Ok(())
            && exists queued: seq<Prioritized<Reference>> ::
                 && NonIncreasing(queued) && multiset(queued) == multiset(entries)
                 && container.definitions == reg.definitions[FORM_TYPE := f.(arguments := f.arguments[1 := Items(queued)])] }
  {
    r := ConfigureTypeGuesserChain(container);
    if r.Ok? {
      r := RegisterTypeConfigurators(container, implements, defaultConfigIsNull);
    }
  }

  // ---------------------------------------------------------------------------

  /** The service at index i existed and implements the interface, or it is
      a repeated ckeditor entry (whose definition was removed before). */
  predicate Accepted(tagged: seq<TaggedService>, i: nat, definitions: map<string, Definition>, implements: Reflection)
    requires i < |tagged|
  {
    || (tagged[i].id in definitions && implements(definitions[tagged[i].id].className, CONFIGURATOR_INTERFACE))
    || (tagged[i].id == CKEDITOR_CONFIGURATOR && exists j :: 0 <= j < i && tagged[j].id == CKEDITOR_CONFIGURATOR)
  }

  /** A successful registration means every tagged service existed and
      implements the configurator interface. */
  lemma {:induction false} RegisteredImplement(tagged: seq<TaggedService>, definitions: map<string, Definition>, implements: Reflection, defaultConfigIsNull: bool)
    requires Registrations(tagged, definitions, implements, defaultConfigIsNull).result.Ok?
    ensures forall i :: 0 <= i < |tagged| ==> Accepted(tagged, i, definitions, implements)
    decreases |tagged|
  {
    if |tagged| > 0 {
      var id := tagged[0].id;
      var defs' := if id == CKEDITOR_CONFIGURATOR && !KeepsCkeditor(definitions, defaultConfigIsNull) then definitions - {id} else definitions;
      RegisteredImplement(tagged[1..], defs', implements, defaultConfigIsNull);
      forall i | 0 < i < |tagged| ensures Accepted(tagged, i, definitions, implements) {
        assert tagged[1..][i - 1] == tagged[i];
        assert Accepted(tagged[1..], i - 1, defs', implements);
        if tagged[i].id == CKEDITOR_CONFIGURATOR && exists j :: 0 <= j < i - 1 && tagged[1..][j].id == CKEDITOR_CONFIGURATOR {
          var j :| 0 <= j < i - 1 && tagged[1..][j].id == CKEDITOR_CONFIGURATOR;
          assert tagged[j + 1].id == CKEDITOR_CONFIGURATOR;
        }
      }
    }
  }

  /** An interface failure names a tagged service whose class does not implement it. */
  lemma {:induction false} InterfaceFailure(tagged: seq<TaggedService>, definitions: map<string, Definition>, implements: Reflection, defaultConfigIsNull: bool, id: string)
    requires Registrations(tagged, definitions, implements, defaultConfigIsNull).result == Err(NotATypeConfigurator(id))
    ensures exists i :: 0 <= i < |tagged| && tagged[i].id == id && id in definitions && !implements(definitions[id].className, CONFIGURATOR_INTERFACE)
    decreases |tagged|
  {
    var first := tagged[0].id;
    if first in definitions && implements(definitions[first].className, CONFIGURATOR_INTERFACE) {
      var defs' := if first == CKEDITOR_CONFIGURATOR && !KeepsCkeditor(definitions, defaultConfigIsNull) then definitions - {first} else definitions;
      InterfaceFailure(tagged[1..], defs', implements, defaultConfigIsNull, id);
      var i :| 0 <= i < |tagged[1..]| && tagged[1..][i].id == id && id in defs' && !implements(defs'[id].className, CONFIGURATOR_INTERFACE);
      assert tagged[i + 1].id == id;
    }
  }

  /** Without the ckeditor bundle configured for it, the ckeditor configurator
      is never queued, and its definition is gone. */
  lemma {:induction false} CkeditorSkipped(tagged: seq<TaggedService>, definitions: map<string, Definition>, implements: Reflection, defaultConfigIsNull: bool)
    requires !KeepsCkeditor(definitions, defaultConfigIsNull)
    requires Registrations(tagged, definitions, implements, defaultConfigIsNull).result.Ok?
    ensures Reference(CKEDITOR_CONFIGURATOR) !in Items(Registrations(tagged, definitions, implements, defaultConfigIsNull).result.value)
    ensures (exists i :: 0 <= i < |tagged| && tagged[i].id == CKEDITOR_CONFIGURATOR) ==>
      CKEDITOR_CONFIGURATOR !in Registrations(tagged, definitions, implements, defaultConfigIsNull).definitions
    decreases |tagged|
  {
    if |tagged| > 0 {
      var id := tagged[0].id;
      var defs' := if id == CKEDITOR_CONFIGURATOR then definitions - {id} else definitions;
      assert !KeepsCkeditor(defs', defaultConfigIsNull);
      CkeditorSkipped(tagged[1..], defs', implements, defaultConfigIsNull);
      RemovedStaysRemoved(tagged[1..], defs', implements, defaultConfigIsNull);
      if id != CKEDITOR_CONFIGURATOR {
        var later := Registrations(tagged[1..], definitions, implements, defaultConfigIsNull).result.value;
        ItemsAppend(TagEntries(id, tagged[0].attributes), later);
        if exists i :: 0 <= i < |tagged| && tagged[i].id == CKEDITOR_CONFIGURATOR {
          var i :| 0 <= i < |tagged| && tagged[i].id == CKEDITOR_CONFIGURATOR;
          assert tagged[1..][i - 1].id == CKEDITOR_CONFIGURATOR;
        }
      }
    }
  }

  /** Registration only ever removes definitions. */
  lemma {:induction false} RemovedStaysRemoved(tagged: seq<TaggedService>, definitions: map<string, Definition>, implements: Reflection, defaultConfigIsNull: bool)
    ensures Registrations(tagged, definitions, implements, defaultConfigIsNull).definitions.Keys <= definitions.Keys
    ensures forall k :: k in Registrations(tagged, definitions, implements, defaultConfigIsNull).definitions ==>
      Registrations(tagged, definitions, implements, defaultConfigIsNull).definitions[k] == definitions[k]
    decreases |tagged|
  {
    if |tagged| > 0 {
      RemovedStaysRemoved(tagged[1..], definitions - {tagged[0].id}, implements, defaultConfigIsNull);
      RemovedStaysRemoved(tagged[1..], definitions, implements, defaultConfigIsNull);
    }
  }

  function AllTagEntries(tagged: seq<TaggedService>): seq<Prioritized<Reference>>
    decreases |tagged|
  {
    if |tagged| == 0 then [] else TagEntries(tagged[0].id, tagged[0].attributes) + AllTagEntries(tagged[1..])
  }

  /** Without the ckeditor configurator, each tag of each service is queued
      once, in discovery order before the priority queue reorders them. */
  lemma {:induction false} AllRegistered(tagged: seq<TaggedService>, definitions: map<string, Definition>, implements: Reflection, defaultConfigIsNull: bool)
    requires forall i :: 0 <= i < |tagged| ==> tagged[i].id != CKEDITOR_CONFIGURATOR
    requires Registrations(tagged, definitions, implements, defaultConfigIsNull).result.Ok?
    ensures Registrations(tagged, definitions, implements, defaultConfigIsNull).result.value == AllTagEntries(tagged)
    ensures Registrations(tagged, definitions, implements, defaultConfigIsNull).definitions == definitions
    decreases |tagged|
  {
    if |tagged| > 0 {
      AllRegistered(tagged[1..], definitions, implements, defaultConfigIsNull);
    }
  }
}
