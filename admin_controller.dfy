/**
 * The request dispatch of `AdminController`: the initialisation of the
 * current entity and its sort defaults, the forbidden-action check in front
 * of the dynamic method call, the resolution of that call, sort direction
 * normalisation and the post-write redirect chain.
 */
module Admin {
  import opened PhpString
  import opened PhpArray
  import opened Errors
  import opened Http
  import opened Configuration

  const ENTITY_NAME_PLACEHOLDER: string := "<EntityName>"
  const BACKEND_ROUTE: string := "easyadmin"

  /** `isActionAllowed`: the action is not among the entity's
      `disabled_actions` (strict `in_array`). */
  predicate IsActionAllowed(entity: Value, action: Value) {
    action !in Values(At(entity, "disabled_actions"))
  }

  // ---------------------------------------------------------------------------
  // initialize

  /** `$x ?? $fallback` */
  function Coalesce(x: Value, fallback: Value): Value {
    if x != Null then x else fallback
  }

  /** The query after `initialize` has filled in the sort defaults of the
      action's view. */
  function SortDefaults(entity: Value, query: Value): Value {
    var action := KeyOf(QueryGet(query, "action", Str("list")));
    var q1 := if QueryHas(query, "sortField") then query
      else Set(query, "sortField", Coalesce(Path(entity, [action, "sort", "field"]), At(entity, "primary_key_field_name")));
    if QueryHas(q1, "sortDirection") then q1
    else Set(q1, "sortDirection", Coalesce(Path(entity, [action, "sort", "direction"]), Str("DESC")))
  }

  /** A given sort field or direction is kept; a missing field defaults to the
      view's sort field, else the primary key; a missing direction to the
      view's direction, else "DESC"; nothing else in the query changes. */
  lemma SortDefaultsFacts(entity: Value, query: Value, k: string)
    ensures var action := KeyOf(QueryGet(query, "action", Str("list")));
      var q := SortDefaults(entity, query);
      && Get(q, "sortField") == (if QueryHas(query, "sortField") then Get(query, "sortField")
           else Some(Coalesce(Path(entity, [action, "sort", "field"]), At(entity, "primary_key_field_name"))))
      && Get(q, "sortDirection") == (if QueryHas(query, "sortDirection") then Get(query, "sortDirection")
           else Some(Coalesce(Path(entity, [action, "sort", "direction"]), Str("DESC"))))
      && (k != "sortField" && k != "sortDirection" ==> Get(q, k) == Get(query, k))
  {
    var action := KeyOf(QueryGet(query, "action", Str("list")));
    var field := Coalesce(Path(entity, [action, "sort", "field"]), At(entity, "primary_key_field_name"));
    var direction := Coalesce(Path(entity, [action, "sort", "direction"]), Str("DESC"));
    var q1 := if QueryHas(query, "sortField") then query else Set(query, "sortField", field);
    GetSet(query, "sortField", field, "sortField");
    GetSet(query, "sortField", field, "sortDirection");
    GetSet(query, "sortField", field, k);
    GetSet(q1, "sortDirection", direction, "sortDirection");
    GetSet(q1, "sortDirection", direction, "sortField");
    GetSet(q1, "sortDirection", direction, k);
    assert QueryHas(q1, "sortDirection") <==> QueryHas(query, "sortDirection") by {
      assert Get(q1, "sortDirection") == Get(query, "sortDirection");
    }
  }

  /** What `initialize` establishes, given what reading the backend
      configuration yields and the request's query. */
  datatype Initialized = Initialized(config: Value, entity: Option<Value>, query: Value)

  function Initialization(resolved: Result<Value>, query: Value): Result<Initialized> {
    match resolved
    case Err(e) => Err(e)
    case Ok(config) =>
      var entities := At(config, "entities");
      var entityName := QueryGet(query, "entity", Null);
      if |Entries(entities)| == 0 then Err(NoEntitiesConfigured)
      else if entityName == Null then Ok(Initialized(config, None, query))
      else if !HasKey(Entries(entities), KeyOf(entityName)) then Err(UndefinedEntity(entityName))
      else match EntityConfigOf(config, entityName)
        case Err(e) => Err(e)
        case Ok(entity) => Ok(Initialized(config, Some(entity), SortDefaults(entity, query)))
  }

  /** The failures of `initialize`, in the order it checks them. */
  lemma InitializeErrors(config: Value, query: Value)
    ensures |Entries(At(config, "entities"))| == 0 ==> Initialization(Ok(config), query) == Err(NoEntitiesConfigured)
    ensures |Entries(At(config, "entities"))| > 0 && QueryGet(query, "entity", Null) == Null
      ==> Initialization(Ok(config), query) == Ok(Initialized(config, None, query))
    ensures var name := QueryGet(query, "entity", Null);
      |Entries(At(config, "entities"))| > 0 && name != Null && !HasKey(Entries(At(config, "entities")), KeyOf(name))
      ==> Initialization(Ok(config), query) == Err(UndefinedEntity(name))
    ensures Initialization(Ok(config), query).Ok? && Initialization(Ok(config), query).value.entity.Some? ==>
      var name := QueryGet(query, "entity", Null);
      && HasKey(Entries(At(config, "entities")), KeyOf(name))
      && Initialization(Ok(config), query).value.entity.value == At(At(config, "entities"), KeyOf(name))
      && Initialization(Ok(config), query).value.query == SortDefaults(At(At(config, "entities"), KeyOf(name)), query)
  {
    var name := QueryGet(query, "entity", Null);
    if |Entries(At(config, "entities"))| > 0 && name != Null && HasKey(Entries(At(config, "entities")), KeyOf(name)) {
      EntityConfigFacts(config, name);
    }
  }

  // ---------------------------------------------------------------------------
  // executeDynamicMethod

  /** PHP method names ignore ASCII case, and a class cannot declare two
      methods whose names differ only in case. */
  predicate CaseDistinct(names: set<string>) {
    forall a, b :: a in names && b in names && Lower(a) == Lower(b) ==> a == b
  }

  /** The methods a controller class declares. */
  type MethodTable = names: set<string> | CaseDistinct(names)

  /** `method_exists` / `is_callable` on the controller: some declared
      method has the name, up to ASCII case. */
  predicate Declares(methods: MethodTable, name: string) {
    exists m :: m in methods && Lower(m) == Lower(name)
  }

  /** The declared method a name calls, if any. */
  function DeclaredMethod(methods: MethodTable, name: string): (r: Option<string>)
    ensures r.Some? <==> Declares(methods, name)
    ensures r.Some? ==> r.value in methods && Lower(r.value) == Lower(name)
  {
    if Declares(methods, name) then
      var m :| m in methods && Lower(m) == Lower(name);
      Some(m)
    else None
  }

  /** The spelling `executeDynamicMethod` settles on: the entity-specific
      name when the controller can call it, else the generic one. */
  function MethodNameFor(methods: MethodTable, entityName: string, pattern: string): string {
    var specific := ReplaceAll(pattern, ENTITY_NAME_PLACEHOLDER, entityName);
    if Declares(methods, specific) then specific else ReplaceAll(pattern, ENTITY_NAME_PLACEHOLDER, "")
  }

  /** The declared method `executeDynamicMethod` calls, or the error naming
      the spelling it looked for. */
  function ResolveMethod(methods: MethodTable, entityName: string, pattern: string): Result<string> {
    var name := MethodNameFor(methods, entityName, pattern);
    match DeclaredMethod(methods, name) {
      case Some(m) => Ok(m)
      case None => Err(BadMethodCall(name))
    }
  }

  lemma ResolveMethodFacts(methods: MethodTable, entityName: string, pattern: string)
    ensures var specific := ReplaceAll(pattern, ENTITY_NAME_PLACEHOLDER, entityName);
      var generic := ReplaceAll(pattern, ENTITY_NAME_PLACEHOLDER, "");
      var r := ResolveMethod(methods, entityName, pattern);
      && (Declares(methods, specific) ==> r.Ok? && Lower(r.value) == Lower(specific))
      && (!Declares(methods, specific) && Declares(methods, generic) ==> r.Ok? && Lower(r.value) == Lower(generic))
      && (!Declares(methods, specific) && !Declares(methods, generic) ==> r == Err(BadMethodCall(generic)))
      && (specific in methods ==> r == Ok(specific))
      && (!Declares(methods, specific) && generic in methods ==> r == Ok(generic))
      && (r.Ok? ==> r.value in methods)
  {
    var specific := ReplaceAll(pattern, ENTITY_NAME_PLACEHOLDER, entityName);
    var generic := ReplaceAll(pattern, ENTITY_NAME_PLACEHOLDER, "");
    if specific in methods {
      assert Declares(methods, specific);
    } else if !Declares(methods, specific) && generic in methods {
      assert Declares(methods, generic);
    }
  }

  /** `str_replace` leaves a name without '<' alone. */
  lemma {:induction false} NoPlaceholder(s: string, replacement: string)
    requires '<' !in s
    ensures ReplaceAll(s, ENTITY_NAME_PLACEHOLDER, replacement) == s
    decreases |s|
  {
    if |s| >= |ENTITY_NAME_PLACEHOLDER| {
      assert s[..|ENTITY_NAME_PLACEHOLDER|][0] == s[0];
      NoPlaceholder(s[1..], replacement);
      assert s == [s[0]] + s[1..];
    }
  }

  /** The pattern `<action><EntityName>Action` names `<action><entity>Action`,
      or `<action>Action` with an empty replacement. */
  lemma {:induction false} ActionPattern(action: string, replacement: string)
    requires '<' !in action
    ensures ReplaceAll(action + ENTITY_NAME_PLACEHOLDER + "Action", ENTITY_NAME_PLACEHOLDER, replacement) == action + replacement + "Action"
    decreases |action|
  {
    var s := action + ENTITY_NAME_PLACEHOLDER + "Action";
    if |action| == 0 {
      assert s == ENTITY_NAME_PLACEHOLDER + "Action";
      assert s[..|ENTITY_NAME_PLACEHOLDER|] == ENTITY_NAME_PLACEHOLDER;
      assert s[|ENTITY_NAME_PLACEHOLDER|..] == "Action";
      NoPlaceholder("Action", replacement);
      assert action + replacement + "Action" == replacement + "Action";
    } else {
      assert s[..|ENTITY_NAME_PLACEHOLDER|][0] == action[0];
      assert s[1..] == action[1..] + ENTITY_NAME_PLACEHOLDER + "Action";
      ActionPattern(action[1..], replacement);
      assert action + replacement + "Action" == [action[0]] + (action[1..] + replacement + "Action");
    }
  }

  /** Action names that differ only in ASCII case make `executeDynamicMethod`
      call the same method. */
  lemma CaseVariantActions(methods: MethodTable, entityName: string, a: string, b: string)
    requires '<' !in a && '<' !in b && Lower(a) == Lower(b)
    ensures var ra := ResolveMethod(methods, entityName, a + ENTITY_NAME_PLACEHOLDER + "Action");
      var rb := ResolveMethod(methods, entityName, b + ENTITY_NAME_PLACEHOLDER + "Action");
      (ra.Ok? <==> rb.Ok?) && (ra.Ok? ==> ra == rb)
  {
    ActionPattern(a, entityName);
    ActionPattern(b, entityName);
    ActionPattern(a, "");
    ActionPattern(b, "");
    LowerConcat(a + entityName, "Action");
    LowerConcat(b + entityName, "Action");
    LowerConcat(a, entityName);
    LowerConcat(b, entityName);
    LowerConcat(a + "", "Action");
    LowerConcat(b + "", "Action");
    assert a + "" == a && b + "" == b;
    var na := MethodNameFor(methods, entityName, a + ENTITY_NAME_PLACEHOLDER + "Action");
    var nb := MethodNameFor(methods, entityName, b + ENTITY_NAME_PLACEHOLDER + "Action");
    assert Lower(na) == Lower(nb);
    var da := DeclaredMethod(methods, na);
    var db := DeclaredMethod(methods, nb);
    assert Declares(methods, na) <==> Declares(methods, nb);
    if da.Some? {
      assert Lower(da.value) == Lower(db.value);
    }
  }

  /** With one action disabled, a spelling of it in another case (say
      `?action=DELETE` with `delete` disabled) passes `isActionAllowed`, which
      compares strictly, and still reaches the method the disabled name calls. */
  lemma DisabledActionByCase(methods: MethodTable, entity: Value, disabled: string, variant: string)
    requires Values(At(entity, "disabled_actions")) == [Str(disabled)]
    requires '<' !in disabled && '<' !in variant && Lower(variant) == Lower(disabled) && variant != disabled
    ensures !IsActionAllowed(entity, Str(disabled)) && IsActionAllowed(entity, Str(variant))
    ensures var name := StringOf(At(entity, "name"));
      var reached := ResolveMethod(methods, name, variant + ENTITY_NAME_PLACEHOLDER + "Action");
      var blocked := ResolveMethod(methods, name, disabled + ENTITY_NAME_PLACEHOLDER + "Action");
      (reached.Ok? <==> blocked.Ok?) && (reached.Ok? ==> reached == blocked)
  {
    assert Str(variant) != Str(disabled);
    CaseVariantActions(methods, StringOf(At(entity, "name")), variant, disabled);
  }

  predicate IsDeprecatedHook(methodName: string) {
    StartsWith(methodName, "prePersist") || StartsWith(methodName, "preUpdate") || StartsWith(methodName, "preRemove")
  }

  /** The replacement suggested in the deprecation notice, when one is
      raised: only for the pre-hooks called with a second argument that is
      set and not `true`. */
  function Deprecation(methodName: string, arguments: seq<Value>): Option<string> {
    if IsDeprecatedHook(methodName) && |arguments| > 1 && arguments[1] != Null && arguments[1] != Bool(true)
    then Some(Lower(Suffix(methodName, 3)))
    else None
  }

  /** The hooks the controller calls itself pass `true` and raise no notice;
      the suggestion lowercases the whole remaining name. */
  lemma DeprecationFacts(methodName: string, entity: Value, flag: Value)
    ensures Deprecation(methodName, [entity, Bool(true)]) == None
    ensures Deprecation(methodName, [entity]) == None
    ensures !IsDeprecatedHook(methodName) ==> Deprecation(methodName, [entity, flag]) == None
    ensures Deprecation("prePersistEntity", [entity, Bool(false)]) == Some("persistentity")
  {
    assert "prePersistEntity"[..|"prePersist"|] == "prePersist";
    assert Suffix("prePersistEntity", 3) == "PersistEntity";
    assert forall i | 0 <= i < 13 :: Lower("PersistEntity")[i] == "persistentity"[i];
    assert Lower("PersistEntity") == "persistentity";
    assert IsDeprecatedHook("prePersistEntity");
  }

  // ---------------------------------------------------------------------------
  // findAll / findBy

  /** An empty sort direction, or one that is neither ASC nor DESC in any
      case, becomes "DESC" (`findAll` and `findBy` alike). */
  function NormalizeSortDirection(direction: Value): Value {
    if Falsy(direction) || !InLoose(Str(Upper(StringOf(direction))), [Str("ASC"), Str("DESC")]) then Str("DESC") else direction
  }

  /** The loose `in_array` against the two words is word identity. */
  lemma SortWord(u: string)
    ensures InLoose(Str(u), [Str("ASC"), Str("DESC")]) <==> u == "ASC" || u == "DESC"
  {
    LooseEqWord(Str(u), "ASC");
    LooseEqWord(Str(u), "DESC");
    if u == "ASC" { assert LooseEq(Str(u), [Str("ASC"), Str("DESC")][0]); }
    if u == "DESC" { assert LooseEq(Str(u), [Str("ASC"), Str("DESC")][1]); }
  }

  /** The result is always a valid direction, a valid one is kept as given
      (in its own case), and normalising twice changes nothing. */
  lemma NormalizeSortDirectionFacts(direction: Value)
    ensures var r := NormalizeSortDirection(direction);
      && (Upper(StringOf(r)) == "ASC" || Upper(StringOf(r)) == "DESC")
      && (r == direction <==> !Falsy(direction) && (Upper(StringOf(direction)) == "ASC" || Upper(StringOf(direction)) == "DESC"))
      && (r != direction ==> r == Str("DESC"))
      && NormalizeSortDirection(r) == r
  {
    SortWord(Upper(StringOf(direction)));
    assert Upper("DESC") == "DESC";
    SortWord("DESC");
    if direction == Str("DESC") {
      assert !Falsy(direction);
    }
  }

  // ---------------------------------------------------------------------------
  // Redirects

  /** Where a redirect goes: a URL, or a route with its parameters. */
  datatype Target = Url(url: string) | Route(name: string, params: Value)

  /** `redirectToBackendHomepage`: the homepage's `url`, else its route. */
  function HomepageTarget(config: Value): Target {
    var homepage := At(config, "homepage");
    if IsSet(homepage, "url") then Url(StringOf(At(homepage, "url")))
    else Route(StringOf(At(homepage, "route")), At(homepage, "params"))
  }

  function BackendRoute(action: string, entity: Value, query: Value): Target {
    Route(BACKEND_ROUTE, Arr([Entry("action", Str(action)), Entry("entity", At(entity, "name")),
      Entry("menuIndex", QueryGet(query, "menuIndex", Null)), Entry("submenuIndex", QueryGet(query, "submenuIndex", Null))]))
  }

  /** `redirectToReferrer`. `urldecode` and the property accessor's
      `getValue` are kept abstract; `easyadmin` is the request attribute. */
  function RedirectToReferrer(config: Value, entity: Value, query: Value, easyadmin: Value,
                              urldecode: string -> string, getValue: (Value, Value) -> Value): Target {
    var refererUrl := QueryGet(query, "referer", Str(""));
    var refererAction := QueryGet(query, "action", Null);
    if IsActionAllowed(entity, Str("list")) then
      if !Falsy(refererUrl) then Url(urldecode(StringOf(refererUrl))) else BackendRoute("list", entity, query)
    else if InLoose(refererAction, [Str("new"), Str("edit")]) && IsActionAllowed(entity, Str("edit")) then
      var id := if Str("new") == refererAction
        then getValue(At(easyadmin, "item"), At(entity, "primary_key_field_name"))
        else QueryGet(query, "id", Null);
      var route := BackendRoute("edit", entity, query);
      Route(route.name, Set(route.params, "id", id))
    else if Str("new") == refererAction && IsActionAllowed(entity, Str("new")) then BackendRoute("new", entity, query)
    else HomepageTarget(config)
  }

  /** 1. When the list is allowed: the referrer URL if one was given, else
      the list of the entity. */
  lemma RedirectToList(config: Value, entity: Value, query: Value, easyadmin: Value,
                       urldecode: string -> string, getValue: (Value, Value) -> Value)
    requires IsActionAllowed(entity, Str("list"))
    ensures var refererUrl := QueryGet(query, "referer", Str(""));
      RedirectToReferrer(config, entity, query, easyadmin, urldecode, getValue)
      == if Falsy(refererUrl) then BackendRoute("list", entity, query) else Url(urldecode(StringOf(refererUrl)))
  {
  }

  /** 2. Otherwise, after a new or edit action and when editing is allowed,
      the edit page: of the item just created after new, of the `id`
      parameter after edit. */
  lemma RedirectToEdit(config: Value, entity: Value, query: Value, easyadmin: Value,
                       urldecode: string -> string, getValue: (Value, Value) -> Value)
    requires !IsActionAllowed(entity, Str("list")) && IsActionAllowed(entity, Str("edit"))
    requires QueryGet(query, "action", Null) in [Str("new"), Str("edit")]
    ensures var t := RedirectToReferrer(config, entity, query, easyadmin, urldecode, getValue);
      && t.Route? && t.name == BACKEND_ROUTE
      && At(t.params, "action") == Str("edit")
      && At(t.params, "entity") == At(entity, "name")
      && At(t.params, "id") == if QueryGet(query, "action", Null) == Str("new")
           then getValue(At(easyadmin, "item"), At(entity, "primary_key_field_name"))
           else QueryGet(query, "id", Null)
  {
    var refererAction := QueryGet(query, "action", Null);
    if refererAction == Str("new") {
      assert LooseEq(refererAction, [Str("new"), Str("edit")][0]);
    } else {
      assert LooseEq(refererAction, [Str("new"), Str("edit")][1]);
    }
    var route := BackendRoute("edit", entity, query);
    var id := if Str("new") == refererAction
      then getValue(At(easyadmin, "item"), At(entity, "primary_key_field_name"))
      else QueryGet(query, "id", Null);
    GetSet(route.params, "id", id, "id");
    GetSet(route.params, "id", id, "action");
    GetSet(route.params, "id", id, "entity");
    assert "id"[0] != "action"[0] && "id"[0] != "entity"[0] && "action"[0] != "entity"[0];
    assert route.params.entries[1] == Entry("entity", At(entity, "name"));
    assert Find(route.params.entries[1..], "entity") == Some(At(entity, "name"));
  }

  /** 3. Otherwise, after a new action and when creating is allowed, a new
      form again. */
  lemma RedirectToNew(config: Value, entity: Value, query: Value, easyadmin: Value,
                      urldecode: string -> string, getValue: (Value, Value) -> Value)
    requires !IsActionAllowed(entity, Str("list")) && !IsActionAllowed(entity, Str("edit"))
    requires QueryGet(query, "action", Null) == Str("new") && IsActionAllowed(entity, Str("new"))
    ensures RedirectToReferrer(config, entity, query, easyadmin, urldecode, getValue) == BackendRoute("new", entity, query)
  {
  }

  /** 4. With list, edit and new all disabled, the homepage. */
  lemma RedirectToHomepage(config: Value, entity: Value, query: Value, easyadmin: Value,
                           urldecode: string -> string, getValue: (Value, Value) -> Value)
    requires !IsActionAllowed(entity, Str("list")) && !IsActionAllowed(entity, Str("edit"))
    requires !IsActionAllowed(entity, Str("new"))
    ensures RedirectToReferrer(config, entity, query, easyadmin, urldecode, getValue) == HomepageTarget(config)
  {
  }

  /** The homepage is its URL when one is configured, else its route. */
  lemma HomepageFacts(config: Value)
    ensures HomepageTarget(config).Url? <==> IsSet(At(config, "homepage"), "url")
    ensures HomepageTarget(config).Route? ==> HomepageTarget(config).name == StringOf(Path(config, ["homepage", "route"]))
  {
    assert ["homepage", "route"][1..] == ["route"];
  }

  // ---------------------------------------------------------------------------
  // Form options and new entities

  /** `getEntityFormOptions`: the view's `form_options` with `entity` and
      `view` set. */
  function EntityFormOptions(entity: Value, view: string): Value {
    Set(Set(Path(entity, [view, "form_options"]), "entity", At(entity, "name")), "view", Str(view))
  }

  lemma EntityFormOptionsFacts(entity: Value, view: string, k: string)
    ensures var o := EntityFormOptions(entity, view);
      && Get(o, "entity") == Some(At(entity, "name"))
      && Get(o, "view") == Some(Str(view))
      && (k != "entity" && k != "view" ==> Get(o, k) == Get(Path(entity, [view, "form_options"]), k))
  {
    var base := Path(entity, [view, "form_options"]);
    GetSet(base, "entity", At(entity, "name"), k);
    GetSet(base, "entity", At(entity, "name"), "entity");
    GetSet(Set(base, "entity", At(entity, "name")), "view", Str(view), k);
    GetSet(Set(base, "entity", At(entity, "name")), "view", Str(view), "entity");
    GetSet(Set(base, "entity", At(entity, "name")), "view", Str(view), "view");
  }

  /** The class `createNewEntity` instantiates: the data transfer class when
      there is one, else the entity class. */
  function NewEntityClass(entity: Value): Value {
    Coalesce(At(entity, "dto_class"), At(entity, "class"))
  }

  lemma NewEntityClassFacts(entity: Value)
    ensures IsSet(entity, "dto_class") ==> NewEntityClass(entity) == At(entity, "dto_class")
    ensures !IsSet(entity, "dto_class") ==> NewEntityClass(entity) == At(entity, "class")
    ensures NewEntityClass(entity) == Null <==> !IsSet(entity, "dto_class") && !IsSet(entity, "class")
    ensures NewEntityClass(entity) == At(entity, "dto_class") || NewEntityClass(entity) == At(entity, "class")
  {
  }

  // ---------------------------------------------------------------------------
  // The controller

  /** The reads of `initialize`: the backend configuration, the checks on
      it, and the current entity's configuration. */
  method LoadEntity(manager: ConfigManager, query: Value) returns (r: Result<Initialized>)
    modifies manager, manager.cacheManager
    ensures manager.ReadEffect()
    ensures r == Initialization(old(manager.Resolved()), query)
  {
    var backendConfig := manager.GetBackendConfig(Null);
    if backendConfig.Err? {
      return Err(backendConfig.error);
    }
    var config := backendConfig.value;
    if |Entries(At(config, "entities"))| == 0 {
      return Err(NoEntitiesConfigured);
    }
    var entityName := QueryGet(query, "entity", Null);
    if entityName == Null {
      return Ok(Initialized(config, None, query));
    }
    if !HasKey(Entries(At(config, "entities")), KeyOf(entityName)) {
      return Err(UndefinedEntity(entityName));
    }
    var entityConfig := manager.GetEntityConfiguration(entityName);
    if entityConfig.Err? {
      return Err(entityConfig.error);
    }
    r := Ok(Initialized(config, Some(entityConfig.value), SortDefaults(entityConfig.value, query)));
  }

  /** The two `$request->query->set` calls of `initialize`. */
  method ApplySortDefaults(req: Request, entity: Value)
    modifies req
    ensures req.query == SortDefaults(entity, old(req.query)) && req.attributes == old(req.attributes)
  {
    var action := QueryGet(req.query, "action", Str("list"));
    if !QueryHas(req.query, "sortField") {
      req.SetQuery("sortField", Coalesce(Path(entity, [KeyOf(action), "sort", "field"]), At(entity, "primary_key_field_name")));
    }
    if !QueryHas(req.query, "sortDirection") {
      req.SetQuery("sortDirection", Coalesce(Path(entity, [KeyOf(action), "sort", "direction"]), Str("DESC")));
    }
  }

  datatype Event = PreInitialize | PostInitialize

  /** What `indexAction` ends in: a redirect to the homepage, or the action
      method it calls. */
  datatype IndexOutcome = ToHomepage(target: Target) | Run(methodName: string)

  class AdminController {
    const manager: ConfigManager
    /** The methods the controller class declares. */
    const methods: MethodTable
    /** Doctrine's `getManagerForClass`, kept abstract. */
    const managerForClass: Value -> Value
    var config: Value
    var entity: Value
    var em: Value
    var request: Request?
    /** The events dispatched, in order. */
    var events: seq<Event>
    /** The deprecation notices raised, as the suggested replacement names. */
    ghost var deprecations: seq<string>

    constructor(manager: ConfigManager, methods: MethodTable, managerForClass: Value -> Value)
      ensures this.manager == manager && this.methods == methods && this.managerForClass == managerForClass
      ensures config == Null && entity == Null && em == Null && request == null && events == [] && deprecations == []
    {
      this.manager := manager;
      this.methods := methods;
      this.managerForClass := managerForClass;
      config := Null;
      entity := Null;
      em := Null;
      request := null;
      events := [];
      deprecations := [];
    }

    /** What `initialize` leaves behind, against the state before it: the
        PRE_INITIALIZE event always; after an error nothing else; without an
        `entity` parameter the configuration only; otherwise also the
        entity, its sort defaults in the query, its entity manager, the
        request and the POST_INITIALIZE event. The configuration manager is
        left as a read leaves it. */
    twostate predicate InitializeEffect(req: Request)
      reads this, req, manager, manager.cacheManager
    {
      var init := Initialization(old(manager.Resolved()), old(req.query));
      && manager.ReadEffect()
      && req.attributes == old(req.attributes) && deprecations == old(deprecations)
      && (init.Err? ==>
            && config == old(config) && entity == old(entity) && em == old(em) && request == old(request)
            && req.query == old(req.query) && events == old(events) + [PreInitialize])
      && (init.Ok? && init.value.entity.None? ==>
            && config == init.value.config && entity == old(entity) && em == old(em) && request == old(request)
            && req.query == old(req.query) && events == old(events) + [PreInitialize])
      && (init.Ok? && init.value.entity.Some? ==>
            && config == init.value.config && entity == init.value.entity.value
            && req.query == init.value.query && request == req
            && em == (if IsSet(entity, "class") then managerForClass(At(entity, "class")) else old(em))
            && events == old(events) + [PreInitialize, PostInitialize])
    }

    method Initialize(req: Request) returns (r: Result<()>)
      modifies this, req, manager, manager.cacheManager
      ensures var init := Initialization(old(manager.Resolved()), old(req.query));
        r == (if init.Err? then Err(init.error) else Ok(()))
      ensures InitializeEffect(req)
    {
      ghost var init := Initialization(manager.Resolved(), req.query);
      events := events + [PreInitialize];
      var loaded := LoadEntity(manager, req.query);
      assert loaded == init;
      if loaded.Err? {
        return Err(loaded.error);
      }
      config := loaded.value.config;
      if loaded.value.entity.None? {
        return Ok(());
      }
      EnterEntity(loaded.value.entity.value, req);
      r := Ok(());
    }

    /** The end of `initialize` once the entity is known: its configuration,
        the sort defaults, its entity manager, the request and the event. */
    method EnterEntity(entityConfig: Value, req: Request)
      modifies this, req
      ensures config == old(config) && entity == entityConfig
      ensures req.query == SortDefaults(entityConfig, old(req.query)) && req.attributes == old(req.attributes) && request == req
      ensures em == (if IsSet(entityConfig, "class") then managerForClass(At(entityConfig, "class")) else old(em))
      ensures events == old(events) + [PostInitialize] && deprecations == old(deprecations)
    {
      entity := entityConfig;
      ApplySortDefaults(req, entity);
      if IsSet(entity, "class") {
        em := managerForClass(At(entity, "class"));
      }
      request := req;
      events := events + [PostInitialize];
    }

    /** `executeDynamicMethod`, answering the name of the method it calls. */
    method ExecuteDynamicMethod(pattern: string, arguments: seq<Value>) returns (r: Result<string>)
      modifies this
      ensures r == ResolveMethod(methods, StringOf(At(entity, "name")), pattern)
      ensures var chosen := MethodNameFor(methods, StringOf(At(entity, "name")), pattern);
        deprecations == old(deprecations) + match Deprecation(chosen, arguments) { case Some(s) => [s] case None => [] }
      ensures config == old(config) && entity == old(entity) && em == old(em) && request == old(request) && events == old(events)
    {
      var methodName := ReplaceAll(pattern, ENTITY_NAME_PLACEHOLDER, StringOf(At(entity, "name")));
      if DeclaredMethod(methods, methodName).None? {
        methodName := ReplaceAll(pattern, ENTITY_NAME_PLACEHOLDER, "");
      }
      var notice := Deprecation(methodName, arguments);
      if notice.Some? {
        deprecations := deprecations + [notice.value];
      }
      var declared := DeclaredMethod(methods, methodName);
      if declared.None? {
        return Err(BadMethodCall(methodName));
      }
      r := Ok(declared.value);
    }

    /** `indexAction`: without an `entity` parameter, the homepage; a
        disabled action fails before any method is looked up. */
    method IndexAction(req: Request) returns (r: Result<IndexOutcome>)
      modifies this, req, manager, manager.cacheManager
      ensures var init := Initialization(old(manager.Resolved()), old(req.query));
        && (init.Err? ==> r == Err(init.error))
        && (init.Ok? && init.value.entity.None? ==> r == Ok(ToHomepage(HomepageTarget(init.value.config))))
        && (init.Ok? && init.value.entity.Some? ==>
              var action := QueryGet(init.value.query, "action", Str("list"));
              var ent := init.value.entity.value;
              && (!IsActionAllowed(ent, action) ==> r == Err(ForbiddenAction(action, At(ent, "name"))))
              && (IsActionAllowed(ent, action) ==>
                    match ResolveMethod(methods, StringOf(At(ent, "name")), StringOf(action) + ENTITY_NAME_PLACEHOLDER + "Action") {
                      case Err(e) => r == Err(e)
                      case Ok(m) => r == Ok(Run(m)) }))
      ensures InitializeEffect(req)
    {
      ghost var init := Initialization(manager.Resolved(), req.query);
      ghost var query0 := req.query;
      var initialized := Initialize(req);
      if init.Ok? && init.value.entity.Some? {
        SortDefaultsFacts(init.value.entity.value, query0, "entity");
        SortDefaultsFacts(init.value.entity.value, query0, "action");
      }
      if initialized.Err? {
        return Err(initialized.error);
      }
      if QueryGet(req.query, "entity", Null) == Null {
        return Ok(ToHomepage(HomepageTarget(config)));
      }
      var action := QueryGet(req.query, "action", Str("list"));
      if !IsActionAllowed(entity, action) {
        return Err(ForbiddenAction(action, At(entity, "name")));
      }
      var methodName := ExecuteDynamicMethod(StringOf(action) + ENTITY_NAME_PLACEHOLDER + "Action", []);
      if methodName.Err? {
        return Err(methodName.error);
      }
      r := Ok(Run(methodName.value));
    }
  }
}
