/**
 * `ConfigManager`: the processed backend configuration, computed once per
 * manager, short-circuited by a cache, and the read accessors built on it.
 */
module Configuration {
  import opened PhpString
  import opened PhpArray
  import opened Errors
  import opened ConfigPasses

  /** `PropertyAccessor::getValue($array, $path)`, kept abstract. */
  type Accessor = (Value, string) -> Value

  /** The cache in front of the processing (`ConfigCacheManager`). What a
      later `getConfig` returns after a `save` is that class's business, so
      `Save` only records the tree it was given. */
  class ConfigCache {
    var stored: Option<Value>
    var saved: seq<Value>

    constructor(stored: Option<Value>)
      ensures this.stored == stored && saved == []
    {
      this.stored := stored;
      saved := [];
    }

    method GetConfig() returns (r: Option<Value>)
      ensures r == stored
    {
      r := stored;
    }

    method Save(config: Value)
      modifies this
      ensures stored == old(stored) && saved == old(saved) + [config]
    {
      saved := saved + [config];
    }
  }

  /** `'design.menu'` becomes `'[design][menu]'`. */
  function BracketPath(path: string): string {
    "[" + ReplaceAll(path, ".", "][") + "]"
  }

  /** A path that PHP's `empty()` rejects (null, "", "0") reads the whole tree. */
  function Lookup(accessor: Accessor, config: Value, path: Value): Value {
    if Falsy(path) then config else accessor(config, BracketPath(StringOf(path)))
  }

  /** `$backendConfig['entities'][$entityName]`, when it is set. */
  function EntityConfigOf(config: Value, entityName: Value): Result<Value> {
    if IsSet(At(config, "entities"), KeyOf(entityName)) then Ok(At(At(config, "entities"), KeyOf(entityName)))
    else Err(UndefinedEntity(entityName))
  }

  predicate MatchesClass(entityConfig: Value, fqcn: Value) {
    || (IsSet(entityConfig, "class") && At(entityConfig, "class") == fqcn)
    || (IsSet(entityConfig, "dto_class") && At(entityConfig, "dto_class") == fqcn)
  }

  /** The first entity configuration that names the class, or null. */
  function FirstByClass(entities: seq<Entry>, fqcn: Value): Value
    decreases |entities|
  {
    if |entities| == 0 then Null
    else if MatchesClass(entities[0].val, fqcn) then entities[0].val
    else FirstByClass(entities[1..], fqcn)
  }

  function ActionConfigOf(entityConfig: Value, view: Value, action: Value): Value {
    var actions := At(At(entityConfig, KeyOf(view)), "actions");
    if IsSet(actions, KeyOf(action)) then At(actions, KeyOf(action)) else EmptyArray
  }

  /** `getActionConfig`, whose `catch (Exception)` turns every failure into `[]`. */
  function ActionConfigIn(config: Result<Value>, entityName: Value, view: Value, action: Value): Value {
    ActionConfigOf(EntityConfigOrEmpty(config, entityName), view, action)
  }

  /** The entity's configuration, or `[]` when reading it throws. */
  function EntityConfigOrEmpty(config: Result<Value>, entityName: Value): Value {
    match config
    case Err(_) => EmptyArray
    case Ok(c) =>
      match EntityConfigOf(c, entityName)
      case Err(_) => EmptyArray
      case Ok(e) => e
  }

  /** Not listed in `disabled_actions` (loose `in_array`) and a key of the view's actions. */
  predicate ActionEnabled(entityConfig: Value, view: Value, action: Value) {
    && !InLoose(action, Values(At(entityConfig, "disabled_actions")))
    && HasKey(Entries(At(At(entityConfig, KeyOf(view)), "actions")), KeyOf(action))
  }

  class ConfigManager {
    var backendConfig: Option<Value>
    var configPasses: seq<ConfigPass>
    const propertyAccessor: Accessor
    const cacheManager: ConfigCache
    const originalBackendConfig: Value

    constructor(propertyAccessor: Accessor, cacheManager: ConfigCache, originalBackendConfig: Value)
      ensures this.propertyAccessor == propertyAccessor && this.cacheManager == cacheManager
      ensures this.originalBackendConfig == originalBackendConfig
      ensures backendConfig == None && configPasses == []
    {
      this.propertyAccessor := propertyAccessor;
      this.cacheManager := cacheManager;
      this.originalBackendConfig := originalBackendConfig;
      backendConfig := None;
      configPasses := [];
    }

    /** What reading the configuration yields in the current state: the
        memoised tree, else the cached one, else the passes folded over the
        original configuration. */
    function Resolved(): Result<Value>
      reads this, cacheManager
    {
      if backendConfig.Some? then Ok(backendConfig.value)
      else if cacheManager.stored.Some? then Ok(cacheManager.stored.value)
      else ApplyAll(configPasses, originalBackendConfig)
    }

    /** What a read through `getBackendConfig` leaves behind: the passes and
        the cached tree as they were, the tree memoised once it could be
        read, exactly one save when it was processed rather than memoised
        or cached, and nothing that a later read would see differently. */
    twostate predicate ReadEffect()
      reads this, cacheManager
    {
      && configPasses == old(configPasses) && cacheManager.stored == old(cacheManager.stored)
      && backendConfig == (if old(Resolved()).Ok? then Some(old(Resolved()).value) else old(backendConfig))
      && cacheManager.saved ==
           (if old(backendConfig).None? && old(cacheManager.stored).None? && old(Resolved()).Ok?
            then old(cacheManager.saved) + [old(Resolved()).value] else old(cacheManager.saved))
      && Resolved() == old(Resolved())
    }

    /** Once the configuration has been read, a new pass changes nothing. */
    method AddConfigPass(configPass: ConfigPass)
      modifies this
      ensures configPasses == old(configPasses) + [configPass]
      ensures backendConfig == old(backendConfig)
      ensures old(backendConfig).Some? ==> Resolved() == old(Resolved())
    {
      configPasses := configPasses + [configPass];
    }

    method DoProcessConfig(config: Value) returns (r: Result<Value>)
      ensures r == ApplyAll(configPasses, config)
    {
      var current := config;
      var i := 0;
      while i < |configPasses|
        invariant 0 <= i <= |configPasses|
        invariant ApplyAll(configPasses[i..], current) == ApplyAll(configPasses, config)
      {
        var next := Run(configPasses[i], current);
        if next.Err? {
          return Err(next.error);
        }
        assert configPasses[i..][1..] == configPasses[i + 1..];
        current := next.value;
        i := i + 1;
      }
      r := Ok(current);
    }

    /** A cache hit is returned as it is and nothing is saved; on a miss the
        processed tree is saved and returned. */
    method ProcessConfig() returns (r: Result<Value>)
      modifies cacheManager
      ensures cacheManager.stored == old(cacheManager.stored)
      ensures r == if cacheManager.stored.Some? then Ok(cacheManager.stored.value) else ApplyAll(configPasses, originalBackendConfig)
      ensures cacheManager.saved == if cacheManager.stored.None? && r.Ok? then old(cacheManager.saved) + [r.value] else old(cacheManager.saved)
    {
      var cached := cacheManager.GetConfig();
      if cached.Some? {
        return Ok(cached.value);
      }
      r := DoProcessConfig(originalBackendConfig);
      if r.Ok? {
        cacheManager.Save(r.value);
      }
    }

    /** Processes at most once: the tree read is always `Resolved()`, which no
        read changes. */
    method GetBackendConfig(propertyPath: Value) returns (r: Result<Value>)
      modifies this, cacheManager
      ensures ReadEffect()
      ensures r == match old(Resolved()) {
        case Err(e) => Err(e)
        case Ok(c) => Ok(Lookup(propertyAccessor, c, propertyPath)) }
    {
      if backendConfig.None? {
        var processed := ProcessConfig();
        if processed.Err? {
          return Err(processed.error);
        }
        backendConfig := Some(processed.value);
      }
      r := Ok(Lookup(propertyAccessor, backendConfig.value, propertyPath));
    }

    method GetEntityConfig(entityName: Value) returns (r: Result<Value>)
      modifies this, cacheManager
      ensures ReadEffect()
      ensures r == match old(Resolved()) {
        case Err(e) => Err(e)
        case Ok(c) => EntityConfigOf(c, entityName) }
    {
      var config := GetBackendConfig(Null);
      if config.Err? {
        return Err(config.error);
      }
      r := EntityConfigOf(config.value, entityName);
    }

    /** The deprecated alias of `GetEntityConfig`. */
    method GetEntityConfiguration(entityName: Value) returns (r: Result<Value>)
      modifies this, cacheManager
      ensures ReadEffect()
      ensures r == match old(Resolved()) {
        case Err(e) => Err(e)
        case Ok(c) => EntityConfigOf(c, entityName) }
    {
      r := GetEntityConfig(entityName);
    }

    /** The first entity, in configuration order, whose `class` or `dto_class`
        is the given class; `Null` when there is none. */
    method GetEntityConfigByClass(fqcn: Value) returns (r: Result<Value>)
      modifies this, cacheManager
      ensures ReadEffect()
      ensures r == match old(Resolved()) {
        case Err(e) => Err(e)
        case Ok(c) => Ok(FirstByClass(Entries(At(c, "entities")), fqcn)) }
    {
      var config := GetBackendConfig(Null);
      if config.Err? {
        return Err(config.error);
      }
      var entities := Entries(At(config.value, "entities"));
      var i := 0;
      while i < |entities|
        invariant 0 <= i <= |entities|
        invariant FirstByClass(entities[i..], fqcn) == FirstByClass(entities, fqcn)
      {
        var entityConfig := entities[i].val;
        if IsSet(entityConfig, "class") && At(entityConfig, "class") == fqcn {
          return Ok(entityConfig);
        }
        if IsSet(entityConfig, "dto_class") && At(entityConfig, "dto_class") == fqcn {
          return Ok(entityConfig);
        }
        assert entities[i..][1..] == entities[i + 1..];
        i := i + 1;
      }
      r := Ok(Null);
    }

    /** Never fails: an unknown entity, a failing pass or a missing action all give `[]`. */
    method GetActionConfig(entityName: Value, view: Value, action: Value) returns (r: Value)
      modifies this, cacheManager
      ensures ReadEffect()
      ensures r == ActionConfigIn(old(Resolved()), entityName, view, action)
    {
      ghost var resolved := Resolved();
      var entity := GetEntityConfig(entityName);
      var entityConfig := if entity.Ok? then entity.value else EmptyArray;
      assert entityConfig == EntityConfigOrEmpty(resolved, entityName);
      r := ActionConfigOf(entityConfig, view, action);
    }

    method IsActionEnabled(entityName: Value, view: Value, action: Value) returns (r: Result<bool>)
      modifies this, cacheManager
      ensures ReadEffect()
      ensures r == match old(Resolved()) {
        case Err(e) => Err(e)
        case Ok(c) =>
          match EntityConfigOf(c, entityName) {
            case Err(e) => Err(e)
            case Ok(ec) => Ok(ActionEnabled(ec, view, action)) } }
    {
      var entity := GetEntityConfig(entityName);
      if entity.Err? {
        return Err(entity.error);
      }
      r := Ok(ActionEnabled(entity.value, view, action));
    }
  }

  // ---------------------------------------------------------------------------
  // Properties of the read accessors.

  /** A second read after a successful one returns the same tree, whatever
      passes were registered in between; no further save happens. */
  method ReadTwice(manager: ConfigManager, late: ConfigPass, path: Value) returns (first: Result<Value>, second: Result<Value>)
    modifies manager, manager.cacheManager
    ensures first.Ok? ==> second == first
    ensures first.Ok? ==> |manager.cacheManager.saved| <= |old(manager.cacheManager.saved)| + 1
  {
    first := manager.GetBackendConfig(path);
    manager.AddConfigPass(late);
    second := manager.GetBackendConfig(path);
  }

  /** A dotted path becomes one bracketed segment per dot-free part. */
  lemma BracketSegments(head: string, tail: seq<string>)
    requires '.' !in head && forall i :: 0 <= i < |tail| ==> '.' !in tail[i]
    ensures BracketPath(Dotted(head, tail)) == "[" + head + Brackets(tail) + "]"
  {
    ReplaceDots(head, tail);
  }

  /** A path PHP's `empty()` rejects reads the whole tree; a dotted path of
      plain segments reaches the accessor in bracket form. */
  lemma LookupFacts(accessor: Accessor, config: Value, head: string, tail: seq<string>)
    requires '.' !in head && forall i :: 0 <= i < |tail| ==> '.' !in tail[i]
    requires |tail| > 0 || (head != "" && head != "0")
    ensures Lookup(accessor, config, Null) == config
    ensures Lookup(accessor, config, Str("")) == config && Lookup(accessor, config, Str("0")) == config
    ensures Lookup(accessor, config, Str(Dotted(head, tail))) == accessor(config, "[" + head + Brackets(tail) + "]")
  {
    BracketSegments(head, tail);
    if |tail| > 0 {
      assert Dotted(head, tail)[|head|] == '.';
    }
  }

  lemma {:induction false} ReplaceDots(head: string, tail: seq<string>)
    requires '.' !in head && forall i :: 0 <= i < |tail| ==> '.' !in tail[i]
    ensures ReplaceAll(Dotted(head, tail), ".", "][") == head + Brackets(tail)
    decreases |tail|
  {
    NoDotUnchanged(head);
    if |tail| > 0 {
      ReplaceDots(tail[0], tail[1..]);
      var d := Dotted(tail[0], tail[1..]);
      assert Dotted(head, tail) == head + ("." + d);
      ReplaceCharConcat(head, "." + d, '.', "][");
      ReplaceCharConcat(".", d, '.', "][");
      assert ReplaceAll(".", ".", "][") == "][";
      assert Brackets(tail) == "][" + tail[0] + Brackets(tail[1..]);
    }
  }

  function Dotted(head: string, tail: seq<string>): string
    decreases |tail|
  {
    if |tail| == 0 then head else head + "." + Dotted(tail[0], tail[1..])
  }

  function Brackets(tail: seq<string>): string
    decreases |tail|
  {
    if |tail| == 0 then "" else "][" + tail[0] + Brackets(tail[1..])
  }

  lemma {:induction false} NoDotUnchanged(s: string)
    requires '.' !in s
    ensures ReplaceAll(s, ".", "][") == s
    decreases |s|
  {
    if |s| > 0 {
      assert s[0] != '.' && s[..1] == [s[0]];
      NoDotUnchanged(s[1..]);
    }
  }

  lemma BracketExample()
    ensures BracketPath("design.menu") == "[design][menu]"
  {
    var design, menu := "design", "menu";
    assert forall i :: 0 <= i < |design| ==> design[i] != '.';
    assert forall i :: 0 <= i < |menu| ==> menu[i] != '.';
    ReplaceDots(design, [menu]);
    assert Dotted(design, [menu]) == design + "." + menu == "design.menu";
    assert Brackets([menu]) == "][" + menu;
    assert "[" + design + "][" + menu + "]" == "[design][menu]";
  }

  /** `getEntityConfig` succeeds exactly for the names whose entry is set,
      and then returns that entry. */
  lemma EntityConfigFacts(config: Value, entityName: Value)
    ensures EntityConfigOf(config, entityName).Ok?
        <==> Get(At(config, "entities"), KeyOf(entityName)).Some? && Get(At(config, "entities"), KeyOf(entityName)).value != Null
    ensures EntityConfigOf(config, entityName).Ok? ==> EntityConfigOf(config, entityName).value == At(At(config, "entities"), KeyOf(entityName))
    ensures EntityConfigOf(config, entityName).Err? ==> EntityConfigOf(config, entityName).error == UndefinedEntity(entityName)
  {
  }

  /** The class lookup returns the first entry that names the class, or null
      when no entry does. */
  lemma {:induction false} FirstByClassNone(entities: seq<Entry>, fqcn: Value)
    ensures FirstByClass(entities, fqcn) == Null <==> forall i :: 0 <= i < |entities| ==> !MatchesClass(entities[i].val, fqcn)
    decreases |entities|
  {
    if |entities| > 0 {
      FirstByClassNone(entities[1..], fqcn);
      if FirstByClass(entities, fqcn) == Null {
        forall i | 0 <= i < |entities| ensures !MatchesClass(entities[i].val, fqcn) {
          if i > 0 { assert entities[i] == entities[1..][i - 1]; }
        }
      }
      if !MatchesClass(entities[0].val, fqcn) {
        assert forall i :: 0 <= i < |entities[1..]| ==> entities[1..][i] == entities[i + 1];
      }
    }
  }

  /** The first entity that names the class is the one returned. */
  lemma {:induction false} FirstByClassAt(entities: seq<Entry>, fqcn: Value, i: nat)
    requires i < |entities| && MatchesClass(entities[i].val, fqcn)
    requires forall j :: 0 <= j < i ==> !MatchesClass(entities[j].val, fqcn)
    ensures FirstByClass(entities, fqcn) == entities[i].val
    decreases i
  {
    if i > 0 {
      assert entities[1..][i - 1] == entities[i];
      assert forall j :: 0 <= j < i - 1 ==> entities[1..][j] == entities[j + 1];
      FirstByClassAt(entities[1..], fqcn, i - 1);
    }
  }

  /** The action configuration is the entry `view.actions.action` of a known
      entity when it is set, and `[]` in every other case, failures included. */
  lemma ActionConfigFacts(config: Result<Value>, entityName: Value, view: Value, action: Value)
    ensures var r := ActionConfigIn(config, entityName, view, action);
      if config.Ok? && EntityConfigOf(config.value, entityName).Ok?
         && IsSet(At(At(EntityConfigOf(config.value, entityName).value, KeyOf(view)), "actions"), KeyOf(action))
      then r == At(At(At(EntityConfigOf(config.value, entityName).value, KeyOf(view)), "actions"), KeyOf(action)) && r != Null
      else r == EmptyArray
  {
  }

  /** For an action named by a plain word, being disabled under the loose
      `in_array` means the list holds that word or `true`. */
  lemma ActionEnabledWord(entityConfig: Value, view: Value, action: string)
    requires action != "" && action != "0" && forall i :: 0 <= i < |action| ==> !('0' <= action[i] <= '9')
    ensures ActionEnabled(entityConfig, view, Str(action)) <==>
      && Str(action) !in Values(At(entityConfig, "disabled_actions"))
      && Bool(true) !in Values(At(entityConfig, "disabled_actions"))
      && HasKey(Entries(At(At(entityConfig, KeyOf(view)), "actions")), action)
  {
    var disabled := Values(At(entityConfig, "disabled_actions"));
    InLooseWord(action, disabled);
    assert KeyOf(Str(action)) == action;
    assert ActionEnabled(entityConfig, view, Str(action)) <==>
      !InLoose(Str(action), disabled) && HasKey(Entries(At(At(entityConfig, KeyOf(view)), "actions")), action);
  }
}
