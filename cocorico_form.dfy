/**
 * `EasyAdminCocoricoFormType`: the same form as `EasyAdminFormType`, built
 * from an `entityConfig` option when one is given.
 */
module CocoricoForm {
  import opened PhpArray
  import opened Errors
  import opened Configuration
  import opened FormLayout
  import AdminForm

  /** The default of the `entityConfig` option. */
  const ENTITY_CONFIG_DEFAULT: Value := EmptyArray

  /** `$options['entityConfig'] ?? …`: the option when it is not null. */
  function EntityConfigOption(options: Value): Option<Value> {
    if IsSet(options, "entityConfig") then Some(At(options, "entityConfig")) else None
  }

  /** `buildForm`. The configuration manager is consulted only when the option
      is null. */
  method BuildForm(builder: FormBuilder, manager: ConfigManager, ctx: Context, options: Value) returns (r: Result<()>)
    modifies builder, manager, manager.cacheManager
    ensures EntityConfigOption(options).None? ==> manager.ReadEffect()
    ensures EntityConfigOption(options).Some? ==> unchanged(manager, manager.cacheManager)
    ensures var ec := match EntityConfigOption(options) {
        case Some(given) => Ok(given)
        case None => AdminForm.EntityConfigFrom(old(manager.Resolved()), At(options, "entity")) };
      && (ec.Err? ==> r == Err(ec.error) && unchanged(builder))
      && (ec.Ok? ==>
            var layout := LayoutOf(ctx, Entries(ViewFields(ec.value, At(options, "view"))));
            && r == Ok(())
            && builder.fields == old(builder.fields) + layout.fields
            && builder.attributes == old(builder.attributes)[TABS_ATTRIBUTE := layout.tabs][GROUPS_ATTRIBUTE := layout.groups]
            && builder.subscribers == old(builder.subscribers) + if |Entries(layout.tabs)| > 0 then [TAB_SUBSCRIBER] else [])
  {
    var entityConfig: Value;
    if IsSet(options, "entityConfig") {
      entityConfig := At(options, "entityConfig");
    } else {
      var fromManager := manager.GetEntityConfig(At(options, "entity"));
      if fromManager.Err? {
        return Err(fromManager.error);
      }
      entityConfig := fromManager.value;
    }
    BuildFields(builder, ctx, Entries(ViewFields(entityConfig, At(options, "view"))));
    r := Ok(());
  }

  /** With the option left at its default, which is not null, the form has
      no field, no tab and no group, whatever the entity's configuration. */
  lemma DefaultBuildsNothing(ctx: Context, options: Value)
    requires !HasKey(Entries(options), "entityConfig")
    ensures var resolved := Set(options, "entityConfig", ENTITY_CONFIG_DEFAULT);
      && EntityConfigOption(resolved) == Some(EmptyArray)
      && LayoutOf(ctx, Entries(ViewFields(EmptyArray, At(resolved, "view")))) == Start
  {
    GetSet(options, "entityConfig", ENTITY_CONFIG_DEFAULT, "entityConfig");
  }

  /** The `data_class` default: the entity's `class`, with no fallback. */
  function DataClass(entityConfig: Value): Value {
    At(entityConfig, "class")
  }

  /** The two form types agree on `data_class` except for an entity that has
      only a data transfer class, which this one maps to null. */
  lemma DataClassComparedToAdminForm(entityConfig: Value)
    ensures IsSet(entityConfig, "class") ==> DataClass(entityConfig) == AdminForm.DataClass(entityConfig)
    ensures !IsSet(entityConfig, "class") ==> DataClass(entityConfig) == Null
    ensures !IsSet(entityConfig, "class") && IsSet(entityConfig, "dto_class") ==> AdminForm.DataClass(entityConfig) != DataClass(entityConfig)
  {
  }

  method ResolveDataClass(manager: ConfigManager, entity: Value) returns (r: Result<Value>)
    modifies manager, manager.cacheManager
    ensures manager.ReadEffect()
    ensures r == match AdminForm.EntityConfigFrom(old(manager.Resolved()), entity) {
      case Err(e) => Err(e)
      case Ok(entityConfig) => Ok(DataClass(entityConfig)) }
  {
    var entityConfig := manager.GetEntityConfig(entity);
    if entityConfig.Err? {
      return Err(entityConfig.error);
    }
    r := Ok(DataClass(entityConfig.value));
  }
}
