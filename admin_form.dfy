/** `EasyAdminFormType`: the form of an entity's `new` and `edit` views. */
module AdminForm {
  import opened PhpArray
  import opened Errors
  import opened Configuration
  import opened FormLayout

  /** The entity configuration `buildForm` reads, given what reading the
      backend configuration yields. */
  function EntityConfigFrom(resolved: Result<Value>, entity: Value): Result<Value> {
    match resolved
    case Err(e) => Err(e)
    case Ok(config) => EntityConfigOf(config, entity)
  }

  /** `buildForm`: the fields of `$options['view']` of `$options['entity']`;
      an unknown entity fails before the builder is touched. */
  method BuildForm(builder: FormBuilder, manager: ConfigManager, ctx: Context, options: Value) returns (r: Result<()>)
    modifies builder, manager, manager.cacheManager
    ensures manager.ReadEffect()
    ensures var ec := EntityConfigFrom(old(manager.Resolved()), At(options, "entity"));
      && (ec.Err? ==> r == Err(ec.error) && unchanged(builder))
      && (ec.Ok? ==>
            var layout := LayoutOf(ctx, Entries(ViewFields(ec.value, At(options, "view"))));
            && r == Ok(())
            && builder.fields == old(builder.fields) + layout.fields
            && builder.attributes == old(builder.attributes)[TABS_ATTRIBUTE := layout.tabs][GROUPS_ATTRIBUTE := layout.groups]
            && builder.subscribers == old(builder.subscribers) + if |Entries(layout.tabs)| > 0 then [TAB_SUBSCRIBER] else [])
  {
    var entityConfig := manager.GetEntityConfig(At(options, "entity"));
    if entityConfig.Err? {
      return Err(entityConfig.error);
    }
    BuildFields(builder, ctx, Entries(ViewFields(entityConfig.value, At(options, "view"))));
    r := Ok(());
  }

  /** The `data_class` default: the entity's `class`, else its `dto_class`. */
  function DataClass(entityConfig: Value): Value {
    if IsSet(entityConfig, "class") then At(entityConfig, "class") else At(entityConfig, "dto_class")
  }

  /** `data_class` names the entity class when there is one, the data transfer
      class otherwise, and is null only when the entity has neither. */
  lemma DataClassFacts(entityConfig: Value)
    ensures IsSet(entityConfig, "class") ==> DataClass(entityConfig) == At(entityConfig, "class")
    ensures !IsSet(entityConfig, "class") ==> DataClass(entityConfig) == At(entityConfig, "dto_class")
    ensures DataClass(entityConfig) == Null <==> !IsSet(entityConfig, "class") && !IsSet(entityConfig, "dto_class")
  {
  }

  /** The `data_class` closure, which reads the entity configuration. */
  method ResolveDataClass(manager: ConfigManager, entity: Value) returns (r: Result<Value>)
    modifies manager, manager.cacheManager
    ensures manager.ReadEffect()
    ensures r == match EntityConfigFrom(old(manager.Resolved()), entity) {
      case Err(e) => Err(e)
      case Ok(entityConfig) => Ok(DataClass(entityConfig)) }
  {
    var entityConfig := manager.GetEntityConfig(entity);
    if entityConfig.Err? {
      return Err(entityConfig.error);
    }
    r := Ok(DataClass(entityConfig.value));
  }
}
