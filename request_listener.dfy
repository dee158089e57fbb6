/**
 * `RequestPostInitializeListener`: after the admin controller has
 * initialised, the request gets an `easyadmin` attribute holding the entity
 * configuration, the view and the selected item.
 */
module RequestInitialization {
  import opened PhpArray
  import opened Errors
  import opened Http

  /** The Doctrine registry: a class's manager, if any, as its repository's
      `find` (null when no row has the id). */
  datatype Doctrine = Doctrine(managerForClass: Value -> Option<Value -> Value>)

  /** The controller's `resolveSubject` for data transfer classes. */
  type SubjectResolver = (Value, Value) -> Value

  /** `findCurrentItem` */
  function FindCurrentItem(doctrine: Doctrine, entityConfig: Value, itemId: Value): Result<Value> {
    var className := At(entityConfig, "class");
    match doctrine.managerForClass(className)
    case None => Err(NoManagerForClass(className))
    case Some(find) =>
      var entity := find(itemId);
      if entity == Null
      then Err(EntityNotFound(At(entityConfig, "name"), At(entityConfig, "primary_key_field_name"), itemId))
      else Ok(entity)
  }

  /** `resolveItem`: a data transfer class goes to the controller, whatever the id. */
  function ResolveItem(doctrine: Doctrine, resolveSubject: SubjectResolver, entityConfig: Value, itemId: Value): Result<Value> {
    if IsSet(entityConfig, "dto_class") then Ok(resolveSubject(At(entityConfig, "dto_class"), itemId))
    else if Falsy(itemId) then Ok(Null)
    else FindCurrentItem(doctrine, entityConfig, itemId)
  }

  /** The `item` of the attribute: null for a falsy id ("0" included). */
  function Item(doctrine: Doctrine, resolveSubject: SubjectResolver, entityConfig: Value, id: Value): Result<Value> {
    if Falsy(id) then Ok(Null) else ResolveItem(doctrine, resolveSubject, entityConfig, id)
  }

  function EasyAdminAttribute(entityConfig: Value, view: Value, item: Value): Value {
    Arr([Entry("entity", entityConfig), Entry("view", view), Entry("item", item)])
  }

  /** A data transfer class never reaches Doctrine; otherwise a found row is
      the item, and a missing manager or row is an error naming it. */
  lemma ResolveItemFacts(doctrine: Doctrine, resolveSubject: SubjectResolver, entityConfig: Value, itemId: Value)
    ensures var r := ResolveItem(doctrine, resolveSubject, entityConfig, itemId);
      var className := At(entityConfig, "class");
      && (IsSet(entityConfig, "dto_class") ==> r == Ok(resolveSubject(At(entityConfig, "dto_class"), itemId)))
      && (!IsSet(entityConfig, "dto_class") && !Falsy(itemId) ==>
            && (doctrine.managerForClass(className).None? ==> r == Err(NoManagerForClass(className)))
            && (doctrine.managerForClass(className).Some? && doctrine.managerForClass(className).value(itemId) == Null ==>
                  r == Err(EntityNotFound(At(entityConfig, "name"), At(entityConfig, "primary_key_field_name"), itemId)))
            && (r.Ok? ==> r.value != Null && r.value == doctrine.managerForClass(className).value(itemId)))
  {
  }

  /** Whatever the entity, a falsy id gives a null item and no lookup. */
  lemma FalsyIdNoItem(doctrine: Doctrine, resolveSubject: SubjectResolver, entityConfig: Value)
    ensures Item(doctrine, resolveSubject, entityConfig, Null) == Ok(Null)
    ensures Item(doctrine, resolveSubject, entityConfig, Str("")) == Ok(Null)
    ensures Item(doctrine, resolveSubject, entityConfig, Str("0")) == Ok(Null)
    ensures Item(doctrine, resolveSubject, entityConfig, Int(0)) == Ok(Null)
  {
  }

  class RequestPostInitializeListener {
    const doctrine: Doctrine
    /** Whether a request stack was injected. */
    const hasRequestStack: bool
    var request: Request?

    constructor(doctrine: Doctrine, hasRequestStack: bool)
      ensures this.doctrine == doctrine && this.hasRequestStack == hasRequestStack && request == null
    {
      this.doctrine := doctrine;
      this.hasRequestStack := hasRequestStack;
      request := null;
    }

    /** `initializeRequest`. `currentRequest` is what the stack's
        `getCurrentRequest` returns; without a stack the request stored by an
        earlier call is used. */
    method InitializeRequest(currentRequest: Request?, entityConfig: Value, resolveSubject: SubjectResolver) returns (r: Result<()>)
      modifies this, currentRequest, request
      ensures request == if hasRequestStack then currentRequest else old(request)
      ensures old(request) != null && old(request) != request ==> unchanged(old(request))
      ensures currentRequest != null && currentRequest != request ==> unchanged(currentRequest)
      ensures request == null ==> r == Ok(())
      ensures request != null ==>
        var req := request;
        var item := Item(doctrine, resolveSubject, entityConfig, At(req.query, "id"));
        var view := QueryGet(req.query, "action", Str("list"));
        && req.query == old(req.query)
        && (item.Err? ==> r == Err(item.error) && req.attributes == old(req.attributes))
        && (item.Ok? ==> r == Ok(()) && req.attributes == old(req.attributes)["easyadmin" := EasyAdminAttribute(entityConfig, view, item.value)])
    {
      if hasRequestStack {
        request := currentRequest;
      }
      if request == null {
        return Ok(());
      }
      var id := At(request.query, "id");
      var action := QueryGet(request.query, "action", Str("list"));
      var item := Item(doctrine, resolveSubject, entityConfig, id);
      if item.Err? {
        return Err(item.error);
      }
      request.SetAttribute("easyadmin", EasyAdminAttribute(entityConfig, action, item.value));
      r := Ok(());
    }
  }
}
