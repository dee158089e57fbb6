/**
 * The two type configurators of the bundle, which complete the options of a
 * form field before it is added: the collection one and the checkbox one.
 * Other registered configurators are opaque functions.
 */
module TypeConfigurators {
  import opened PhpArray

  const COLLECTION_TYPE: string := "Symfony\\Component\\Form\\Extension\\Core\\Type\\CollectionType"
  const CHECKBOX_TYPE: string := "Symfony\\Component\\Form\\Extension\\Core\\Type\\CheckboxType"

  /** `LegacyFormHelper::getType`: a short type name to its class name. */
  type TypeResolver = Value -> Value

  datatype Configurator =
    | Collection(formErrorIteratorExists: bool, getType: TypeResolver)
    | Checkbox
    | Other(supports: (Value, Value, Value) -> bool, configure: (string, Value, Value) -> Value)

  /** `in_array($type, ['collection', CollectionType::class], true)` */
  predicate CollectionSupports(formType: Value) {
    formType == Str("collection") || formType == Str(COLLECTION_TYPE)
  }

  /** `in_array($type, ['checkbox', CheckboxType::class], true)` */
  predicate CheckboxSupports(formType: Value) {
    formType == Str("checkbox") || formType == Str(CHECKBOX_TYPE)
  }

  function DefaultTo(options: Value, key: string, x: Value): Value {
    if IsSet(options, key) then options else Set(options, key, x)
  }

  function CollectionConfigure(options: Value, formErrorIteratorExists: bool, getType: TypeResolver): Value {
    var o1 := DefaultTo(options, "allow_add", Bool(true));
    var o2 := DefaultTo(o1, "allow_delete", Bool(true));
    var o3 := if formErrorIteratorExists then DefaultTo(o2, "delete_empty", Bool(true)) else o2;
    if IsSet(o3, "entry_type") then Set(o3, "entry_type", getType(At(o3, "entry_type"))) else o3
  }

  function CheckboxConfigure(options: Value, metadata: Value): Value {
    Set(DefaultTo(options, "required", Bool(false)), "label", At(metadata, "label"))
  }

  function Supports(c: Configurator, formType: Value, options: Value, metadata: Value): bool {
    match c
    case Collection(_, _) => CollectionSupports(formType)
    case Checkbox => CheckboxSupports(formType)
    case Other(supports, _) => supports(formType, options, metadata)
  }

  function Configure(c: Configurator, name: string, options: Value, metadata: Value): Value {
    match c
    case Collection(formErrorIteratorExists, getType) => CollectionConfigure(options, formErrorIteratorExists, getType)
    case Checkbox => CheckboxConfigure(options, metadata)
    case Other(_, configure) => configure(name, options, metadata)
  }

  // ---------------------------------------------------------------------------

  lemma DefaultToFacts(options: Value, key: string, x: Value, k: string)
    ensures Get(DefaultTo(options, key, x), key) == if IsSet(options, key) then Get(options, key) else Some(x)
    ensures k != key ==> Get(DefaultTo(options, key, x), k) == Get(options, k)
  {
    GetSet(options, key, x, key);
    GetSet(options, key, x, k);
  }

  /** `allow_add` and `allow_delete` default to true, `delete_empty` too when
      the form library has it; a set `entry_type` is resolved to a class name;
      explicit values and every other option are kept. */
  lemma CollectionFacts(options: Value, formErrorIteratorExists: bool, getType: TypeResolver, k: string)
    ensures var r := CollectionConfigure(options, formErrorIteratorExists, getType);
      && At(r, "allow_add") == (if IsSet(options, "allow_add") then At(options, "allow_add") else Bool(true))
      && At(r, "allow_delete") == (if IsSet(options, "allow_delete") then At(options, "allow_delete") else Bool(true))
      && Get(r, "delete_empty") == (if formErrorIteratorExists && !IsSet(options, "delete_empty") then Some(Bool(true)) else Get(options, "delete_empty"))
      && Get(r, "entry_type") == (if IsSet(options, "entry_type") then Some(getType(At(options, "entry_type"))) else Get(options, "entry_type"))
      && (k != "allow_add" && k != "allow_delete" && k != "delete_empty" && k != "entry_type" ==> Get(r, k) == Get(options, k))
  {
    var o1 := DefaultTo(options, "allow_add", Bool(true));
    var o2 := DefaultTo(o1, "allow_delete", Bool(true));
    var o3 := if formErrorIteratorExists then DefaultTo(o2, "delete_empty", Bool(true)) else o2;
    DefaultToFacts(options, "allow_add", Bool(true), "allow_delete");
    DefaultToFacts(options, "allow_add", Bool(true), "delete_empty");
    DefaultToFacts(options, "allow_add", Bool(true), "entry_type");
    DefaultToFacts(options, "allow_add", Bool(true), k);
    DefaultToFacts(o1, "allow_delete", Bool(true), "allow_add");
    DefaultToFacts(o1, "allow_delete", Bool(true), "delete_empty");
    DefaultToFacts(o1, "allow_delete", Bool(true), "entry_type");
    DefaultToFacts(o1, "allow_delete", Bool(true), k);
    DefaultToFacts(o2, "delete_empty", Bool(true), "allow_add");
    DefaultToFacts(o2, "delete_empty", Bool(true), "allow_delete");
    DefaultToFacts(o2, "delete_empty", Bool(true), "entry_type");
    DefaultToFacts(o2, "delete_empty", Bool(true), k);
    var t := getType(At(o3, "entry_type"));
    GetSet(o3, "entry_type", t, "entry_type");
    GetSet(o3, "entry_type", t, "allow_add");
    GetSet(o3, "entry_type", t, "allow_delete");
    GetSet(o3, "entry_type", t, "delete_empty");
    GetSet(o3, "entry_type", t, k);
  }

  /** Configuring twice is configuring once when the type resolver is
      idempotent on the class names it produces. */
  lemma CollectionIdempotent(options: Value, formErrorIteratorExists: bool, getType: TypeResolver)
    requires forall t :: getType(getType(t)) == getType(t)
    ensures var once := CollectionConfigure(options, formErrorIteratorExists, getType);
      forall k :: Get(CollectionConfigure(once, formErrorIteratorExists, getType), k) == Get(once, k)
  {
    var once := CollectionConfigure(options, formErrorIteratorExists, getType);
    forall k ensures Get(CollectionConfigure(once, formErrorIteratorExists, getType), k) == Get(once, k) {
      CollectionFacts(options, formErrorIteratorExists, getType, k);
      CollectionFacts(once, formErrorIteratorExists, getType, k);
      CollectionFacts(options, formErrorIteratorExists, getType, "entry_type");
    }
  }

  /** `required` defaults to false, an explicit value is kept, `label` always
      becomes the field's label, and nothing else changes. */
  lemma CheckboxFacts(options: Value, metadata: Value, k: string)
    ensures var r := CheckboxConfigure(options, metadata);
      && At(r, "required") == (if IsSet(options, "required") then At(options, "required") else Bool(false))
      && Get(r, "label") == Some(At(metadata, "label"))
      && (k != "required" && k != "label" ==> Get(r, k) == Get(options, k))
  {
    var o := DefaultTo(options, "required", Bool(false));
    DefaultToFacts(options, "required", Bool(false), k);
    DefaultToFacts(options, "required", Bool(false), "label");
    GetSet(o, "label", At(metadata, "label"), "label");
    GetSet(o, "label", At(metadata, "label"), "required");
    GetSet(o, "label", At(metadata, "label"), k);
  }

  lemma CheckboxIdempotent(options: Value, metadata: Value)
    ensures CheckboxConfigure(CheckboxConfigure(options, metadata), metadata) == CheckboxConfigure(options, metadata)
  {
    var o := DefaultTo(options, "required", Bool(false));
    var labelValue := At(metadata, "label");
    var once := Set(o, "label", labelValue);
    DefaultToFacts(options, "required", Bool(false), "required");
    GetSet(o, "label", labelValue, "required");
    GetSet(o, "label", labelValue, "label");
    assert DefaultTo(once, "required", Bool(false)) == once;
    SetExisting(once, "label", labelValue);
  }

  /** Each configurator supports exactly its two type names (strictly compared). */
  lemma SupportedTypes(formType: Value)
    ensures CollectionSupports(formType) <==> formType in [Str("collection"), Str(COLLECTION_TYPE)]
    ensures CheckboxSupports(formType) <==> formType in [Str("checkbox"), Str(CHECKBOX_TYPE)]
    ensures !(CollectionSupports(formType) && CheckboxSupports(formType))
  {
    assert "collection"[0] != "checkbox"[1];
    assert "collection"[1] != "checkbox"[1];
    assert COLLECTION_TYPE[|COLLECTION_TYPE| - 5] == 'n' && CHECKBOX_TYPE[|CHECKBOX_TYPE| - 5] == 'x';
  }
}
