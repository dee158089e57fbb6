/**
 * The `buildForm` loop shared by the two EasyAdmin form types. One pass over
 * the fields of the view keeps the current tab and the current group: group
 * and tab design elements are recorded, not added; the other fields get
 * their options completed by the type configurators and are added to the
 * form builder, each tagged with the tab and group current at that point.
 */
module FormLayout {
  import opened PhpString
  import opened PhpArray
  import opened TypeConfigurators

  const GROUP_TYPE: string := "EasyCorp\\Bundle\\EasyAdminBundle\\Form\\Type\\EasyAdminGroupType"
  const TAB_TYPE: string := "EasyCorp\\Bundle\\EasyAdminBundle\\Form\\Type\\EasyAdminTabType"
  const DESIGN_ELEMENT_PREFIX: string := "_easyadmin_form_design_element_"
  const TAB_SUBSCRIBER: string := "EasyAdminTabSubscriber"
  const TABS_ATTRIBUTE: string := "easyadmin_form_tabs"
  const GROUPS_ATTRIBUTE: string := "easyadmin_form_groups"

  /** A named field builder with its `easyadmin_form_tab` and
      `easyadmin_form_group` attributes. */
  datatype FormField = FormField(name: string, formType: Value, options: Value, tab: Value, group: Value)

  /** The form builder as far as `buildForm` touches it. */
  class FormBuilder {
    var fields: seq<FormField>
    var attributes: map<string, Value>
    var subscribers: seq<string>

    constructor()
      ensures fields == [] && attributes == map[] && subscribers == []
    {
      fields := [];
      attributes := map[];
      subscribers := [];
    }

    method Add(field: FormField)
      modifies this
      ensures fields == old(fields) + [field]
      ensures attributes == old(attributes) && subscribers == old(subscribers)
    {
      fields := fields + [field];
    }

    method SetAttribute(name: string, value: Value)
      modifies this
      ensures attributes == old(attributes)[name := value]
      ensures fields == old(fields) && subscribers == old(subscribers)
    {
      attributes := attributes[name := value];
    }

    method AddEventSubscriber(subscriber: string)
      modifies this
      ensures subscribers == old(subscribers) + [subscriber]
      ensures fields == old(fields) && attributes == old(attributes)
    {
      subscribers := subscribers + [subscriber];
    }
  }

  /** The registered configurators, in order, and `LegacyFormHelper::getType`. */
  datatype Context = Context(configurators: seq<Configurator>, getType: TypeResolver)

  // ---------------------------------------------------------------------------
  // Options of one field.

  /** The options after every configurator that supports the field has
      rewritten them, in list order. */
  function Configured(cs: seq<Configurator>, name: string, options: Value, metadata: Value): Value
    decreases |cs|
  {
    if |cs| == 0 then options
    else
      var next := if Supports(cs[0], At(metadata, "fieldType"), options, metadata)
        then Configure(cs[0], name, options, metadata) else options;
      Configured(cs[1..], name, next, metadata)
  }

  method ConfigureOptions(cs: seq<Configurator>, name: string, options: Value, metadata: Value) returns (r: Value)
    ensures r == Configured(cs, name, options, metadata)
  {
    r := options;
    for i := 0 to |cs|
      invariant Configured(cs[i..], name, r, metadata) == Configured(cs, name, options, metadata)
    {
      assert cs[i..][1..] == cs[i + 1..];
      if Supports(cs[i], At(metadata, "fieldType"), r, metadata) {
        r := Configure(cs[i], name, r, metadata);
      }
    }
  }

  /** Running two lists of configurators is running their concatenation. */
  lemma {:induction false} ConfiguredAppend(a: seq<Configurator>, b: seq<Configurator>, name: string, options: Value, metadata: Value)
    ensures Configured(a + b, name, options, metadata) == Configured(b, name, Configured(a, name, options, metadata), metadata)
    decreases |a|
  {
    if |a| > 0 {
      assert (a + b)[1..] == a[1..] + b;
      var next := if Supports(a[0], At(metadata, "fieldType"), options, metadata)
        then Configure(a[0], name, options, metadata) else options;
      ConfiguredAppend(a[1..], b, name, next, metadata);
    } else {
      assert a + b == b;
    }
  }

  /** Configurators that do not support the field leave its options alone. */
  lemma {:induction false} ConfiguredUnsupported(cs: seq<Configurator>, name: string, options: Value, metadata: Value)
    requires forall i :: 0 <= i < |cs| ==> !Supports(cs[i], At(metadata, "fieldType"), options, metadata)
    ensures Configured(cs, name, options, metadata) == options
    decreases |cs|
  {
    if |cs| > 0 {
      ConfiguredUnsupported(cs[1..], name, options, metadata);
    }
  }

  // ---------------------------------------------------------------------------
  // One element of the view.

  datatype Kind = GroupElement | TabElement | FieldElement

  /** Groups are checked first; both checks are PHP's loose `in_array`. */
  function KindOf(ctx: Context, e: Entry): Kind {
    var t := ctx.getType(At(e.val, "fieldType"));
    if InLoose(t, [Str("easyadmin_group"), Str(GROUP_TYPE)]) then GroupElement
    else if InLoose(t, [Str("easyadmin_tab"), Str(TAB_TYPE)]) then TabElement
    else FieldElement
  }

  predicate IsDesignElement(metadata: Value) {
    StartsWith(StringOf(At(metadata, "property")), DESIGN_ELEMENT_PREFIX)
  }

  /** The options a field is added with. */
  function FieldOptions(ctx: Context, e: Entry): Value {
    var options := Configured(ctx.configurators, e.key, At(e.val, "type_options"), e.val);
    if IsDesignElement(e.val) then Set(Set(options, "mapped", Bool(false)), "required", Bool(false)) else options
  }

  /** The state the loop carries. */
  datatype Layout = Layout(fields: seq<FormField>, tabs: Value, groups: Value, currentTab: Value, currentGroup: Value)

  const Start: Layout := Layout([], EmptyArray, EmptyArray, Null, Null)

  function GroupRecord(metadata: Value, currentTab: Value): Value {
    Set(metadata, "form_tab", if Falsy(currentTab) then Null else currentTab)
  }

  function TabRecord(metadata: Value, first: bool): Value {
    Set(Set(metadata, "active", Bool(first)), "errors", Int(0))
  }

  function Step(ctx: Context, st: Layout, e: Entry): Layout {
    var name := At(e.val, "fieldName");
    match KindOf(ctx, e)
    case GroupElement =>
      st.(groups := Set(st.groups, KeyOf(name), GroupRecord(e.val, st.currentTab)), currentGroup := name)
    case TabElement =>
      st.(tabs := Set(st.tabs, KeyOf(name), TabRecord(e.val, |Entries(st.tabs)| == 0)), currentTab := name)
    case FieldElement =>
      var t := ctx.getType(At(e.val, "fieldType"));
      st.(fields := st.fields + [FormField(e.key, t, FieldOptions(ctx, e), st.currentTab, st.currentGroup)])
  }

  /** The state after the loop has visited every element of `es`. */
  function LayoutOf(ctx: Context, es: seq<Entry>): Layout
    decreases |es|
  {
    if |es| == 0 then Start else Step(ctx, LayoutOf(ctx, es[..|es| - 1]), es[|es| - 1])
  }

  lemma Snoc(ctx: Context, es: seq<Entry>, e: Entry)
    ensures LayoutOf(ctx, es + [e]) == Step(ctx, LayoutOf(ctx, es), e)
  {
    assert (es + [e])[..|es|] == es;
  }

  /** `$entityConfig[$view]['fields']`, or an empty array when that is not set. */
  function ViewFields(entityConfig: Value, view: Value): Value {
    var fields := At(At(entityConfig, KeyOf(view)), "fields");
    if fields != Null then fields else EmptyArray
  }

  /** The loop of `buildForm` and what follows it. */
  method BuildFields(builder: FormBuilder, ctx: Context, es: seq<Entry>)
    modifies builder
    ensures builder.fields == old(builder.fields) + LayoutOf(ctx, es).fields
    ensures builder.attributes == old(builder.attributes)[TABS_ATTRIBUTE := LayoutOf(ctx, es).tabs][GROUPS_ATTRIBUTE := LayoutOf(ctx, es).groups]
    ensures builder.subscribers == old(builder.subscribers) + if |Entries(LayoutOf(ctx, es).tabs)| > 0 then [TAB_SUBSCRIBER] else []
  {
    var formTabs := EmptyArray;
    var currentFormTab := Null;
    var formGroups := EmptyArray;
    var currentFormGroup := Null;
    ghost var added := [];
    for i := 0 to |es|
      invariant LayoutOf(ctx, es[..i]) == Layout(added, formTabs, formGroups, currentFormTab, currentFormGroup)
      invariant builder.fields == old(builder.fields) + added
      invariant builder.attributes == old(builder.attributes) && builder.subscribers == old(builder.subscribers)
    {
      assert es[..i + 1][..i] == es[..i];
      var name := es[i].key;
      var metadata := es[i].val;
      var formFieldOptions := ConfigureOptions(ctx.configurators, name, At(metadata, "type_options"), metadata);
      var formFieldType := ctx.getType(At(metadata, "fieldType"));
      if InLoose(formFieldType, [Str("easyadmin_group"), Str(GROUP_TYPE)]) {
        metadata := Set(metadata, "form_tab", if Falsy(currentFormTab) then Null else currentFormTab);
        currentFormGroup := At(metadata, "fieldName");
        formGroups := Set(formGroups, KeyOf(currentFormGroup), metadata);
        GetSet(es[i].val, "form_tab", if Falsy(LayoutOf(ctx, es[..i]).currentTab) then Null else LayoutOf(ctx, es[..i]).currentTab, "fieldName");
        continue;
      }
      if InLoose(formFieldType, [Str("easyadmin_tab"), Str(TAB_TYPE)]) {
        metadata := Set(metadata, "active", Bool(|Entries(formTabs)| == 0));
        metadata := Set(metadata, "errors", Int(0));
        currentFormTab := At(metadata, "fieldName");
        formTabs := Set(formTabs, KeyOf(currentFormTab), metadata);
        GetSet(es[i].val, "active", Bool(|Entries(LayoutOf(ctx, es[..i]).tabs)| == 0), "fieldName");
        GetSet(Set(es[i].val, "active", Bool(|Entries(LayoutOf(ctx, es[..i]).tabs)| == 0)), "errors", Int(0), "fieldName");
        continue;
      }
      if IsDesignElement(metadata) {
        formFieldOptions := Set(formFieldOptions, "mapped", Bool(false));
        formFieldOptions := Set(formFieldOptions, "required", Bool(false));
      }
      var formField := FormField(name, formFieldType, formFieldOptions, currentFormTab, currentFormGroup);
      builder.Add(formField);
      added := added + [formField];
    }
    assert es[..|es|] == es;
    builder.SetAttribute(TABS_ATTRIBUTE, formTabs);
    builder.SetAttribute(GROUPS_ATTRIBUTE, formGroups);
    if |Entries(formTabs)| > 0 {
      builder.AddEventSubscriber(TAB_SUBSCRIBER);
    }
  }

  // ---------------------------------------------------------------------------
  // What the loop establishes.

  /** The elements of `es` that are added to the form, in order. */
  function AddedEntries(ctx: Context, es: seq<Entry>): seq<Entry>
    decreases |es|
  {
    if |es| == 0 then []
    else AddedEntries(ctx, es[..|es| - 1]) + if KindOf(ctx, es[|es| - 1]) == FieldElement then [es[|es| - 1]] else []
  }

  /** The `fieldName` of the last element of the given kind, or null. */
  function LastMarker(ctx: Context, es: seq<Entry>, kind: Kind): Value
    decreases |es|
  {
    if |es| == 0 then Null
    else if KindOf(ctx, es[|es| - 1]) == kind then At(es[|es| - 1].val, "fieldName")
    else LastMarker(ctx, es[..|es| - 1], kind)
  }

  /** Without an element of the kind, no marker. */
  lemma {:induction false} LastMarkerNone(ctx: Context, es: seq<Entry>, kind: Kind)
    requires forall i :: 0 <= i < |es| ==> KindOf(ctx, es[i]) != kind
    ensures LastMarker(ctx, es, kind) == Null
    decreases |es|
  {
    if |es| > 0 {
      var init := es[..|es| - 1];
      assert forall i :: 0 <= i < |init| ==> init[i] == es[i];
      LastMarkerNone(ctx, init, kind);
    }
  }

  /** The marker is the `fieldName` of the last element of the kind. */
  lemma {:induction false} LastMarkerAt(ctx: Context, es: seq<Entry>, kind: Kind, j: nat)
    requires j < |es| && KindOf(ctx, es[j]) == kind
    requires forall i :: j < i < |es| ==> KindOf(ctx, es[i]) != kind
    ensures LastMarker(ctx, es, kind) == At(es[j].val, "fieldName")
    decreases |es|
  {
    if j < |es| - 1 {
      var init := es[..|es| - 1];
      assert forall i :: 0 <= i < |init| ==> init[i] == es[i];
      LastMarkerAt(ctx, init, kind, j);
    }
  }

  /** The current tab and group are the last tab and group element seen. */
  lemma {:induction false} CurrentMarkers(ctx: Context, es: seq<Entry>)
    ensures LayoutOf(ctx, es).currentTab == LastMarker(ctx, es, TabElement)
    ensures LayoutOf(ctx, es).currentGroup == LastMarker(ctx, es, GroupElement)
    decreases |es|
  {
    if |es| > 0 {
      CurrentMarkers(ctx, es[..|es| - 1]);
    }
  }

  /** Exactly the elements that are neither a group nor a tab are added, in
      the order of the view. */
  lemma {:induction false} AddedInOrder(ctx: Context, es: seq<Entry>)
    ensures |LayoutOf(ctx, es).fields| == |AddedEntries(ctx, es)|
    ensures forall k :: 0 <= k < |AddedEntries(ctx, es)| ==>
      && LayoutOf(ctx, es).fields[k].name == AddedEntries(ctx, es)[k].key
      && LayoutOf(ctx, es).fields[k].formType == ctx.getType(At(AddedEntries(ctx, es)[k].val, "fieldType"))
      && LayoutOf(ctx, es).fields[k].options == FieldOptions(ctx, AddedEntries(ctx, es)[k])
    decreases |es|
  {
    if |es| > 0 {
      AddedInOrder(ctx, es[..|es| - 1]);
    }
  }

  /** An element appended to the view that is neither a group nor a tab is
      added last, tagged with the tab and group elements that precede it; a
      group or a tab adds no field. */
  lemma AddedField(ctx: Context, es: seq<Entry>, e: Entry)
    ensures KindOf(ctx, e) == FieldElement ==>
      LayoutOf(ctx, es + [e]).fields == LayoutOf(ctx, es).fields
        + [FormField(e.key, ctx.getType(At(e.val, "fieldType")), FieldOptions(ctx, e), LastMarker(ctx, es, TabElement), LastMarker(ctx, es, GroupElement))]
    ensures KindOf(ctx, e) != FieldElement ==> LayoutOf(ctx, es + [e]).fields == LayoutOf(ctx, es).fields
  {
    assert (es + [e])[..|es|] == es;
    CurrentMarkers(ctx, es);
  }

  /** Design elements are unmapped and not required; other fields keep the
      options the configurators produced. */
  lemma FieldOptionsFacts(ctx: Context, e: Entry)
    ensures var options := Configured(ctx.configurators, e.key, At(e.val, "type_options"), e.val);
      && (IsDesignElement(e.val) ==>
            && At(FieldOptions(ctx, e), "mapped") == Bool(false)
            && At(FieldOptions(ctx, e), "required") == Bool(false)
            && (forall k :: k != "mapped" && k != "required" ==> Get(FieldOptions(ctx, e), k) == Get(options, k)))
      && (!IsDesignElement(e.val) ==> FieldOptions(ctx, e) == options)
  {
    var options := Configured(ctx.configurators, e.key, At(e.val, "type_options"), e.val);
    GetSet(Set(options, "mapped", Bool(false)), "required", Bool(false), "required");
    GetSet(Set(options, "mapped", Bool(false)), "required", Bool(false), "mapped");
    GetSet(options, "mapped", Bool(false), "mapped");
    forall k | k != "mapped" && k != "required"
      ensures Get(Set(Set(options, "mapped", Bool(false)), "required", Bool(false)), k) == Get(options, k)
    {
      GetSet(Set(options, "mapped", Bool(false)), "required", Bool(false), k);
      GetSet(options, "mapped", Bool(false), k);
    }
  }

  /** A group element is stored under its name with the current tab (null
      when that is falsy) as `form_tab`, and becomes the current group. */
  lemma GroupStored(ctx: Context, es: seq<Entry>, e: Entry)
    requires KindOf(ctx, e) == GroupElement
    ensures var tab := LastMarker(ctx, es, TabElement);
      && Get(LayoutOf(ctx, es + [e]).groups, KeyOf(At(e.val, "fieldName"))) == Some(Set(e.val, "form_tab", if Falsy(tab) then Null else tab))
      && LayoutOf(ctx, es + [e]).currentGroup == At(e.val, "fieldName")
      && LayoutOf(ctx, es + [e]).tabs == LayoutOf(ctx, es).tabs
  {
    assert (es + [e])[..|es|] == es;
    CurrentMarkers(ctx, es);
    GetSet(LayoutOf(ctx, es).groups, KeyOf(At(e.val, "fieldName")), GroupRecord(e.val, LayoutOf(ctx, es).currentTab), KeyOf(At(e.val, "fieldName")));
  }

  /** The shape tabs always have: unique names, no error yet, and no tab but
      the first one active. */
  predicate TabsShape(tabs: Value) {
    && tabs.Arr?
    && UniqueKeys(tabs.entries)
    && (forall i :: 0 <= i < |tabs.entries| ==> At(tabs.entries[i].val, "errors") == Int(0))
    && (forall i :: 0 < i < |tabs.entries| ==> At(tabs.entries[i].val, "active") == Bool(false))
  }

  lemma TabRecordFacts(metadata: Value, first: bool)
    ensures At(TabRecord(metadata, first), "errors") == Int(0)
    ensures At(TabRecord(metadata, first), "active") == Bool(first)
  {
    GetSet(Set(metadata, "active", Bool(first)), "errors", Int(0), "errors");
    GetSet(Set(metadata, "active", Bool(first)), "errors", Int(0), "active");
    GetSet(metadata, "active", Bool(first), "active");
  }

  lemma {:induction false} TabsKeepShape(ctx: Context, es: seq<Entry>)
    ensures TabsShape(LayoutOf(ctx, es).tabs)
    decreases |es|
  {
    if |es| > 0 {
      var init := es[..|es| - 1];
      var e := es[|es| - 1];
      TabsKeepShape(ctx, init);
      if KindOf(ctx, e) == TabElement {
        var tabs := LayoutOf(ctx, init).tabs.entries;
        var key := KeyOf(At(e.val, "fieldName"));
        var record := TabRecord(e.val, |tabs| == 0);
        PutAt(tabs, key, record);
        PutUnique(tabs, key, record);
        TabRecordFacts(e.val, |tabs| == 0);
      }
    }
  }

  /** At most one tab is active, and only the first; every tab starts without errors. */
  lemma OnlyFirstTabActive(ctx: Context, es: seq<Entry>)
    ensures var tabs := Entries(LayoutOf(ctx, es).tabs);
      && (forall i :: 0 <= i < |tabs| && At(tabs[i].val, "active") == Bool(true) ==> i == 0)
      && (forall i :: 0 <= i < |tabs| ==> At(tabs[i].val, "errors") == Int(0))
  {
    TabsKeepShape(ctx, es);
  }

  /** A tab element is stored under its name, active exactly when no tab came
      before it, and becomes the current tab. */
  lemma TabStored(ctx: Context, es: seq<Entry>, e: Entry)
    requires KindOf(ctx, e) == TabElement
    ensures var tab := At(LayoutOf(ctx, es + [e]).tabs, KeyOf(At(e.val, "fieldName")));
      && At(tab, "active") == Bool(!HasTab(ctx, es))
      && At(tab, "errors") == Int(0)
      && LayoutOf(ctx, es + [e]).currentTab == At(e.val, "fieldName")
      && LayoutOf(ctx, es + [e]).groups == LayoutOf(ctx, es).groups
  {
    var st := LayoutOf(ctx, es);
    var key := KeyOf(At(e.val, "fieldName"));
    var first := |Entries(st.tabs)| == 0;
    var record := TabRecord(e.val, first);
    Snoc(ctx, es, e);
    TabsSeen(ctx, es);
    GetSet(st.tabs, key, record, key);
    TabRecordFacts(e.val, first);
  }

  /** Some element of `es` is a tab. */
  predicate HasTab(ctx: Context, es: seq<Entry>)
    decreases |es|
  {
    |es| > 0 && (KindOf(ctx, es[|es| - 1]) == TabElement || HasTab(ctx, es[..|es| - 1]))
  }

  lemma {:induction false} HasTabAt(ctx: Context, es: seq<Entry>)
    ensures HasTab(ctx, es) <==> exists i :: 0 <= i < |es| && KindOf(ctx, es[i]) == TabElement
    decreases |es|
  {
    if |es| > 0 {
      var init := es[..|es| - 1];
      HasTabAt(ctx, init);
      if HasTab(ctx, init) {
        var i :| 0 <= i < |init| && KindOf(ctx, init[i]) == TabElement;
        assert es[i] == init[i];
      }
      if exists i :: 0 <= i < |es| && KindOf(ctx, es[i]) == TabElement {
        var i :| 0 <= i < |es| && KindOf(ctx, es[i]) == TabElement;
        if i < |init| { assert init[i] == es[i]; }
      }
    }
  }

  /** Some tab is recorded exactly when the view has a tab element; the tab
      subscriber is attached in that case only. */
  lemma {:induction false} TabsSeen(ctx: Context, es: seq<Entry>)
    ensures |Entries(LayoutOf(ctx, es).tabs)| > 0 <==> HasTab(ctx, es)
    decreases |es|
  {
    if |es| > 0 {
      var init := es[..|es| - 1];
      var e := es[|es| - 1];
      TabsSeen(ctx, init);
      if KindOf(ctx, e) == TabElement {
        TabsKeepShape(ctx, init);
        PutLength(LayoutOf(ctx, init).tabs.entries, KeyOf(At(e.val, "fieldName")), TabRecord(e.val, |Entries(LayoutOf(ctx, init).tabs)| == 0));
      }
    }
  }

  /** A view without fields adds nothing and records nothing. */
  lemma EmptyView(ctx: Context, entityConfig: Value, view: Value)
    requires !IsSet(At(entityConfig, KeyOf(view)), "fields")
    ensures LayoutOf(ctx, Entries(ViewFields(entityConfig, view))) == Start
  {
  }

  // ---------------------------------------------------------------------------
  // The `attr` normalizer.

  /** "<view>-<entity in lower case>-form" */
  function DefaultFormId(view: Value, entity: Value): string {
    StringOf(view) + "-" + Lower(StringOf(entity)) + "-form"
  }

  function AttributesNormalizer(view: Value, entity: Value, attr: Value): Value {
    ArrayReplace(Arr([Entry("id", Str(DefaultFormId(view, entity)))]), attr)
  }

  /** The normalized attributes keep every attribute given, `id` included, and
      add the default `id` only when none is given. */
  lemma NormalizerFacts(view: Value, entity: Value, attr: Value, k: string)
    requires UniqueKeys(Entries(attr))
    ensures var r := AttributesNormalizer(view, entity, attr);
      && Get(r, "id") == (if HasKey(Entries(attr), "id") then Get(attr, "id") else Some(Str(DefaultFormId(view, entity))))
      && (k != "id" ==> Get(r, k) == Get(attr, k))
  {
    var base := Arr([Entry("id", Str(DefaultFormId(view, entity)))]);
    GetSetAll(base, Entries(attr), "id");
    GetSetAll(base, Entries(attr), k);
    HasKeyAt(Entries(attr), "id");
    HasKeyAt(Entries(attr), k);
    if HasKey(Entries(attr), "id") {
      var i :| 0 <= i < |Entries(attr)| && Entries(attr)[i].key == "id";
      LastValueUnique(Entries(attr), i);
      FindAt(Entries(attr), i);
    }
    if HasKey(Entries(attr), k) {
      var i :| 0 <= i < |Entries(attr)| && Entries(attr)[i].key == k;
      LastValueUnique(Entries(attr), i);
      FindAt(Entries(attr), i);
    }
  }
}
