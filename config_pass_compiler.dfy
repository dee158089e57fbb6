/**
 * `EasyAdminConfigPass`, the container compiler pass that registers every
 * service tagged `easyadmin.config_pass` on the configuration manager,
 * highest priority first.
 */
module ConfigPassCompiler {
  import opened PhpArray
  import opened Errors
  import opened PrioritySort
  import opened Container
  import Configuration
  import ConfigPasses

  const CONFIG_PASS_TAG: string := "easyadmin.config_pass"
  const CONFIG_MANAGER: string := "easyadmin.config.manager"

  /** Each service with the priority of its first tag. */
  function Discovered(tagged: seq<TaggedService>): (r: seq<Prioritized<Reference>>)
    ensures |r| == |tagged|
    ensures forall i :: 0 <= i < |tagged| ==>
      r[i] == Prioritized(Reference(tagged[i].id), if |tagged[i].attributes| > 0 then TagPriority(tagged[i].attributes[0]) else 0)
  {
    seq(|tagged|, i requires 0 <= i < |tagged| =>
      Prioritized(Reference(tagged[i].id), if |tagged[i].attributes| > 0 then TagPriority(tagged[i].attributes[0]) else 0))
  }

  function AddConfigPassCalls(services: seq<Reference>): (r: seq<MethodCall>)
    ensures |r| == |services| && forall i :: 0 <= i < |services| ==> r[i] == MethodCall("addConfigPass", [services[i]])
  {
    seq(|services|, i requires 0 <= i < |services| => MethodCall("addConfigPass", [services[i]]))
  }

  /** The index of a largest key. */
  method MaxIndex(keys: seq<int>) returns (m: nat)
    requires |keys| > 0
    ensures m < |keys| && forall i :: 0 <= i < |keys| ==> keys[i] <= keys[m]
  {
    m := 0;
    for i := 1 to |keys|
      invariant m < |keys| && forall j :: 0 <= j < i ==> keys[j] <= keys[m]
    {
      if keys[i] > keys[m] {
        m := i;
      }
    }
  }

  lemma RemoveLargest(rest: seq<int>, m: nat)
    requires Distinct(rest) && m < |rest|
    requires forall i :: 0 <= i < |rest| ==> rest[i] <= rest[m]
    ensures var next := rest[..m] + rest[m + 1..];
      && Distinct(next)
      && (forall k :: k in rest <==> k == rest[m] || k in next)
      && (forall k :: k in next ==> k < rest[m])
  {
    var next := rest[..m] + rest[m + 1..];
    assert rest == rest[..m] + [rest[m]] + rest[m + 1..];
    forall j | 0 <= j < |next| ensures next[j] < rest[m] {
      if j < m {
        assert next[j] == rest[j];
      } else {
        assert next[j] == rest[j + 1];
      }
    }
    forall i, j | 0 <= i < j < |next| ensures next[i] != next[j] {
      var i', j' := if i < m then i else i + 1, if j < m then j else j + 1;
      assert next[i] == rest[i'] && next[j] == rest[j'];
    }
  }

  /** `krsort` on the bucket keys, which are distinct. */
  method SortKeysDescending(priorities: seq<int>) returns (keys: seq<int>)
    requires Distinct(priorities)
    ensures StrictlyDecreasing(keys)
    ensures forall k :: k in keys <==> k in priorities
  {
    keys := [];
    var rest := priorities;
    while |rest| > 0
      invariant Distinct(rest)
      invariant forall k :: k in priorities <==> k in keys || k in rest
      invariant StrictlyDecreasing(keys)
      invariant forall i, k :: 0 <= i < |keys| && k in rest ==> keys[i] > k
      decreases |rest|
    {
      var m := MaxIndex(rest);
      RemoveLargest(rest, m);
      assert rest[m] in rest;
      forall i | 0 <= i < |keys| ensures keys[i] > rest[m] {
      }
      keys := keys + [rest[m]];
      rest := rest[..m] + rest[m + 1..];
    }
  }

  /** The bucket state after the first i services. */
  ghost predicate BucketsAfter<T>(xs: seq<Prioritized<T>>, i: nat, priorities: seq<int>, buckets: map<int, seq<T>>)
    requires i <= |xs|
  {
    && Distinct(priorities)
    && (|priorities| > 0 <==> i > 0)
    && (forall p :: p in buckets <==> p in priorities)
    && (forall j :: 0 <= j < i ==> xs[j].priority in priorities)
    && (forall p :: p in buckets ==> buckets[p] == Items(WithPriority(xs[..i], p)))
  }

  /** The buckets `$services[$priority][]`, keyed in order of first appearance. */
  method FillBuckets(tagged: seq<TaggedService>) returns (priorities: seq<int>, buckets: map<int, seq<Reference>>)
    ensures Distinct(priorities)
    ensures |priorities| > 0 <==> |tagged| > 0
    ensures forall p :: p in buckets <==> p in priorities
    ensures forall i :: 0 <= i < |tagged| ==> Discovered(tagged)[i].priority in priorities
    ensures forall p :: p in buckets ==> buckets[p] == Items(WithPriority(Discovered(tagged), p))
  {
    ghost var xs := Discovered(tagged);
    priorities, buckets := [], map[];
    for i := 0 to |tagged|
      invariant BucketsAfter(xs, i, priorities, buckets)
    {
      var priority := if |tagged[i].attributes| > 0 then TagPriority(tagged[i].attributes[0]) else 0;
      assert xs[i] == Prioritized(Reference(tagged[i].id), priority);
      BucketsStep(xs, i, priorities, buckets);
      var bucket := if priority in buckets then buckets[priority] else [];
      if priority !in buckets {
        priorities := priorities + [priority];
      }
      buckets := buckets[priority := bucket + [Reference(tagged[i].id)]];
    }
    assert xs[..|tagged|] == xs;
  }

  /** One service more: a new priority is appended to the keys, and the
      service to its bucket. */
  lemma BucketsStep<T>(xs: seq<Prioritized<T>>, i: nat, priorities: seq<int>, buckets: map<int, seq<T>>)
    requires i < |xs| && BucketsAfter(xs, i, priorities, buckets)
    ensures var q := xs[i].priority;
      BucketsAfter(xs, i + 1,
        if q in buckets then priorities else priorities + [q],
        buckets[q := (if q in buckets then buckets[q] else []) + [xs[i].item]])
  {
    var q := xs[i].priority;
    if q !in buckets {
      forall j | 0 <= j < i ensures xs[..i][j].priority != q {
        assert xs[j].priority in priorities;
      }
      WithPriorityAbsent(xs[..i], q);
    }
    BucketsGrow(xs, i, buckets);
  }

  /** Appending element i to the bucket of its priority keeps every bucket
      the items of its priority, in order. */
  lemma BucketsGrow<T>(xs: seq<Prioritized<T>>, i: nat, buckets: map<int, seq<T>>)
    requires i < |xs|
    requires forall p :: p in buckets ==> buckets[p] == Items(WithPriority(xs[..i], p))
    requires xs[i].priority !in buckets ==> WithPriority(xs[..i], xs[i].priority) == []
    ensures var q := xs[i].priority;
      var grown := buckets[q := (if q in buckets then buckets[q] else []) + [xs[i].item]];
      forall p :: p in grown ==> grown[p] == Items(WithPriority(xs[..i + 1], p))
  {
    var q := xs[i].priority;
    var grown := buckets[q := (if q in buckets then buckets[q] else []) + [xs[i].item]];
    assert xs[..i + 1] == xs[..i] + [xs[i]];
    forall p | p in grown ensures grown[p] == Items(WithPriority(xs[..i + 1], p)) {
      WithPriorityAppend(xs[..i], [xs[i]], p);
      WithPrioritySingle(xs[i], p);
      ItemsAppend(WithPriority(xs[..i], p), WithPriority([xs[i]], p));
    }
  }

  /** `array_merge(...$services)` over the buckets in key order. */
  method MergeBuckets<T>(ghost xs: seq<Prioritized<T>>, keys: seq<int>, buckets: map<int, seq<T>>) returns (services: seq<T>)
    requires forall k :: k in keys ==> k in buckets && buckets[k] == Items(WithPriority(xs, k))
    ensures services == Items(Blocks(xs, keys))
  {
    services := [];
    for k := 0 to |keys|
      invariant services == Items(Blocks(xs, keys[..k]))
    {
      assert keys[..k + 1] == keys[..k] + [keys[k]];
      BlocksAppend(xs, keys[..k], keys[k]);
      ItemsAppend(Blocks(xs, keys[..k]), WithPriority(xs, keys[k]));
      services := services + buckets[keys[k]];
    }
    assert keys[..|keys|] == keys;
  }

  /** Buckets per priority, filled in discovery order, then concatenated from
      the highest priority down: the stable descending order. An abstract
      tagged definition stops the discovery. */
  method FindAndSortTaggedServices(tagName: string, container: ContainerBuilder) returns (r: Result<seq<Reference>>)
    ensures match container.FindTaggedServiceIdsStrict(tagName) {
      case Err(e) => r == Err(e)
      case Ok(found) => r == Ok(Items(SortDescending(Discovered(found))))
    }
  {
    var strict := container.FindTaggedServiceIdsStrict(tagName);
    if strict.Err? {
      return Err(strict.error);
    }
    var tagged := strict.value;
    ghost var xs := Discovered(tagged);
    var priorities, buckets := FillBuckets(tagged);
    var services := [];
    if |priorities| > 0 {
      var keys := SortKeysDescending(priorities);
      services := MergeBuckets(xs, keys, buckets);
      BlocksSorted(xs, keys);
    } else {
      assert |xs| == 0;
    }
    r := Ok(services);
  }

  /** `addConfigPass` is queued on the manager's definition once per service,
      in sorted order; an abstract tagged service, then an unknown manager
      definition, stops the pass before anything is queued. */
  method Process(container: ContainerBuilder) returns (r: Result<()>)
    modifies container
    ensures container.order == old(container.order)
    ensures old(container.FindTaggedServiceIdsStrict(CONFIG_PASS_TAG)).Err? ==>
      r == Err(old(container.FindTaggedServiceIdsStrict(CONFIG_PASS_TAG)).error) && container.definitions == old(container.definitions)
    ensures old(container.FindTaggedServiceIdsStrict(CONFIG_PASS_TAG)).Ok? && CONFIG_MANAGER !in old(container.definitions) ==>
      r == Err(ServiceNotFound(CONFIG_MANAGER)) && container.definitions == old(container.definitions)
    ensures old(container.FindTaggedServiceIdsStrict(CONFIG_PASS_TAG)).Ok? && CONFIG_MANAGER in old(container.definitions) ==>
      var d := old(container.definitions)[CONFIG_MANAGER];
      var sorted := Items(SortDescending(Discovered(old(container.FindTaggedServiceIds(CONFIG_PASS_TAG)))));
      r == Ok(()) && container.definitions == old(container.definitions)[CONFIG_MANAGER := d.(calls := d.calls + AddConfigPassCalls(sorted))]
  {
    var found := FindAndSortTaggedServices(CONFIG_PASS_TAG, container);
    if found.Err? {
      return Err(found.error);
    }
    var configPasses := found.value;
    var definition := container.GetDefinition(CONFIG_MANAGER);
    if definition.Err? {
      return Err(definition.error);
    }
    QueueConfigPasses(container, configPasses);
    r := Ok(());
  }

  /** The loop of `process`: one `addConfigPass` call per service, in order. */
  method QueueConfigPasses(container: ContainerBuilder, configPasses: seq<Reference>)
    requires CONFIG_MANAGER in container.definitions
    modifies container
    ensures container.order == old(container.order)
    ensures var d := old(container.definitions)[CONFIG_MANAGER];
      container.definitions == old(container.definitions)[CONFIG_MANAGER := d.(calls := d.calls + AddConfigPassCalls(configPasses))]
  {
    ghost var d := container.definitions[CONFIG_MANAGER];
    assert AddConfigPassCalls(configPasses[..0]) == [] && d.calls + [] == d.calls;
    assert container.definitions == container.definitions[CONFIG_MANAGER := d];
    for i := 0 to |configPasses|
      invariant container.order == old(container.order)
      invariant container.definitions == old(container.definitions)[CONFIG_MANAGER := d.(calls := d.calls + AddConfigPassCalls(configPasses[..i]))]
    {
      var call := MethodCall("addConfigPass", [configPasses[i]]);
      assert AddConfigPassCalls(configPasses[..i + 1]) == AddConfigPassCalls(configPasses[..i]) + [call];
      assert d.calls + AddConfigPassCalls(configPasses[..i]) + [call] == d.calls + AddConfigPassCalls(configPasses[..i + 1]);
      container.AddMethodCall(CONFIG_MANAGER, call);
    }
    assert configPasses[..|configPasses|] == configPasses;
  }

  // ---------------------------------------------------------------------------

  /** The registered order: non-increasing priority, ties in discovery order,
      and the same services as were found. */
  lemma SortedServices(tagged: seq<TaggedService>)
    ensures var sorted := SortDescending(Discovered(tagged));
      && NonIncreasing(sorted)
      && (forall p :: WithPriority(sorted, p) == WithPriority(Discovered(tagged), p))
      && multiset(Items(sorted)) == multiset(Items(Discovered(tagged)))
      && (|tagged| == 0 ==> Items(sorted) == [])
  {
    SortDescendingStable(Discovered(tagged));
    SortDescendingItems(Discovered(tagged));
  }

  lemma {:induction false} DistinctCount<T>(s: seq<T>, k: nat)
    requires Distinct(s) && k < |s|
    ensures multiset(s)[s[k]] == 1
    decreases |s|
  {
    if k == 0 {
      assert s[0] !in s[1..] by {
        forall i | 0 <= i < |s[1..]| ensures s[1..][i] != s[0] {
          assert s[1..][i] == s[i + 1];
        }
      }
    } else {
      assert Distinct(s[1..]) by {
        forall i, j | 0 <= i < j < |s[1..]| ensures s[1..][i] != s[1..][j] {
          assert s[1..][i] == s[i + 1] && s[1..][j] == s[j + 1];
        }
      }
      DistinctCount(s[1..], k - 1);
      assert s[1..][k - 1] == s[k];
    }
    assert s == [s[0]] + s[1..];
  }

  /** Every service found is registered exactly once when each definition is
      registered once in the container. */
  lemma EachServiceOnce(order: seq<string>, definitions: map<string, Definition>, k: nat)
    requires Distinct(order)
    requires k < |TaggedIn(order, definitions, CONFIG_PASS_TAG)|
    ensures multiset(Items(SortDescending(Discovered(TaggedIn(order, definitions, CONFIG_PASS_TAG)))))[Reference(TaggedIn(order, definitions, CONFIG_PASS_TAG)[k].id)] == 1
  {
    var tagged := TaggedIn(order, definitions, CONFIG_PASS_TAG);
    var refs := Items(Discovered(tagged));
    SortedServices(tagged);
    TaggedDistinct(order, definitions, CONFIG_PASS_TAG);
    assert Distinct(refs) by {
      forall i, j | 0 <= i < j < |refs| ensures refs[i] != refs[j] {
        assert Ids(tagged)[i] != Ids(tagged)[j];
      }
    }
    DistinctCount(refs, k);
  }

  /** The container replays the queued calls after building the manager, so
      the passes end up in the manager in the queued order. */
  function PassesOf(calls: seq<MethodCall>, resolve: Reference -> ConfigPasses.ConfigPass): seq<ConfigPasses.ConfigPass>
    decreases |calls|
  {
    if |calls| == 0 then []
    else (if calls[0].methodName == "addConfigPass" && |calls[0].arguments| > 0 then [resolve(calls[0].arguments[0])] else [])
         + PassesOf(calls[1..], resolve)
  }

  method ReplayCalls(manager: Configuration.ConfigManager, calls: seq<MethodCall>, resolve: Reference -> ConfigPasses.ConfigPass)
    modifies manager
    ensures manager.configPasses == old(manager.configPasses) + PassesOf(calls, resolve)
    ensures manager.backendConfig == old(manager.backendConfig)
  {
    for i := 0 to |calls|
      invariant manager.configPasses + PassesOf(calls[i..], resolve) == old(manager.configPasses) + PassesOf(calls, resolve)
      invariant manager.backendConfig == old(manager.backendConfig)
    {
      assert calls[i..][1..] == calls[i + 1..];
      if calls[i].methodName == "addConfigPass" && |calls[i].arguments| > 0 {
        manager.AddConfigPass(resolve(calls[i].arguments[0]));
      }
    }
  }

  /** Replaying the calls this pass queues registers the passes in sorted order. */
  lemma {:induction false} ReplayedOrder(services: seq<Reference>, resolve: Reference -> ConfigPasses.ConfigPass)
    ensures |PassesOf(AddConfigPassCalls(services), resolve)| == |services|
    ensures forall i :: 0 <= i < |services| ==> PassesOf(AddConfigPassCalls(services), resolve)[i] == resolve(services[i])
    decreases |services|
  {
    if |services| > 0 {
      ReplayedOrder(services[1..], resolve);
      assert AddConfigPassCalls(services)[1..] == AddConfigPassCalls(services[1..]);
      var r := PassesOf(AddConfigPassCalls(services), resolve);
      forall i | 0 <= i < |services| ensures r[i] == resolve(services[i]) {
        if i > 0 {
          assert r[i] == PassesOf(AddConfigPassCalls(services[1..]), resolve)[i - 1];
          assert services[1..][i - 1] == services[i];
        }
      }
    }
  }
}
