# EasyAdminBundle core, modelled in Dafny

This project models the decision logic of EasyAdminBundle, a Symfony admin panel, and proves properties of it. The Symfony, Doctrine and Twig plumbing around that logic is left out. The modelled parts are:

- **Backend configuration pipeline.**
  - The compiler pass `EasyAdminConfigPass` orders the tagged configuration passes by priority and registers them on the configuration manager.
  - `ConfigManager` folds those passes over the raw configuration once, memoises the result and short-circuits through a cache.
  - Its read accessors are modelled too: dotted path, entity by name, entity by class, action configuration and the action-enabled check.
- **The two shipped configuration passes.** `MetadataConfigPass` completes each entity from Doctrine metadata. `DesignConfigPass` fills in the RTL flag and minifies the custom CSS.
- **Request dispatch in `AdminController`.** This covers:
  - the initialisation of the current entity, with its sort defaults;
  - the forbidden-action check in front of the dynamic method call;
  - how that call is resolved, and its deprecation notice;
  - sort direction normalisation;
  - the post-write redirect chain;
  - the form options, and the class of a new entity.
- **The form types.**
  - `EasyAdminFormType` and `EasyAdminCocoricoFormType`: the `buildForm` loop over a view's fields. The loop tracks the current tab and group and applies the type configurators.
  - Their `data_class` defaults and attribute normalisers.
  - The collection and checkbox configurators, and the type-guesser switch table.
  - The compiler pass that registers configurators and guessers.
- **Small decision procedures.**
  - Autocomplete guards and result mapping.
  - The exception listener's template fallback and log level.
  - The request listener's `easyadmin` attribute.
  - `renderForm`'s parameter rewrite and 422 rule, the `getUser` guards, and the default redirect status.

## How the model is organised

**PHP values.** A PHP array is an ordered list of key/value entries (`PhpArray.Value`).
- Assigning a key replaces its first occurrence in place, or appends it, as PHP does.
- `isset`, `empty`, the `(string)` cast, array-key coercion and loose `==` are written out for the value shapes the core meets.
- Strings are `seq<char>`.

**Errors.** Every exception the core throws is a constructor of `Errors.Exception`, carried by `Result`.

**Stateful objects become classes.** These are:
- `ConfigManager` and the cache in front of it;
- the container builder of the compiler passes and the `SplPriorityQueue` they fill;
- the form builder, the request and the response;
- the listeners and the admin controller.

Each method states its whole new state; every method that reads the configuration states the manager's through the two-state predicate `ConfigManager.ReadEffect`. Each is proved against a pure function, and the properties are then proved about that function as lemmas:
- `ConfigManager.Resolved` for the manager;
- `LayoutOf` for the form loop;
- `Registrations` for the configurator loop;
- `Initialization` for the controller.

**Abstract collaborators.** Collaborators whose code is not part of this model are parameters of function type or abstract datatypes:
- the Doctrine registry and class metadata;
- Twig's `render`;
- the property accessor;
- `LegacyFormHelper::getType`;
- the router and `urldecode`;
- the repository `find`;
- reflection.

**Configuration passes.** Traits are not used, so `ConfigPassInterface` is a datatype with one constructor per shipped pass.

## Where the model follows the code rather than its description

- The deprecation notice of `executeDynamicMethod` suggests `strtolower(substr($name, 3))`. The whole remaining name is lowercased: `prePersistEntity` suggests `persistentity`, not `persistEntity`. `Admin.DeprecationFacts` proves that example.
- `getBackendConfig` with a dotted path hands `[a][b]` to the property accessor. What a missing path gives is the accessor's business, so `Configuration.Lookup` keeps it abstract. No "not found" error is modelled.
- `getActionConfig` catches every `Exception`. A failing configuration pass therefore also ends in `[]`, not only an unknown entity.
- `MetadataConfigPass` reads `getSingleIdentifierFieldName()` before `processEntityPropertiesMetadata` checks for a composite key. The metadata's identifier is therefore an `Option`, where `None` means the provider throws. This keeps the order of the two failures.
- `executeDynamicMethod` finds methods with `is_callable` and `method_exists`, which ignore the case of a method name. `isActionAllowed` compares the action with `disabled_actions` strictly. So `?action=DELETE` runs `deleteAction` even when `delete` is disabled. `Admin.DisabledActionByCase` proves this for any case variant of a disabled action.
- In `MissingDoctrineOrmTypeGuesser`, `Types::JSON` is `"json"`. The later `'json'` case, which would give a textarea, can never match. `TypeGuesser.JsonCaseUnreachable` proves this.

## Model

| member | source | states |
|---|---|---|
| Configuration.ConfigManager.constructor | src/Configuration/ConfigManager.php:48-56 | a new manager keeps its collaborators and the raw configuration, has no passes and has not read anything yet |
| Configuration.ConfigCache.GetConfig | src/Configuration/ConfigManager.php:189 | the cache answers what it stores and changes nothing |
| Configuration.ConfigCache.Save | src/Configuration/ConfigManager.php:195 | saving records the tree and leaves the stored answer alone |
| Configuration.ConfigManager.AddConfigPass | src/Configuration/ConfigManager.php:58-61 | the pass is appended; once the configuration was read, the tree every later read returns is unchanged |
| Configuration.ConfigManager.DoProcessConfig | src/Configuration/ConfigManager.php:208-215 | the loop equals the registered passes folded in order over the input, stopping at the first exception |
| Configuration.ConfigManager.ProcessConfig | src/Configuration/ConfigManager.php:187-198 | a cache hit is returned as stored and nothing is saved; on a miss the folded tree is returned and exactly that tree is saved, once |
| Configuration.ConfigManager.GetBackendConfig | src/Configuration/ConfigManager.php:71-85 | `ReadEffect`: the passes and the cached tree stay as they were; the tree the passes give is memoised by the first successful read and saved then, only when the cache had none; every read sees that same tree; a failing pass is the read's failure; the path goes to the accessor as brackets, an empty one gives the whole tree |
| Configuration.ConfigManager.GetEntityConfig | src/Configuration/ConfigManager.php:112-120 | a failing read fails first; then the result is `entities[name]` when it is present and not null, else `UndefinedEntity`; the memo and the cache behave as in `GetBackendConfig` |
| Configuration.ConfigManager.GetEntityConfiguration | src/Configuration/ConfigManager.php:98-101 | the deprecated alias has the same result and effect as `GetEntityConfig` |
| Configuration.ConfigManager.GetEntityConfigByClass | src/Configuration/ConfigManager.php:129-142 | the early-return scan gives the first entity whose `class` or `dto_class` is the name, or null |
| Configuration.ConfigManager.GetActionConfig | src/Configuration/ConfigManager.php:153-162 | never fails; the result is `ActionConfigIn` of the configuration read |
| Configuration.ConfigManager.IsActionEnabled | src/Configuration/ConfigManager.php:174-179 | fails only as `getEntityConfig` does; else the action is not loosely in `disabled_actions` and is a key of the view's actions |
| Configuration.ReadTwice | src/Configuration/ConfigManager.php:58-75 | after a successful read, a pass added late does not change the next read, and at most one save happened in all |
| Configuration.LookupFacts | src/Configuration/ConfigManager.php:77-84 | null, "" and "0" read the whole tree; a dotted path of plain segments (any head when there are two or more) is handed to the accessor as `[a][b]…` |
| Configuration.BracketSegments | src/Configuration/ConfigManager.php:81-82 | a dotted path of dot-free segments becomes one bracketed segment per part |
| Configuration.ReplaceDots | src/Configuration/ConfigManager.php:82 | `str_replace('.', '][', …)` on a dotted path puts `][` between the segments |
| Configuration.NoDotUnchanged | src/Configuration/ConfigManager.php:82 | a segment without a dot is left as it is |
| Configuration.BracketExample | src/Configuration/ConfigManager.php:64-82 | `design.menu` becomes `[design][menu]` |
| Configuration.EntityConfigFacts | src/Configuration/ConfigManager.php:115-119 | the lookup succeeds exactly when the entry is present and not null, gives that entry, and otherwise fails with the entity's name |
| Configuration.FirstByClassNone | src/Configuration/ConfigManager.php:132-141 | the class lookup gives null exactly when no entity names the class |
| Configuration.FirstByClassAt | src/Configuration/ConfigManager.php:132-139 | the lookup gives the first entity that names the class |
| Configuration.ActionConfigFacts | src/Configuration/ConfigManager.php:155-161 | the action configuration is `view.actions.action` of a known entity when that is set, and `[]` otherwise, failures included |
| Configuration.ActionEnabledWord | src/Configuration/ConfigManager.php:178 | for an action named by a plain word, the loose `in_array` means the list holds that word or `true` |
| ConfigPasses.Run | src/Configuration/ConfigManager.php:211 | running a pass gives the pass's result |
| ConfigPasses.ApplyAllAppend | src/Configuration/ConfigManager.php:210-212 | folding a list of passes is folding its first part, then the rest over the result |
| ConfigPasses.ApplyAllSnoc | src/Configuration/ConfigManager.php:210-212 | a pass registered last sees the result of all the earlier ones |
| ConfigPasses.RepeatedDesignPass | src/Configuration/DesignConfigPass.php:48-54 | registering the design pass twice gives the same tree as registering it once |
| ConfigPasses.RepeatedMetadataPass | src/Configuration/MetadataConfigPass.php:38-74 | for unique entity names and a pass that succeeds, registering the metadata pass twice gives the same tree as registering it once |
| MetadataPass.AssociationEntries | src/Configuration/MetadataConfigPass.php:98-107 | each association mapping becomes its association property, with the key kept |
| MetadataPass.ProcessEntityPropertiesMetadata | src/Configuration/MetadataConfigPass.php:84-111 | a composite identifier fails with `CompositePrimaryKey`; else the two loops give `PropertiesOf`, the fields followed by the rewritten associations |
| MetadataPass.AssociationStep | src/Configuration/MetadataConfigPass.php:99-107 | one association iteration, the merge and then the optional `sortable`, stores exactly the association's property |
| MetadataPass.AssociationEntriesSnoc | src/Configuration/MetadataConfigPass.php:98 | the association entries of a prefix grow by one per iteration |
| MetadataPass.CompleteEntity | src/Configuration/MetadataConfigPass.php:42-71 | the loop body for one entity gives `ProcessEntity`: the `search_class` copy, then the DTO branch or the Doctrine lookup with its three failures |
| MetadataPass.Process | src/Configuration/MetadataConfigPass.php:38-74 | the foreach over the entities equals `Processed`: each entity rewritten under its name, stopping at the first failure |
| MetadataPass.ToManyTypes | src/Configuration/MetadataConfigPass.php:105 | one-to-many (4) and many-to-many (8) have a `TO_MANY` bit; the to-one types and null do not |
| MetadataPass.AssociationPropertyFacts | src/Configuration/MetadataConfigPass.php:99-107 | `type` becomes `association`; `associationType` is the original type; to-many is unsortable; a to-one `sortable` is kept; every other key is the mapping's |
| MetadataPass.GetProperties | src/Configuration/MetadataConfigPass.php:93-108 | a property is its association's property if there is one, else its field mapping |
| MetadataPass.AssociationKeys | src/Configuration/MetadataConfigPass.php:98-99 | the rewritten associations have exactly the association names as keys |
| MetadataPass.PropertyOfAssociation | src/Configuration/MetadataConfigPass.php:98-102 | every association becomes a property and overwrites a field of the same name |
| MetadataPass.PropertyOfField | src/Configuration/MetadataConfigPass.php:93-95 | a field with no association of that name is copied verbatim |
| MetadataPass.NoOtherProperty | src/Configuration/MetadataConfigPass.php:86-110 | nothing but fields and associations becomes a property |
| MetadataPass.SearchClassWins | src/Configuration/MetadataConfigPass.php:42-46 | `search_class` replaces `class` first, so such an entity never takes the DTO branch |
| MetadataPass.DtoEntity | src/Configuration/MetadataConfigPass.php:46-52 | a DTO-only entity succeeds, does not depend on Doctrine, and takes "id" or null as primary key and `[]` as properties |
| MetadataPass.LookupFailures | src/Configuration/MetadataConfigPass.php:54-62 | a class that cannot be reflected and a class without a manager fail with two different `InvalidType` errors that name the class and the entity |
| MetadataPass.MappedEntity | src/Configuration/MetadataConfigPass.php:64-90 | a mapped entity takes the single identifier field as primary key and the class's properties, or fails on a composite key |
| MetadataPass.Rewritten | src/Configuration/MetadataConfigPass.php:70 | each entity is replaced in place by what the step made of it |
| MetadataPass.PutAt | src/Configuration/MetadataConfigPass.php:70 | assigning an existing entity name replaces that entry in place |
| MetadataPass.FirstFailure | src/Configuration/MetadataConfigPass.php:40-71 | the pass fails exactly when some entity fails, and then with the first failing entity's error |
| MetadataPass.RewriteShape | src/Configuration/MetadataConfigPass.php:40-71 | the loop state after i entities is those entities rewritten followed by the rest |
| MetadataPass.RewriteOne | src/Configuration/MetadataConfigPass.php:70 | writing entity i back rewrites exactly that entry |
| MetadataPass.RewriteWhole | src/Configuration/MetadataConfigPass.php:40-73 | when every entity succeeds, `entities` becomes the rewritten list |
| MetadataPass.OtherKeysUnchanged | src/Configuration/MetadataConfigPass.php:70-73 | the loop leaves every top-level key but `entities` as it was |
| MetadataPass.OnlyEntitiesChange | src/Configuration/MetadataConfigPass.php:40-73 | the pass returns every other top-level key unchanged |
| MetadataPass.ProcessedEntities | src/Configuration/MetadataConfigPass.php:40-73 | with unique names, each entity after the pass is what processing it alone gives |
| MetadataPass.EntityIdempotent | src/Configuration/MetadataConfigPass.php:42-70 | processing an entity a second time changes nothing |
| MetadataPass.Idempotent | src/Configuration/MetadataConfigPass.php:38-74 | running the pass on its own output changes nothing |
| DesignPass.CssVariablesFacts | src/Configuration/DesignConfigPass.php:72-76 | the CSS template receives exactly `brand_color` and `color_scheme` from `design`, and `kernel_debug` |
| DesignPass.WhitespaceRun | src/Configuration/DesignConfigPass.php:78 | the greedy match covers the whole leading whitespace run and stops at the first other character |
| DesignPass.CollapseWhitespace | src/Configuration/DesignConfigPass.php:78 | the second pattern leaves no two adjacent whitespace characters, keeps emptiness and the kind of the first character, and adds no newline |
| DesignPass.TextAppend | src/Configuration/DesignConfigPass.php:78 | the non-whitespace text of a concatenation is the concatenation of the texts |
| DesignPass.TextOfWhitespace | src/Configuration/DesignConfigPass.php:78 | a whitespace run has no text |
| DesignPass.TextUpToWhitespace | src/Configuration/DesignConfigPass.php:78 | swapping one whitespace character for another keeps the text |
| DesignPass.CollapseKeepsText | src/Configuration/DesignConfigPass.php:78 | collapsing keeps every non-whitespace character, in order |
| DesignPass.MinifyFacts | src/Configuration/DesignConfigPass.php:78-79 | the minified CSS has no newline, no two adjacent whitespace characters, and the same text as the rendered CSS |
| DesignPass.CollapseFixpoint | src/Configuration/DesignConfigPass.php:78 | a string without adjacent whitespace is left alone |
| DesignPass.NoAdjacentTail | src/Configuration/DesignConfigPass.php:78 | a suffix of such a string has none either |
| DesignPass.MinifyIdempotent | src/Configuration/DesignConfigPass.php:78 | minifying twice is minifying once |
| DesignPass.RtlDefault | src/Configuration/DesignConfigPass.php:58-64 | an unset or null `design.rtl` becomes true exactly for locales starting with ar, fa or he; no other key of `design`, and no other top-level key, changes |
| DesignPass.RtlExamples | src/Configuration/DesignConfigPass.php:59-60 | ar_SA, fa and he_IL are RTL; en, a, the empty locale and fr_FR are not |
| DesignPass.RtlIdempotent | src/Configuration/DesignConfigPass.php:56-68 | after the step `design.rtl` is set, so the step is idempotent |
| DesignPass.RtlKeepsCssVariables | src/Configuration/DesignConfigPass.php:48-76 | the RTL step does not change what the CSS template receives |
| DesignPass.ProcessFacts | src/Configuration/DesignConfigPass.php:48-80 | `_internal.custom_css` is the minified rendering of the CSS template with the design variables; `design.rtl` is kept when set, else derived from the locale; every other top-level key is unchanged |
| DesignPass.Idempotent | src/Configuration/DesignConfigPass.php:48-54 | running the pass on its own output changes nothing |
| Container.TaggedIn | src/DependencyInjection/Compiler/EasyAdminConfigPass.php:46 | `findTaggedServiceIds` lists registered definitions that carry the tag |
| Container.Ids | src/DependencyInjection/Compiler/EasyAdminConfigPass.php:46 | the ids of the tagged services, in order |
| Container.StrictTaggedIn | src/DependencyInjection/Compiler/EasyAdminConfigPass.php:46 | with the abstract check: fails exactly when one of the tagged definitions is abstract, naming the tag and the first abstract tagged id in definition order; else the same list as `TaggedIn` |
| Container.TaggedDistinct | src/DependencyInjection/Compiler/EasyAdminConfigPass.php:46 | with each definition registered once, each tagged service is found once |
| Container.ContainerBuilder.GetDefinition | src/DependencyInjection/Compiler/EasyAdminConfigPass.php:26 | `getDefinition` gives the definition of a known id and `ServiceNotFound` otherwise |
| Container.ContainerBuilder.AddMethodCall | src/DependencyInjection/Compiler/EasyAdminConfigPass.php:29 | the call is appended to that definition's calls and nothing else changes |
| Container.ContainerBuilder.ReplaceArgument | src/DependencyInjection/Compiler/EasyAdminFormTypePass.php:70 | the argument at the index is replaced and nothing else changes |
| Container.ContainerBuilder.RemoveDefinition | src/DependencyInjection/Compiler/EasyAdminFormTypePass.php:60 | the definition is removed and nothing else changes |
| ConfigPassCompiler.Discovered | src/DependencyInjection/Compiler/EasyAdminConfigPass.php:46-48 | each service, in discovery order, takes the priority of its first tag, 0 when unset |
| ConfigPassCompiler.AddConfigPassCalls | src/DependencyInjection/Compiler/EasyAdminConfigPass.php:28-30 | one `addConfigPass` call per service, in order |
| ConfigPassCompiler.MaxIndex | src/DependencyInjection/Compiler/EasyAdminConfigPass.php:52 | the index of a largest bucket key |
| ConfigPassCompiler.RemoveLargest | src/DependencyInjection/Compiler/EasyAdminConfigPass.php:52 | removing the largest of distinct keys leaves distinct keys all below it |
| ConfigPassCompiler.SortKeysDescending | src/DependencyInjection/Compiler/EasyAdminConfigPass.php:52 | `krsort` gives the same keys in strictly decreasing order |
| ConfigPassCompiler.FillBuckets | src/DependencyInjection/Compiler/EasyAdminConfigPass.php:44-49 | one distinct key per priority seen; each bucket holds its priority's services in discovery order |
| ConfigPassCompiler.BucketsStep | src/DependencyInjection/Compiler/EasyAdminConfigPass.php:48 | one more service appends to its bucket, adding the key when new |
| ConfigPassCompiler.BucketsGrow | src/DependencyInjection/Compiler/EasyAdminConfigPass.php:48 | appending to a bucket keeps every bucket equal to its priority's services so far |
| ConfigPassCompiler.MergeBuckets | src/DependencyInjection/Compiler/EasyAdminConfigPass.php:53 | `array_merge` over the sorted buckets is the blocks of services, highest priority first |
| ConfigPassCompiler.FindAndSortTaggedServices | src/DependencyInjection/Compiler/EasyAdminConfigPass.php:42-57 | an abstract tagged service fails as `findTaggedServiceIds($tagName, true)` does; else the result is the stable descending sort of the discovered services, empty without services |
| ConfigPassCompiler.Process | src/DependencyInjection/Compiler/EasyAdminConfigPass.php:23-31 | an abstract tagged service, then a missing manager definition, fails with no change; else exactly one `addConfigPass` call per service is appended, in sorted order |
| ConfigPassCompiler.QueueConfigPasses | src/DependencyInjection/Compiler/EasyAdminConfigPass.php:28-30 | the manager's definition gains one `addConfigPass` call per service, in order; nothing else changes |
| ConfigPassCompiler.SortedServices | src/DependencyInjection/Compiler/EasyAdminConfigPass.php:47-53 | the order is by non-increasing priority, ties keep discovery order, and it is a permutation of the services found |
| ConfigPassCompiler.DistinctCount | src/DependencyInjection/Compiler/EasyAdminConfigPass.php:46-48 | an element of a list without duplicates occurs once |
| ConfigPassCompiler.EachServiceOnce | src/DependencyInjection/Compiler/EasyAdminConfigPass.php:46-53 | every tagged service is registered exactly once |
| ConfigPassCompiler.ReplayCalls | src/Configuration/ConfigManager.php:58-61 | replaying the queued calls appends one pass per call, in order, and reads nothing |
| ConfigPassCompiler.ReplayedOrder | src/DependencyInjection/Compiler/EasyAdminConfigPass.php:28-30 | the passes registered are the sorted services, in that order |
| PrioritySort.Items | src/DependencyInjection/Compiler/EasyAdminConfigPass.php:48 | the services without their priorities |
| PrioritySort.ItemsAppend | src/DependencyInjection/Compiler/EasyAdminConfigPass.php:53 | the items of a concatenation are the concatenated items |
| PrioritySort.InsertItems | src/DependencyInjection/Compiler/EasyAdminConfigPass.php:52-53 | inserting adds its item and nothing else |
| PrioritySort.SortDescendingItems | src/DependencyInjection/Compiler/EasyAdminConfigPass.php:52-53 | sorting keeps the same items, as often as before |
| PrioritySort.WithPriorityAppend | src/DependencyInjection/Compiler/EasyAdminConfigPass.php:48 | the elements of one priority in a concatenation are those of each part |
| PrioritySort.WithPriorityMembers | src/DependencyInjection/Compiler/EasyAdminConfigPass.php:48 | the elements of one priority are exactly the members with that priority |
| PrioritySort.WithPriorityUniform | src/DependencyInjection/Compiler/EasyAdminConfigPass.php:48 | all of them have that priority |
| PrioritySort.WithPriorityAbsent | src/DependencyInjection/Compiler/EasyAdminConfigPass.php:48 | a priority nobody has selects nothing |
| PrioritySort.NonIncreasingCons | src/DependencyInjection/Compiler/EasyAdminConfigPass.php:52 | a head in front of a sorted tail is sorted exactly when it bounds the tail |
| PrioritySort.InsertMultiset | src/DependencyInjection/Compiler/EasyAdminConfigPass.php:52 | inserting adds exactly the element |
| PrioritySort.InsertAtMost | src/DependencyInjection/Compiler/EasyAdminConfigPass.php:52 | inserting keeps an upper bound |
| PrioritySort.InsertSorted | src/DependencyInjection/Compiler/EasyAdminConfigPass.php:52 | inserting into a sorted list keeps it sorted |
| PrioritySort.WithPrioritySingle | src/DependencyInjection/Compiler/EasyAdminConfigPass.php:48 | a single element selects itself or nothing |
| PrioritySort.InsertWithPriority | src/DependencyInjection/Compiler/EasyAdminConfigPass.php:48-53 | the inserted element goes after every element of its priority |
| PrioritySort.InsertPast | src/DependencyInjection/Compiler/EasyAdminConfigPass.php:48-53 | it goes after a head of at least its priority |
| PrioritySort.InsertInFront | src/DependencyInjection/Compiler/EasyAdminConfigPass.php:48-53 | it goes in front when every priority is below its own |
| PrioritySort.SortDescendingStable | src/DependencyInjection/Compiler/EasyAdminConfigPass.php:48-53 | the reference sort is non-increasing, keeps each priority's order, and is a permutation |
| PrioritySort.StableUnique | src/DependencyInjection/Compiler/EasyAdminConfigPass.php:52-53 | two sorted lists with the same elements per priority, in the same order, are equal |
| PrioritySort.StableUniqueStep | src/DependencyInjection/Compiler/EasyAdminConfigPass.php:52-53 | such lists agree on their head, and their tails are such lists again |
| PrioritySort.SameHead | src/DependencyInjection/Compiler/EasyAdminConfigPass.php:52-53 | such lists start with the same element |
| PrioritySort.SameTail | src/DependencyInjection/Compiler/EasyAdminConfigPass.php:52-53 | after an equal head, the per-priority contents still agree |
| PrioritySort.NonEmptyWithPriority | src/DependencyInjection/Compiler/EasyAdminConfigPass.php:48 | the head's priority selects something; an empty list selects nothing |
| PrioritySort.StablySortedIsSortDescending | src/DependencyInjection/Compiler/EasyAdminConfigPass.php:52-53 | whatever is sorted stably and descending is the reference order |
| PrioritySort.StableIsPermutation | src/DependencyInjection/Compiler/EasyAdminConfigPass.php:52-53 | such an order is a permutation |
| PrioritySort.BlocksAppend | src/DependencyInjection/Compiler/EasyAdminConfigPass.php:53 | one more key appends its bucket |
| PrioritySort.BlocksMembers | src/DependencyInjection/Compiler/EasyAdminConfigPass.php:53 | every merged element has one of the keys as its priority |
| PrioritySort.BlocksNonIncreasing | src/DependencyInjection/Compiler/EasyAdminConfigPass.php:52-53 | buckets merged in decreasing key order are sorted |
| PrioritySort.BlocksWithPriority | src/DependencyInjection/Compiler/EasyAdminConfigPass.php:53 | each priority's elements in the merge are its bucket |
| PrioritySort.WithPriorityOfUniform | src/DependencyInjection/Compiler/EasyAdminConfigPass.php:48 | a bucket of one priority selects all of itself |
| PrioritySort.BlocksSorted | src/DependencyInjection/Compiler/EasyAdminConfigPass.php:51-53 | `krsort` then `array_merge` is the stable descending sort |
| FormTypeCompiler.PriorityQueue.constructor | src/DependencyInjection/Compiler/EasyAdminFormTypePass.php:44 | a new queue is empty |
| FormTypeCompiler.PriorityQueue.Insert | src/DependencyInjection/Compiler/EasyAdminFormTypePass.php:66 | the queue gains exactly the element at its priority and stays ordered by non-increasing priority |
| FormTypeCompiler.GuesserReferences | src/DependencyInjection/Compiler/EasyAdminFormTypePass.php:35-38 | one reference per tagged guesser id, in discovery order |
| FormTypeCompiler.TagEntries | src/DependencyInjection/Compiler/EasyAdminFormTypePass.php:64-67 | one queue entry per tag, at that tag's priority (0 when unset) |
| FormTypeCompiler.ConfigureTypeGuesserChain | src/DependencyInjection/Compiler/EasyAdminFormTypePass.php:32-40 | without the chain's definition, `ServiceNotFound` and no change; else argument 0 becomes the guesser references |
| FormTypeCompiler.InsertTags | src/DependencyInjection/Compiler/EasyAdminFormTypePass.php:64-67 | the queue gains exactly the service's tag entries |
| FormTypeCompiler.RegisterAll | src/DependencyInjection/Compiler/EasyAdminFormTypePass.php:45-68 | the loop's queue contents, removed definitions and failure are those of `Registrations` |
| FormTypeCompiler.RegisterTypeConfigurators | src/DependencyInjection/Compiler/EasyAdminFormTypePass.php:42-71 | a registration failure is returned with the definitions removed until then; a missing form type definition gives `ServiceNotFound`; else the form type's argument 1 is the queued entries in non-increasing priority, a permutation of what `Registrations` queued |
| FormTypeCompiler.PrependAssoc | src/DependencyInjection/Compiler/EasyAdminFormTypePass.php:64-67 | queueing entries in two steps is queueing them at once |
| FormTypeCompiler.Process | src/DependencyInjection/Compiler/EasyAdminFormTypePass.php:26-30 | without the chain's definition, `ServiceNotFound` and no change; else the chain is configured and the configurators are registered over the changed definitions. The final definitions are stated in every case: failing as registration does, or for a missing form type definition; else the form type's argument 1 is a non-increasing arrangement of exactly the queued entries |
| FormTypeCompiler.RegisteredImplement | src/DependencyInjection/Compiler/EasyAdminFormTypePass.php:46-50 | a successful registration means every tagged service exists and implements the interface, or is the skipped ckeditor service |
| FormTypeCompiler.InterfaceFailure | src/DependencyInjection/Compiler/EasyAdminFormTypePass.php:48-50 | the interface failure names a tagged service whose class does not implement it |
| FormTypeCompiler.CkeditorSkipped | src/DependencyInjection/Compiler/EasyAdminFormTypePass.php:54-62 | without the ckeditor bundle set up for it, the ckeditor configurator is never queued and its definition is removed |
| FormTypeCompiler.RemovedStaysRemoved | src/DependencyInjection/Compiler/EasyAdminFormTypePass.php:60 | registration only removes definitions and changes none |
| FormTypeCompiler.AllRegistered | src/DependencyInjection/Compiler/EasyAdminFormTypePass.php:64-67 | without the ckeditor configurator, the queue receives every tag of every service, in discovery order, and no definition is removed |
| TypeConfigurators.DefaultToFacts | src/Form/Type/Configurator/CollectionTypeConfigurator.php:30-36 | an unset or null option takes the default, a set one is kept, no other key changes |
| TypeConfigurators.CollectionFacts | src/Form/Type/Configurator/CollectionTypeConfigurator.php:28-51 | allow_add and allow_delete default to true; delete_empty does too when the error iterator exists; a set entry_type goes through getType; an absent one stays absent; no other key changes |
| TypeConfigurators.CollectionIdempotent | src/Form/Type/Configurator/CollectionTypeConfigurator.php:28-51 | configuring twice gives the same option values as configuring once, when getType is idempotent |
| TypeConfigurators.CheckboxFacts | src/Form/Type/Configurator/CheckboxTypeConfigurator.php:27-38 | required defaults to false and an explicit value is kept; label is always the metadata's label; no other key changes |
| TypeConfigurators.CheckboxIdempotent | src/Form/Type/Configurator/CheckboxTypeConfigurator.php:27-38 | configuring twice is configuring once |
| TypeConfigurators.SupportedTypes | src/Form/Type/Configurator/CollectionTypeConfigurator.php:56-59 | each configurator supports exactly its short name and its class name, strictly, and no type is supported by both |
| TypeGuesser.NoMetadata | src/Form/Guesser/MissingDoctrineOrmTypeGuesser.php:27-51 | without metadata the parent decides |
| TypeGuesser.Table | src/Form/Guesser/MissingDoctrineOrmTypeGuesser.php:32-47 | every row of the switch, with its type and confidence |
| TypeGuesser.JsonCaseUnreachable | src/Form/Guesser/MissingDoctrineOrmTypeGuesser.php:39-42 | no column type can produce the textarea guess of the `'json'` case |
| TypeGuesser.TableGuessFacts | src/Form/Guesser/MissingDoctrineOrmTypeGuesser.php:33-47 | a table guess has no options; it is high confidence exactly for the three immutable date types and medium otherwise |
| TypeGuesser.FallThrough | src/Form/Guesser/MissingDoctrineOrmTypeGuesser.php:31-51 | with metadata, a row's guess or else the parent's |
| TypeGuesser.OutsideTable | src/Form/Guesser/MissingDoctrineOrmTypeGuesser.php:31-48 | any other column type has no row |
| FormLayout.FormBuilder.Add | src/Form/Type/EasyAdminFormType.php:128 | the field is appended and nothing else changes |
| FormLayout.FormBuilder.SetAttribute | src/Form/Type/EasyAdminFormType.php:131-132 | the attribute is set and nothing else changes |
| FormLayout.FormBuilder.AddEventSubscriber | src/Form/Type/EasyAdminFormType.php:135 | the subscriber is appended and nothing else changes |
| FormLayout.ConfigureOptions | src/Form/Type/EasyAdminFormType.php:72-76 | the configurator loop equals `Configured`, each supporting configurator applied in order |
| FormLayout.ConfiguredAppend | src/Form/Type/EasyAdminFormType.php:72-76 | running two lists of configurators is running their concatenation |
| FormLayout.ConfiguredUnsupported | src/Form/Type/EasyAdminFormType.php:73 | configurators that do not support the field leave its options alone |
| FormLayout.Snoc | src/Form/Type/EasyAdminFormType.php:68-129 | the loop state after one more field is one more step |
| FormLayout.BuildFields | src/Form/Type/EasyAdminFormType.php:63-136 | the builder gains `LayoutOf`'s fields, the tabs and groups attributes, and the tab subscriber exactly when a tab was recorded |
| FormLayout.LastMarkerNone | src/Form/Type/EasyAdminFormType.php:84-108 | without an element of the kind, no current marker |
| FormLayout.LastMarkerAt | src/Form/Type/EasyAdminFormType.php:84-108 | the current marker is the `fieldName` of the last element of the kind |
| FormLayout.CurrentMarkers | src/Form/Type/EasyAdminFormType.php:84-108 | the current tab and group are the last tab and group seen |
| FormLayout.AddedInOrder | src/Form/Type/EasyAdminFormType.php:84-128 | exactly the elements that are neither a group nor a tab are added, in the view's order, with their names, types and options |
| FormLayout.AddedField | src/Form/Type/EasyAdminFormType.php:124-128 | an element that is neither a group nor a tab is added last, tagged with the tab and group current at that moment; a group or a tab adds no field |
| FormLayout.FieldOptionsFacts | src/Form/Type/EasyAdminFormType.php:119-124 | a design element is unmapped and not required; every other option is the configured one |
| FormLayout.GroupStored | src/Form/Type/EasyAdminFormType.php:84-89 | a group is stored under its name with the current tab or null, becomes the current group, and adds no field |
| FormLayout.TabRecordFacts | src/Form/Type/EasyAdminFormType.php:106-107 | a tab record has no errors and is active as told |
| FormLayout.TabsKeepShape | src/Form/Type/EasyAdminFormType.php:96-115 | the tabs keep unique names, no errors and at most the first active |
| FormLayout.OnlyFirstTabActive | src/Form/Type/EasyAdminFormType.php:105-107 | at most one tab is active, only the first, and no tab has errors |
| FormLayout.TabStored | src/Form/Type/EasyAdminFormType.php:105-114 | a tab is stored under its name, active exactly when no tab came before, and becomes the current tab |
| FormLayout.HasTabAt | src/Form/Type/EasyAdminFormType.php:96-104 | some element is a tab exactly when one is at some index |
| FormLayout.TabsSeen | src/Form/Type/EasyAdminFormType.php:134-136 | tabs are recorded, and so the subscriber attached, exactly when the view has a tab element |
| FormLayout.EmptyView | src/Form/Type/EasyAdminFormType.php:62 | a view without `fields` adds nothing and records nothing |
| FormLayout.NormalizerFacts | src/Form/Type/EasyAdminFormType.php:193-196 | every given attribute, `id` included, wins; without one, `id` is `<view>-<entity>-form` with only the entity name lowercased; nothing else is added |
| AdminForm.BuildForm | src/Form/Type/EasyAdminFormType.php:57-137 | fails as `getEntityConfig` does, changing nothing in the builder; else builds the layout of the view's fields; the manager's new state is `ReadEffect`'s: memo, passes, stored cache and the one save as in `getBackendConfig` |
| AdminForm.DataClassFacts | src/Form/Type/EasyAdminFormType.php:158-163 | `data_class` is the class when set, else the DTO class, null only without both |
| AdminForm.ResolveDataClass | src/Form/Type/EasyAdminFormType.php:158-163 | the closure fails as `getEntityConfig` does, else gives `DataClass`; the manager's new state is `ReadEffect`'s |
| CocoricoForm.BuildForm | src/Form/Type/EasyAdminCocoricoFormType.php:38-126 | a non-null `entityConfig` option is used and the manager is not consulted; else as the admin form, with the manager's new state `ReadEffect`'s; then the same layout loop |
| CocoricoForm.DefaultBuildsNothing | src/Form/Type/EasyAdminCocoricoFormType.php:42-43 | with the default `[]` option (line 148) the form adds no field and records no tab or group |
| CocoricoForm.DataClassComparedToAdminForm | src/Form/Type/EasyAdminCocoricoFormType.php:142-147 | the two form types agree when `class` is set; for a DTO-only entity they differ |
| CocoricoForm.ResolveDataClass | src/Form/Type/EasyAdminCocoricoFormType.php:142-147 | the closure fails as `getEntityConfig` does, else gives `class`; the manager's new state is `ReadEffect`'s |
| Admin.SortDefaultsFacts | src/Controller/AdminController.php:129-137 | a present sortField or sortDirection is kept; a missing one takes the view's sort setting, else the primary key or "DESC"; nothing else in the query changes |
| Admin.InitializeErrors | src/Controller/AdminController.php:111-127 | no entities: `NoEntitiesConfigured`; no entity parameter: an early return; an unknown name: `UndefinedEntity`; else that entity with its sort defaults |
| Admin.LoadEntity | src/Controller/AdminController.php:111-127 | the reads of `initialize` give `Initialization` of the configuration read; the manager's new state is `ReadEffect`'s, so the two reads save at most once and leave every later read the same |
| Admin.ApplySortDefaults | src/Controller/AdminController.php:129-137 | the query becomes `SortDefaults` of the entity; the attributes are unchanged |
| Admin.AdminController.Initialize | src/Controller/AdminController.php:107-145 | fails exactly as `Initialization` says; `InitializeEffect` gives the whole new state: the pre-initialize event always; on failure nothing else changes; without an entity only the configuration; otherwise the entity, the sort defaults in the query, its manager, the request and the post-initialize event; the configuration manager's new state is `ReadEffect`'s |
| Admin.AdminController.EnterEntity | src/Controller/AdminController.php:127-144 | the entity, the sort defaults, its manager when `class` is set, the request, then the post-initialize event |
| Admin.DeclaredMethod | src/Controller/AdminController.php:849-869 | found exactly when some declared method has the name up to ASCII case, and then it is that declared method |
| Admin.ResolveMethodFacts | src/Controller/AdminController.php:847-873 | the declared method matching the entity-specific name up to case when there is one; else the one matching the generic name; else `BadMethodCall` naming the generic spelling; an exact declared spelling is itself the answer; a success is always a declared method |
| Admin.ActionPattern | src/Controller/AdminController.php:847-851 | `str_replace` on `<action><EntityName>Action` puts the replacement in the placeholder's place, for an action without `<` |
| Admin.CaseVariantActions | src/Controller/AdminController.php:847-873 | two action names equal up to ASCII case resolve to the same method, or both fail |
| Admin.DisabledActionByCase | src/Controller/AdminController.php:91-93 | a case variant of the only disabled action passes `isActionAllowed` (strict, lines 811-814), while resolving to the same method as the disabled name |
| Admin.AdminController.ExecuteDynamicMethod | src/Controller/AdminController.php:845-876 | the method run is `ResolveMethod`'s; the notice log grows by `Deprecation` of the spelling built from the pattern (`MethodNameFor`), and nothing else changes |
| Admin.DeprecationFacts | src/Controller/AdminController.php:853-867 | a second argument of `true`, as every internal hook call passes (lines 243, 319, 369, 464), or none raises no notice; a non-hook never does; `prePersistEntity` suggests `persistentity` |
| Admin.SortWord | src/Controller/AdminController.php:598 | the loose `in_array` against ASC and DESC is word identity |
| Admin.NormalizeSortDirectionFacts | src/Controller/AdminController.php:598-600 | `findAll` and `findBy` (lines 651-653 repeat the rule) give ASC or DESC in some case; an accepted direction is kept as given; anything else becomes "DESC"; normalising twice changes nothing |
| Admin.RedirectToList | src/Controller/AdminController.php:907-922 | with list allowed: the decoded referrer when one is given, else the entity's list with the menu indexes |
| Admin.RedirectToEdit | src/Controller/AdminController.php:924-940 | else, after new or edit with edit allowed: the edit page of the created item's primary key, or of the `id` parameter |
| Admin.RedirectToNew | src/Controller/AdminController.php:942-950 | else, after new with new allowed: the new page |
| Admin.RedirectToHomepage | src/Controller/AdminController.php:952 | with list, edit and new all disabled, the homepage |
| Admin.HomepageFacts | src/Controller/AdminController.php:881-888 | the homepage is its `url` when set, else its route |
| Admin.EntityFormOptionsFacts | src/Controller/AdminController.php:735-742 | the view's form options with `entity` set to the entity's name and `view` to the view; nothing else changes |
| Admin.NewEntityClassFacts | src/Controller/AdminController.php:478-483 | the DTO class when set, else the entity class; null, so nothing to instantiate, exactly when neither is set |
| Admin.AdminController.IndexAction | src/Controller/AdminController.php:73-96 | initialisation failures first; no entity: the homepage; a disabled action (`isActionAllowed`, lines 811-814: strict `in_array`, default "list"): `ForbiddenAction` before any lookup; else the method `executeDynamicMethod` picks. The new state is `InitializeEffect`'s, with no deprecation notice |
| Http.Request.SetQuery | src/Controller/AdminController.php:129-137 | the query key is set and the attributes are unchanged |
| Http.Request.SetAttribute | src/EventListener/RequestPostInitializeListener.php:48-55 | the attribute is set and the query is unchanged |
| Autocompletion.Results | src/Search/Autocomplete.php:75-87 | one record per result, in order, under the keys 0, 1, … |
| Autocompletion.ResultsFacts | src/Search/Autocomplete.php:80-83 | each record holds `id`, the primary key's value, and `text`, the string cast of the result |
| Autocompletion.ProcessResults | src/Search/Autocomplete.php:75-87 | the loop gives `Results` |
| Autocompletion.Find | src/Search/Autocomplete.php:56-73 | an empty entity or query gives only `results => []` without reading the configuration; an unknown entity fails; else the finder's page, as records, with `has_next_page`. The manager's new state is `ReadEffect`'s: the configuration read is memoised and saved as `getBackendConfig` does, and it stays the same |
| ExceptionHandling.TemplateFallback | src/EventListener/ExceptionListener.php:67-73 | the entity's template, else the design's, else the default; never null |
| ExceptionHandling.UnknownEntity | src/EventListener/ExceptionListener.php:67 | an unknown entity skips the entity level |
| ExceptionHandling.PathAppend | src/EventListener/ExceptionListener.php:67-68 | reading a path in two steps is reading it at once |
| ExceptionHandling.LevelFor | src/EventListener/ExceptionListener.php:90-94 | critical exactly from status 500, error below |
| ExceptionHandling.ExceptionListener.constructor | src/EventListener/ExceptionListener.php:45-51 | the listener keeps the configuration, the renderer and whether a logger exists; no entity is current and nothing is logged |
| ExceptionHandling.ExceptionListener.OnKernelException | src/EventListener/ExceptionListener.php:53-63 | the entity name is recorded; the parent runs only for the bundle's exceptions |
| ExceptionHandling.ExceptionListener.ShowExceptionPage | src/EventListener/ExceptionListener.php:65-79 | the page carries the exception's status code and renders the current entity's exception template, else the design's, else the default one, inside the layout template |
| ExceptionHandling.ExceptionListener.LogException | src/EventListener/ExceptionListener.php:81-96 | other exceptions go to the parent; the bundle's are logged at `LevelFor` their status with a logger, and not at all without one |
| RequestInitialization.ResolveItemFacts | src/EventListener/RequestPostInitializeListener.php:67-100 | a DTO class always goes to `resolveSubject`; otherwise, for a non-falsy id, a missing manager gives `NoManagerForClass`, a missing row gives `EntityNotFound` with the name, key and id, and a success is that non-null row |
| RequestInitialization.FalsyIdNoItem | src/EventListener/RequestPostInitializeListener.php:53 | null, "", "0" and 0 give a null item without any lookup |
| RequestInitialization.RequestPostInitializeListener.constructor | src/EventListener/RequestPostInitializeListener.php:24-30 | the listener keeps the registry and whether a request stack exists; no request is stored |
| RequestInitialization.RequestPostInitializeListener.InitializeRequest | src/EventListener/RequestPostInitializeListener.php:36-56 | with a stack, its current request is stored; the request not used (the old stored one, or `currentRequest` without a stack) is unchanged; without a request, nothing; else the query is unchanged and the attribute is set, action defaulting to "list", or the lookup's failure leaves the attributes unchanged |
| ControllerBase.Response.SetStatusCode | src/Controller/AbstractController.php:231 | the status is set and the content is unchanged |
| ControllerBase.Response.SetContent | src/Controller/AbstractController.php:203 | the content is set and the status is unchanged |
| ControllerBase.RedirectDefault | src/Controller/AbstractController.php:93 | without a status, 302 |
| ControllerBase.FirstFormView | src/Controller/AbstractController.php:219-222 | the first `FormView` parameter, or the count when there is none |
| ControllerBase.StatusRule | src/Controller/AbstractController.php:230-232 | the status becomes 422 exactly when it was 200 and a submitted, invalid form was met; otherwise it is unchanged |
| ControllerBase.Rendered | src/Controller/AbstractController.php:224-228 | each parameter as handed to the template |
| ControllerBase.RenderedFacts | src/Controller/AbstractController.php:224-228 | keys are kept, non-form values are passed unchanged, and each form becomes its view |
| ControllerBase.Render | src/Controller/AbstractController.php:195-206 | without Twig, a failure that changes nothing; else the content goes into the given response, status kept, or into a fresh 200 one |
| ControllerBase.RenderForm | src/Controller/AbstractController.php:213-236 | a `FormView` parameter fails with its key; else the response, fresh when none is given, has `StatusAfter` status and the template sees the rewritten parameters; on both errors a given response keeps its content |
| ControllerBase.GetUserFacts | src/Controller/AbstractController.php:333-346 | fails exactly without a token storage; else an object or null, null exactly without a token or with a non-object user |

## Left out

- The `AdminController` action bodies (`listAction`, `showAction`, `editAction`, `newAction`, `searchAction`, `deleteAction`, `autocompleteAction`), `updateEntityProperty`, the persist/update/remove hooks, `createDeleteForm`, the query-builder factories, `createEntityForm`, `createEntityFormBuilder` and `renderTemplate` are not modelled. They are Doctrine persistence, Symfony form handling and Twig rendering. Only the event order of `initialize` is kept, as a trace.
- `findAll`/`findBy`: only the sort-direction rule is modelled (`Admin.NormalizeSortDirection`); the query-builder call, the event and the paginator are Doctrine work.
- `dispatch` is kept as a trace of event names (`Admin.Event`); the event objects and their listeners are not modelled.
- Admin.AdminController.Initialize: `initialize` assigns `$this->config` before it checks that entities exist; the model assigns it only on success.
- Admin.AdminController.IndexAction: the deprecation notice for the legacy `admin` route is not modelled (a `trigger_error` only).
- `renderCssAction` and `renderForbiddenActionError` (deprecated), `resolveSubject` (returns null; the request listener takes it as a parameter) are not modelled.
- The `AbstractController` container wrappers (`get`, `has`, `getParameter`, `generateUrl`, `redirectToRoute`, `forward`, `json`, `file`, `addFlash`, `isGranted`, `denyAccessUnlessGranted`, `stream`, `createForm`, `createFormBuilder`, `getDoctrine`, `createNotFoundException`, `createAccessDeniedException`, `isCsrfTokenValid`) are framework glue; routes are kept as a route name with parameters (`Admin.Target`).
- `finishView`, `getBlockPrefix` and `getName` of both form types copy attributes or return the constant `easyadmin`; they are not modelled. The `OptionsResolver` mechanics (`setDefaults`, `setRequired`, the lazy closure call) are not modelled either: the `data_class` closure and the normaliser are modelled as what they compute.
- Tabs are stored by value; that `ArrayObject` lets later code change them through a shared reference is not modelled.
- `FormLayout.FormBuilder.Add` appends the field; that Symfony's `add` replaces an earlier child of the same name is not modelled.
- `is_callable` and `method_exists` are both modelled as a lookup of the declared method names that ignores ASCII case (`Admin.DeclaredMethod`). A `__call` handler and method visibility are not modelled; the controller defines no `__call`.
- FormTypeCompiler.KeepsCkeditor: the container model has no aliases, so `has('ivory_ck_editor.config_manager')` is a definition lookup; an alias of that id is not seen.
- TypeConfigurators.Configure: the `FormConfigInterface $parentConfig` argument of `configure` and `supports` is dropped; none of the configurators reads it.
- Container.ContainerBuilder.FindTaggedServiceIds: the form type pass calls `findTaggedServiceIds` without the abstract check, so abstract definitions are found there. Only the configuration pass uses the check (`FindTaggedServiceIdsStrict`).
- FormTypeCompiler.RegisterTypeConfigurators: `SplPriorityQueue`'s order among equal priorities is not fixed by PHP, so only the non-increasing order and the multiset of elements are stated.
- Container.TagPriority reads only integer priorities; any other value counts as 0.
- Container.ContainerBuilder.ReplaceArgument: the index is taken to exist; Symfony's out-of-range error is not modelled.
- Container.ContainerBuilder.RemoveDefinition: the id stays in the registration order; only the definitions map loses it, which is what `findTaggedServiceIds` reads.
- The cache manager (`ConfigCacheManager`) is a stored answer and a record of saves; what it later returns after a save is its business.
- PhpArray.LooseEq: loose comparison (`==`, non-strict `in_array`) follows PHP 8 for booleans, null, and any comparison with a non-numeric string. Numeric strings are compared as strings, where PHP compares them as numbers. This applies to two numeric strings (`"1" == "01"`) and to an integer against a numeric string spelled other than its canonical decimal: `1` against `"01"`, `" 1"`, `"1 "`, `"+1"` or `"1.0"` is false in the model and true in PHP. Floats are not modelled. The lemmas that use loose comparison (`Configuration.ActionEnabledWord`, `Admin.SortWord`) are about non-numeric words, where the model and PHP agree.
- Admin.RedirectToEdit: states the edit redirect only for an `action` that is exactly `new` or `edit`. `redirectToReferrer` tests it with a loose `in_array`, and `Admin.RedirectToReferrer` itself follows that test.
- Reading a key of a non-array (which PHP turns into null with a warning, or a `TypeError` for some functions) is modelled as null and as an empty list.
- `mb_strtolower` and `strtoupper` change ASCII letters only.
- Twig, the property accessor, the Doctrine registry and metadata, `LegacyFormHelper::getType`, `urldecode`, `property_exists`, reflection, the router and the finder are abstract; their internals are not modelled.
- `src/Exception/FlattenException.php`, `src/Search/Finder.php`, `src/Pagination/PaginatorAdapter.php` and `src/Event/PostMenuProcessEvent.php` are delegations or plain beans and are not part of this model.
- There is no concurrency in the code; cache races between processes are not modelled.

