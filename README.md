# AutoMapper (TypeScript/JavaScript) — configuration registry and mapping engine in Dafny

AutoMapper maps a source object to a destination object by rules recorded in advance. A client
calls `createMap(source, destination)` to get a mapping record. Fluent calls then write rules into
it:

- `forMember` and `forSourceMember` add per-member rules;
- `forAllMembers` adds catch-all setter functions;
- `ignoreAllNonExisting` turns off auto-copy;
- `convertToType` sets the destination class;
- `withProfile` merges a profile's version of the mapping.

`map(source, destination, object)` replays the rules against an object, one own property at a
time. A per-member rule is a queue of literal values and functions, folded left to right. A
property without a rule is copied, under a name a profile's naming conventions may derive. An
array is mapped element by element, and falsy results are dropped.

The model follows the compiled `dist/automapper.js`, module by module:

| file | module | what it holds |
|---|---|---|
| `wrappers.dfy` | `Wrappers` | `Option`, `Result`, `Outcome` (for `undefined` and thrown errors) |
| `ordered_dict.dfy` | `OrderedDict` | JavaScript objects used as dictionaries: keys in enumeration order; assignment to an existing key keeps its place, a new key goes last; `delete` |
| `values.dfy` | `Values` | JavaScript values, truthiness, source objects (ordered own properties), destination objects |
| `naming.dfy` | `NamingConventions` | CamelCase/PascalCase `transformPropertyName`; the empty-fragment filter |
| `configuration.dfy` | `Configuration` | rule data, the `Mapping` class with the fluent operations, and the rule-dictionary specifications with their lemmas |
| `engine.dfy` | `Engine` | `mapInternal`, `mapArray`, `mapItem`, `mapProperty`, `mapGetDestinationPropertyName`, `mapSetValue`: each as a method proved equal to a specification function |
| `registry.dfy` | `Registry` | the `AutoMapper` class: mapping and profile tables, `createMap`, a profile's `createMap`, `addProfile`, `withProfile` and its merge, `map` |

User functions are modelled by what they do, not by their code:

- A synchronous member function (zero or one declared parameter) becomes the sequence of stub
  calls its configuration-time invocation makes (`ignore`, `mapFrom`, `condition`), together
  with the total function that is run at mapping time.
- An asynchronous member function (two or more parameters) becomes a tag.

The class-valued fields (`Mapping`, `AutoMapper`) are updated in place, as in the source. Their
methods are specified by the state they leave, and the lemmas are stated over those
specification functions.

## Model

| member | source | states |
|---|---|---|
| OrderedDict.Put | dist/automapper.js:461 | assignment `d[k] = v`: `k` now gives `v`, every other key gives what it gave, an existing key keeps its position and a new key goes last, distinct keys stay distinct |
| OrderedDict.Delete | dist/automapper.js:464 | `delete d[k]`: `k` gives `undefined`, every other key is unchanged, nothing changes when `k` was absent; when it was present exactly its entry is cut out and the others keep their order |
| NamingConventions.CaseFirst | dist/automapper.js:1038-1039 | `charAt(0).toLowerCase()/toUpperCase() + substr(1)`: same length, only the first character may change |
| NamingConventions.TransformPropertyName | dist/automapper.js:1033-1047 | the loop's result equals the concatenation of the cased parts, and its length is the sum of the part lengths |
| NamingConventions.TransformedLength | dist/automapper.js:1063-1071 | the parts are joined without separator: the output length is the sum of the part lengths |
| NamingConventions.TransformedAt | dist/automapper.js:1036-1044 | character by character: the first character of part `i` is lower-cased when CamelCase and `i` = 0, upper-cased otherwise; every other character is copied |
| NamingConventions.PascalUppercasesEveryPart | dist/automapper.js:1066-1068 | PascalCase upper-cases the first character of every part |
| NamingConventions.CamelCasesFirstPartOnly | dist/automapper.js:1037-1043 | CamelCase lower-cases the first character of the first part and upper-cases that of every later part |
| NamingConventions.CamelAndPascalDifferInFirstCharacter | dist/automapper.js:1033-1071 | the two conventions give the same name up to the case of its first character, each convertible into the other |
| NamingConventions.WithoutEmptyParts | dist/automapper.js:860-864 | the filtered parts are no more than the input parts, none is empty, and a part survives exactly when it is non-empty |
| NamingConventions.WithoutEmptyPartsConcat | dist/automapper.js:860-864 | the filter keeps the order of the parts: filtering a concatenation is the concatenation of the filtered halves |
| NamingConventions.WithoutEmptyPartsSingleton | dist/automapper.js:861-863 | a single fragment is spliced out exactly when it is `''` |
| NamingConventions.WithoutEmptyPartsKeepsLength | dist/automapper.js:860-864 | dropping the empty fragments keeps the summed length |
| NamingConventions.EmptyFirstFragmentChangesCamelCase | dist/automapper.js:859-865 | why the filter matters: with an empty first fragment CamelCase would capitalise the first word |
| Configuration.FirstWithDestination | dist/automapper.js:475-486 | the position of the first rule, in enumeration order, with the destination property; no earlier rule has it; None exactly when no rule has it |
| Configuration.CreateMapForMemberFindMember | dist/automapper.js:475-486 | the search loop returns the first rule in enumeration order with the destination property, or nothing |
| Configuration.ApplyStubCalls | dist/automapper.js:496-531 | replaying the stub calls: after `ignore()` the rule is ignored with an empty queue and the function is not queued; without it the queue and flag are unchanged; the source property is the name of the last `mapFrom` call, or the destination property when an `ignore()` comes after it, or unchanged when neither is called; the condition is the predicate of the last `condition` call, or unchanged when there is none; the destination property never changes |
| Configuration.HandleSyncMappingFunction | dist/automapper.js:496-532 | a synchronous member function: the rule is ignored after `ignore()` with an empty queue; otherwise the function is appended to its queue; the destination property never changes |
| Configuration.ConfigureMember | dist/automapper.js:451-456 | the second argument of `forMember`: a literal value or an asynchronous function is appended to the queue, an asynchronous function sets the rule's `async`, and neither touches source property, ignore flag or condition; the destination property never changes |
| Configuration.ConfiguredRule | dist/automapper.js:430-456 | the rule `forMember` configures (the first rule for the destination, or a new one) stays destined at that destination property |
| Configuration.ForMemberRules | dist/automapper.js:427-467 | when the first rule for the destination is ignored the rules are unchanged; otherwise the configured rule is found under its source property |
| Configuration.MapFromSetsSourceProperty | dist/automapper.js:516-518 | `mapFrom(name)` sets the source property to `name` and the function is queued after the existing entries |
| Configuration.IgnoreClearsRule | dist/automapper.js:506-512 | after `forMember(d, o => o.ignore())` the rule under key `d` is ignored, sourced and destined at `d`, with an empty queue |
| Configuration.StoreRule | dist/automapper.js:460-466 | re-keying, corrected (see Findings): the rule is stored under its source property, its original key is gone when the source changed, even when that key is `""`, and no other key changes |
| Configuration.StoreRuleAsWritten | dist/automapper.js:460-466 | re-keying as written: the rule is stored under its source property; when the original key is `""` the rule also stays under `""`; for every other original key it equals the corrected `StoreRule` |
| Configuration.StoreRuleKeepsWellFormed | dist/automapper.js:460-466 | re-keying keeps every rule stored once, under its own source property |
| Configuration.EmptySourceKeySurvivesRekeyAsWritten | dist/automapper.js:460 | as written, a rule whose original source property is "" stays under "" after `mapFrom('x')`, and the dictionary no longer keys rules by source (see Findings) |
| Configuration.ForMemberKeepsWellFormed | dist/automapper.js:427-467 | `forMember` keeps every rule stored once under its own source property |
| Configuration.ForMemberRekeysExistingRule | dist/automapper.js:457-466 | on an existing, not ignored rule: the updated rule is stored under its (possibly new) source property, the old key is deleted when the source changed, no other key changes |
| Configuration.ForMemberStoresNewRule | dist/automapper.js:439-461 | a destination property without a rule gets a new rule destined at it, stored under its source property; no other key changes |
| Configuration.ForMemberOnIgnoredRuleChangesNothing | dist/automapper.js:431-435 | `forMember` on a destination whose first rule is ignored changes nothing |
| Configuration.IgnoreIsSticky | dist/automapper.js:431-435 | when at most one rule has the destination, after ignoring it every later `forMember` on it changes nothing |
| Configuration.IgnoreGuardsOnlyTheFirstRule | dist/automapper.js:431-435 | the ignore guard is per rule: for any two live rules for one destination under distinct keys, `forMember(d, o => o.ignore())` ignores the first, and a later `forMember(d, value)` queues the value on the second |
| Configuration.IgnoreFirstOfTwo | dist/automapper.js:457-466 | ignoring the first of two live rules deletes it from its key and stores it, ignored, under the destination property, behind the second rule |
| Configuration.MapFromFirstOfTwo | dist/automapper.js:457-466 | `mapFrom(name)` on the first of two rules moves it behind the second, under `name`, with the function queued |
| Configuration.LiteralStep | dist/automapper.js:455-462 | `forMember(d, value)` on the first, live rule for `d` queues the value on that rule under its unchanged key |
| Configuration.IgnoredRuleBehindLiveRuleIsReachable | dist/automapper.js:427-486 | six `forSourceMember`/`forMember` calls from an empty rule table reach an ignored rule for `d` behind a live one, after which `forMember('d', 5)` still queues 5 on the live rule |
| Configuration.AsyncFunctionIsQueued | dist/automapper.js:533-537 | an asynchronous member function is the last entry of a rule for the destination, and that rule is flagged async |
| Configuration.ForSourceMemberWritesOneKey | dist/automapper.js:565-588 | `forSourceMember` writes only the key `sourceProperty`: an existing rule is ignored, not async and with an empty queue, or gets the function appended to its queue and the async flag; its other fields are kept; a new rule has the function as its only entry, no condition, and is marked as source-declared and destined at the source name unless ignored |
| Configuration.MergeProfileRuleReplaces | dist/automapper.js:707-716 | a profile rule whose destination has a root rule deletes that root entry and is stored under its own source property; otherwise nothing changes; no other key changes |
| Configuration.MergeProfileRuleKeepsWellFormed | dist/automapper.js:709-716 | one merge step keeps rules keyed by source and never adds to their number |
| Configuration.MergeProfileRule | dist/automapper.js:707-716 | one merge step: with no root rule for the profile rule's destination the rules are unchanged; otherwise the profile rule is under its source property, the root rule's key is gone when it differs, and no other key changes |
| Configuration.ForSourceMemberRules | dist/automapper.js:565-588 | `forSourceMember` writes the key `sourceProperty` and no other; the rule there is ignored exactly when asked to ignore or it already was |
| Configuration.MergeProfileRules | dist/automapper.js:703-717 | merging all profile rules keeps rules keyed by source, and the root never gains rules |
| Configuration.MergeProfileRulesInventsNothing | dist/automapper.js:703-717 | every rule after the merge is a root rule or a profile rule |
| Configuration.Mapping.constructor | dist/automapper.js:306-317 | the new record has no rules and no `forAllMembers` functions, uses the default item mapper, is not async and has no profile |
| Configuration.Mapping.ForMember | dist/automapper.js:427-467 | the rules become `ForMemberRules` of the old rules, with the corrected re-keying of `StoreRule` (it differs from line 460 only when the original key is `""`); the mapping's `async` is set by an accepted asynchronous function and never cleared |
| Configuration.GetKey | dist/automapper.js:889-896 | a string is its own key, a class is keyed by its name |
| Configuration.Mapping.ForSourceMember | dist/automapper.js:546-594 | not a function: error and no change; otherwise the rules become `ForSourceMemberRules` and `async` is set for an asynchronous function |
| Configuration.Mapping.ForAllMembers | dist/automapper.js:601-604 | the function is appended to the `forAllMembers` functions |
| Configuration.Mapping.IgnoreAllNonExisting | dist/automapper.js:611-614 | the flag is set |
| Configuration.Mapping.ConvertToType | dist/automapper.js:622-632 | the destination class can be set once; the same class again is accepted; another class is an error and changes nothing |
| Configuration.Mapping.ConvertUsing | dist/automapper.js:660-661 | the item mapper becomes the type-converter mapper with the given converter |
| Engine.FoldEntriesAppend | dist/automapper.js:819-833 | the queue is folded left to right: a concatenation folds as its first part, then its second from there |
| Engine.UndefinedFunctionIsTransparent | dist/automapper.js:822-826 | a function returning `undefined` keeps the running value, wherever it is queued |
| Engine.LiteralOverridesEarlierEntries | dist/automapper.js:828-831 | a literal replaces the running value: everything queued before it is irrelevant |
| Engine.ApplyForAllConcat | dist/automapper.js:879-883 | the `forAllMembers` functions run in registration order, each on what the previous left |
| Engine.MapSetValue | dist/automapper.js:878-888 | equals `SetValue`: the loop applies every `forAllMembers` function in order, or assigns directly when there is none |
| Engine.MapGetDestinationPropertyName | dist/automapper.js:853-870 | equals `ProfileDestinationName`: the backward splice loop leaves the split without empty fragments; the result is the destination convention's transform of it, or the source name when a convention is missing |
| Engine.ProfileDestinationNameLength | dist/automapper.js:858-865 | a derived name is as long as the split's parts together |
| Engine.FoldMappingValuesAndFunctions | dist/automapper.js:808-834 | the loop over a rule's queue equals the left fold from the source value: a literal replaces the value, a function's result replaces it unless `undefined` |
| Engine.MapProperty | dist/automapper.js:792-852 | `mapProperty` equals `ResolveProperty`, which writes `TargetValue` under `TargetKey` or nothing: ignore, condition, the fold from `sourceObject[prop]`, the write under the rule's destination; without a rule, skip or copy under the derived name |
| Engine.ResolvePropertyWritesAtMostOneKey | dist/automapper.js:796-850 | without `forAllMembers` functions: ignored, failed condition, or no rule under `ignoreAllNonExisting` leave the destination unchanged; otherwise exactly one key is written with the fold's value and every other key is kept |
| Engine.NewDestination | dist/automapper.js:779-784 | the fresh destination is `{}` without a destination class, and the class's own instance properties otherwise |
| Engine.MapItem | dist/automapper.js:754-763 | equals `MapItemResult`: the loop resolves every own source property in enumeration order, starting from a fresh destination |
| Engine.ResolvePropertiesKeys | dist/automapper.js:754-763 | without `forAllMembers` functions, the result has exactly the keys already there and the keys some name is written under: never more, never fewer |
| Engine.MapItemKeys | dist/automapper.js:754-763 | without `forAllMembers` functions, the mapped object has exactly the fresh destination's properties and the keys the source's own properties are written under |
| Engine.UnconfiguredCopiesNames | dist/automapper.js:836-850 | with no configuration each resolved name is copied with its source value and every other property is kept |
| Engine.UnconfiguredMapItemCopiesSource | dist/automapper.js:754-763 | an unconfigured mapping without destination class yields exactly the source's properties and values |
| Engine.IgnoreAllNonExistingWritesOnlyRuleTargets | dist/automapper.js:839-841 | under `ignoreAllNonExisting` every destination property was pre-existing or is the destination of a rule that is not ignored |
| Engine.MapItemUsingTypeConverter | dist/automapper.js:771-778 | equals `ItemResult` for a converter: the converter's result on the source and a fresh destination is returned verbatim |
| Engine.CallMapItemFunction | dist/automapper.js:727 | equals `ItemResult`: dispatches to the default item mapper or the type converter |
| Engine.MapArrayResult | dist/automapper.js:735-746 | the result is no longer than the source array and every element is truthy |
| Engine.MapArrayResultConcat | dist/automapper.js:739-745 | the results keep source order, whatever the item mapper: mapping a concatenation maps its halves one after the other |
| Engine.MapArrayResultSingleton | dist/automapper.js:741-743 | one source element yields its item result, kept exactly when that result is truthy |
| Engine.MapArray | dist/automapper.js:735-746 | the loop keeps the truthy item results in source order |
| Engine.MapArrayKeepsEveryMappedItem | dist/automapper.js:741-743 | with the default item mapper nothing is dropped: element `i` is the mapped element `i` |
| Engine.MapInternalResult | dist/automapper.js:720-728 | fails exactly when the mapping is async, with the async-misuse error; an array maps to at most as many items; an object maps to the item mapper's result |
| Engine.MapInternal | dist/automapper.js:720-728 | the method returns `MapInternalResult` |
| Engine.AsyncMemberMakesMapThrow | dist/automapper.js:720-723 | after `forMember` accepts an asynchronous function, every synchronous `map` throws |
| Engine.MapFromRenamesProperty | dist/automapper.js:834 | `forMember('fullName', o => o.mapFrom('name'))` maps `{name: v}` to `{fullName: v}` |
| Engine.ConditionGatesMember | dist/automapper.js:513-515 | `forMember(d, o => { o.condition(p); … })` on a new rule: mapping skips `d` exactly when `p(source)` is `false`, and otherwise writes `d` with the fold of the queued function (lines 802-806) |
| Engine.IgnoredMemberIsNotMapped | dist/automapper.js:798-800 | `forMember('secret', o => o.ignore())` drops `secret` and copies the rest |
| Registry.MappingKey | dist/automapper.js:305 | the key is the two keys side by side, without separator |
| Registry.MappingKeysCanCollide | dist/automapper.js:305 | two different key pairs can share a mapping record |
| Registry.ProfileKey | dist/automapper.js:982-988 | a non-empty key becomes `profileName=>` followed by the key, so its length grows by the name plus two; the empty key is passed on unprefixed |
| Registry.ProfileCreateMapKeyIsMergeKey | dist/automapper.js:685 | for non-empty keys, the record a profile creates is the one `withProfile` looks up |
| Registry.MergedForAllRunAfterOwn | dist/automapper.js:691-693 | after a merge, the profile's `forAllMembers` functions run after the mapping's own |
| Registry.MergedState | dist/automapper.js:684-719 | the merged record: the mapping's `forAllMembers` functions followed by the profile's, the profile's destination class when it has one, a default item mapper stays default, rules keyed by source and never more of them, and `ignoreAllNonExisting`, profile and `async` unchanged |
| Registry.MergeMemberMappings | dist/automapper.js:703-717 | the merge loop leaves `MergeProfileRules` of the root and profile rules, keyed by source |
| Registry.AutoMapper.CreateMap | dist/automapper.js:297-346 | a fresh record replaces any record under the concatenated key, with the initial state and the destination class of a class argument |
| Registry.AutoMapper.ProfileCreateMap | dist/automapper.js:980-991 | a fresh record with the prefixed keys, no source class and the initial state (no rules, no `forAllMembers` functions, default item mapper, not async, no profile) is stored under the concatenated prefixed keys |
| Registry.AutoMapper.AddProfile | dist/automapper.js:280-283 | the profile is stored under its name |
| Registry.AutoMapper.CreateMapWithProfile | dist/automapper.js:669-677 | an unregistered profile name, or a name whose profile has another name, is an error with no change; otherwise the profile is assigned and the merge applied |
| Registry.AutoMapper.CreateMapWithProfileMergeMappings | dist/automapper.js:684-719 | without a profile record nothing changes; otherwise `forAllMembers` functions are appended, the destination class and converter are taken from the profile when it has them, and the rules are merged |
| Registry.AutoMapper.Map | dist/automapper.js:352-363 | an unknown key pair is a not-found error; otherwise the record maps the input as `MapInternalResult` |

## Left out

- `getClassName` and `getFunctionParameters`: both parse function source text. A class argument
  carries its name (`TypeClass.name`). A member function carries an explicit synchronous or
  asynchronous tag.
- The curried one- and two-argument forms of `createMap` and `map`. Only the full-argument calls
  are modelled.
- `mapAsync` and `AsyncAutoMapper`: they are an unimplemented stub.
- The singleton constructor, `initialize` and the global `automapper` instance.
  - `Registry.AutoMapper.AddProfile` models only the registration step of `addProfile`.
  - The profile's `configure` hook, which creates the profile's records, is the caller's to run
    beforehand.
- User-supplied naming conventions. Only the built-in CamelCase and PascalCase
  `transformPropertyName` are modelled.
- The fallback through the `catch` at lines 867-869 of `mapGetDestinationPropertyName` when
  `split` or a user convention's `transformPropertyName` throws. The splitting function is total
  and the built-in transforms do not throw, so only the throw caused by a missing convention is
  modelled: it keeps the source name.
- The regular expressions of the naming conventions. `NamingConvention.splittingExpression` is
  a function parameter that returns the split parts.
- `convertUsing` validation (`instanceof TypeConverter`, instantiation with `new`, the arity
  check) and `TypeConverter` itself. `Configuration.Mapping.ConvertUsing` takes the converter
  function already resolved, so the "invalid converter" errors are not modelled.
- The separate `typeConverterFunction` field is folded into `ItemMapper`. The profile merge's
  overwrite of the converter therefore shows only when the mapping already maps through a
  converter, the only case in which one mapping's own mapper reads that field.
  - Registry.MergedState: does not carry a converter a profile mapping received by its own
    `withProfile` (lines 694-696) while it maps with the default mapper. In the source that
    hidden converter reaches a mapping that merges this profile mapping and maps through a
    converter; in the model that mapping keeps its own converter.
- `AutoMapperValidator` (`assertConfigurationIsValid`).
- The `try/catch` around the configuration-time call of a member function. The stub calls it
  made before throwing are the `StubCall` sequence.
- Exceptions thrown by user functions at mapping time, and side effects of those functions.
  Member, condition and converter functions are total functions of their arguments.
- Object identity and aliasing.
  - Rules and profiles are values, so a rule object shared by two keys or by a profile and a root
    mapping is modelled as two copies. Mapping records are `Mapping` objects with identity.
  - Registry.AutoMapper.CreateMapWithProfileMergeMappings: does not model later in-place changes
    to a profile rule object that is now also a root rule.
  - Configuration.Mapping.ConvertToType: compares classes by value where the source uses `===`.
- `forAllMembers` functions mutate the destination object. The model has them return the
  destination object they leave.
- A destination class's constructor is its list of own instance properties.
- The order of the destination object's properties. The destination is an unordered map from
  property names to values, so enumerating the mapped object, or serialising it, is not modelled.
- Dictionary lookups that reach the prototype chain (a source property named `constructor`, say),
  and the enumeration order JavaScript gives integer-like keys. Keys enumerate in insertion order.
- Numbers are integers: no floating point, `NaN` or `-0`. `toUpperCase`/`toLowerCase` change
  ASCII letters only.
- Registry.AutoMapper.ProfileCreateMap: takes string keys, as its declared parameters do. A class
  passed there would be prefixed with its source text, which is not modelled.
- Array elements that are not objects. `mapArray` maps a sequence of source objects.

## Findings

| source | as written | input that shows it | evidently intended | confidence | as-written member | corrected member |
|---|---|---|---|---|---|---|
| dist/automapper.js:460 | `!originalSourcePropertyName` is true for the original source property `""`. A rule found under key `""` is then stored under its new source property and never deleted from `""`. | `createMap('a','b').forMember('', 1).forMember('', o => o.mapFrom('x'))` leaves the rule under both `""` and `"x"` | test for "no rule was found" (`=== undefined`), so `""` is deleted like any other original key | not executed | Configuration.EmptySourceKeySurvivesRekeyAsWritten | Configuration.StoreRule |
