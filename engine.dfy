/**
 * The mapping engine: how a mapping record turns a source object into a destination object.
 * Each operation is a method that does what the mapper does, step by step, proved equal to a
 * specification function; the lemmas state what those functions guarantee.
 */
module Engine {
  import opened Wrappers
  import opened OrderedDict
  import opened Values
  import opened NamingConventions
  import opened Configuration

  // ---------------------------------------------------------------------------------------
  // Values and functions of a rule

  /** One entry of a rule applied to the running value: a literal replaces it; a function's
      result replaces it unless the function returns `undefined`. */
  function Step(sourceObject: SourceObject, sourcePropertyName: string, current: Value, entry: MappingEntry): Value {
    match entry
    case Literal(v) => v
    case Fn(f) =>
      var v := f(sourceObject, sourcePropertyName, current);
      if v.Undefined? then current else v
  }

  /** The running value after the entries, in order, starting from `initial`. */
  function FoldEntries(sourceObject: SourceObject, sourcePropertyName: string, initial: Value, entries: seq<MappingEntry>): Value {
    if entries == [] then initial
    else Step(sourceObject, sourcePropertyName,
      FoldEntries(sourceObject, sourcePropertyName, initial, entries[..|entries| - 1]), entries[|entries| - 1])
  }

  /** Entries are applied in order: the fold over a concatenation continues from the fold over
      its first part. */
  lemma {:induction false} FoldEntriesAppend(sourceObject: SourceObject, sourcePropertyName: string, initial: Value,
    first: seq<MappingEntry>, second: seq<MappingEntry>)
    ensures FoldEntries(sourceObject, sourcePropertyName, initial, first + second)
      == FoldEntries(sourceObject, sourcePropertyName, FoldEntries(sourceObject, sourcePropertyName, initial, first), second)
  {
    if second == [] {
      assert first + second == first;
    } else {
      var n := |second| - 1;
      assert (first + second)[..|first + second| - 1] == first + second[..n];
      assert (first + second)[|first + second| - 1] == second[n];
      FoldEntriesAppend(sourceObject, sourcePropertyName, initial, first, second[..n]);
    }
  }

  /** A function that returns `undefined` on every input changes nothing where it is queued. */
  lemma UndefinedFunctionIsTransparent(sourceObject: SourceObject, sourcePropertyName: string, initial: Value,
    before: seq<MappingEntry>, f: MemberFunction, after: seq<MappingEntry>)
    requires forall s, n, v :: f(s, n, v) == Undefined
    ensures FoldEntries(sourceObject, sourcePropertyName, initial, before + [Fn(f)] + after)
      == FoldEntries(sourceObject, sourcePropertyName, initial, before + after)
  {
    var mid := FoldEntries(sourceObject, sourcePropertyName, initial, before);
    FoldEntriesAppend(sourceObject, sourcePropertyName, initial, before + [Fn(f)], after);
    FoldEntriesAppend(sourceObject, sourcePropertyName, initial, before, [Fn(f)]);
    assert [Fn(f)][..0] == [];
    assert FoldEntries(sourceObject, sourcePropertyName, initial, before + [Fn(f)]) == mid;
    FoldEntriesAppend(sourceObject, sourcePropertyName, initial, before, after);
  }

  /** A literal value discards everything before it: the result is the fold of the entries after
      it, starting from the literal. */
  lemma LiteralOverridesEarlierEntries(sourceObject: SourceObject, sourcePropertyName: string, initial: Value,
    before: seq<MappingEntry>, v: Value, after: seq<MappingEntry>)
    ensures FoldEntries(sourceObject, sourcePropertyName, initial, before + [Literal(v)] + after)
      == FoldEntries(sourceObject, sourcePropertyName, v, after)
  {
    FoldEntriesAppend(sourceObject, sourcePropertyName, initial, before + [Literal(v)], after);
    assert (before + [Literal(v)])[..|before|] == before;
  }

  // ---------------------------------------------------------------------------------------
  // mapSetValue

  /** The destination object after every `forAllMembers` function was called, in registration
      order. */
  function ApplyForAll(forAllMemberMappings: seq<ForAllFunction>, destinationObject: Destination,
    destinationPropertyName: string, destinationPropertyValue: Value): Destination
  {
    if forAllMemberMappings == [] then destinationObject
    else
      var n := |forAllMemberMappings| - 1;
      forAllMemberMappings[n](ApplyForAll(forAllMemberMappings[..n], destinationObject, destinationPropertyName, destinationPropertyValue),
        destinationPropertyName, destinationPropertyValue)
  }

  /** Functions registered later see what earlier ones left: applying a concatenation is applying
      its parts one after the other. */
  lemma {:induction false} ApplyForAllConcat(first: seq<ForAllFunction>, second: seq<ForAllFunction>,
    destinationObject: Destination, destinationPropertyName: string, destinationPropertyValue: Value)
    ensures ApplyForAll(first + second, destinationObject, destinationPropertyName, destinationPropertyValue)
      == ApplyForAll(second, ApplyForAll(first, destinationObject, destinationPropertyName, destinationPropertyValue),
           destinationPropertyName, destinationPropertyValue)
  {
    if second == [] {
      assert first + second == first;
    } else {
      var n := |second| - 1;
      assert (first + second)[..|first + second| - 1] == first + second[..n];
      assert (first + second)[|first + second| - 1] == second[n];
      ApplyForAllConcat(first, second[..n], destinationObject, destinationPropertyName, destinationPropertyValue);
    }
  }

  /** The destination after `mapSetValue`: the `forAllMembers` functions when there are any,
      otherwise a plain assignment. */
  function SetValue(forAllMemberMappings: seq<ForAllFunction>, destinationObject: Destination,
    destinationPropertyName: string, destinationPropertyValue: Value): Destination
  {
    if |forAllMemberMappings| > 0 then ApplyForAll(forAllMemberMappings, destinationObject, destinationPropertyName, destinationPropertyValue)
    else destinationObject[destinationPropertyName := destinationPropertyValue]
  }

  method MapSetValue(mapping: Mapping, destinationObject: Destination, destinationPropertyName: string, destinationPropertyValue: Value)
    returns (result: Destination)
    ensures result == SetValue(mapping.forAllMemberMappings, destinationObject, destinationPropertyName, destinationPropertyValue)
  {
    var forAll := mapping.forAllMemberMappings;
    if |forAll| > 0 {
      result := destinationObject;
      for i := 0 to |forAll|
        invariant result == ApplyForAll(forAll[..i], destinationObject, destinationPropertyName, destinationPropertyValue)
      {
        assert forAll[..i + 1][..i] == forAll[..i];
        result := forAll[i](result, destinationPropertyName, destinationPropertyValue);
      }
      assert forAll[..|forAll|] == forAll;
    } else {
      result := destinationObject[destinationPropertyName := destinationPropertyValue];
    }
  }

  // ---------------------------------------------------------------------------------------
  // mapGetDestinationPropertyName

  /**
   * The destination property name a profile gives an unconfigured source property: the source
   * convention's split, without empty fragments, put together by the destination convention.
   * A profile missing either convention makes the lookup throw, and the source name is kept.
   */
  function ProfileDestinationName(profile: Profile, sourcePropertyName: string): string {
    match (profile.sourceMemberNamingConvention, profile.destinationMemberNamingConvention)
    case (Some(source), Some(destination)) =>
      Transformed(destination.casing, WithoutEmptyParts(source.splittingExpression(sourcePropertyName)))
    case _ => sourcePropertyName
  }

  method MapGetDestinationPropertyName(profile: Profile, sourcePropertyName: string) returns (name: string)
    ensures name == ProfileDestinationName(profile, sourcePropertyName)
  {
    if profile.sourceMemberNamingConvention.None? || profile.destinationMemberNamingConvention.None? {
      return sourcePropertyName;
    }
    var split := profile.sourceMemberNamingConvention.value.splittingExpression(sourcePropertyName);
    var sourcePropertyNameParts := split;
    var index := |split|;
    while index > 0
      invariant 0 <= index <= |split|
      invariant sourcePropertyNameParts == split[..index] + WithoutEmptyParts(split[index..])
    {
      index := index - 1;
      assert split[index..][1..] == split[index + 1..];
      assert sourcePropertyNameParts[index] == split[index];
      if sourcePropertyNameParts[index] == "" {
        assert split[..index + 1] == split[..index] + [""];
        sourcePropertyNameParts := sourcePropertyNameParts[..index] + sourcePropertyNameParts[index + 1..];
      } else {
        assert split[..index + 1] == split[..index] + [split[index]];
      }
    }
    assert split[..0] == [] && split[0..] == split;
    assert sourcePropertyNameParts == WithoutEmptyParts(split);
    name := TransformPropertyName(profile.destinationMemberNamingConvention.value.casing, sourcePropertyNameParts);
  }

  /** The profile's name has the summed length of the split's parts: casing changes characters
      but neither adds nor drops any. */
  lemma ProfileDestinationNameLength(profile: Profile, sourcePropertyName: string)
    requires profile.sourceMemberNamingConvention.Some? && profile.destinationMemberNamingConvention.Some?
    ensures |ProfileDestinationName(profile, sourcePropertyName)|
      == SumLengths(profile.sourceMemberNamingConvention.value.splittingExpression(sourcePropertyName))
  {
    var parts := profile.sourceMemberNamingConvention.value.splittingExpression(sourcePropertyName);
    TransformedLength(profile.destinationMemberNamingConvention.value.casing, WithoutEmptyParts(parts));
    WithoutEmptyPartsKeepsLength(parts);
  }

  /** The destination name of an unconfigured source property: the profile's name, or the source
      name itself without a profile. */
  function AutoDestinationName(profile: Option<Profile>, sourcePropertyName: string): string {
    match profile
    case Some(p) => ProfileDestinationName(p, sourcePropertyName)
    case None => sourcePropertyName
  }

  // ---------------------------------------------------------------------------------------
  // mapProperty

  /** A destination property name used as an object key; `undefined` becomes "undefined". */
  function PropertyKey(destinationProperty: Option<string>): string {
    destinationProperty.GetOr("undefined")
  }

  /** Whether a rule's condition, if any, lets the member through: only `false` stops it. */
  predicate ConditionHolds(rule: MemberMapping, sourceObject: SourceObject) {
    rule.conditionFunction.None? || rule.conditionFunction.value(sourceObject) != Bool(false)
  }

  /** The key `mapProperty` would write for a source property, if it writes one. */
  function TargetKey(state: MappingState, sourceObject: SourceObject, sourcePropertyName: string): Option<string> {
    match Get(state.forMemberMappings, sourcePropertyName)
    case Some(rule) =>
      if rule.ignore || !ConditionHolds(rule, sourceObject) then None else Some(PropertyKey(rule.destinationProperty))
    case None =>
      if state.ignoreAllNonExisting then None else Some(AutoDestinationName(state.profile, sourcePropertyName))
  }

  /** The value `mapProperty` would write for a source property. */
  function TargetValue(state: MappingState, sourceObject: SourceObject, sourcePropertyName: string): Value {
    match Get(state.forMemberMappings, sourcePropertyName)
    case Some(rule) =>
      FoldEntries(sourceObject, sourcePropertyName, Property(sourceObject, sourcePropertyName), rule.mappingValuesAndFunctions)
    case None => Property(sourceObject, sourcePropertyName)
  }

  /** The destination after `mapProperty`. */
  function ResolveProperty(state: MappingState, sourceObject: SourceObject, sourcePropertyName: string,
    destinationObject: Destination): Destination
  {
    match TargetKey(state, sourceObject, sourcePropertyName)
    case None => destinationObject
    case Some(key) =>
      SetValue(state.forAllMemberMappings, destinationObject, key, TargetValue(state, sourceObject, sourcePropertyName))
  }

  /** The loop of `mapProperty` over a rule's values and functions, from the source value. */
  method FoldMappingValuesAndFunctions(sourceObject: SourceObject, sourcePropertyName: string, entries: seq<MappingEntry>)
    returns (destinationPropertyValue: Value)
    ensures destinationPropertyValue == FoldEntries(sourceObject, sourcePropertyName, Property(sourceObject, sourcePropertyName), entries)
  {
    destinationPropertyValue := Property(sourceObject, sourcePropertyName);
    for i := 0 to |entries|
      invariant destinationPropertyValue
        == FoldEntries(sourceObject, sourcePropertyName, Property(sourceObject, sourcePropertyName), entries[..i])
    {
      assert entries[..i + 1][..i] == entries[..i];
      match entries[i] {
        case Fn(f) =>
          var v := f(sourceObject, sourcePropertyName, destinationPropertyValue);
          if !v.Undefined? {
            destinationPropertyValue := v;
          }
        case Literal(v) =>
          destinationPropertyValue := v;
      }
    }
    assert entries[..|entries|] == entries;
  }

  /**
   * `mapProperty`: an ignored rule, or one whose condition returns `false`, writes nothing; a rule
   * otherwise writes the fold of its values and functions, starting from the source value, to its
   * destination property; a property without a rule is skipped under `ignoreAllNonExisting` and
   * otherwise copied under the profile's name for it.
   */
  method MapProperty(mapping: Mapping, sourceObject: SourceObject, sourcePropertyName: string, destinationObject: Destination)
    returns (result: Destination)
    ensures result == ResolveProperty(mapping.State(), sourceObject, sourcePropertyName, destinationObject)
  {
    ghost var state := mapping.State();
    var propertyMapping := Get(mapping.forMemberMappings, sourcePropertyName);
    assert propertyMapping == Get(state.forMemberMappings, sourcePropertyName);
    if propertyMapping.Some? {
      var rule := propertyMapping.value;
      if rule.ignore {
        return destinationObject;
      }
      if rule.conditionFunction.Some? {
        if rule.conditionFunction.value(sourceObject) == Bool(false) {
          return destinationObject;
        }
      }
      var destinationPropertyValue := FoldMappingValuesAndFunctions(sourceObject, sourcePropertyName, rule.mappingValuesAndFunctions);
      assert TargetKey(state, sourceObject, sourcePropertyName) == Some(PropertyKey(rule.destinationProperty));
      assert TargetValue(state, sourceObject, sourcePropertyName) == destinationPropertyValue;
      result := MapSetValue(mapping, destinationObject, PropertyKey(rule.destinationProperty), destinationPropertyValue);
    } else {
      if mapping.ignoreAllNonExisting {
        return destinationObject;
      }
      var destinationPropertyName := sourcePropertyName;
      if mapping.profile.Some? {
        destinationPropertyName := MapGetDestinationPropertyName(mapping.profile.value, sourcePropertyName);
      }
      assert TargetKey(state, sourceObject, sourcePropertyName) == Some(destinationPropertyName);
      result := MapSetValue(mapping, destinationObject, destinationPropertyName, Property(sourceObject, sourcePropertyName));
    }
  }

  /** Without `forAllMembers` functions, `mapProperty` assigns at most one key and leaves every
      other key as it was. */
  lemma ResolvePropertyWritesAtMostOneKey(state: MappingState, sourceObject: SourceObject, sourcePropertyName: string,
    destinationObject: Destination)
    requires |state.forAllMemberMappings| == 0
    ensures var r := ResolveProperty(state, sourceObject, sourcePropertyName, destinationObject);
      match TargetKey(state, sourceObject, sourcePropertyName)
      case None => r == destinationObject
      case Some(key) =>
        && r.Keys == destinationObject.Keys + {key}
        && r[key] == TargetValue(state, sourceObject, sourcePropertyName)
        && forall k :: k in destinationObject && k != key ==> r[k] == destinationObject[k]
  {
  }

  // ---------------------------------------------------------------------------------------
  // mapItem

  /** A fresh destination: the new instance's own properties, or an empty object literal. */
  function NewDestination(destinationTypeClass: Option<TypeClass>): (r: Destination)
    ensures destinationTypeClass.None? ==> r == map[]
    ensures destinationTypeClass.Some? ==> r == destinationTypeClass.value.instanceFields
  {
    match destinationTypeClass
    case Some(t) => t.instanceFields
    case None => map[]
  }

  /** The destination after `mapProperty` on each of the names, in order. */
  function ResolveProperties(state: MappingState, sourceObject: SourceObject, names: seq<string>, destinationObject: Destination)
    : Destination
  {
    if names == [] then destinationObject
    else ResolveProperty(state, sourceObject, names[|names| - 1],
      ResolveProperties(state, sourceObject, names[..|names| - 1], destinationObject))
  }

  /** The destination object `mapItem` returns: every own source property, in enumeration order. */
  function MapItemResult(state: MappingState, sourceObject: SourceObject): Destination {
    ResolveProperties(state, sourceObject, Keys(sourceObject), NewDestination(state.destinationTypeClass))
  }

  method MapItem(mapping: Mapping, sourceObject: SourceObject) returns (destinationObject: Destination)
    ensures destinationObject == MapItemResult(mapping.State(), sourceObject)
  {
    destinationObject := NewDestination(mapping.destinationTypeClass);
    ghost var initial := destinationObject;
    var names := Keys(sourceObject);
    for i := 0 to |names|
      invariant destinationObject == ResolveProperties(mapping.State(), sourceObject, names[..i], initial)
    {
      assert names[..i + 1][..i] == names[..i];
      destinationObject := MapProperty(mapping, sourceObject, names[i], destinationObject);
    }
    assert names[..|names|] == names;
  }

  /** A mapping with no configuration: no rules, no `forAllMembers` functions, no
      `ignoreAllNonExisting` and no profile. */
  predicate Unconfigured(state: MappingState) {
    state.forMemberMappings == [] && |state.forAllMemberMappings| == 0 && !state.ignoreAllNonExisting && state.profile.None?
  }

  /** An unconfigured mapping copies each of the names from the source and keeps the rest. */
  lemma {:induction false} UnconfiguredCopiesNames(state: MappingState, sourceObject: SourceObject, names: seq<string>,
    destinationObject: Destination)
    requires Unconfigured(state)
    ensures var r := ResolveProperties(state, sourceObject, names, destinationObject);
      && (forall k :: k in r <==> k in destinationObject || k in names)
      && (forall k :: k in names ==> r[k] == Property(sourceObject, k))
      && (forall k :: k in destinationObject && k !in names ==> r[k] == destinationObject[k])
  {
    if names != [] {
      var n := |names| - 1;
      UnconfiguredCopiesNames(state, sourceObject, names[..n], destinationObject);
      assert forall k :: k in names <==> k in names[..n] || k == names[n] by {
        assert names == names[..n] + [names[n]];
      }
    }
  }

  /** Mapping with an unconfigured mapping and no destination class copies the source object:
      the same properties with the same values. */
  lemma UnconfiguredMapItemCopiesSource(state: MappingState, sourceObject: SourceObject)
    requires Unconfigured(state) && state.destinationTypeClass.None?
    ensures var r := MapItemResult(state, sourceObject);
      && (forall k :: k in r <==> k in Keys(sourceObject))
      && (forall k :: k in r ==> r[k] == Property(sourceObject, k))
  {
    UnconfiguredCopiesNames(state, sourceObject, Keys(sourceObject), map[]);
  }

  /** A destination property some rule that is not ignored writes to. */
  ghost predicate RuleTarget(rules: Dict<MemberMapping>, key: string) {
    exists i :: 0 <= i < |rules| && !rules[i].1.ignore && PropertyKey(rules[i].1.destinationProperty) == key
  }

  /** Under `ignoreAllNonExisting` and without `forAllMembers` functions, every property of the
      destination was already there or is the destination of a rule that is not ignored. */
  lemma {:induction false} IgnoreAllNonExistingWritesOnlyRuleTargets(state: MappingState, sourceObject: SourceObject,
    names: seq<string>, destinationObject: Destination)
    requires state.ignoreAllNonExisting && |state.forAllMemberMappings| == 0
    ensures forall k :: k in ResolveProperties(state, sourceObject, names, destinationObject) ==>
      k in destinationObject || RuleTarget(state.forMemberMappings, k)
  {
    if names != [] {
      var n := |names| - 1;
      var before := ResolveProperties(state, sourceObject, names[..n], destinationObject);
      IgnoreAllNonExistingWritesOnlyRuleTargets(state, sourceObject, names[..n], destinationObject);
      ResolvePropertyWritesAtMostOneKey(state, sourceObject, names[n], before);
      match Get(state.forMemberMappings, names[n]) {
        case Some(rule) =>
          var i :| 0 <= i < |state.forMemberMappings| && state.forMemberMappings[i].0 == names[n]
            && state.forMemberMappings[i].1 == rule;
          if !rule.ignore {
            assert RuleTarget(state.forMemberMappings, PropertyKey(rule.destinationProperty));
          }
        case None =>
      }
    }
  }

  /** The key `mapProperty` writes for each of the names, in order (`None` where it writes none). */
  function TargetKeys(state: MappingState, sourceObject: SourceObject, names: seq<string>): (r: seq<Option<string>>)
    ensures |r| == |names|
    ensures forall i :: 0 <= i < |names| ==> r[i] == TargetKey(state, sourceObject, names[i])
  {
    if names == [] then []
    else TargetKeys(state, sourceObject, names[..|names| - 1]) + [TargetKey(state, sourceObject, names[|names| - 1])]
  }

  /** Without `forAllMembers` functions, resolving the names yields exactly the keys that were
      already there and the keys one of the names writes: never more, never fewer. */
  lemma {:induction false} ResolvePropertiesKeys(state: MappingState, sourceObject: SourceObject, names: seq<string>,
    destinationObject: Destination)
    requires |state.forAllMemberMappings| == 0
    ensures forall k :: k in ResolveProperties(state, sourceObject, names, destinationObject) <==>
      k in destinationObject || Some(k) in TargetKeys(state, sourceObject, names)
  {
    if names != [] {
      var n := |names| - 1;
      var before := ResolveProperties(state, sourceObject, names[..n], destinationObject);
      ResolvePropertiesKeys(state, sourceObject, names[..n], destinationObject);
      ResolvePropertyWritesAtMostOneKey(state, sourceObject, names[n], before);
    }
  }

  /** Without `forAllMembers` functions, the object `mapItem` returns has exactly the fresh
      destination's properties and the keys the source's own properties are written under. */
  lemma MapItemKeys(state: MappingState, sourceObject: SourceObject)
    requires |state.forAllMemberMappings| == 0
    ensures forall k :: k in MapItemResult(state, sourceObject) <==>
      k in NewDestination(state.destinationTypeClass) || Some(k) in TargetKeys(state, sourceObject, Keys(sourceObject))
  {
    ResolvePropertiesKeys(state, sourceObject, Keys(sourceObject), NewDestination(state.destinationTypeClass));
  }

  // ---------------------------------------------------------------------------------------
  // mapItemUsingTypeConverter, mapArray, mapInternal

  /** What the mapping's item mapper returns for one source object. */
  function ItemResult(state: MappingState, sourceObject: SourceObject): Value {
    match state.mapItemFunction
    case UseMapItem => Object(MapItemResult(state, sourceObject))
    case UseTypeConverter(convert) => convert(sourceObject, NewDestination(state.destinationTypeClass))
  }

  /** `mapItemUsingTypeConverter`: the converter gets the source object and a fresh destination. */
  method MapItemUsingTypeConverter(mapping: Mapping, sourceObject: SourceObject) returns (result: Value)
    requires mapping.mapItemFunction.UseTypeConverter?
    ensures result == ItemResult(mapping.State(), sourceObject)
  {
    var destinationObject := NewDestination(mapping.destinationTypeClass);
    result := mapping.mapItemFunction.typeConverterFunction(sourceObject, destinationObject);
  }

  /** `mapping.mapItemFunction.call(...)`. */
  method CallMapItemFunction(mapping: Mapping, sourceObject: SourceObject) returns (result: Value)
    ensures result == ItemResult(mapping.State(), sourceObject)
  {
    if mapping.mapItemFunction.UseMapItem? {
      var destinationObject := MapItem(mapping, sourceObject);
      result := Object(destinationObject);
    } else {
      result := MapItemUsingTypeConverter(mapping, sourceObject);
    }
  }

  /** The array `mapArray` returns: the item results, in order, with the falsy ones dropped. */
  function MapArrayResult(state: MappingState, sourceArray: seq<SourceObject>): (r: seq<Value>)
    ensures |r| <= |sourceArray|
    ensures forall i :: 0 <= i < |r| ==> Truthy(r[i])
  {
    if sourceArray == [] then []
    else
      var n := |sourceArray| - 1;
      var item := ItemResult(state, sourceArray[n]);
      MapArrayResult(state, sourceArray[..n]) + (if Truthy(item) then [item] else [])
  }

  method MapArray(mapping: Mapping, sourceArray: seq<SourceObject>) returns (destinationArray: seq<Value>)
    ensures destinationArray == MapArrayResult(mapping.State(), sourceArray)
  {
    destinationArray := [];
    for index := 0 to |sourceArray|
      invariant destinationArray == MapArrayResult(mapping.State(), sourceArray[..index])
    {
      assert sourceArray[..index + 1][..index] == sourceArray[..index];
      var destinationObject := CallMapItemFunction(mapping, sourceArray[index]);
      if Truthy(destinationObject) {
        destinationArray := destinationArray + [destinationObject];
      }
    }
    assert sourceArray[..|sourceArray|] == sourceArray;
  }

  /** With the default item mapper nothing is dropped: element i of the result is the mapped
      element i of the source array. */
  lemma {:induction false} MapArrayKeepsEveryMappedItem(state: MappingState, sourceArray: seq<SourceObject>)
    requires state.mapItemFunction.UseMapItem?
    ensures |MapArrayResult(state, sourceArray)| == |sourceArray|
    ensures forall i :: 0 <= i < |sourceArray| ==>
      MapArrayResult(state, sourceArray)[i] == Object(MapItemResult(state, sourceArray[i]))
  {
    if sourceArray != [] {
      var n := |sourceArray| - 1;
      var init := sourceArray[..n];
      MapArrayKeepsEveryMappedItem(state, init);
      var item := ItemResult(state, sourceArray[n]);
      assert Truthy(item);
      var r, front := MapArrayResult(state, sourceArray), MapArrayResult(state, init);
      assert r == front + [item];
      assert r[n] == item == Object(MapItemResult(state, sourceArray[n]));
      forall i | 0 <= i < n ensures r[i] == Object(MapItemResult(state, sourceArray[i])) {
        assert r[i] == front[i];
        assert init[i] == sourceArray[i];
      }
    }
  }

  /** `mapArray` keeps the order of the source array: mapping a concatenation is mapping its
      halves one after the other. */
  lemma {:induction false} MapArrayResultConcat(state: MappingState, first: seq<SourceObject>, second: seq<SourceObject>)
    ensures MapArrayResult(state, first + second) == MapArrayResult(state, first) + MapArrayResult(state, second)
    decreases |second|
  {
    if second == [] {
      assert first + second == first;
    } else {
      var n := |second| - 1;
      assert (first + second)[..|first + second| - 1] == first + second[..n];
      assert (first + second)[|first + second| - 1] == second[n];
      MapArrayResultConcat(state, first, second[..n]);
    }
  }

  /** One source element becomes its item result, kept exactly when that result is truthy. */
  lemma MapArrayResultSingleton(state: MappingState, sourceObject: SourceObject)
    ensures MapArrayResult(state, [sourceObject])
      == if Truthy(ItemResult(state, sourceObject)) then [ItemResult(state, sourceObject)] else []
  {
    assert [sourceObject][..0] == [];
  }

  /** The source given to `map`: one object, or an array of objects. */
  datatype Input = Single(sourceObject: SourceObject) | Batch(sourceArray: seq<SourceObject>)

  /** The result of `map`: one mapped value, or the destination array. */
  datatype Output = Item(value: Value) | Items(values: seq<Value>)

  /** What `mapInternal` returns or throws. */
  function MapInternalResult(state: MappingState, input: Input): (r: Result<Output, Error>)
    ensures r.Failure? <==> state.async
    ensures r.Failure? ==> r.error == AsyncMappingMisuse
    ensures r.Success? && input.Batch? ==> r.value.Items? && |r.value.values| <= |input.sourceArray|
    ensures r.Success? && input.Single? ==> r.value == Item(ItemResult(state, input.sourceObject))
  {
    if state.async then Failure(AsyncMappingMisuse)
    else match input
      case Batch(sourceArray) => Success(Items(MapArrayResult(state, sourceArray)))
      case Single(sourceObject) => Success(Item(ItemResult(state, sourceObject)))
  }

  method MapInternal(mapping: Mapping, input: Input) returns (r: Result<Output, Error>)
    ensures r == MapInternalResult(mapping.State(), input)
  {
    if mapping.async {
      return Failure(AsyncMappingMisuse);
    }
    match input {
      case Batch(sourceArray) =>
        var destinationArray := MapArray(mapping, sourceArray);
        return Success(Items(destinationArray));
      case Single(sourceObject) =>
        var destinationObject := CallMapItemFunction(mapping, sourceObject);
        return Success(Item(destinationObject));
    }
  }

  // ---------------------------------------------------------------------------------------
  // Configuration and mapping together

  /** An asynchronous member function that `forMember` accepts makes every synchronous `map`
      with the mapping throw. */
  lemma AsyncMemberMakesMapThrow(state: MappingState, destinationProperty: string, f: MemberFunction, input: Input)
    requires ForMemberApplies(state.forMemberMappings, destinationProperty)
    ensures var configured := state.(
        forMemberMappings := ForMemberRules(state.forMemberMappings, destinationProperty, AsyncFunction(f)),
        async := ForMemberAsync(state.async, state.forMemberMappings, destinationProperty, AsyncFunction(f)));
      MapInternalResult(configured, input) == Failure(AsyncMappingMisuse)
  {
  }

  /**
   * `forMember(d, opts => opts.condition(p))` on a destination property without a rule: when
   * mapping, the source property `d` is written exactly when `p` does not return `false`, and
   * then with the fold of the queued function.
   */
  lemma ConditionGatesMember(state: MappingState, sourceObject: SourceObject, destinationProperty: string,
    p: ConditionFunction, f: MemberFunction, destinationObject: Destination)
    requires FindMember(state.forMemberMappings, Some(destinationProperty)).None?
    ensures var configured := state.(forMemberMappings :=
        ForMemberRules(state.forMemberMappings, destinationProperty, SyncFunction([Condition(p)], f)));
      && TargetKey(configured, sourceObject, destinationProperty)
        == (if p(sourceObject) == Bool(false) then None else Some(destinationProperty))
      && (p(sourceObject) == Bool(false) ==>
          ResolveProperty(configured, sourceObject, destinationProperty, destinationObject) == destinationObject)
      && (p(sourceObject) != Bool(false) ==>
          ResolveProperty(configured, sourceObject, destinationProperty, destinationObject)
          == SetValue(state.forAllMemberMappings, destinationObject, destinationProperty,
               FoldEntries(sourceObject, destinationProperty, Property(sourceObject, destinationProperty), [Fn(f)])))
  {
    var d := destinationProperty;
    var calls := [Condition(p)];
    assert calls[1..] == [];
    var conditioned := NewMemberMapping(d).(conditionFunction := Some(p));
    assert ApplyStubCalls(NewMemberMapping(d), d, calls, true) == (conditioned, true);
    var rule := conditioned.(mappingValuesAndFunctions := [Fn(f)]);
    assert ConfigureMember(NewMemberMapping(d), d, SyncFunction(calls, f)) == rule;
    var rules := ForMemberRules(state.forMemberMappings, d, SyncFunction(calls, f));
    assert rules == Put(state.forMemberMappings, d, rule);
    assert Get(rules, d) == Some(rule);
  }

  /** The state of a mapping whose only configuration is the given rules. */
  function WithRules(rules: Dict<MemberMapping>): MappingState {
    MappingState([], rules, UseMapItem, None, false, None, false)
  }

  /** `forMember('fullName', opts => opts.mapFrom('name'))` maps source property `name` to
      destination property `fullName`, and only there. */
  lemma MapFromRenamesProperty(sourceObject: SourceObject, f: MemberFunction)
    requires Keys(sourceObject) == ["name"]
    requires forall s, n, v :: f(s, n, v) == Undefined
    ensures var rules := ForMemberRules([], "fullName", SyncFunction([MapFrom("name")], f));
      MapItemResult(WithRules(rules), sourceObject) == map["fullName" := Property(sourceObject, "name")]
  {
    assert [MapFrom("name")][1..] == [];
    var rule := MemberMapping("name", Some("fullName"), false, [Fn(f)], false, false, None);
    assert ConfigureMember(NewMemberMapping("fullName"), "fullName", SyncFunction([MapFrom("name")], f)) == rule;
    var rules := ForMemberRules([], "fullName", SyncFunction([MapFrom("name")], f));
    assert rules == [("name", rule)];
    assert ["name"][..0] == [];
    assert [Fn(f)][..0] == [];
    var value := Property(sourceObject, "name");
    assert Get(rules, "name") == Some(rule);
    assert FoldEntries(sourceObject, "name", value, [Fn(f)]) == Step(sourceObject, "name", value, Fn(f));
    assert f(sourceObject, "name", value) == Undefined;
    var state := WithRules(rules);
    assert TargetValue(state, sourceObject, "name") == value;
    assert TargetKey(state, sourceObject, "name") == Some("fullName");
    assert ResolveProperties(state, sourceObject, [], map[]) == map[];
    assert ResolveProperties(state, sourceObject, ["name"], map[]) == ResolveProperty(state, sourceObject, "name", map[]);
  }

  /** `forMember('secret', opts => opts.ignore())`: the source property `secret` is not mapped
      while the other properties are copied. */
  lemma IgnoredMemberIsNotMapped(sourceObject: SourceObject, f: MemberFunction)
    requires Keys(sourceObject) == ["secret", "name"]
    ensures var rules := ForMemberRules([], "secret", SyncFunction([Ignore], f));
      MapItemResult(WithRules(rules), sourceObject) == map["name" := Property(sourceObject, "name")]
  {
    assert [Ignore][1..] == [];
    var rule := MemberMapping("secret", Some("secret"), false, [], true, false, None);
    assert ConfigureMember(NewMemberMapping("secret"), "secret", SyncFunction([Ignore], f)) == rule;
    var rules := ForMemberRules([], "secret", SyncFunction([Ignore], f));
    assert rules == [("secret", rule)];
    assert ["secret", "name"][..1] == ["secret"];
    assert ["secret"][..0] == [];
    var state := WithRules(rules);
    assert Get(rules, "secret") == Some(rule);
    assert Get(rules, "name") == None;
    assert ResolveProperties(state, sourceObject, ["secret"], map[]) == map[];
    assert TargetKey(state, sourceObject, "name") == Some("name");
  }
}
