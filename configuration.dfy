/**
 * The configuration side of the mapper: one `Mapping` record per (source key, destination key)
 * pair, and the fluent operations that write member rules into it.
 *
 * Member rules live in `forMemberMappings`, a dictionary keyed by SOURCE property name. A user's
 * configuration function is described by what it does rather than run: a synchronous function
 * (zero or one declared parameter) by the stub calls it makes when it is invoked at
 * configuration time, an asynchronous one (two or more parameters) only by its tag.
 */
module Configuration {
  import opened Wrappers
  import opened OrderedDict
  import opened Values
  import opened NamingConventions

  /** A member function, given `opts.sourceObject`, `opts.sourcePropertyName` and
      `opts.destinationPropertyValue`; `Undefined` is a function that returns nothing. */
  type MemberFunction = (SourceObject, string, Value) -> Value

  /** A condition is called with the source object; the member is skipped when it returns `false`. */
  type ConditionFunction = SourceObject -> Value

  /** A `forAllMembers` function: given the destination object, the property name and the value,
      it returns the destination object as it leaves it. */
  type ForAllFunction = (Destination, string, Value) -> Destination

  /** A whole-object converter, given the source object and the fresh destination object. */
  type TypeConverterFunction = (SourceObject, Destination) -> Value

  /** One element of `mappingValuesAndFunctions`. */
  datatype MappingEntry = Literal(value: Value) | Fn(f: MemberFunction)

  /** A call a synchronous member function makes on the stub options object. */
  datatype StubCall = Ignore | MapFrom(sourcePropertyName: string) | Condition(pred: ConditionFunction)

  /** The second argument of `forMember`. */
  datatype MemberConfig =
    | LiteralValue(value: Value)
    | SyncFunction(stubCalls: seq<StubCall>, f: MemberFunction)
    | AsyncFunction(f: MemberFunction)

  /** The second argument of `forSourceMember`: a synchronous function is described by whether
      its configuration-time invocation calls `opts.ignore()` and whether it throws. */
  datatype SourceMemberConfig =
    | NotAFunction
    | SyncSourceFunction(callsIgnore: bool, throws: bool, f: MemberFunction)
    | AsyncSourceFunction(f: MemberFunction)

  /** A member rule. A `destinationProperty` of None is JavaScript's `undefined`. */
  datatype MemberMapping = MemberMapping(
    sourceProperty: string,
    destinationProperty: Option<string>,
    sourceMapping: bool,
    mappingValuesAndFunctions: seq<MappingEntry>,
    ignore: bool,
    async: bool,
    conditionFunction: Option<ConditionFunction>)

  /** A destination class: its name and the own properties `new` gives an instance. */
  datatype TypeClass = TypeClass(name: string, instanceFields: map<string, Value>)

  /** The argument of `createMap`: a string key, or a class whose name is the key. */
  datatype KeyOrType = Key(key: string) | Type(typeClass: TypeClass)

  /** `mapItemFunction`: the default per-property mapper or the installed type converter. */
  datatype ItemMapper = UseMapItem | UseTypeConverter(typeConverterFunction: TypeConverterFunction)

  datatype Profile = Profile(
    profileName: string,
    sourceMemberNamingConvention: Option<NamingConvention>,
    destinationMemberNamingConvention: Option<NamingConvention>)

  /** The errors the mapper throws. */
  datatype Error =
    | MappingNotFound(sourceKey: string, destinationKey: string)
    | AsyncMappingMisuse
    | ConflictingDestinationType
    | InvalidSourceMemberConfiguration
    | ConfigurationFunctionThrew
    | UnknownProfile(profileName: string)

  /** A snapshot of a mapping's fields, as the mapping engine reads them. */
  datatype MappingState = MappingState(
    forAllMemberMappings: seq<ForAllFunction>,
    forMemberMappings: Dict<MemberMapping>,
    mapItemFunction: ItemMapper,
    destinationTypeClass: Option<TypeClass>,
    ignoreAllNonExisting: bool,
    profile: Option<Profile>,
    async: bool)

  /** `getKey`: a string is its own key, a class is keyed by its name. */
  function GetKey(keyStringOrType: KeyOrType): (key: string)
    ensures keyStringOrType.Key? ==> key == keyStringOrType.key
    ensures TypeClassOf(keyStringOrType).Some? ==> key == TypeClassOf(keyStringOrType).value.name
  {
    match keyStringOrType
    case Key(k) => k
    case Type(t) => t.name
  }

  function TypeClassOf(keyStringOrType: KeyOrType): Option<TypeClass> {
    match keyStringOrType
    case Key(_) => None
    case Type(t) => Some(t)
  }

  // ---------------------------------------------------------------------------------------
  // The rule dictionary

  predicate IsSourceKey(key: string, rule: MemberMapping) {
    key == rule.sourceProperty
  }

  /** Every rule is stored under its own source property, once. */
  ghost predicate RulesWellFormed(rules: Dict<MemberMapping>) {
    DistinctKeys(rules) && All(rules, IsSourceKey)
  }

  lemma RuleUnderItsSourceProperty(rules: Dict<MemberMapping>, key: string)
    requires RulesWellFormed(rules) && Get(rules, key).Some?
    ensures Get(rules, key).value.sourceProperty == key
  {
  }

  /** The position of the first rule, in enumeration order, with the given destination property. */
  function FirstWithDestination(rules: Dict<MemberMapping>, destinationProperty: Option<string>): (r: Option<nat>)
    ensures r.Some? ==> r.value < |rules| && rules[r.value].1.destinationProperty == destinationProperty
    ensures r.Some? ==> forall j :: 0 <= j < r.value ==> rules[j].1.destinationProperty != destinationProperty
    ensures r.None? ==> forall j :: 0 <= j < |rules| ==> rules[j].1.destinationProperty != destinationProperty
  {
    if rules == [] then None
    else if rules[0].1.destinationProperty == destinationProperty then Some(0)
    else match FirstWithDestination(rules[1..], destinationProperty)
      case Some(i) => Some(i + 1)
      case None => None
  }

  /** The rule `createMapForMemberFindMember` returns. */
  function FindMember(rules: Dict<MemberMapping>, destinationProperty: Option<string>): Option<MemberMapping> {
    match FirstWithDestination(rules, destinationProperty)
    case Some(i) => Some(rules[i].1)
    case None => None
  }

  /** `createMapForMemberFindMember`: the first rule in enumeration order whose destination
      property is the given one. */
  method CreateMapForMemberFindMember(rules: Dict<MemberMapping>, destinationPropertyName: Option<string>)
    returns (found: Option<MemberMapping>)
    ensures found == FindMember(rules, destinationPropertyName)
  {
    var i := 0;
    while i < |rules|
      invariant 0 <= i <= |rules|
      invariant forall j :: 0 <= j < i ==> rules[j].1.destinationProperty != destinationPropertyName
    {
      if rules[i].1.destinationProperty == destinationPropertyName {
        return Some(rules[i].1);
      }
      i := i + 1;
    }
    return None;
  }

  // ---------------------------------------------------------------------------------------
  // forMember

  /** The default rule `forMember` creates for a destination property with no rule. */
  function NewMemberMapping(destinationProperty: string): MemberMapping {
    MemberMapping(destinationProperty, Some(destinationProperty), false, [], false, false, None)
  }

  ghost predicate CallsIgnore(calls: seq<StubCall>) {
    exists i :: 0 <= i < |calls| && calls[i].Ignore?
  }

  ghost predicate CallsMapFrom(calls: seq<StubCall>) {
    exists i :: 0 <= i < |calls| && calls[i].MapFrom?
  }

  /** Whether a call sequence calls `ignore()` or `mapFrom`, seen from its first call. */
  lemma CallsOfTail(calls: seq<StubCall>)
    requires calls != []
    ensures CallsIgnore(calls) <==> calls[0].Ignore? || CallsIgnore(calls[1..])
    ensures CallsMapFrom(calls) <==> calls[0].MapFrom? || CallsMapFrom(calls[1..])
  {
    var rest := calls[1..];
    assert forall i :: 0 <= i < |rest| ==> rest[i] == calls[i + 1];
    if CallsIgnore(calls) && !calls[0].Ignore? {
      var i :| 0 <= i < |calls| && calls[i].Ignore?;
      assert rest[i - 1].Ignore?;
    }
    if CallsMapFrom(calls) && !calls[0].MapFrom? {
      var i :| 0 <= i < |calls| && calls[i].MapFrom?;
      assert rest[i - 1].MapFrom?;
    }
  }

  /** The last call that sets the source property (`ignore()` or `mapFrom`), if any. */
  function LastSourceCall(calls: seq<StubCall>): (c: Option<StubCall>)
    ensures c.Some? ==> !c.value.Condition? && c.value in calls
  {
    if calls == [] then None
    else if !calls[|calls| - 1].Condition? then Some(calls[|calls| - 1])
    else LastSourceCall(calls[..|calls| - 1])
  }

  /** The predicate of the last `condition(p)` call, if any. */
  function LastCondition(calls: seq<StubCall>): (p: Option<ConditionFunction>)
    ensures p.Some? ==> Condition(p.value) in calls
  {
    if calls == [] then None
    else if calls[|calls| - 1].Condition? then Some(calls[|calls| - 1].pred)
    else LastCondition(calls[..|calls| - 1])
  }

  /** The last calls of a call sequence, seen from its first call: a last call of the tail wins,
      otherwise the first call is the last one of its kind. */
  lemma {:induction false} LastCallsOfTail(calls: seq<StubCall>)
    requires calls != []
    ensures LastSourceCall(calls) ==
      if LastSourceCall(calls[1..]).Some? then LastSourceCall(calls[1..])
      else if calls[0].Condition? then None else Some(calls[0])
    ensures LastCondition(calls) ==
      if LastCondition(calls[1..]).Some? then LastCondition(calls[1..])
      else if calls[0].Condition? then Some(calls[0].pred) else None
    decreases |calls|
  {
    var n := |calls|;
    if n > 1 {
      var front := calls[..n - 1];
      assert front[1..] == calls[1..][..n - 2];
      assert calls[1..][n - 2] == calls[n - 1];
      assert front[0] == calls[0];
      LastCallsOfTail(front);
    } else {
      assert calls[1..] == [] && calls[..0] == [];
    }
  }

  /**
   * The configuration-time invocation of a synchronous member function, call by call: `ignore()`
   * marks the rule ignored, resets its source property to the destination property and empties
   * its queue, and the function is then not queued; `mapFrom(name)` sets the source property;
   * `condition(p)` installs the condition. Returns the rule and whether to queue the function.
   */
  function ApplyStubCalls(rule: MemberMapping, destinationProperty: string, calls: seq<StubCall>, queue: bool)
    : (r: (MemberMapping, bool))
    ensures r.0.destinationProperty == rule.destinationProperty
    ensures r.0.sourceMapping == rule.sourceMapping && r.0.async == rule.async
    ensures CallsIgnore(calls) ==> r.0.ignore && r.0.mappingValuesAndFunctions == [] && !r.1
    ensures !CallsIgnore(calls) ==>
      r.0.ignore == rule.ignore && r.0.mappingValuesAndFunctions == rule.mappingValuesAndFunctions && r.1 == queue
    ensures !CallsMapFrom(calls) ==>
      r.0.sourceProperty == if CallsIgnore(calls) then destinationProperty else rule.sourceProperty
    ensures r.0.sourceProperty ==
      if LastSourceCall(calls).None? then rule.sourceProperty
      else if LastSourceCall(calls).value.MapFrom? then LastSourceCall(calls).value.sourcePropertyName
      else destinationProperty
    ensures r.0.conditionFunction == if LastCondition(calls).Some? then LastCondition(calls) else rule.conditionFunction
    decreases |calls|
  {
    if calls == [] then (rule, queue)
    else
      var rest := calls[1..];
      CallsOfTail(calls);
      LastCallsOfTail(calls);
      match calls[0]
      case Ignore =>
        ApplyStubCalls(rule.(ignore := true, sourceProperty := destinationProperty, mappingValuesAndFunctions := []),
          destinationProperty, rest, false)
      case MapFrom(name) =>
        ApplyStubCalls(rule.(sourceProperty := name), destinationProperty, rest, queue)
      case Condition(p) =>
        ApplyStubCalls(rule.(conditionFunction := Some(p)), destinationProperty, rest, queue)
  }

  /** `createMapForMemberHandleSyncMappingFunction`. */
  function HandleSyncMappingFunction(rule: MemberMapping, destinationProperty: string, calls: seq<StubCall>, f: MemberFunction)
    : (r: MemberMapping)
    ensures r.destinationProperty == rule.destinationProperty
    ensures r.ignore == (rule.ignore || CallsIgnore(calls))
    ensures r.mappingValuesAndFunctions ==
      if CallsIgnore(calls) then [] else rule.mappingValuesAndFunctions + [Fn(f)]
  {
    var (configured, queue) := ApplyStubCalls(rule, destinationProperty, calls, true);
    if queue then configured.(mappingValuesAndFunctions := configured.mappingValuesAndFunctions + [Fn(f)])
    else configured
  }

  /** The rule after `forMember` applied its second argument to it. */
  function ConfigureMember(rule: MemberMapping, destinationProperty: string, valueOrFunction: MemberConfig): (r: MemberMapping)
    ensures r.destinationProperty == rule.destinationProperty && r.sourceMapping == rule.sourceMapping
    ensures r.async == (rule.async || valueOrFunction.AsyncFunction?)
    ensures !valueOrFunction.SyncFunction? ==>
      r.sourceProperty == rule.sourceProperty && r.ignore == rule.ignore && r.conditionFunction == rule.conditionFunction
    ensures valueOrFunction.LiteralValue? ==>
      r.mappingValuesAndFunctions == rule.mappingValuesAndFunctions + [Literal(valueOrFunction.value)]
    ensures valueOrFunction.AsyncFunction? ==>
      r.mappingValuesAndFunctions == rule.mappingValuesAndFunctions + [Fn(valueOrFunction.f)]
  {
    match valueOrFunction
    case LiteralValue(v) => rule.(mappingValuesAndFunctions := rule.mappingValuesAndFunctions + [Literal(v)])
    case SyncFunction(calls, f) => HandleSyncMappingFunction(rule, destinationProperty, calls, f)
    case AsyncFunction(f) => rule.(async := true, mappingValuesAndFunctions := rule.mappingValuesAndFunctions + [Fn(f)])
  }

  /**
   * The re-keying step of `forMember`: a new rule (no original source property) is stored
   * under its source property; a rule whose source property changed is deleted from its
   * original key and stored under the new one; otherwise it is updated in place.
   */
  function StoreRule(rules: Dict<MemberMapping>, originalSourceProperty: Option<string>, rule: MemberMapping)
    : (r: Dict<MemberMapping>)
    ensures Get(r, rule.sourceProperty) == Some(rule)
    ensures originalSourceProperty.Some? && originalSourceProperty.value != rule.sourceProperty ==>
      Get(r, originalSourceProperty.value) == None
    ensures forall k :: k != rule.sourceProperty && Some(k) != originalSourceProperty ==> Get(r, k) == Get(rules, k)
  {
    match originalSourceProperty
    case None => Put(rules, rule.sourceProperty, rule)
    case Some(original) =>
      if original != rule.sourceProperty then Put(Delete(rules, original), rule.sourceProperty, rule)
      else Put(rules, rule.sourceProperty, rule)
  }

  /**
   * The re-keying step as the source writes it: the test for a new rule is the falsiness of
   * the original source property name, so an original name "" counts as new. The rule object,
   * updated in place, then stays under "" as well as being stored under its new source property.
   */
  function StoreRuleAsWritten(rules: Dict<MemberMapping>, originalSourceProperty: Option<string>, rule: MemberMapping)
    : (r: Dict<MemberMapping>)
    ensures Get(r, rule.sourceProperty) == Some(rule)
    ensures originalSourceProperty == Some("") ==> Get(r, "") == Some(rule)
    ensures originalSourceProperty != Some("") ==> r == StoreRule(rules, originalSourceProperty, rule)
  {
    match originalSourceProperty
    case None => Put(rules, rule.sourceProperty, rule)
    case Some(original) =>
      if original == "" then Put(Put(rules, original, rule), rule.sourceProperty, rule)
      else if original != rule.sourceProperty then Put(Delete(rules, original), rule.sourceProperty, rule)
      else Put(rules, rule.sourceProperty, rule)
  }

  /** A rule whose source property was "" and is re-pointed by `mapFrom("x")` is left behind
      under "" by the code as written, and the dictionary no longer keys rules by source. */
  lemma EmptySourceKeySurvivesRekeyAsWritten(f: MemberFunction)
    ensures var before := NewMemberMapping("").(mappingValuesAndFunctions := [Literal(Num(1))]);
      var after := ConfigureMember(before, "", SyncFunction([MapFrom("x")], f));
      var rules := [("", before)];
      && RulesWellFormed(rules)
      && after.sourceProperty == "x"
      && Get(StoreRuleAsWritten(rules, Some(""), after), "") == Some(after)
      && !RulesWellFormed(StoreRuleAsWritten(rules, Some(""), after))
      && Get(StoreRule(rules, Some(""), after), "") == None
  {
    var before := NewMemberMapping("").(mappingValuesAndFunctions := [Literal(Num(1))]);
    var after := ConfigureMember(before, "", SyncFunction([MapFrom("x")], f));
    assert [MapFrom("x")][1..] == [];
    assert after.sourceProperty == "x";
    var rules := [("", before)];
    assert Keys(rules) == [""];
    EmptySourceKeyRekeyedAsWritten(before, after);
    var written := StoreRuleAsWritten(rules, Some(""), after);
    assert !IsSourceKey(written[0].0, written[0].1);
  }

  /** The re-keying as written on the single rule under "": it is overwritten in place and the
      same rule is appended under its new source property. */
  lemma EmptySourceKeyRekeyedAsWritten(before: MemberMapping, after: MemberMapping)
    requires after.sourceProperty == "x"
    ensures StoreRuleAsWritten([("", before)], Some(""), after) == [("", after), ("x", after)]
  {
    PutShort([("", before)], "", after);
    assert Keys([("", after)]) == [""];
    PutShort([("", after)], "x", after);
  }

  /** The corrected re-keying step keeps every rule under its own source property. */
  lemma StoreRuleKeepsWellFormed(rules: Dict<MemberMapping>, originalSourceProperty: Option<string>, rule: MemberMapping)
    requires RulesWellFormed(rules)
    ensures RulesWellFormed(StoreRule(rules, originalSourceProperty, rule))
  {
    match originalSourceProperty
    case None => PutKeepsAll(rules, rule.sourceProperty, rule, IsSourceKey);
    case Some(original) =>
      if original != rule.sourceProperty {
        DeleteKeepsAll(rules, original, IsSourceKey);
        PutKeepsAll(Delete(rules, original), rule.sourceProperty, rule, IsSourceKey);
      } else {
        PutKeepsAll(rules, rule.sourceProperty, rule, IsSourceKey);
      }
  }

  /** Whether `forMember` on this destination property changes anything: it does not when the
      first rule with that destination property is ignored. */
  function ForMemberApplies(rules: Dict<MemberMapping>, destinationProperty: string): bool {
    match FindMember(rules, Some(destinationProperty))
    case Some(rule) => !rule.ignore
    case None => true
  }

  /** The rule `forMember` configures: the first rule for the destination property, or a new one. */
  function ConfiguredRule(rules: Dict<MemberMapping>, destinationProperty: string, valueOrFunction: MemberConfig)
    : (r: MemberMapping)
    ensures r.destinationProperty == Some(destinationProperty)
  {
    ConfigureMember(FindMember(rules, Some(destinationProperty)).GetOr(NewMemberMapping(destinationProperty)),
      destinationProperty, valueOrFunction)
  }

  /** The rule dictionary after `forMember(destinationProperty, valueOrFunction)`. */
  function ForMemberRules(rules: Dict<MemberMapping>, destinationProperty: string, valueOrFunction: MemberConfig)
    : (r: Dict<MemberMapping>)
    ensures !ForMemberApplies(rules, destinationProperty) ==> r == rules
    ensures ForMemberApplies(rules, destinationProperty) ==>
      var rule := ConfiguredRule(rules, destinationProperty, valueOrFunction);
      Get(r, rule.sourceProperty) == Some(rule)
  {
    match FindMember(rules, Some(destinationProperty))
    case Some(existing) =>
      if existing.ignore then rules
      else StoreRule(rules, Some(existing.sourceProperty), ConfigureMember(existing, destinationProperty, valueOrFunction))
    case None =>
      StoreRule(rules, None, ConfigureMember(NewMemberMapping(destinationProperty), destinationProperty, valueOrFunction))
  }

  lemma ForMemberKeepsWellFormed(rules: Dict<MemberMapping>, destinationProperty: string, valueOrFunction: MemberConfig)
    requires RulesWellFormed(rules)
    ensures RulesWellFormed(ForMemberRules(rules, destinationProperty, valueOrFunction))
  {
    match FindMember(rules, Some(destinationProperty))
    case Some(existing) =>
      if !existing.ignore {
        StoreRuleKeepsWellFormed(rules, Some(existing.sourceProperty),
          ConfigureMember(existing, destinationProperty, valueOrFunction));
      }
    case None =>
      StoreRuleKeepsWellFormed(rules, None,
        ConfigureMember(NewMemberMapping(destinationProperty), destinationProperty, valueOrFunction));
  }

  /**
   * `forMember` on a destination property whose rule is not ignored: the updated rule is stored
   * under its (possibly new) source property, the key it was found under is deleted when that
   * source property changed, and no other key changes.
   */
  lemma ForMemberRekeysExistingRule(rules: Dict<MemberMapping>, destinationProperty: string, valueOrFunction: MemberConfig)
    requires RulesWellFormed(rules)
    requires FindMember(rules, Some(destinationProperty)).Some?
    requires !FindMember(rules, Some(destinationProperty)).value.ignore
    ensures var i := FirstWithDestination(rules, Some(destinationProperty)).value;
      var updated := ConfigureMember(rules[i].1, destinationProperty, valueOrFunction);
      var r := ForMemberRules(rules, destinationProperty, valueOrFunction);
      && Get(r, updated.sourceProperty) == Some(updated)
      && (rules[i].0 != updated.sourceProperty ==> Get(r, rules[i].0) == None)
      && forall k :: k != rules[i].0 && k != updated.sourceProperty ==> Get(r, k) == Get(rules, k)
  {
    var i := FirstWithDestination(rules, Some(destinationProperty)).value;
    assert IsSourceKey(rules[i].0, rules[i].1);
  }

  /** `forMember` on a destination property no rule has yet: the new rule is stored under its
      source property and no other key changes. */
  lemma ForMemberStoresNewRule(rules: Dict<MemberMapping>, destinationProperty: string, valueOrFunction: MemberConfig)
    requires FindMember(rules, Some(destinationProperty)).None?
    ensures var created := ConfigureMember(NewMemberMapping(destinationProperty), destinationProperty, valueOrFunction);
      var r := ForMemberRules(rules, destinationProperty, valueOrFunction);
      && created.destinationProperty == Some(destinationProperty)
      && Get(r, created.sourceProperty) == Some(created)
      && forall k :: k != created.sourceProperty ==> Get(r, k) == Get(rules, k)
  {
  }

  /** `mapFrom(name)` moves the rule to the key `name`, with the function queued after the
      rule's existing values and functions. */
  lemma {:induction false} MapFromSetsSourceProperty(rule: MemberMapping, destinationProperty: string, name: string, f: MemberFunction)
    ensures var r := ConfigureMember(rule, destinationProperty, SyncFunction([MapFrom(name)], f));
      && r.sourceProperty == name
      && r.destinationProperty == rule.destinationProperty
      && r.mappingValuesAndFunctions == rule.mappingValuesAndFunctions + [Fn(f)]
      && r.ignore == rule.ignore
  {
    assert [MapFrom(name)][1..] == [];
  }

  /**
   * `ignore()` in a synchronous member function: the stored rule is ignored, keyed and sourced
   * by its destination property, with an empty queue (the function itself is not queued).
   */
  lemma IgnoreClearsRule(rules: Dict<MemberMapping>, destinationProperty: string, f: MemberFunction)
    requires ForMemberApplies(rules, destinationProperty)
    ensures var r := ForMemberRules(rules, destinationProperty, SyncFunction([Ignore], f));
      && Get(r, destinationProperty).Some?
      && var rule := Get(r, destinationProperty).value;
      && rule.ignore
      && rule.sourceProperty == destinationProperty
      && rule.destinationProperty == Some(destinationProperty)
      && rule.mappingValuesAndFunctions == []
  {
    assert [Ignore][0].Ignore?;
    assert CallsIgnore([Ignore]);
    assert !CallsMapFrom([Ignore]);
  }

  /** A `forMember` whose first rule for the destination property is ignored changes nothing. */
  lemma ForMemberOnIgnoredRuleChangesNothing(rules: Dict<MemberMapping>, destinationProperty: string, valueOrFunction: MemberConfig)
    requires !ForMemberApplies(rules, destinationProperty)
    ensures ForMemberRules(rules, destinationProperty, valueOrFunction) == rules
  {
  }

  /** At most one rule has this destination property. */
  ghost predicate UniqueDestination(rules: Dict<MemberMapping>, destinationProperty: Option<string>) {
    forall i, j :: 0 <= i < j < |rules| && rules[i].1.destinationProperty == destinationProperty ==>
      rules[j].1.destinationProperty != destinationProperty
  }

  /** Only the entry under `key`, if any, has this destination property. */
  ghost predicate OnlyKeyHasDestination(rules: Dict<MemberMapping>, key: string, destinationProperty: Option<string>) {
    forall j :: 0 <= j < |rules| && rules[j].1.destinationProperty == destinationProperty ==> rules[j].0 == key
  }

  lemma PutKeepsOnlyKey(rules: Dict<MemberMapping>, key: string, destinationProperty: Option<string>, rule: MemberMapping)
    requires OnlyKeyHasDestination(rules, key, destinationProperty)
    ensures OnlyKeyHasDestination(Put(rules, key, rule), key, destinationProperty)
  {
    var p := (k: string, m: MemberMapping) => k == key || m.destinationProperty != destinationProperty;
    assert All(rules, p);
    PutKeepsAll(rules, key, rule, p);
    var r := Put(rules, key, rule);
    forall j | 0 <= j < |r| && r[j].1.destinationProperty == destinationProperty ensures r[j].0 == key {
      assert p(r[j].0, r[j].1);
    }
  }

  /** Deleting the key of the only rule with a destination property leaves no rule with it. */
  lemma DeleteUniqueDestination(rules: Dict<MemberMapping>, i: nat, key: string)
    requires i < |rules| && rules[i].0 == key && UniqueDestination(rules, rules[i].1.destinationProperty)
    ensures OnlyKeyHasDestination(Delete(rules, key), "", rules[i].1.destinationProperty)
    ensures forall j :: 0 <= j < |Delete(rules, key)| ==>
      Delete(rules, key)[j].1.destinationProperty != rules[i].1.destinationProperty
  {
    var dp := rules[i].1.destinationProperty;
    var q := (k: string, m: MemberMapping) => k == key || m.destinationProperty != dp;
    forall j | 0 <= j < |rules| ensures q(rules[j].0, rules[j].1) {
      if rules[j].1.destinationProperty == dp {
        assert j == i;
      }
    }
    DeleteKeepsAll(rules, key, q);
    var r := Delete(rules, key);
    forall j | 0 <= j < |r| ensures r[j].1.destinationProperty != dp {
      assert q(r[j].0, r[j].1);
      assert r[j].0 in Keys(r);
    }
  }

  /** When only the entry under `key` can have a destination property and it has it, that entry
      is the one `createMapForMemberFindMember` finds. */
  lemma FindMemberUnderOnlyKey(rules: Dict<MemberMapping>, key: string, destinationProperty: Option<string>)
    requires DistinctKeys(rules) && OnlyKeyHasDestination(rules, key, destinationProperty)
    requires Get(rules, key).Some? && Get(rules, key).value.destinationProperty == destinationProperty
    ensures FindMember(rules, destinationProperty) == Get(rules, key)
  {
    var k :| 0 <= k < |rules| && rules[k].0 == key && rules[k].1 == Get(rules, key).value;
    assert rules[k].1.destinationProperty == destinationProperty;
    var j := FirstWithDestination(rules, destinationProperty).value;
    GetAt(rules, j);
  }

  /** After ignoring a destination property, only the ignored rule has that destination. */
  lemma IgnoredRuleIsOnlyOne(rules: Dict<MemberMapping>, destinationProperty: string, f: MemberFunction)
    requires RulesWellFormed(rules) && UniqueDestination(rules, Some(destinationProperty))
    requires ForMemberApplies(rules, destinationProperty)
    ensures OnlyKeyHasDestination(ForMemberRules(rules, destinationProperty, SyncFunction([Ignore], f)),
      destinationProperty, Some(destinationProperty))
  {
    var d := destinationProperty;
    IgnoreClearsRule(rules, d, f);
    var ignored := ForMemberRules(rules, d, SyncFunction([Ignore], f));
    var rule := Get(ignored, d).value;
    var base: Dict<MemberMapping>;
    match FirstWithDestination(rules, Some(d)) {
      case Some(i) =>
        var original := rules[i].0;
        assert IsSourceKey(original, rules[i].1);
        if original != d {
          DeleteUniqueDestination(rules, i, original);
          base := Delete(rules, original);
        } else {
          forall j | 0 <= j < |rules| && rules[j].1.destinationProperty == Some(d) ensures rules[j].0 == d {
            assert j == i;
          }
          base := rules;
        }
      case None =>
        base := rules;
    }
    assert ignored == Put(base, d, rule);
    PutKeepsOnlyKey(base, d, Some(d), rule);
  }

  /**
   * Ignore is sticky: when at most one rule has the destination property, after
   * `forMember(d, o => o.ignore())` any later `forMember(d, ...)` changes nothing.
   */
  lemma IgnoreIsSticky(rules: Dict<MemberMapping>, destinationProperty: string, f: MemberFunction, later: MemberConfig)
    requires RulesWellFormed(rules) && UniqueDestination(rules, Some(destinationProperty))
    ensures var ignored := ForMemberRules(rules, destinationProperty, SyncFunction([Ignore], f));
      ForMemberRules(ignored, destinationProperty, later) == ignored
  {
    var d := destinationProperty;
    if ForMemberApplies(rules, d) {
      ForMemberKeepsWellFormed(rules, d, SyncFunction([Ignore], f));
      IgnoreClearsRule(rules, d, f);
      IgnoredRuleIsOnlyOne(rules, d, f);
      FindMemberUnderOnlyKey(ForMemberRules(rules, d, SyncFunction([Ignore], f)), d, Some(d));
    }
  }

  /** The guard is per rule: with two live rules for one destination property, ignoring it marks
      the first, and a later `forMember` on that destination adds to the second. */
  lemma IgnoreGuardsOnlyTheFirstRule(first: MemberMapping, second: MemberMapping, d: string, value: Value, f: MemberFunction)
    requires first.destinationProperty == second.destinationProperty == Some(d)
    requires !first.ignore && !second.ignore
    requires first.sourceProperty != second.sourceProperty
    requires d != first.sourceProperty && d != second.sourceProperty
    ensures var rules := [(first.sourceProperty, first), (second.sourceProperty, second)];
      var ignored := ForMemberRules(rules, d, SyncFunction([Ignore], f));
      && Get(ignored, d).Some? && Get(ignored, d).value.ignore
      && Get(ForMemberRules(ignored, d, LiteralValue(value)), second.sourceProperty)
         == Some(second.(mappingValuesAndFunctions := second.mappingValuesAndFunctions + [Literal(value)]))
  {
    var (a, b) := (first.sourceProperty, second.sourceProperty);
    var rules := [(a, first), (b, second)];
    var rule := first.(ignore := true, sourceProperty := d, mappingValuesAndFunctions := []);
    var ignored := [(b, second), (d, rule)];
    IgnoreFirstOfTwo(first, second, d, f);
    assert ignored[1..] == [(d, rule)];
    assert FirstWithDestination(ignored, Some(d)) == Some(0);
    LiteralStep(ignored, 0, d, value);
  }

  /** Ignoring the first of two live rules for `d` moves it behind the second, under `d`. */
  lemma IgnoreFirstOfTwo(first: MemberMapping, second: MemberMapping, d: string, f: MemberFunction)
    requires first.destinationProperty == Some(d) && !first.ignore
    requires first.sourceProperty != second.sourceProperty
    requires d != first.sourceProperty && d != second.sourceProperty
    ensures ForMemberRules([(first.sourceProperty, first), (second.sourceProperty, second)], d, SyncFunction([Ignore], f))
      == [(second.sourceProperty, second), (d, first.(ignore := true, sourceProperty := d, mappingValuesAndFunctions := []))]
  {
    var (a, b) := (first.sourceProperty, second.sourceProperty);
    var rules := [(a, first), (b, second)];
    var rule := first.(ignore := true, sourceProperty := d, mappingValuesAndFunctions := []);
    assert ForMemberRules(rules, d, SyncFunction([Ignore], f)) == StoreRule(rules, Some(a), rule) by {
      assert FirstWithDestination(rules, Some(d)) == Some(0);
      IgnoreStepAt(rules, 0, d, f);
    }
    assert StoreRule(rules, Some(a), rule) == Put(Delete(rules, a), d, rule);
    MoveFirstOfTwo(a, first, b, second, d, rule);
  }

  /**
   * The two-rule state of `IgnoreGuardsOnlyTheFirstRule` arises from an empty rule dictionary:
   * `forSourceMember('d', f)`, `forMember('d', o => o.mapFrom('x'))`, `forSourceMember('d', f)`,
   * `forMember('d', o => o.mapFrom('y'))`, `forMember('d', o => o.mapFrom('z'))` and
   * `forMember('d', o => o.ignore())` leave an ignored rule for `d` behind a live one, so a
   * further `forMember('d', 5)` still queues 5 for destination property `d`.
   */
  lemma IgnoredRuleBehindLiveRuleIsReachable(f: MemberFunction)
    ensures var r1 := ForSourceMemberRules([], "d", false, false, f);
      var r2 := ForMemberRules(r1, "d", SyncFunction([MapFrom("x")], f));
      var r3 := ForSourceMemberRules(r2, "d", false, false, f);
      var r4 := ForMemberRules(r3, "d", SyncFunction([MapFrom("y")], f));
      var r5 := ForMemberRules(r4, "d", SyncFunction([MapFrom("z")], f));
      var r6 := ForMemberRules(r5, "d", SyncFunction([Ignore], f));
      var live := MemberMapping("z", Some("d"), true, [Fn(f), Fn(f)], false, false, None);
      && RulesWellFormed(r6)
      && r6 == [("z", live), ("d", MemberMapping("d", Some("d"), true, [], true, false, None))]
      && ForMemberRules(r6, "d", LiteralValue(Num(5)))
         == [("z", live.(mappingValuesAndFunctions := [Fn(f), Fn(f), Literal(Num(5))])), r6[1]]
  {
    var base := MemberMapping("d", Some("d"), true, [Fn(f)], false, false, None);
    var x := base.(sourceProperty := "x", mappingValuesAndFunctions := [Fn(f), Fn(f)]);
    var y := x.(sourceProperty := "y", mappingValuesAndFunctions := [Fn(f), Fn(f), Fn(f)]);
    var z := base.(sourceProperty := "z", mappingValuesAndFunctions := [Fn(f), Fn(f)]);
    var ignored := MemberMapping("d", Some("d"), true, [], true, false, None);
    ReachFirstSteps(base, x, f);
    ReachSourceMemberStep(base, x, f);
    ReachMapFromYStep(base, x, y, f);
    ReachMapFromZStep(base, y, z, f);
    ReachIgnoreStep(y, z, ignored, f);
    ReachLiteralStep(z, ignored, f);
  }

  /** `forSourceMember('d', f)` then `forMember('d', o => o.mapFrom('x'))` from no rules. */
  lemma ReachFirstSteps(base: MemberMapping, x: MemberMapping, f: MemberFunction)
    requires base == MemberMapping("d", Some("d"), true, [Fn(f)], false, false, None)
    requires x == base.(sourceProperty := "x", mappingValuesAndFunctions := [Fn(f), Fn(f)])
    ensures ForSourceMemberRules([], "d", false, false, f) == [("d", base)]
    ensures ForMemberRules([("d", base)], "d", SyncFunction([MapFrom("x")], f)) == [("x", x)]
  {
    assert FirstWithDestination([("d", base)], Some("d")) == Some(0);
    MapFromStep([("d", base)], 0, "d", "x", f);
    assert [Fn(f)] + [Fn(f)] == [Fn(f), Fn(f)];
    MoveOnly("d", base, "x", x);
  }

  /** `forSourceMember('d', f)` next to the rule under "x" appends a new rule for "d". */
  lemma ReachSourceMemberStep(base: MemberMapping, x: MemberMapping, f: MemberFunction)
    requires base == MemberMapping("d", Some("d"), true, [Fn(f)], false, false, None)
    requires x.sourceProperty == "x"
    ensures ForSourceMemberRules([("x", x)], "d", false, false, f) == [("x", x), ("d", base)]
  {
    assert [("x", x)][1..] == [];
  }

  /** `forMember('d', o => o.mapFrom('y'))` moves the rule under "x", the first for "d", last. */
  lemma ReachMapFromYStep(base: MemberMapping, x: MemberMapping, y: MemberMapping, f: MemberFunction)
    requires base.sourceProperty == "d"
    requires x == MemberMapping("x", Some("d"), true, [Fn(f), Fn(f)], false, false, None)
    requires y == MemberMapping("y", Some("d"), true, [Fn(f), Fn(f), Fn(f)], false, false, None)
    ensures ForMemberRules([("x", x), ("d", base)], "d", SyncFunction([MapFrom("y")], f)) == [("d", base), ("y", y)]
  {
    assert x.(sourceProperty := "y", mappingValuesAndFunctions := x.mappingValuesAndFunctions + [Fn(f)]) == y;
    MapFromFirstOfTwo(x, base, "d", "y", f);
  }

  /** `forMember('d', o => o.mapFrom('z'))` moves the rule under "d", now the first for "d", last. */
  lemma ReachMapFromZStep(base: MemberMapping, y: MemberMapping, z: MemberMapping, f: MemberFunction)
    requires base == MemberMapping("d", Some("d"), true, [Fn(f)], false, false, None)
    requires y.sourceProperty == "y"
    requires z == MemberMapping("z", Some("d"), true, [Fn(f), Fn(f)], false, false, None)
    ensures ForMemberRules([("d", base), ("y", y)], "d", SyncFunction([MapFrom("z")], f)) == [("y", y), ("z", z)]
  {
    assert base.(sourceProperty := "z", mappingValuesAndFunctions := base.mappingValuesAndFunctions + [Fn(f)]) == z;
    MapFromFirstOfTwo(base, y, "d", "z", f);
  }

  /** Re-pointing the first of two live rules for `d` at `name` moves it behind the second. */
  lemma MapFromFirstOfTwo(first: MemberMapping, second: MemberMapping, d: string, name: string, f: MemberFunction)
    requires first.destinationProperty == Some(d) && !first.ignore
    requires first.sourceProperty != second.sourceProperty
    requires name != first.sourceProperty && name != second.sourceProperty
    ensures ForMemberRules([(first.sourceProperty, first), (second.sourceProperty, second)], d, SyncFunction([MapFrom(name)], f))
      == [(second.sourceProperty, second),
          (name, first.(sourceProperty := name, mappingValuesAndFunctions := first.mappingValuesAndFunctions + [Fn(f)]))]
  {
    var (a, b) := (first.sourceProperty, second.sourceProperty);
    var rules := [(a, first), (b, second)];
    var rule := first.(sourceProperty := name, mappingValuesAndFunctions := first.mappingValuesAndFunctions + [Fn(f)]);
    assert ForMemberRules(rules, d, SyncFunction([MapFrom(name)], f)) == StoreRule(rules, Some(a), rule) by {
      assert FirstWithDestination(rules, Some(d)) == Some(0);
      MapFromStep(rules, 0, d, name, f);
    }
    assert StoreRule(rules, Some(a), rule) == Put(Delete(rules, a), name, rule);
    MoveFirstOfTwo(a, first, b, second, name, rule);
  }

  /** `forMember('d', o => o.ignore())` moves the rule under "y" to the key "d", ignored. */
  lemma ReachIgnoreStep(y: MemberMapping, z: MemberMapping, ignored: MemberMapping, f: MemberFunction)
    requires y == MemberMapping("y", Some("d"), true, [Fn(f), Fn(f), Fn(f)], false, false, None)
    requires z.sourceProperty == "z"
    requires ignored == MemberMapping("d", Some("d"), true, [], true, false, None)
    ensures ForMemberRules([("y", y), ("z", z)], "d", SyncFunction([Ignore], f)) == [("z", z), ("d", ignored)]
  {
    IgnoreFirstOfTwo(y, z, "d", f);
  }

  /** `forMember('d', 5)` on the reached state queues 5 on the live rule under "z". */
  lemma ReachLiteralStep(z: MemberMapping, ignored: MemberMapping, f: MemberFunction)
    requires z == MemberMapping("z", Some("d"), true, [Fn(f), Fn(f)], false, false, None)
    requires ignored == MemberMapping("d", Some("d"), true, [], true, false, None)
    ensures RulesWellFormed([("z", z), ("d", ignored)])
    ensures ForMemberRules([("z", z), ("d", ignored)], "d", LiteralValue(Num(5)))
      == [("z", z.(mappingValuesAndFunctions := [Fn(f), Fn(f), Literal(Num(5))])), ("d", ignored)]
  {
    var rules := [("z", z), ("d", ignored)];
    var queued := z.(mappingValuesAndFunctions := [Fn(f), Fn(f), Literal(Num(5))]);
    assert rules[1..] == [("d", ignored)] && [("d", ignored)][1..] == [];
    assert Keys(rules) == ["z", "d"];
    assert FirstWithDestination(rules, Some("d")) == Some(0);
    assert z.mappingValuesAndFunctions + [Literal(Num(5))] == queued.mappingValuesAndFunctions;
    LiteralStep(rules, 0, "d", Num(5));
    assert Put(rules, "z", queued) == [("z", queued)] + rules[1..];
    assert [("z", queued)] + [("d", ignored)] == [("z", queued), ("d", ignored)];
  }

  /** `forMember(d, value)` on the live rule at position `i`, the first for `d`: the value is
      queued on that rule, in place. */
  lemma LiteralStep(rules: Dict<MemberMapping>, i: nat, d: string, value: Value)
    requires i < |rules| && FirstWithDestination(rules, Some(d)) == Some(i) && !rules[i].1.ignore
    ensures var rule := rules[i].1;
      ForMemberRules(rules, d, LiteralValue(value))
      == Put(rules, rule.sourceProperty, rule.(mappingValuesAndFunctions := rule.mappingValuesAndFunctions + [Literal(value)]))
  {
    var rule := rules[i].1;
    assert FindMember(rules, Some(d)) == Some(rule);
    var queued := rule.(mappingValuesAndFunctions := rule.mappingValuesAndFunctions + [Literal(value)]);
    assert ConfigureMember(rule, d, LiteralValue(value)) == queued;
    assert StoreRule(rules, Some(rule.sourceProperty), queued) == Put(rules, rule.sourceProperty, queued);
  }

  /** `forMember(d, o => o.mapFrom(name))` on the live rule at position `i`, the first for `d`. */
  lemma MapFromStep(rules: Dict<MemberMapping>, i: nat, d: string, name: string, f: MemberFunction)
    requires i < |rules| && FirstWithDestination(rules, Some(d)) == Some(i) && !rules[i].1.ignore
    ensures var rule := rules[i].1;
      ForMemberRules(rules, d, SyncFunction([MapFrom(name)], f))
      == StoreRule(rules, Some(rule.sourceProperty),
           rule.(sourceProperty := name, mappingValuesAndFunctions := rule.mappingValuesAndFunctions + [Fn(f)]))
  {
    assert FindMember(rules, Some(d)) == Some(rules[i].1);
    MapFromConfigures(rules[i].1, d, name, f);
  }

  /** `o => o.mapFrom(name)` re-points the rule at `name` and queues the function. */
  lemma MapFromConfigures(rule: MemberMapping, d: string, name: string, f: MemberFunction)
    ensures ConfigureMember(rule, d, SyncFunction([MapFrom(name)], f))
      == rule.(sourceProperty := name, mappingValuesAndFunctions := rule.mappingValuesAndFunctions + [Fn(f)])
  {
    assert [MapFrom(name)][1..] == [];
    var moved := rule.(sourceProperty := name);
    assert ApplyStubCalls(moved, d, [], true) == (moved, true);
    assert ApplyStubCalls(rule, d, [MapFrom(name)], true) == (moved, true);
  }

  /** `forMember(d, o => o.ignore())` on the live rule at position `i`, the first for `d`. */
  lemma IgnoreStepAt(rules: Dict<MemberMapping>, i: nat, d: string, f: MemberFunction)
    requires i < |rules| && FirstWithDestination(rules, Some(d)) == Some(i) && !rules[i].1.ignore
    ensures var rule := rules[i].1;
      ForMemberRules(rules, d, SyncFunction([Ignore], f))
      == StoreRule(rules, Some(rule.sourceProperty),
           rule.(ignore := true, sourceProperty := d, mappingValuesAndFunctions := []))
  {
    assert FindMember(rules, Some(d)) == Some(rules[i].1);
    IgnoreConfigures(rules[i].1, d, f);
  }

  /** `o => o.ignore()` ignores the rule, re-keys it by the destination and empties its queue. */
  lemma IgnoreConfigures(rule: MemberMapping, d: string, f: MemberFunction)
    ensures ConfigureMember(rule, d, SyncFunction([Ignore], f))
      == rule.(ignore := true, sourceProperty := d, mappingValuesAndFunctions := [])
  {
    assert [Ignore][1..] == [];
    var ignored := rule.(ignore := true, sourceProperty := d, mappingValuesAndFunctions := []);
    assert ApplyStubCalls(ignored, d, [], false) == (ignored, false);
    assert ApplyStubCalls(rule, d, [Ignore], true) == (ignored, false);
  }

  /** The mapping's `async` flag after `forMember`: set by an asynchronous function unless the
      rule is ignored, and never cleared. */
  function ForMemberAsync(async: bool, rules: Dict<MemberMapping>, destinationProperty: string, valueOrFunction: MemberConfig): bool {
    async || (valueOrFunction.AsyncFunction? && ForMemberApplies(rules, destinationProperty))
  }

  /** An asynchronous member function is queued on its rule and flags the rule async. */
  lemma AsyncFunctionIsQueued(rules: Dict<MemberMapping>, destinationProperty: string, f: MemberFunction)
    requires RulesWellFormed(rules) && ForMemberApplies(rules, destinationProperty)
    ensures var r := ForMemberRules(rules, destinationProperty, AsyncFunction(f));
      exists key :: Get(r, key).Some? && Get(r, key).value.async
        && Get(r, key).value.destinationProperty == Some(destinationProperty)
        && |Get(r, key).value.mappingValuesAndFunctions| > 0
        && Get(r, key).value.mappingValuesAndFunctions[|Get(r, key).value.mappingValuesAndFunctions| - 1] == Fn(f)
  {
    match FindMember(rules, Some(destinationProperty)) {
      case Some(existing) =>
        var rule := ConfigureMember(existing, destinationProperty, AsyncFunction(f));
        assert rule.mappingValuesAndFunctions == existing.mappingValuesAndFunctions + [Fn(f)];
        assert existing.destinationProperty == Some(destinationProperty);
        assert Get(ForMemberRules(rules, destinationProperty, AsyncFunction(f)), rule.sourceProperty) == Some(rule);
      case None =>
        var rule := ConfigureMember(NewMemberMapping(destinationProperty), destinationProperty, AsyncFunction(f));
        assert rule.mappingValuesAndFunctions == [Fn(f)];
        assert Get(ForMemberRules(rules, destinationProperty, AsyncFunction(f)), rule.sourceProperty) == Some(rule);
    }
  }

  // ---------------------------------------------------------------------------------------
  // forSourceMember

  /** The rule dictionary after a `forSourceMember(sourceProperty, f)` that did not throw. */
  function ForSourceMemberRules(rules: Dict<MemberMapping>, sourceProperty: string, ignore: bool, async: bool, f: MemberFunction)
    : (r: Dict<MemberMapping>)
    ensures forall k :: k != sourceProperty ==> Get(r, k) == Get(rules, k)
    ensures Get(r, sourceProperty).Some?
    ensures Get(r, sourceProperty).value.ignore
      == (ignore || (Get(rules, sourceProperty).Some? && Get(rules, sourceProperty).value.ignore))
  {
    match Get(rules, sourceProperty)
    case Some(rule) =>
      if ignore then Put(rules, sourceProperty, rule.(ignore := true, async := false, mappingValuesAndFunctions := []))
      else Put(rules, sourceProperty, rule.(async := async, mappingValuesAndFunctions := rule.mappingValuesAndFunctions + [Fn(f)]))
    case None =>
      Put(rules, sourceProperty,
        MemberMapping(sourceProperty, if ignore then None else Some(sourceProperty), true, [Fn(f)], ignore, async, None))
  }

  /**
   * `forSourceMember` writes only the key `sourceProperty`: an existing rule becomes ignored with
   * an empty queue, or gets the function queued; a new rule keeps the source name as its
   * destination unless ignored, and is marked as declared from the source side.
   */
  lemma ForSourceMemberWritesOneKey(rules: Dict<MemberMapping>, sourceProperty: string, ignore: bool, async: bool, f: MemberFunction)
    requires RulesWellFormed(rules)
    ensures var r := ForSourceMemberRules(rules, sourceProperty, ignore, async, f);
      && RulesWellFormed(r)
      && (forall k :: k != sourceProperty ==> Get(r, k) == Get(rules, k))
      && Get(r, sourceProperty).Some?
      && var rule := Get(r, sourceProperty).value;
      && rule.sourceProperty == sourceProperty
      && rule.async == (if ignore && Get(rules, sourceProperty).Some? then false else async)
      && (ignore ==> rule.ignore)
      && (ignore && Get(rules, sourceProperty).Some? ==> rule.mappingValuesAndFunctions == [])
      && (!ignore ==> rule.mappingValuesAndFunctions[|rule.mappingValuesAndFunctions| - 1] == Fn(f))
      && (Get(rules, sourceProperty).None? ==>
            rule.sourceMapping && rule.destinationProperty == if ignore then None else Some(sourceProperty))
    ensures Get(rules, sourceProperty).Some? ==>
      var existing := Get(rules, sourceProperty).value;
      Get(ForSourceMemberRules(rules, sourceProperty, ignore, async, f), sourceProperty) == Some(
        if ignore then existing.(ignore := true, async := false, mappingValuesAndFunctions := [])
        else existing.(async := async, mappingValuesAndFunctions := existing.mappingValuesAndFunctions + [Fn(f)]))
    ensures Get(rules, sourceProperty).None? ==>
      Get(ForSourceMemberRules(rules, sourceProperty, ignore, async, f), sourceProperty) == Some(
        MemberMapping(sourceProperty, if ignore then None else Some(sourceProperty), true, [Fn(f)], ignore, async, None))
  {
    var r := ForSourceMemberRules(rules, sourceProperty, ignore, async, f);
    match Get(rules, sourceProperty) {
      case Some(rule) =>
        RuleUnderItsSourceProperty(rules, sourceProperty);
        var updated := if ignore then rule.(ignore := true, async := false, mappingValuesAndFunctions := [])
          else rule.(async := async, mappingValuesAndFunctions := rule.mappingValuesAndFunctions + [Fn(f)]);
        assert r == Put(rules, sourceProperty, updated);
        PutKeepsAll(rules, sourceProperty, updated, IsSourceKey);
        assert Get(r, sourceProperty) == Some(updated);
      case None =>
        var created := MemberMapping(sourceProperty, if ignore then None else Some(sourceProperty), true, [Fn(f)], ignore, async, None);
        assert r == Put(rules, sourceProperty, created);
        PutKeepsAll(rules, sourceProperty, created, IsSourceKey);
        assert Get(r, sourceProperty) == Some(created);
    }
  }

  // ---------------------------------------------------------------------------------------
  // Profile merge

  /** One step of `createMapWithProfileMergeMappings`: a profile rule replaces the root rule
      with its destination property, if there is one, and is otherwise not added. */
  function MergeProfileRule(rules: Dict<MemberMapping>, profileRule: MemberMapping): (r: Dict<MemberMapping>)
    ensures FindMember(rules, profileRule.destinationProperty).None? ==> r == rules
    ensures FindMember(rules, profileRule.destinationProperty).Some? ==>
      var existing := FindMember(rules, profileRule.destinationProperty).value;
      && Get(r, profileRule.sourceProperty) == Some(profileRule)
      && (existing.sourceProperty != profileRule.sourceProperty ==> Get(r, existing.sourceProperty) == None)
      && forall k :: k != profileRule.sourceProperty && k != existing.sourceProperty ==> Get(r, k) == Get(rules, k)
  {
    match FindMember(rules, profileRule.destinationProperty)
    case Some(existing) => Put(Delete(rules, existing.sourceProperty), profileRule.sourceProperty, profileRule)
    case None => rules
  }

  /** The root rules after merging the profile rules one by one, in the profile's enumeration
      order. */
  function MergeProfileRules(rules: Dict<MemberMapping>, profileRules: Dict<MemberMapping>): (r: Dict<MemberMapping>)
    ensures RulesWellFormed(rules) ==> RulesWellFormed(r) && |r| <= |rules|
  {
    if profileRules == [] then rules
    else
      var n := |profileRules| - 1;
      var before := MergeProfileRules(rules, profileRules[..n]);
      var profileRule := profileRules[n].1;
      assert RulesWellFormed(rules) ==>
        RulesWellFormed(MergeProfileRule(before, profileRule)) && |MergeProfileRule(before, profileRule)| <= |rules| by {
        if RulesWellFormed(rules) {
          MergeProfileRuleKeepsWellFormed(before, profileRule);
        }
      }
      MergeProfileRule(before, profileRule)
  }

  /**
   * A profile rule whose destination property has a root rule deletes that root rule and is
   * stored under its own source property; no other key changes. A profile rule with no root
   * rule for its destination property is not added.
   */
  lemma MergeProfileRuleReplaces(rules: Dict<MemberMapping>, profileRule: MemberMapping)
    requires RulesWellFormed(rules)
    ensures var r := MergeProfileRule(rules, profileRule);
      match FirstWithDestination(rules, profileRule.destinationProperty)
      case None => r == rules
      case Some(i) =>
        && Get(r, profileRule.sourceProperty) == Some(profileRule)
        && (rules[i].0 != profileRule.sourceProperty ==> Get(r, rules[i].0) == None)
        && forall k :: k != rules[i].0 && k != profileRule.sourceProperty ==> Get(r, k) == Get(rules, k)
  {
    match FirstWithDestination(rules, profileRule.destinationProperty) {
      case Some(i) => assert IsSourceKey(rules[i].0, rules[i].1);
      case None =>
    }
  }

  /** One merge step keeps the rules keyed by source and does not add to their number. */
  lemma MergeProfileRuleKeepsWellFormed(rules: Dict<MemberMapping>, profileRule: MemberMapping)
    requires RulesWellFormed(rules)
    ensures RulesWellFormed(MergeProfileRule(rules, profileRule))
    ensures |MergeProfileRule(rules, profileRule)| <= |rules|
  {
    match FirstWithDestination(rules, profileRule.destinationProperty) {
      case Some(i) =>
        var original := rules[i].1.sourceProperty;
        assert IsSourceKey(rules[i].0, rules[i].1);
        assert original in Keys(rules);
        DeleteKeepsAll(rules, original, IsSourceKey);
        PutKeepsAll(Delete(rules, original), profileRule.sourceProperty, profileRule, IsSourceKey);
      case None =>
    }
  }

  /** Whether a rule is one of the root rules or one of the profile rules. */
  ghost predicate FromRootOrProfile(rules: Dict<MemberMapping>, profileRules: Dict<MemberMapping>, rule: MemberMapping) {
    (exists j :: 0 <= j < |rules| && rules[j].1 == rule) || (exists j :: 0 <= j < |profileRules| && profileRules[j].1 == rule)
  }

  /** Merging invents no rule: every rule of the result is a root rule or a profile rule. */
  lemma {:induction false} MergeProfileRulesInventsNothing(rules: Dict<MemberMapping>, profileRules: Dict<MemberMapping>)
    ensures forall i :: 0 <= i < |MergeProfileRules(rules, profileRules)| ==>
      FromRootOrProfile(rules, profileRules, MergeProfileRules(rules, profileRules)[i].1)
  {
    var p := (k: string, m: MemberMapping) => FromRootOrProfile(rules, profileRules, m);
    if profileRules == [] {
      assert All(rules, p);
    } else {
      var n := |profileRules| - 1;
      var init := profileRules[..n];
      var before := MergeProfileRules(rules, init);
      MergeProfileRulesInventsNothing(rules, init);
      forall i | 0 <= i < |before| ensures p(before[i].0, before[i].1) {
        assert FromRootOrProfile(rules, init, before[i].1);
        if !exists j :: 0 <= j < |rules| && rules[j].1 == before[i].1 {
          var j :| 0 <= j < |init| && init[j].1 == before[i].1;
          assert profileRules[j] == init[j];
        }
      }
      var profileRule := profileRules[n].1;
      assert p(profileRule.sourceProperty, profileRule);
      match FindMember(before, profileRule.destinationProperty) {
        case Some(existing) =>
          DeleteKeepsAll(before, existing.sourceProperty, p);
          PutKeepsAll(Delete(before, existing.sourceProperty), profileRule.sourceProperty, profileRule, p);
        case None =>
      }
      var r := MergeProfileRules(rules, profileRules);
      assert All(r, p);
      forall i | 0 <= i < |r| ensures FromRootOrProfile(rules, profileRules, r[i].1) {
        assert p(r[i].0, r[i].1);
      }
    }
  }


  // ---------------------------------------------------------------------------------------
  // The mapping record

  class Mapping {
    const sourceKey: string
    const destinationKey: string
    const sourceTypeClass: Option<TypeClass>
    var destinationTypeClass: Option<TypeClass>
    var forAllMemberMappings: seq<ForAllFunction>
    var forMemberMappings: Dict<MemberMapping>
    var mapItemFunction: ItemMapper
    var ignoreAllNonExisting: bool
    var profile: Option<Profile>
    var async: bool

    /** The registry key of this mapping. */
    function Key(): string {
      sourceKey + destinationKey
    }

    ghost predicate Valid()
      reads this
    {
      RulesWellFormed(forMemberMappings)
    }

    function State(): MappingState
      reads this
    {
      MappingState(forAllMemberMappings, forMemberMappings, mapItemFunction, destinationTypeClass,
        ignoreAllNonExisting, profile, async)
    }

    /** The mapping record `createMap` stores: no rules, the default item mapper, not async. */
    constructor (sourceKey: string, destinationKey: string, sourceTypeClass: Option<TypeClass>, destinationTypeClass: Option<TypeClass>)
      ensures Valid()
      ensures this.sourceKey == sourceKey && this.destinationKey == destinationKey
      ensures this.sourceTypeClass == sourceTypeClass && this.destinationTypeClass == destinationTypeClass
      ensures |forAllMemberMappings| == 0 && forMemberMappings == [] && mapItemFunction.UseMapItem?
      ensures !ignoreAllNonExisting && profile.None? && !async
    {
      this.sourceKey := sourceKey;
      this.destinationKey := destinationKey;
      this.sourceTypeClass := sourceTypeClass;
      this.destinationTypeClass := destinationTypeClass;
      forAllMemberMappings := [];
      forMemberMappings := [];
      mapItemFunction := UseMapItem;
      ignoreAllNonExisting := false;
      profile := None;
      async := false;
    }

    /** `forMember(destinationProperty, valueOrFunction)`. */
    method ForMember(destinationProperty: string, valueOrFunction: MemberConfig)
      requires Valid()
      modifies this`forMemberMappings, this`async
      ensures Valid()
      ensures forMemberMappings == ForMemberRules(old(forMemberMappings), destinationProperty, valueOrFunction)
      ensures async == ForMemberAsync(old(async), old(forMemberMappings), destinationProperty, valueOrFunction)
    {
      ForMemberKeepsWellFormed(forMemberMappings, destinationProperty, valueOrFunction);
      var originalSourcePropertyName: Option<string> := None;
      var memberMapping: MemberMapping;
      var existing := CreateMapForMemberFindMember(forMemberMappings, Some(destinationProperty));
      if existing.Some? {
        if existing.value.ignore {
          return;
        }
        originalSourcePropertyName := Some(existing.value.sourceProperty);
        memberMapping := existing.value;
      } else {
        memberMapping := NewMemberMapping(destinationProperty);
      }
      match valueOrFunction {
        case LiteralValue(v) =>
          memberMapping := memberMapping.(mappingValuesAndFunctions := memberMapping.mappingValuesAndFunctions + [Literal(v)]);
        case SyncFunction(calls, f) =>
          memberMapping := HandleSyncMappingFunction(memberMapping, destinationProperty, calls, f);
        case AsyncFunction(f) =>
          async := true;
          memberMapping := memberMapping.(async := true,
            mappingValuesAndFunctions := memberMapping.mappingValuesAndFunctions + [Fn(f)]);
      }
      if originalSourcePropertyName.None? {
        forMemberMappings := Put(forMemberMappings, memberMapping.sourceProperty, memberMapping);
      } else if originalSourcePropertyName.value != memberMapping.sourceProperty {
        forMemberMappings := Delete(forMemberMappings, originalSourcePropertyName.value);
        forMemberMappings := Put(forMemberMappings, memberMapping.sourceProperty, memberMapping);
      } else {
        // the rule was updated in place under its unchanged key
        forMemberMappings := Put(forMemberMappings, memberMapping.sourceProperty, memberMapping);
      }
    }

    /** `forSourceMember(sourceProperty, configFunction)`. */
    method ForSourceMember(sourceProperty: string, memberConfigFunc: SourceMemberConfig) returns (outcome: Outcome<Error>)
      requires Valid()
      modifies this`forMemberMappings, this`async
      ensures Valid()
      ensures memberConfigFunc.NotAFunction? ==> outcome == Fail(InvalidSourceMemberConfiguration)
      ensures memberConfigFunc.SyncSourceFunction? && memberConfigFunc.throws ==> outcome == Fail(ConfigurationFunctionThrew)
      ensures outcome.Fail? ==> forMemberMappings == old(forMemberMappings) && async == old(async)
      ensures outcome.Pass? <==> memberConfigFunc.AsyncSourceFunction? || (memberConfigFunc.SyncSourceFunction? && !memberConfigFunc.throws)
      ensures outcome.Pass? ==>
        && forMemberMappings == ForSourceMemberRules(old(forMemberMappings), sourceProperty,
             memberConfigFunc.SyncSourceFunction? && memberConfigFunc.callsIgnore,
             memberConfigFunc.AsyncSourceFunction?, memberConfigFunc.f)
        && async == (old(async) || memberConfigFunc.AsyncSourceFunction?)
    {
      var ignore := false;
      var isAsync := false;
      match memberConfigFunc {
        case NotAFunction =>
          return Fail(InvalidSourceMemberConfiguration);
        case SyncSourceFunction(callsIgnore, throws, _) =>
          if throws {
            return Fail(ConfigurationFunctionThrew);
          }
          ignore := callsIgnore;
        case AsyncSourceFunction(_) =>
          isAsync := true;
      }
      ForSourceMemberWritesOneKey(forMemberMappings, sourceProperty, ignore, isAsync, memberConfigFunc.f);
      var memberMapping := Get(forMemberMappings, sourceProperty);
      if memberMapping.Some? {
        var rule := memberMapping.value;
        if ignore {
          rule := rule.(ignore := true, async := false, mappingValuesAndFunctions := []);
        } else {
          rule := rule.(async := isAsync, mappingValuesAndFunctions := rule.mappingValuesAndFunctions + [Fn(memberConfigFunc.f)]);
        }
        forMemberMappings := Put(forMemberMappings, sourceProperty, rule);
      } else {
        forMemberMappings := Put(forMemberMappings, sourceProperty,
          MemberMapping(sourceProperty, if ignore then None else Some(sourceProperty), true,
            [Fn(memberConfigFunc.f)], ignore, isAsync, None));
      }
      if isAsync {
        async := true;
      }
      return Pass;
    }

    /** `forAllMembers(func)`: the function is appended. */
    method ForAllMembers(func: ForAllFunction)
      modifies this`forAllMemberMappings
      ensures forAllMemberMappings == old(forAllMemberMappings) + [func]
    {
      forAllMemberMappings := forAllMemberMappings + [func];
    }

    /** `ignoreAllNonExisting()`. */
    method IgnoreAllNonExisting()
      modifies this`ignoreAllNonExisting
      ensures ignoreAllNonExisting
    {
      ignoreAllNonExisting := true;
    }

    /** `convertToType(typeClass)`: the destination class can be set once; setting the same
        class again is accepted, another one is an error. */
    method ConvertToType(typeClass: TypeClass) returns (outcome: Outcome<Error>)
      modifies this`destinationTypeClass
      ensures old(destinationTypeClass).None? ==> outcome.Pass? && destinationTypeClass == Some(typeClass)
      ensures old(destinationTypeClass).Some? ==> destinationTypeClass == old(destinationTypeClass)
      ensures old(destinationTypeClass).Some? ==>
        outcome == if old(destinationTypeClass).value == typeClass then Pass else Fail(ConflictingDestinationType)
    {
      if destinationTypeClass.Some? {
        if destinationTypeClass.value == typeClass {
          return Pass;
        }
        return Fail(ConflictingDestinationType);
      }
      destinationTypeClass := Some(typeClass);
      return Pass;
    }

    /** `convertUsing(converter)`, with the converter already resolved to its convert function. */
    method ConvertUsing(typeConverterFunction: TypeConverterFunction)
      modifies this`mapItemFunction
      ensures mapItemFunction == UseTypeConverter(typeConverterFunction)
    {
      mapItemFunction := UseTypeConverter(typeConverterFunction);
    }
  }
}
