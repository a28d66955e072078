/**
 * The mapper itself: the table of mapping records, keyed by the concatenation of source and
 * destination keys, and the table of registered profiles, keyed by profile name.
 */
module Registry {
  import opened Wrappers
  import opened OrderedDict
  import opened Values
  import opened Configuration
  import opened Engine

  /** The key of a mapping record: the two keys concatenated, without separator. */
  function MappingKey(sourceKey: string, destinationKey: string): (key: string)
    ensures |key| == |sourceKey| + |destinationKey|
    ensures key[..|sourceKey|] == sourceKey && key[|sourceKey|..] == destinationKey
  {
    sourceKey + destinationKey
  }

  /** Concatenation without separator lets two different key pairs share a mapping record. */
  lemma MappingKeysCanCollide()
    ensures MappingKey("ab", "c") == MappingKey("a", "bc")
  {
    assert MappingKey("ab", "c") == "abc" == MappingKey("a", "bc");
  }

  /** A key argument of a profile's `createMap`: prefixed with the profile name and "=>",
      except the empty string, which is passed on as it is. */
  function ProfileKey(profileName: string, key: string): (r: string)
    ensures key != "" ==> |r| == |profileName| + 2 + |key|
    ensures key != "" ==> r[..|profileName| + 2] == profileName + "=>" && r[|profileName| + 2..] == key
    ensures key == "" ==> r == ""
  {
    if key == "" then key else profileName + "=>" + key
  }

  /** The key under which `withProfile` looks for the profile's version of a mapping. */
  function ProfileMappingKey(profileName: string, sourceKey: string, destinationKey: string): string {
    profileName + "=>" + sourceKey + profileName + "=>" + destinationKey
  }

  /** The mapping a profile creates for non-empty keys is the one `withProfile` merges. */
  lemma ProfileCreateMapKeyIsMergeKey(profileName: string, sourceKey: string, destinationKey: string)
    requires sourceKey != "" && destinationKey != ""
    ensures MappingKey(ProfileKey(profileName, sourceKey), ProfileKey(profileName, destinationKey))
      == ProfileMappingKey(profileName, sourceKey, destinationKey)
  {
    assert ProfileKey(profileName, sourceKey) + ProfileKey(profileName, destinationKey)
      == profileName + "=>" + sourceKey + profileName + "=>" + destinationKey;
  }

  /** The profile's version of a mapping has a longer key, so it is never the mapping itself. */
  lemma ProfileMappingKeyIsLonger(profileName: string, sourceKey: string, destinationKey: string)
    ensures |ProfileMappingKey(profileName, sourceKey, destinationKey)| > |MappingKey(sourceKey, destinationKey)|
  {
  }

  /** The state of a mapping after `withProfile` merged the profile's mapping into it. */
  function MergedState(state: MappingState, profileState: MappingState): (r: MappingState)
    ensures |r.forAllMemberMappings| == |state.forAllMemberMappings| + |profileState.forAllMemberMappings|
    ensures r.forAllMemberMappings[..|state.forAllMemberMappings|] == state.forAllMemberMappings
    ensures r.forAllMemberMappings[|state.forAllMemberMappings|..] == profileState.forAllMemberMappings
    ensures r.destinationTypeClass == if profileState.destinationTypeClass.Some? then profileState.destinationTypeClass
      else state.destinationTypeClass
    ensures state.mapItemFunction.UseMapItem? ==> r.mapItemFunction.UseMapItem?
    ensures RulesWellFormed(state.forMemberMappings) ==>
      RulesWellFormed(r.forMemberMappings) && |r.forMemberMappings| <= |state.forMemberMappings|
    ensures r.ignoreAllNonExisting == state.ignoreAllNonExisting && r.profile == state.profile && r.async == state.async
  {
    state.(
      forAllMemberMappings := state.forAllMemberMappings + profileState.forAllMemberMappings,
      mapItemFunction :=
        if state.mapItemFunction.UseTypeConverter? && profileState.mapItemFunction.UseTypeConverter?
        then profileState.mapItemFunction else state.mapItemFunction,
      destinationTypeClass :=
        if profileState.destinationTypeClass.Some? then profileState.destinationTypeClass else state.destinationTypeClass,
      forMemberMappings := MergeProfileRules(state.forMemberMappings, profileState.forMemberMappings))
  }

  /** Profile `forAllMembers` functions run after the mapping's own: with the merged functions,
      a value is set by the mapping's functions and then the profile's. */
  lemma MergedForAllRunAfterOwn(state: MappingState, profileState: MappingState,
    destinationObject: Destination, name: string, value: Value)
    ensures ApplyForAll(MergedState(state, profileState).forAllMemberMappings, destinationObject, name, value)
      == ApplyForAll(profileState.forAllMemberMappings,
           ApplyForAll(state.forAllMemberMappings, destinationObject, name, value), name, value)
  {
    ApplyForAllConcat(state.forAllMemberMappings, profileState.forAllMemberMappings, destinationObject, name, value);
  }

  /** The loop of `createMapWithProfileMergeMappings` over the profile's member rules. */
  method MergeMemberMappings(mapping: Mapping, profileRules: Dict<MemberMapping>)
    requires mapping.Valid()
    modifies mapping`forMemberMappings
    ensures mapping.Valid()
    ensures mapping.forMemberMappings == MergeProfileRules(old(mapping.forMemberMappings), profileRules)
  {
    ghost var rules := mapping.forMemberMappings;
    for i := 0 to |profileRules|
      invariant mapping.forMemberMappings == MergeProfileRules(rules, profileRules[..i])
      invariant RulesWellFormed(mapping.forMemberMappings)
    {
      assert profileRules[..i + 1][..i] == profileRules[..i];
      var profilePropertyMapping := profileRules[i].1;
      var existingPropertyMapping := CreateMapForMemberFindMember(mapping.forMemberMappings, profilePropertyMapping.destinationProperty);
      MergeProfileRuleKeepsWellFormed(mapping.forMemberMappings, profilePropertyMapping);
      if existingPropertyMapping.Some? {
        mapping.forMemberMappings := Delete(mapping.forMemberMappings, existingPropertyMapping.value.sourceProperty);
        mapping.forMemberMappings := Put(mapping.forMemberMappings, profilePropertyMapping.sourceProperty, profilePropertyMapping);
      }
    }
    assert profileRules[..|profileRules|] == profileRules;
  }

  class AutoMapper {
    var mappings: map<string, Mapping>
    var profiles: map<string, Profile>

    /** Every mapping record is stored under its own key and keeps its rules keyed by source. */
    ghost predicate Valid()
      reads this, mappings.Values
    {
      forall key :: key in mappings ==> mappings[key].Key() == key && mappings[key].Valid()
    }

    constructor ()
      ensures Valid() && mappings == map[] && profiles == map[]
    {
      mappings := map[];
      profiles := map[];
    }

    /** `createMap(sourceKeyOrType, destinationKeyOrType)`: a fresh mapping record replaces any
        record under the same key. */
    method CreateMap(sourceKeyOrType: KeyOrType, destinationKeyOrType: KeyOrType) returns (mapping: Mapping)
      requires Valid()
      modifies this`mappings
      ensures Valid() && fresh(mapping)
      ensures mappings == old(mappings)[MappingKey(GetKey(sourceKeyOrType), GetKey(destinationKeyOrType)) := mapping]
      ensures mapping.sourceKey == GetKey(sourceKeyOrType) && mapping.destinationKey == GetKey(destinationKeyOrType)
      ensures mapping.sourceTypeClass == TypeClassOf(sourceKeyOrType)
      ensures mapping.State() == MappingState([], [], UseMapItem, TypeClassOf(destinationKeyOrType), false, None, false)
      ensures mapping.Valid()
    {
      var sourceKey := GetKey(sourceKeyOrType);
      var destinationKey := GetKey(destinationKeyOrType);
      mapping := new Mapping(sourceKey, destinationKey, TypeClassOf(sourceKeyOrType), TypeClassOf(destinationKeyOrType));
      mappings := mappings[MappingKey(sourceKey, destinationKey) := mapping];
    }

    /** A profile's `createMap`: both keys prefixed with the profile name. */
    method ProfileCreateMap(profile: Profile, sourceKey: string, destinationKey: string) returns (mapping: Mapping)
      requires Valid()
      modifies this`mappings
      ensures Valid() && fresh(mapping) && mapping.Valid()
      ensures mappings == old(mappings)[MappingKey(ProfileKey(profile.profileName, sourceKey),
        ProfileKey(profile.profileName, destinationKey)) := mapping]
      ensures mapping.sourceKey == ProfileKey(profile.profileName, sourceKey)
      ensures mapping.destinationKey == ProfileKey(profile.profileName, destinationKey)
      ensures mapping.sourceTypeClass == None
      ensures mapping.State() == MappingState([], [], UseMapItem, None, false, None, false)
    {
      mapping := CreateMap(Key(ProfileKey(profile.profileName, sourceKey)), Key(ProfileKey(profile.profileName, destinationKey)));
    }

    /** `addProfile(profile)`: the profile is stored under its name. Its `configure` hook, which
        creates the profile's mappings, is run by the caller beforehand. */
    method AddProfile(profile: Profile)
      modifies this`profiles
      ensures profiles == old(profiles)[profile.profileName := profile]
    {
      profiles := profiles[profile.profileName := profile];
    }

    /** `withProfile(profileName)`: an unknown profile is an error; otherwise the profile is
        assigned and its version of this mapping, if any, merged into it. */
    method CreateMapWithProfile(mapping: Mapping, profileName: string) returns (outcome: Outcome<Error>)
      requires Valid() && mapping.Valid()
      modifies mapping
      ensures Valid() && mapping.Valid()
      ensures outcome.Fail? <==> profileName !in profiles || profiles[profileName].profileName != profileName
      ensures outcome.Fail? ==> outcome.error == UnknownProfile(profileName) && mapping.State() == old(mapping.State())
      ensures outcome.Pass? ==>
        var key := ProfileMappingKey(profileName, mapping.sourceKey, mapping.destinationKey);
        var profiled := old(mapping.State()).(profile := Some(profiles[profileName]));
        mapping.State() == if key in mappings then MergedState(profiled, mappings[key].State()) else profiled
    {
      if profileName !in profiles || profiles[profileName].profileName != profileName {
        return Fail(UnknownProfile(profileName));
      }
      mapping.profile := Some(profiles[profileName]);
      CreateMapWithProfileMergeMappings(mapping, profileName);
      return Pass;
    }

    /** `createMapWithProfileMergeMappings`. */
    method CreateMapWithProfileMergeMappings(mapping: Mapping, profileName: string)
      requires Valid() && mapping.Valid()
      modifies mapping
      ensures Valid() && mapping.Valid()
      ensures var key := ProfileMappingKey(profileName, mapping.sourceKey, mapping.destinationKey);
        mapping.State() ==
          if key in mappings then MergedState(old(mapping.State()), mappings[key].State()) else old(mapping.State())
    {
      var profileMappingKey := ProfileMappingKey(profileName, mapping.sourceKey, mapping.destinationKey);
      if profileMappingKey !in mappings {
        return;
      }
      var profileMapping := mappings[profileMappingKey];
      ProfileMappingKeyIsLonger(profileName, mapping.sourceKey, mapping.destinationKey);
      assert profileMapping != mapping;
      mapping.forAllMemberMappings := mapping.forAllMemberMappings + profileMapping.forAllMemberMappings;
      if profileMapping.mapItemFunction.UseTypeConverter? && mapping.mapItemFunction.UseTypeConverter? {
        mapping.mapItemFunction := profileMapping.mapItemFunction;
      }
      if profileMapping.destinationTypeClass.Some? {
        mapping.destinationTypeClass := profileMapping.destinationTypeClass;
      }
      MergeMemberMappings(mapping, profileMapping.forMemberMappings);
    }

    /** `map(sourceKeyOrType, destinationKeyOrType, sourceObject)`: an unknown pair is an error;
        otherwise the mapping record maps the source. */
    method Map(sourceKeyOrType: KeyOrType, destinationKeyOrType: KeyOrType, input: Input) returns (r: Result<Output, Error>)
      ensures var key := MappingKey(GetKey(sourceKeyOrType), GetKey(destinationKeyOrType));
        && (key !in mappings ==> r == Failure(MappingNotFound(GetKey(sourceKeyOrType), GetKey(destinationKeyOrType))))
        && (key in mappings ==> r == MapInternalResult(mappings[key].State(), input))
    {
      var sourceKey := GetKey(sourceKeyOrType);
      var destinationKey := GetKey(destinationKeyOrType);
      var key := MappingKey(sourceKey, destinationKey);
      if key !in mappings {
        return Failure(MappingNotFound(sourceKey, destinationKey));
      }
      r := MapInternal(mappings[key], input);
    }
  }
}
