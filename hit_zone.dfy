/**
 * Hit-zone lookup (UHitZoneComponent): the bone a hit struck is mapped to the zone of
 * the first rule, in ZoneRules order, that lists that bone.
 */
module HitZone {
  import opened Common
  import Text

  /** EHitZone */
  datatype Zone = Unknown | Head | Torso | Limb

  /** FHitZoneRule; DamageMultiplier is authored with ClampMin 0 and a default of 1. */
  datatype HitZoneRule = HitZoneRule(zone: Zone, boneNames: seq<string>, damageMultiplier: real)

  /** The component's authored properties; neither operation changes them. */
  datatype HitZoneComponent = HitZoneComponent(zoneRules: seq<HitZoneRule>, defaultDamageMultiplier: real)

  /** Rule.BoneNames.Contains(HitBoneName) */
  predicate RuleMatches(rule: HitZoneRule, bone: string)
  {
    exists k | 0 <= k < |rule.boneNames| :: Text.NameEquals(rule.boneNames[k], bone)
  }

  /** The index of the first rule at or after `from` that lists `bone`, if any. */
  function FirstMatchFrom(rules: seq<HitZoneRule>, bone: string, from: nat): (r: Option<nat>)
    requires from <= |rules|
    ensures r.Some? ==> from <= r.value < |rules| && RuleMatches(rules[r.value], bone)
    ensures r.Some? ==> forall j | from <= j < r.value :: !RuleMatches(rules[j], bone)
    ensures r.None? <==> forall j | from <= j < |rules| :: !RuleMatches(rules[j], bone)
    decreases |rules| - from
  {
    if from == |rules| then None
    else if RuleMatches(rules[from], bone) then Some(from)
    else FirstMatchFrom(rules, bone, from + 1)
  }

  /**
   * The zone ResolveHitZone returns: Unknown for a None bone or when no rule lists the
   * bone, otherwise the zone of the first rule that does.
   */
  function ResolvedZone(component: HitZoneComponent, bone: string): (r: Zone)
    ensures Text.IsNoneName(bone) ==> r == Unknown
    ensures !Text.IsNoneName(bone) && FirstMatchFrom(component.zoneRules, bone, 0).Some? ==>
              r == component.zoneRules[FirstMatchFrom(component.zoneRules, bone, 0).value].zone
    ensures (forall j | 0 <= j < |component.zoneRules| :: !RuleMatches(component.zoneRules[j], bone))
            ==> r == Unknown
    ensures r == Unknown || exists j | 0 <= j < |component.zoneRules| :: component.zoneRules[j].zone == r
  {
    if Text.IsNoneName(bone) then Unknown
    else match FirstMatchFrom(component.zoneRules, bone, 0)
      case None => Unknown
      case Some(i) => component.zoneRules[i].zone
  }

  /** ResolveHitZone(Hit): scans the rules in order and stops at the first one listing the bone. */
  method ResolveHitZone(component: HitZoneComponent, bone: string) returns (zone: Zone)
    ensures zone == ResolvedZone(component, bone)
  {
    if Text.IsNoneName(bone) {
      return Unknown;
    }
    var i := 0;
    while i < |component.zoneRules|
      invariant 0 <= i <= |component.zoneRules|
      invariant FirstMatchFrom(component.zoneRules, bone, 0) == FirstMatchFrom(component.zoneRules, bone, i)
    {
      if RuleMatches(component.zoneRules[i], bone) {
        return component.zoneRules[i].zone;
      }
      i := i + 1;
    }
    return Unknown;
  }

  /**
   * Rules after the first match never matter: appending rules behind a list that
   * already has a match leaves the match unchanged.
   */
  lemma {:induction false} LaterRulesIrrelevant(rules: seq<HitZoneRule>, extra: seq<HitZoneRule>,
                                                bone: string, from: nat)
    requires from <= |rules|
    requires FirstMatchFrom(rules, bone, from).Some?
    ensures FirstMatchFrom(rules + extra, bone, from) == FirstMatchFrom(rules, bone, from)
    decreases |rules| - from
  {
    assert (rules + extra)[from] == rules[from];
    if !RuleMatches(rules[from], bone) {
      LaterRulesIrrelevant(rules, extra, bone, from + 1);
    }
  }

  /** ResolveDamageMultiplier (deprecated): always 1, whatever the hit, the rules or the default. */
  function ResolveDamageMultiplier(component: HitZoneComponent, bone: string): (r: real)
    ensures r == 1.0
  {
    1.0
  }
}
