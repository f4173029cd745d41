/**
 * The gateway's two choices said of the policy document and the counters alone: which model serves a request, and
 * which throttle tier it falls under.
 */
module GatewayChoices {
  import opened Common
  import opened DecimalThreshold
  import opened EffectivePolicy
  import EM = EffectiveModel
  import TT = ThrottleTier

  // ----- the served model

  /** The limit a scope is tested against: the first of this scope for all models. */
  predicate IsFirstLimit(limits: seq<Limit>, i: nat, scope: Scope) {
    && i < |limits| && limits[i].scope == scope && limits[i].modelScope == AllModels
    && forall j :: 0 <= j < i ==> limits[j].scope != scope || limits[j].modelScope != AllModels
  }

  predicate IsFirstPressure(pressure: seq<Pressure>, i: nat, model: string) {
    i < |pressure| && pressure[i].model == model && forall j :: 0 <= j < i ==> pressure[j].model != model
  }

  /** This share of a scope's metered quota is consumed, and the subtraction that says so stays within Int64. */
  ghost predicate ScopePressed(p: Policy, remaining: EM.Remaining, threshold: int, scope: Scope) {
    exists i: nat, quota :: IsFirstLimit(p.limits, i, scope) && p.limits[i].tokenQuota == Some(quota)
      && IsPressed(remaining, threshold, scope, quota)
  }

  predicate IsPressed(remaining: EM.Remaining, threshold: int, scope: Scope, quota: int) {
    && scope in remaining && quota > 0
    && quota - remaining[scope] <= INT64_MAX && (quota - remaining[scope]) * 100 >= threshold * quota
  }

  /** The share of the model's own budget that the resolver states has reached the threshold, as 32 bits hold it. */
  ghost predicate ModelPressed(p: Policy, requested: string, threshold: int) {
    p.modelPressure.Some?
    && exists i: nat, mark :: IsFirstPressure(p.modelPressure.value, i, requested)
         && IsInt32Of(threshold * 100, mark) && p.modelPressure.value[i].consumedBasisPoints >= mark
  }

  predicate IsInt32Of(x: int, y: int) { -0x8000_0000 <= y < 0x8000_0000 && (x - y) % 0x1_0000_0000 == 0 }

  /**
   * A substitute is looked for: the policy enables fallback, the caller prefers rather than pins its model, a positive
   * threshold is set, and some scope or the model is under that pressure.
   */
  ghost predicate SeeksSubstitute(p: Policy, requested: string, remaining: EM.Remaining) {
    && p.fallback.Some? && p.fallback.value.enabled
    && p.modelSelectionIntent == Some("preferred")
    && p.warnThresholdPercent.Some? && p.warnThresholdPercent.value > 0
    && ((exists scope :: ScopePressed(p, remaining, p.warnThresholdPercent.value, scope))
        || ModelPressed(p, requested, p.warnThresholdPercent.value))
  }

  /** From the model asked for along first edges to allowed models, as far as the depth or such edges go. */
  ghost predicate IsWalk(p: Policy, requested: string, path: seq<string>)
    requires p.fallback.Some?
  {
    var chain, maxDepth := p.fallback.value.chain, p.fallback.value.maxDepth;
    && |path| > 0 && path[0] == requested
    && (|path| == 1 || |path| - 1 <= maxDepth)
    && (forall i :: 0 <= i < |path| - 1 ==> EM.FollowsEdge(chain, p.allowedModels, path, i))
    && (|path| - 1 < maxDepth ==>
         forall to :: EM.IsFirstEdge(chain, path[|path| - 1], to) ==> to !in p.allowedModels)
  }

  predicate InRange(p: Policy, remaining: EM.Remaining) {
    && (forall scope :: scope in remaining ==> IsInt64(remaining[scope]))
    && (forall l :: l in p.limits && l.tokenQuota.Some? ==> IsInt64(l.tokenQuota.value))
  }

  lemma {:induction false} FoundLimit(limits: seq<Limit>, scope: Scope)
    ensures match EM.FindLimit(limits, scope)
      case None => forall i: nat :: !IsFirstLimit(limits, i, scope)
      case Some(limit) => exists i: nat :: IsFirstLimit(limits, i, scope) && limits[i] == limit
  {
    if limits != [] {
      var rest := limits[1..];
      assert forall j :: 0 < j < |limits| ==> limits[j] == rest[j - 1];
      if EM.IsAllModels(limits[0], scope) {
        assert IsFirstLimit(limits, 0, scope);
      } else {
        FoundLimit(rest, scope);
        forall i: nat | IsFirstLimit(limits, i, scope) ensures i > 0 && IsFirstLimit(rest, i - 1, scope) {}
        if EM.FindLimit(rest, scope).Some? {
          var i: nat :| IsFirstLimit(rest, i, scope) && rest[i] == EM.FindLimit(rest, scope).value;
          assert IsFirstLimit(limits, i + 1, scope);
        }
      }
    }
  }

  lemma {:induction false} FoundPressure(pressure: seq<Pressure>, model: string)
    ensures match EM.FindPressure(pressure, model)
      case None => forall i: nat :: !IsFirstPressure(pressure, i, model)
      case Some(entry) => exists i: nat :: IsFirstPressure(pressure, i, model) && pressure[i] == entry
  {
    if pressure != [] {
      var rest := pressure[1..];
      assert forall j :: 0 < j < |pressure| ==> pressure[j] == rest[j - 1];
      if pressure[0].model == model {
        assert IsFirstPressure(pressure, 0, model);
      } else {
        FoundPressure(rest, model);
        forall i: nat | IsFirstPressure(pressure, i, model) ensures i > 0 && IsFirstPressure(rest, i - 1, model) {}
        if EM.FindPressure(rest, model).Some? {
          var i: nat :| IsFirstPressure(rest, i, model) && rest[i] == EM.FindPressure(rest, model).value;
          assert IsFirstPressure(pressure, i + 1, model);
        }
      }
    }
  }

  lemma OneFirstLimit(limits: seq<Limit>, i: nat, j: nat, scope: Scope)
    requires IsFirstLimit(limits, i, scope) && IsFirstLimit(limits, j, scope)
    ensures i == j
  {}

  lemma ScopeIsPressed(p: Policy, remaining: EM.Remaining, threshold: int, scope: Scope)
    requires InRange(p, remaining) && threshold > 0
    ensures EM.ScopeBreached(p.limits, remaining, threshold, scope) <==> ScopePressed(p, remaining, threshold, scope)
  {
    hide Crossed, EM.QuotaOf, IsFirstLimit;
    QuotaIsOfFirst(p.limits, scope);
    var quota := EM.QuotaOf(p.limits, scope);
    assert Pow10(2) == HUNDRED;
    if scope in remaining && quota > 0 { CrossedExactly(quota, quota, remaining[scope], 2, HUNDRED, threshold); }
  }

  lemma QuotaIsOfFirst(limits: seq<Limit>, scope: Scope)
    ensures var quota := EM.QuotaOf(limits, scope);
      && (quota > 0 ==> exists i: nat :: IsFirstLimit(limits, i, scope) && limits[i].tokenQuota == Some(quota))
      && (forall i: nat, q :: IsFirstLimit(limits, i, scope) && limits[i].tokenQuota == Some(q) ==> q == quota)
      && (quota > 0 ==> exists l :: l in limits && l.tokenQuota == Some(quota))
  {
    hide EM.FindLimit;
    FoundLimit(limits, scope);
    var limit := EM.FindLimit(limits, scope);
    if limit.Some? {
      var i: nat :| IsFirstLimit(limits, i, scope) && limits[i] == limit.value;
      assert limits[i] in limits;
      forall j: nat | IsFirstLimit(limits, j, scope) ensures j == i { OneFirstLimit(limits, i, j, scope); }
    }
  }

  lemma ModelIsPressed(p: Policy, requested: string, threshold: int)
    ensures EM.ModelBreached(p.modelPressure, requested, threshold) <==> ModelPressed(p, requested, threshold)
  {
    hide EM.FindPressure;
    if p.modelPressure.Some? {
      FoundPressure(p.modelPressure.value, requested);
      assert IsInt32Of(threshold * 100, Wrap32(threshold * 100));
    }
  }

  lemma EveryScopeIsTested(scope: Scope)
    ensures scope in EM.Scopes
  {
    match scope
    case Organization => assert EM.Scopes[0] == scope;
    case Team => assert EM.Scopes[1] == scope;
    case Subject => assert EM.Scopes[2] == scope;
    case Application => assert EM.Scopes[3] == scope;
  }

  lemma SubstituteIsSought(p: Policy, requested: string, remaining: EM.Remaining)
    requires InRange(p, remaining)
    ensures EM.Substitutes(p, requested, remaining) <==> SeeksSubstitute(p, requested, remaining)
  {
    hide EM.ScopeBreached, ScopePressed, EM.ModelBreached, ModelPressed;
    if p.warnThresholdPercent.Some? && p.warnThresholdPercent.value > 0 {
      var threshold := p.warnThresholdPercent.value;
      ModelIsPressed(p, requested, threshold);
      forall scope
        ensures EM.ScopeBreached(p.limits, remaining, threshold, scope) <==> ScopePressed(p, remaining, threshold, scope)
        ensures scope in EM.Scopes
      {
        ScopeIsPressed(p, remaining, threshold, scope);
        EveryScopeIsTested(scope);
      }
    }
  }

  lemma {:induction false} NoHop(chain: seq<Edge>, allowed: seq<string>, model: string)
    requires EM.Hop(chain, allowed, model).None?
    ensures forall to :: EM.IsFirstEdge(chain, model, to) ==> to !in allowed
  {
    if EM.FindEdge(chain, model).Some? { EM.FindEdgeIsFirst(chain, model); } else { NoEdge(chain, model); }
  }

  lemma {:induction false} NoEdge(chain: seq<Edge>, model: string)
    requires EM.FindEdge(chain, model).None?
    ensures forall i :: 0 <= i < |chain| ==> chain[i].from != model
  {
    if chain != [] {
      NoEdge(chain[1..], model);
      assert forall i :: 0 < i < |chain| ==> chain[i] == chain[1..][i - 1];
    }
  }

  /**
   * A request is served the model it asks for unless a substitute is looked for; then by the end of the walk from
   * that model along the fallback chain.
   */
  lemma ServedModelIs(p: Policy, requested: string, remaining: EM.Remaining)
    requires InRange(p, remaining)
    ensures !SeeksSubstitute(p, requested, remaining) ==> EM.ModelOf(p, requested, remaining) == requested
    ensures SeeksSubstitute(p, requested, remaining) ==>
      exists path :: IsWalk(p, requested, path) && path[|path| - 1] == EM.ModelOf(p, requested, remaining)
  {
    hide SeeksSubstitute, EM.Substitutes, EM.Hop, EM.FollowsEdge, EM.IsFirstEdge, EM.Walk, EM.Path;
    SubstituteIsSought(p, requested, remaining);
    if SeeksSubstitute(p, requested, remaining) {
      assert p.fallback.Some? by { FallbackIsThere(p, requested, remaining); }
      var chain, depth := p.fallback.value.chain, EM.Depth(p);
      EM.WalkFollowsAllowedEdges(chain, p.allowedModels, requested, depth);
      var path := EM.Path(chain, p.allowedModels, requested, depth);
      if |path| - 1 < p.fallback.value.maxDepth { NoHop(chain, p.allowedModels, path[|path| - 1]); }
      assert IsWalk(p, requested, path);
    }
  }

  lemma FallbackIsThere(p: Policy, requested: string, remaining: EM.Remaining)
    requires SeeksSubstitute(p, requested, remaining)
    ensures p.fallback.Some?
  {}

  // ----- the throttle tier

  /** The slot a tier is measured in: its scope's, for all models, or for an organization or a team this model's. */
  predicate IsSlotOf(t: Tier, model: string, slot: TT.Slot) {
    && slot == TT.Slot(t.scope, t.modelScope)
    && (t.modelScope == PerModel ==> (t.scope == Organization || t.scope == Team) && t.modelKey == Some(model))
  }

  /** The Int64 that agrees with a number in its low 64 bits. */
  predicate IsInt64Of(x: int, y: int) { IsInt64(y) && (x - y) % 0x1_0000_0000_0000_0000 == 0 }

  /** This share of the tier's quota reads as consumed in its slot, by the accounting basis the gateway measures. */
  ghost predicate IsReached(t: Tier, model: string, meters: TT.Meters) {
    && t.accountingBasis == "apim-estimated-total-tokens" && t.againstTokenQuota > 0
    && exists slot :: IsSlotOf(t, model, slot) && slot in meters
         && ReadsAsUsed(meters[slot], t.atBasisPoints * t.againstTokenQuota)
  }

  /** What the counter says was used, as 64 bits hold it, is this much in basis points. */
  ghost predicate ReadsAsUsed(remaining: int, share: int) {
    exists used :: IsInt64Of(9223372036854775806 - remaining, used) && used * 10_000 >= share
  }

  predicate TierRange(tiers: seq<Tier>, meters: TT.Meters) {
    && (forall t :: t in tiers ==> IsInt64(t.againstTokenQuota))
    && (forall slot :: slot in meters ==> IsInt64(meters[slot]))
  }

  lemma WrapIsInt64Of(x: int, y: int)
    ensures IsInt64Of(x, y) <==> y == Wrap64(x)
  {}

  lemma SlotIs(t: Tier, model: string, slot: TT.Slot)
    ensures TT.SlotOf(t, model) == Some(slot) <==> IsSlotOf(t, model, slot)
  {}

  lemma ReachedIsCrossed(t: Tier, model: string, meters: TT.Meters)
    requires IsInt64(t.againstTokenQuota) && forall slot :: slot in meters ==> IsInt64(meters[slot])
    ensures TT.TierCrossed(t, model, meters) <==>
      IsReached(t, model, meters) && (t.tierCode == "tier-minimal" || t.tierCode == "tier-reduced")
  {
    hide Divide, Scale, AtLeast, Wrap64, TT.SlotOf, IsSlotOf, IsInt64Of;
    forall slot ensures TT.SlotOf(t, model) == Some(slot) <==> IsSlotOf(t, model, slot) { SlotIs(t, model, slot); }
    var slot := TT.SlotOf(t, model);
    if t.againstTokenQuota > 0 && slot.Some? && slot.value in meters {
      var x := TT.MEASUREMENT - meters[slot.value];
      forall y ensures IsInt64Of(x, y) <==> y == Wrap64(x) { WrapIsInt64Of(x, y); }
      assert Pow10(4) == BASIS;
      DecimalTestIsExact(Wrap64(x), t.againstTokenQuota, BASIS, 4, t.atBasisPoints);
    }
  }

  ghost predicate SomeReached(tiers: seq<Tier>, model: string, meters: TT.Meters, code: string) {
    exists t :: t in tiers && t.tierCode == code && IsReached(t, model, meters)
  }

  /** The minimal tier where one of that code is reached, else the reduced one where one is, else none. */
  lemma SelectedTierIs(tiers: seq<Tier>, model: string, meters: TT.Meters)
    requires TierRange(tiers, meters)
    ensures TT.Selected(tiers, model, meters) ==
      if SomeReached(tiers, model, meters, "tier-minimal") then "tier-minimal"
      else if SomeReached(tiers, model, meters, "tier-reduced") then "tier-reduced"
      else ""
  {
    hide TT.TierCrossed, IsReached, TT.Selected;
    forall t | t in tiers
      ensures TT.TierCrossed(t, model, meters) <==>
        IsReached(t, model, meters) && (t.tierCode == "tier-minimal" || t.tierCode == "tier-reduced")
    {
      ReachedIsCrossed(t, model, meters);
    }
    TT.SelectedIsMostSevere(tiers, model, meters);
    assert TT.CrossedAt(tiers, model, meters, 2) <==> SomeReached(tiers, model, meters, "tier-minimal") by {
      CrossedMinimal(tiers, model, meters);
    }
    assert TT.CrossedAt(tiers, model, meters, 1) <==>
      SomeReached(tiers, model, meters, "tier-minimal") || SomeReached(tiers, model, meters, "tier-reduced") by {
      CrossedAny(tiers, model, meters);
    }
  }

  lemma CrossedMinimal(tiers: seq<Tier>, model: string, meters: TT.Meters)
    requires forall t :: t in tiers ==> (TT.TierCrossed(t, model, meters) <==>
      IsReached(t, model, meters) && (t.tierCode == "tier-minimal" || t.tierCode == "tier-reduced"))
    ensures TT.CrossedAt(tiers, model, meters, 2) <==> SomeReached(tiers, model, meters, "tier-minimal")
  {
    hide TT.TierCrossed, IsReached;
    if SomeReached(tiers, model, meters, "tier-minimal") {
      var t :| t in tiers && t.tierCode == "tier-minimal" && IsReached(t, model, meters);
      var i :| 0 <= i < |tiers| && tiers[i] == t;
      assert TT.TierCrossed(tiers[i], model, meters) && TT.Severity(tiers[i].tierCode) >= 2;
    }
  }

  lemma CrossedAny(tiers: seq<Tier>, model: string, meters: TT.Meters)
    requires forall t :: t in tiers ==> (TT.TierCrossed(t, model, meters) <==>
      IsReached(t, model, meters) && (t.tierCode == "tier-minimal" || t.tierCode == "tier-reduced"))
    ensures TT.CrossedAt(tiers, model, meters, 1) <==>
      SomeReached(tiers, model, meters, "tier-minimal") || SomeReached(tiers, model, meters, "tier-reduced")
  {
    hide TT.TierCrossed, IsReached;
    forall t | t in tiers && (t.tierCode == "tier-minimal" || t.tierCode == "tier-reduced") && IsReached(t, model, meters)
      ensures TT.CrossedAt(tiers, model, meters, 1)
    {
      var i :| 0 <= i < |tiers| && tiers[i] == t;
      assert TT.TierCrossed(tiers[i], model, meters) && TT.Severity(tiers[i].tierCode) >= 1;
    }
  }

  // ----- what the counters measure

  predicate IsFirstTier(tiers: seq<Tier>, i: nat, slot: TT.Slot, model: string) {
    i < |tiers| && IsSlotOf(tiers[i], model, slot) && forall j :: 0 <= j < i ==> !IsSlotOf(tiers[j], model, slot)
  }

  lemma {:induction false} FoundTier(tiers: seq<Tier>, slot: TT.Slot, model: string)
    ensures match TT.FirstOf(tiers, slot, model)
      case None => forall i :: 0 <= i < |tiers| ==> !IsSlotOf(tiers[i], model, slot)
      case Some(t) => exists i: nat :: IsFirstTier(tiers, i, slot, model) && tiers[i] == t
  {
    hide TT.SlotOf, IsSlotOf;
    if tiers != [] {
      var rest := tiers[1..];
      assert forall j :: 0 < j < |tiers| ==> tiers[j] == rest[j - 1];
      SlotIs(tiers[0], model, slot);
      if IsSlotOf(tiers[0], model, slot) {
        assert IsFirstTier(tiers, 0, slot, model);
      } else {
        FoundTier(rest, slot, model);
        if TT.FirstOf(rest, slot, model).Some? {
          var i: nat :| IsFirstTier(rest, i, slot, model) && rest[i] == TT.FirstOf(rest, slot, model).value;
          assert IsFirstTier(tiers, i + 1, slot, model);
        }
      }
    }
  }

  /**
   * A slot has a counter exactly where some tier is measured in it, and for a team's slot the caller has a team; the
   * counter is the measurement quota less what the budget of the first such tier has consumed there.
   */
  lemma MeasuredExactly(tiers: seq<Tier>, model: string, hasTeam: bool, used: TT.Consumption, slot: TT.Slot)
    ensures var meters := TT.Metered(tiers, model, hasTeam, used);
      && (slot in meters <==> (slot.scope == Team ==> hasTeam) && exists t :: t in tiers && IsSlotOf(t, model, slot))
      && (slot in meters ==>
           exists i: nat :: IsFirstTier(tiers, i, slot, model)
             && var key := (slot, TT.Budget(tiers[i].budgetId, tiers[i].budgetVersion));
                meters[slot] == 9223372036854775806 - (if key in used then used[key] else 0))
  {
    hide TT.SlotOf, IsSlotOf, TT.FirstOf;
    FoundTier(tiers, slot, model);
    if t :| t in tiers && IsSlotOf(t, model, slot) {
      SlotIs(t, model, slot);
      TT.SlotIsKnown(t, model);
      var i :| 0 <= i < |tiers| && tiers[i] == t;
    }
    if TT.FirstOf(tiers, slot, model).Some? {
      var i: nat :| IsFirstTier(tiers, i, slot, model) && tiers[i] == TT.FirstOf(tiers, slot, model).value;
      assert tiers[i] in tiers;
    }
  }
}
