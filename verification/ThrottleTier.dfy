/**
 * Which throttle tier a request falls under, and whose consumption the tier is compared with.
 */
module ThrottleTier {
  import opened Common
  import opened DecimalThreshold
  import opened EffectivePolicy

  /** The quota every measuring counter is given. */
  const MEASUREMENT := 9223372036854775806

  /** Where a measuring counter's remaining tokens are found. */
  datatype Slot = Slot(scope: Scope, modelScope: ModelScope)

  type Meters = map<Slot, int>

  const REDUCED := "tier-reduced"
  const MINIMAL := "tier-minimal"
  const BASIS_CODE := "apim-estimated-total-tokens"

  function Severity(code: string): int { if code == MINIMAL then 2 else if code == REDUCED then 1 else 0 }

  /** The tier's slot; a tier of another model, or of a slot that does not exist, has none. */
  function SlotOf(t: Tier, model: string): Option<Slot> {
    if t.modelScope == AllModels then Some(Slot(t.scope, AllModels))
    else if t.scope in {Organization, Team} && t.modelKey == Some(model) then Some(Slot(t.scope, PerModel))
    else None
  }

  predicate Eligible(t: Tier, model: string, meters: Meters) {
    && t.accountingBasis == BASIS_CODE
    && SlotOf(t, model).Some? && SlotOf(t, model).value in meters
    && t.againstTokenQuota > 0
    && Severity(t.tierCode) > 0
  }

  predicate TierCrossed(t: Tier, model: string, meters: Meters) {
    && Eligible(t, model, meters)
    && Crossed(t.againstTokenQuota, MEASUREMENT, meters[SlotOf(t, model).value], BASIS, t.atBasisPoints)
  }

  /** The code of the loop's choice: the first of the most severe crossed tiers. */
  function Selected(tiers: seq<Tier>, model: string, meters: Meters): string {
    if tiers == [] then ""
    else
      var before := Selected(tiers[..|tiers| - 1], model, meters);
      var last := tiers[|tiers| - 1];
      if TierCrossed(last, model, meters) && Severity(last.tierCode) > Severity(before) then last.tierCode else before
  }

  method SelectTier(tiers: Option<seq<Tier>>, model: string, meters: Meters) returns (selected: string)
    ensures selected == if tiers.None? then "" else Selected(tiers.value, model, meters)
  {
    hide Crossed;
    if tiers.None? || |tiers.value| == 0 { return ""; }
    selected := "";
    var selectedSeverity := 0;
    for i := 0 to |tiers.value|
      invariant selected == Selected(tiers.value[..i], model, meters) && selectedSeverity == Severity(selected)
    {
      var tier := tiers.value[i];
      assert tiers.value[..i + 1][..i] == tiers.value[..i];
      if tier.accountingBasis != BASIS_CODE { continue; }
      var slot := SlotOf(tier, model);
      if slot.None? || slot.value !in meters { continue; }
      var quota := tier.againstTokenQuota;
      if quota <= 0 { continue; }
      var severity := Severity(tier.tierCode);
      if severity == 0 { continue; }
      if Crossed(quota, MEASUREMENT, meters[slot.value], BASIS, tier.atBasisPoints) && severity > selectedSeverity {
        selectedSeverity := severity;
        selected := tier.tierCode;
      }
    }
    assert tiers.value[..|tiers.value|] == tiers.value;
  }

  // ----- the choice itself

  predicate IsTierCode(code: string) { code == "" || code == REDUCED || code == MINIMAL }

  /** Some crossed tier has at least this severity. */
  predicate CrossedAt(tiers: seq<Tier>, model: string, meters: Meters, severity: int) {
    exists i :: 0 <= i < |tiers| && TierCrossed(tiers[i], model, meters) && Severity(tiers[i].tierCode) >= severity
  }

  /** The selected tier is the most severe one crossed, and the empty code means none was. */
  lemma {:induction false} SelectedIsMostSevere(tiers: seq<Tier>, model: string, meters: Meters)
    ensures var code := Selected(tiers, model, meters);
      && IsTierCode(code)
      && forall severity :: severity >= 1 ==> (CrossedAt(tiers, model, meters, severity) <==> severity <= Severity(code))
  {
    hide Crossed, SlotOf;
    if tiers != [] {
      var init, last := tiers[..|tiers| - 1], tiers[|tiers| - 1];
      SelectedIsMostSevere(init, model, meters);
      var code := Selected(tiers, model, meters);
      forall severity | severity >= 1 ensures CrossedAt(tiers, model, meters, severity) <==> severity <= Severity(code) {
        if CrossedAt(init, model, meters, severity) {
          var i :| 0 <= i < |init| && TierCrossed(init[i], model, meters) && Severity(init[i].tierCode) >= severity;
          assert tiers[i] == init[i];
        }
        if CrossedAt(tiers, model, meters, severity) {
          var i :| 0 <= i < |tiers| && TierCrossed(tiers[i], model, meters) && Severity(tiers[i].tierCode) >= severity;
          if i < |init| { assert init[i] == tiers[i]; }
        }
        assert TierCrossed(last, model, meters) && Severity(last.tierCode) >= severity ==>
          CrossedAt(tiers, model, meters, severity);
      }
    }
  }

  lemma SeverityTellsCode(a: string, b: string)
    requires IsTierCode(a) && IsTierCode(b) && Severity(a) == Severity(b)
    ensures a == b
  {}

  /** The order of the tier list does not matter, nor do repetitions: only which tiers it holds. */
  lemma SelectionIgnoresOrder(a: seq<Tier>, b: seq<Tier>, model: string, meters: Meters)
    requires SameTiers(a, b)
    ensures Selected(a, model, meters) == Selected(b, model, meters)
  {
    hide TierCrossed;
    SelectionDependsOnCrossings(a, b, model, meters, meters);
  }

  ghost predicate SameTiers(a: seq<Tier>, b: seq<Tier>) { forall t :: t in a <==> t in b }

  predicate SameCrossings(tiers: seq<Tier>, model: string, one: Meters, two: Meters) {
    forall t :: t in tiers ==> (TierCrossed(t, model, one) <==> TierCrossed(t, model, two))
  }

  lemma SelectionDependsOnCrossings(a: seq<Tier>, b: seq<Tier>, model: string, one: Meters, two: Meters)
    requires SameTiers(a, b) && SameCrossings(a, model, one, two)
    ensures Selected(a, model, one) == Selected(b, model, two)
  {
    hide TierCrossed, Severity, Selected;
    SelectedIsMostSevere(a, model, one);
    SelectedIsMostSevere(b, model, two);
    CrossingsCarryOver(a, b, model, one, two);
    CrossingsCarryOver(b, a, model, two, one);
    var x, y := Selected(a, model, one), Selected(b, model, two);
    CodeBounds(x);
    CodeBounds(y);
    assert CrossedAt(a, model, one, 1) <==> CrossedAt(b, model, two, 1);
    assert CrossedAt(a, model, one, 2) <==> CrossedAt(b, model, two, 2);
    SeverityTellsCode(x, y);
  }

  lemma CodeBounds(code: string)
    ensures 0 <= Severity(code) <= 2
  {}

  lemma CrossingsCarryOver(a: seq<Tier>, b: seq<Tier>, model: string, one: Meters, two: Meters)
    requires SameTiers(a, b) && SameCrossings(a, model, one, two)
    ensures forall severity :: CrossedAt(a, model, one, severity) ==> CrossedAt(b, model, two, severity)
  {
    hide TierCrossed, Severity;
    forall severity | CrossedAt(a, model, one, severity) ensures CrossedAt(b, model, two, severity) {
      var i :| 0 <= i < |a| && TierCrossed(a[i], model, one) && Severity(a[i].tierCode) >= severity;
      assert a[i] in b;
      var j :| 0 <= j < |b| && b[j] == a[i];
    }
  }

  predicate Lower(less: Meters, more: Meters) {
    less.Keys == more.Keys && forall slot :: slot in less ==> less[slot] <= more[slot]
  }

  predicate MetersInRange(meters: Meters) { forall slot :: slot in meters ==> IsInt64(meters[slot]) }

  predicate TiersInRange(tiers: seq<Tier>) {
    forall i :: 0 <= i < |tiers| ==> IsInt64(tiers[i].againstTokenQuota) && tiers[i].atBasisPoints > 0
  }

  /** That share of the tier's quota was measured as consumed, and the subtraction stays within Int64. */
  predicate Reached(t: Tier, model: string, meters: Meters) {
    && Eligible(t, model, meters)
    && var remaining := meters[SlotOf(t, model).value];
    && !Wraps(MEASUREMENT, remaining) && (MEASUREMENT - remaining) * BASIS >= t.atBasisPoints * t.againstTokenQuota
  }

  /** Against a positive mark, a tier is crossed exactly when that share of its quota was consumed. */
  lemma TierCrossedExactly(t: Tier, model: string, meters: Meters)
    requires IsInt64(t.againstTokenQuota) && t.atBasisPoints > 0
    requires Eligible(t, model, meters) ==> IsInt64(meters[SlotOf(t, model).value])
    ensures TierCrossed(t, model, meters) <==> Reached(t, model, meters)
  {
    hide Crossed;
    assert Pow10(4) == BASIS;
    if Eligible(t, model, meters) {
      CrossedExactly(t.againstTokenQuota, MEASUREMENT, meters[SlotOf(t, model).value], 4, BASIS, t.atBasisPoints);
    }
  }

  /** Some tier at least this severe is reached. */
  predicate ReachedAt(tiers: seq<Tier>, model: string, meters: Meters, severity: int) {
    exists i :: 0 <= i < |tiers| && Severity(tiers[i].tierCode) >= severity && Reached(tiers[i], model, meters)
  }

  /**
   * Lower counters keep the selection as severe exactly when some tier that severe is still reached, and they
   * always do while none of them wraps.
   */
  lemma SelectionIsMonotone(tiers: seq<Tier>, model: string, more: Meters, less: Meters)
    requires Lower(less, more) && MetersInRange(more) && MetersInRange(less) && TiersInRange(tiers)
    ensures var severity := Severity(Selected(tiers, model, more));
      Severity(Selected(tiers, model, less)) >= severity <==> severity == 0 || ReachedAt(tiers, model, less, severity)
    ensures (forall slot :: slot in less ==> !Wraps(MEASUREMENT, less[slot])) ==>
      Severity(Selected(tiers, model, less)) >= Severity(Selected(tiers, model, more))
  {
    hide Crossed, Severity, Wraps, IsInt64, TierCrossed, Reached, Selected;
    SelectedIsMostSevere(tiers, model, more);
    SelectedIsMostSevere(tiers, model, less);
    var severity := Severity(Selected(tiers, model, more));
    CodeBounds(Selected(tiers, model, less));
    CodeBounds(Selected(tiers, model, more));
    forall i | 0 <= i < |tiers|
      ensures TierCrossed(tiers[i], model, less) <==> Reached(tiers[i], model, less)
      ensures TierCrossed(tiers[i], model, more) <==> Reached(tiers[i], model, more)
    {
      TierCrossedExactly(tiers[i], model, less);
      TierCrossedExactly(tiers[i], model, more);
    }
    if severity >= 1 {
      assert CrossedAt(tiers, model, less, severity) <==> ReachedAt(tiers, model, less, severity);
      if forall slot :: slot in less ==> !Wraps(MEASUREMENT, less[slot]) {
        assert CrossedAt(tiers, model, more, severity);
        var i :| 0 <= i < |tiers| && TierCrossed(tiers[i], model, more) && Severity(tiers[i].tierCode) >= severity;
        ReachedStays(tiers[i], model, more, less);
      }
    }
  }

  lemma ReachedStays(t: Tier, model: string, more: Meters, less: Meters)
    requires Lower(less, more) && Reached(t, model, more)
    requires forall slot :: slot in less ==> !Wraps(MEASUREMENT, less[slot])
    ensures Reached(t, model, less)
  {
    hide Wraps, SlotOf, Severity;
  }

  // ----- whose consumption

  /** What each authored budget has consumed in its slot. */
  datatype Budget = Budget(id: string, version: int)

  type Consumption = map<(Slot, Budget), int>

  function BudgetOf(t: Tier): Budget { Budget(t.budgetId, t.budgetVersion) }

  /** The measuring policy of a slot meters the budget of the first tier of that slot. */
  function FirstOf(tiers: seq<Tier>, slot: Slot, model: string): Option<Tier> {
    if tiers == [] then None
    else if SlotOf(tiers[0], model) == Some(slot) then Some(tiers[0])
    else FirstOf(tiers[1..], slot, model)
  }

  function Consumed(used: Consumption, slot: Slot, b: Budget): int {
    if (slot, b) in used then used[(slot, b)] else 0
  }

  const Slots: set<Slot> := {
    Slot(Organization, AllModels), Slot(Team, AllModels), Slot(Subject, AllModels), Slot(Application, AllModels),
    Slot(Organization, PerModel), Slot(Team, PerModel)}

  function Metered(tiers: seq<Tier>, model: string, hasTeam: bool, used: Consumption): Meters {
    map slot | slot in Slots && FirstOf(tiers, slot, model).Some? && (slot.scope == Team ==> hasTeam)
      :: MEASUREMENT - Consumed(used, slot, BudgetOf(FirstOf(tiers, slot, model).value))
  }

  /** The whole pipeline: meter the first tier of each slot, then select. */
  function TierFor(tiers: seq<Tier>, model: string, hasTeam: bool, used: Consumption): string {
    Selected(tiers, model, Metered(tiers, model, hasTeam, used))
  }

  /** A tier the loop would compare with a counter, if its slot has one. */
  predicate Measurable(t: Tier, model: string) {
    && t.accountingBasis == BASIS_CODE && SlotOf(t, model).Some?
    && t.againstTokenQuota > 0 && Severity(t.tierCode) > 0
  }

  /** Team slots are metered for requests of a team only. */
  predicate IsMetered(slot: Slot, hasTeam: bool) { slot.scope == Team ==> hasTeam }

  /** Every metered slot that holds a measurable tier belongs to one budget; other slots may mix theirs. */
  predicate OneBudgetWhereMeasured(tiers: seq<Tier>, model: string, hasTeam: bool) {
    forall t, u ::
      (&& t in tiers && u in tiers && Measurable(t, model) && IsMetered(SlotOf(t, model).value, hasTeam)
       && SlotOf(u, model) == SlotOf(t, model)) ==> BudgetOf(u) == BudgetOf(t)
  }

  lemma {:induction false} FirstOfFinds(tiers: seq<Tier>, slot: Slot, model: string)
    ensures FirstOf(tiers, slot, model).Some? <==> exists t :: t in tiers && SlotOf(t, model) == Some(slot)
    ensures FirstOf(tiers, slot, model).Some? ==>
      FirstOf(tiers, slot, model).value in tiers && SlotOf(FirstOf(tiers, slot, model).value, model) == Some(slot)
  {
    hide SlotOf;
    if tiers != [] {
      FirstOfFinds(tiers[1..], slot, model);
      assert forall t :: t in tiers <==> t == tiers[0] || t in tiers[1..];
    }
  }

  lemma SlotIsKnown(t: Tier, model: string)
    requires SlotOf(t, model).Some?
    ensures SlotOf(t, model).value in Slots && SlotOf(t, model).value.scope == t.scope
  {
    var slot := SlotOf(t, model).value;
    match slot.scope
    case Organization => assert slot == Slot(Organization, AllModels) || slot == Slot(Organization, PerModel);
    case Team => assert slot == Slot(Team, AllModels) || slot == Slot(Team, PerModel);
    case Subject => assert slot == Slot(Subject, AllModels);
    case Application => assert slot == Slot(Application, AllModels);
  }

  /** A tier's slot is metered exactly in the lists that hold the tier, with the budget of the slot's first tier. */
  lemma MeterOf(tiers: seq<Tier>, t: Tier, model: string, hasTeam: bool, used: Consumption)
    requires t in tiers && SlotOf(t, model).Some?
    ensures var slot := SlotOf(t, model).value; var meters := Metered(tiers, model, hasTeam, used);
      && FirstOf(tiers, slot, model).Some?
      && (slot in meters <==> IsMetered(slot, hasTeam))
      && (slot in meters ==>
           meters[slot] == MEASUREMENT - Consumed(used, slot, BudgetOf(FirstOf(tiers, slot, model).value)))
  {
    hide SlotOf, FirstOf, Consumed;
    SlotIsKnown(t, model);
    FirstOfFinds(tiers, SlotOf(t, model).value, model);
  }

  /** With one budget in every slot measured, the order of the tier list does not matter to the pipeline either. */
  lemma PipelineIgnoresOrder(a: seq<Tier>, b: seq<Tier>, model: string, hasTeam: bool, used: Consumption)
    requires OneBudgetWhereMeasured(a, model, hasTeam) && SameTiers(a, b)
    ensures TierFor(a, model, hasTeam, used) == TierFor(b, model, hasTeam, used)
  {
    hide SlotOf, Selected, FirstOf, Metered, Crossed, Consumed;
    var x, y := Metered(a, model, hasTeam, used), Metered(b, model, hasTeam, used);
    forall t | t in a ensures TierCrossed(t, model, x) <==> TierCrossed(t, model, y) {
      if Measurable(t, model) {
        var slot := SlotOf(t, model).value;
        MeterOf(a, t, model, hasTeam, used);
        MeterOf(b, t, model, hasTeam, used);
        FirstOfFinds(a, slot, model);
        FirstOfFinds(b, slot, model);
      }
    }
    SelectionDependsOnCrossings(a, b, model, x, y);
  }

  /** Marks between one basis point and the whole quota, and Int64 quotas. */
  predicate MarksInRange(tiers: seq<Tier>) {
    forall t :: t in tiers ==> 0 < t.atBasisPoints <= 10_000 && IsInt64(t.againstTokenQuota)
  }

  predicate UsedInRange(used: Consumption) { forall k :: k in used ==> 0 <= used[k] <= INT64_MAX }

  /** Whatever was consumed, every list of these tiers selects the same. */
  ghost predicate OrderIsIrrelevant(tiers: seq<Tier>, model: string, hasTeam: bool) {
    forall list, used :: SameTiers(tiers, list) && UsedInRange(used) ==>
      TierFor(list, model, hasTeam, used) == TierFor(tiers, model, hasTeam, used)
  }

  /** The order of the tier list is irrelevant to the pipeline exactly when every slot measured has one budget. */
  lemma OrderIrrelevantExactly(tiers: seq<Tier>, model: string, hasTeam: bool)
    requires MarksInRange(tiers)
    ensures OrderIsIrrelevant(tiers, model, hasTeam) <==> OneBudgetWhereMeasured(tiers, model, hasTeam)
  {
    hide SlotOf, TierFor, MarksInRange, Severity;
    if OneBudgetWhereMeasured(tiers, model, hasTeam) {
      forall list, used | SameTiers(tiers, list) && UsedInRange(used)
        ensures TierFor(list, model, hasTeam, used) == TierFor(tiers, model, hasTeam, used)
      {
        PipelineIgnoresOrder(tiers, list, model, hasTeam, used);
      }
    }
    if OrderIsIrrelevant(tiers, model, hasTeam) {
      forall t, u | t in tiers && u in tiers && Measurable(t, model) && IsMetered(SlotOf(t, model).value, hasTeam)
          && SlotOf(u, model) == SlotOf(t, model)
        ensures BudgetOf(u) == BudgetOf(t)
      {
        if BudgetOf(u) != BudgetOf(t) {
          var used := map[(SlotOf(t, model).value, BudgetOf(t)) := INT64_MAX];
          assert SameTiers(tiers, [t] + tiers) && SameTiers(tiers, [u] + tiers);
          OwnBudgetListedFirst(tiers, t, model, hasTeam, used);
          OtherBudgetListedFirst(tiers, t, u, model, hasTeam, used);
        }
      }
    }
  }

  /** The exhausted budget's tier listed first: something is crossed. */
  lemma OwnBudgetListedFirst(tiers: seq<Tier>, t: Tier, model: string, hasTeam: bool, used: Consumption)
    requires MarksInRange(tiers) && t in tiers && Measurable(t, model) && IsMetered(SlotOf(t, model).value, hasTeam)
    requires used == map[(SlotOf(t, model).value, BudgetOf(t)) := INT64_MAX]
    ensures TierFor([t] + tiers, model, hasTeam, used) != ""
  {
    hide SlotOf, Selected, Crossed, Metered, Severity;
    var list := [t] + tiers;
    assert list[0] == t;
    var slot := SlotOf(t, model).value;
    var meters := Metered(list, model, hasTeam, used);
    MeterOf(list, t, model, hasTeam, used);
    TierCrossedExactly(t, model, meters);
    SharesOfWhole(t.atBasisPoints, t.againstTokenQuota);
    SelectedIsMostSevere(list, model, meters);
    assert CrossedAt(list, model, meters, 1);
    CodeBounds("");
    assert Severity("") == 0 by { NoTierNoSeverity(); }
  }

  lemma NoTierNoSeverity()
    ensures Severity("") == 0
  {}

  lemma SharesOfWhole(at: int, quota: int)
    requires 0 < at <= 10_000 && 0 < quota <= INT64_MAX
    ensures INT64_MAX * 10_000 >= at * quota > 0
  {
    MulMono(at, 10_000, quota);
    assert quota * 10_000 <= INT64_MAX * 10_000;
  }

  /** Another budget's tier listed first: every counter reads as untouched, and nothing is crossed. */
  lemma OtherBudgetListedFirst(tiers: seq<Tier>, t: Tier, u: Tier, model: string, hasTeam: bool, used: Consumption)
    requires MarksInRange(tiers) && u in tiers && SlotOf(t, model).Some? && SlotOf(u, model) == SlotOf(t, model)
    requires BudgetOf(u) != BudgetOf(t)
    requires used == map[(SlotOf(t, model).value, BudgetOf(t)) := INT64_MAX]
    ensures TierFor([u] + tiers, model, hasTeam, used) == ""
  {
    hide SlotOf, Selected, Crossed, Metered, Severity;
    var list := [u] + tiers;
    var meters := Metered(list, model, hasTeam, used);
    forall i | 0 <= i < |list| ensures !TierCrossed(list[i], model, meters) {
      var v := list[i];
      assert v in tiers;
      if Eligible(v, model, meters) {
        MeterOf(list, v, model, hasTeam, used);
        assert SlotOf(v, model) == SlotOf(t, model) ==> FirstOf(list, SlotOf(v, model).value, model) == Some(u);
        assert meters[SlotOf(v, model).value] == MEASUREMENT;
        TierCrossedExactly(v, model, meters);
        SharesOfWhole(v.atBasisPoints, v.againstTokenQuota);
      }
    }
    SelectedIsMostSevere(list, model, meters);
    assert !CrossedAt(list, model, meters, 1);
    assert Severity("") == 0 by { NoTierNoSeverity(); }
    CodeBounds(Selected(list, model, meters));
    SeverityTellsCode(Selected(list, model, meters), "");
  }

  /**
   * Two budgets in one slot: whichever tier is listed first, both are compared with that budget's
   * consumption, so the idle budget's tier hides the exhausted one or is hidden by it.
   */
  lemma FirstListedBudgetDecides(busy: Tier, idle: Tier, model: string, hasTeam: bool, used: Consumption)
    requires SlotOf(busy, model).Some? && SlotOf(idle, model) == SlotOf(busy, model)
    requires BudgetOf(busy) != BudgetOf(idle)
    requires busy.scope == Team ==> hasTeam
    requires busy.accountingBasis == idle.accountingBasis == BASIS_CODE
    requires busy.tierCode == MINIMAL && Severity(idle.tierCode) > 0
    requires 0 < busy.againstTokenQuota <= INT64_MAX && 0 < idle.againstTokenQuota <= INT64_MAX
    requires busy.atBasisPoints == 10_000 && idle.atBasisPoints > 0
    requires used == map[(SlotOf(busy, model).value, BudgetOf(busy)) := busy.againstTokenQuota]
    requires busy.againstTokenQuota <= MEASUREMENT
    ensures TierFor([busy, idle], model, hasTeam, used) == MINIMAL
    ensures TierFor([idle, busy], model, hasTeam, used) == ""
  {
    hide Crossed, SlotOf, Selected;
    var slot := SlotOf(busy, model).value;
    var one, two := Metered([busy, idle], model, hasTeam, used), Metered([idle, busy], model, hasTeam, used);
    assert FirstOf([busy, idle], slot, model) == Some(busy) && FirstOf([idle, busy], slot, model) == Some(idle);
    SlotIsKnown(busy, model);
    assert one[slot] == MEASUREMENT - busy.againstTokenQuota && two[slot] == MEASUREMENT;
    TierCrossedExactly(busy, model, one);
    TierCrossedExactly(busy, model, two);
    TierCrossedExactly(idle, model, two);
    assert idle.atBasisPoints * idle.againstTokenQuota > 0;
    assert busy.atBasisPoints * busy.againstTokenQuota > 0;
    SelectedIsMostSevere([busy, idle], model, one);
    SelectedIsMostSevere([idle, busy], model, two);
    assert CrossedAt([busy, idle], model, one, 2) by { assert [busy, idle][0] == busy; }
    assert !CrossedAt([idle, busy], model, two, 1);
  }
}
