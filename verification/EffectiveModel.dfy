/**
 * Which model serves a request: the one asked for, unless a budget is under pressure and the caller
 * accepts a substitute; then the end of a bounded walk over the fallback chain.
 */
module EffectiveModel {
  import opened Common
  import opened DecimalThreshold
  import opened EffectivePolicy

  /** Counters the earlier policies left behind; a scope without one was not metered. */
  type Remaining = map<Scope, int>

  const Scopes: seq<Scope> := [Organization, Team, Subject, Application]

  predicate IsAllModels(l: Limit, scope: Scope) { l.scope == scope && l.modelScope == AllModels }

  function FindLimit(limits: seq<Limit>, scope: Scope): Option<Limit> {
    if limits == [] then None
    else if IsAllModels(limits[0], scope) then Some(limits[0])
    else FindLimit(limits[1..], scope)
  }

  function QuotaOf(limits: seq<Limit>, scope: Scope): int {
    var limit := FindLimit(limits, scope);
    if limit.None? || limit.value.tokenQuota.None? then 0 else limit.value.tokenQuota.value
  }

  predicate ScopeBreached(limits: seq<Limit>, remaining: Remaining, threshold: int, scope: Scope) {
    && scope in remaining
    && QuotaOf(limits, scope) > 0
    && Crossed(QuotaOf(limits, scope), QuotaOf(limits, scope), remaining[scope], HUNDRED, threshold)
  }

  function FindPressure(pressure: seq<Pressure>, model: string): Option<Pressure> {
    if pressure == [] then None
    else if pressure[0].model == model then Some(pressure[0])
    else FindPressure(pressure[1..], model)
  }

  predicate ModelBreached(pressure: Option<seq<Pressure>>, requested: string, threshold: int) {
    && pressure.Some?
    && FindPressure(pressure.value, requested).Some?
    && FindPressure(pressure.value, requested).value.consumedBasisPoints >= Wrap32(threshold * 100)
  }

  predicate Breached(p: Policy, requested: string, remaining: Remaining, threshold: int) {
    || (exists scope :: scope in Scopes && ScopeBreached(p.limits, remaining, threshold, scope))
    || ModelBreached(p.modelPressure, requested, threshold)
  }

  function FindEdge(chain: seq<Edge>, from: string): Option<Edge> {
    if chain == [] then None
    else if chain[0].from == from then Some(chain[0])
    else FindEdge(chain[1..], from)
  }

  /** The allowed target of the first edge leaving a model. */
  function Hop(chain: seq<Edge>, allowed: seq<string>, model: string): Option<string> {
    var edge := FindEdge(chain, model);
    if edge.Some? && edge.value.to in allowed then Some(edge.value.to) else None
  }

  /** The end of at most so many hops. */
  function Walk(chain: seq<Edge>, allowed: seq<string>, model: string, depth: nat): string
    decreases depth
  {
    if depth == 0 then model
    else match Hop(chain, allowed, model)
      case None => model
      case Some(next) => Walk(chain, allowed, next, depth - 1)
  }

  function Threshold(p: Policy): int { if p.warnThresholdPercent.Some? then p.warnThresholdPercent.value else 0 }

  /** Everything that must hold before a substitute is looked for. */
  predicate Substitutes(p: Policy, requested: string, remaining: Remaining) {
    && p.fallback.Some? && p.fallback.value.enabled
    && p.modelSelectionIntent == Some("preferred")
    && Threshold(p) > 0
    && Breached(p, requested, remaining, Threshold(p))
  }

  function Depth(p: Policy): nat
    requires p.fallback.Some?
  {
    if p.fallback.value.maxDepth < 0 then 0 else p.fallback.value.maxDepth
  }

  function ModelOf(p: Policy, requested: string, remaining: Remaining): string {
    if Substitutes(p, requested, remaining)
    then Walk(p.fallback.value.chain, p.allowedModels, requested, Depth(p)) else requested
  }

  lemma WalkOneMore(chain: seq<Edge>, allowed: seq<string>, model: string, depth: nat)
    ensures var end := Walk(chain, allowed, model, depth);
      Walk(chain, allowed, model, depth + 1) ==
        match Hop(chain, allowed, end) case None => end case Some(next) => next
    decreases depth
  {
    match Hop(chain, allowed, model)
    case None =>
    case Some(next) => if depth > 0 { WalkOneMore(chain, allowed, next, depth - 1); }
  }

  lemma {:induction false} WalkStops(chain: seq<Edge>, allowed: seq<string>, model: string, depth: nat, more: nat)
    requires depth <= more && Hop(chain, allowed, Walk(chain, allowed, model, depth)).None?
    ensures Walk(chain, allowed, model, more) == Walk(chain, allowed, model, depth)
  {
    if depth < more {
      WalkStops(chain, allowed, model, depth, more - 1);
      WalkOneMore(chain, allowed, model, more - 1);
    }
  }

  /** The policy expression, loops and early returns as they stand. */
  method EffectiveModel(p: Policy, requested: string, remaining: Remaining) returns (model: string)
    ensures model == ModelOf(p, requested, remaining)
  {
    hide Crossed, FindLimit, FindPressure, Wrap32;
    if p.fallback.None? || !p.fallback.value.enabled { return requested; }
    var intent := if p.modelSelectionIntent.None? then "pinned" else p.modelSelectionIntent.value;
    if intent != "preferred" { return requested; }
    var threshold := if p.warnThresholdPercent.None? then 0 else p.warnThresholdPercent.value;
    if threshold <= 0 { return requested; }

    var breached := false;
    for i := 0 to |Scopes|
      invariant breached <==> exists k :: 0 <= k < i && ScopeBreached(p.limits, remaining, threshold, Scopes[k])
    {
      var scope := Scopes[i];
      if scope in remaining {
        var limit := FindLimit(p.limits, scope);
        if limit.Some? {
          var quota := if limit.value.tokenQuota.None? then 0 else limit.value.tokenQuota.value;
          if quota > 0 && Crossed(quota, quota, remaining[scope], HUNDRED, threshold) { breached := true; }
        }
      }
    }
    if p.modelPressure.Some? {
      var entry := FindPressure(p.modelPressure.value, requested);
      if entry.Some? && entry.value.consumedBasisPoints >= Wrap32(threshold * 100) { breached := true; }
    }
    if !breached {
      assert forall scope :: scope in Scopes ==> exists k :: 0 <= k < |Scopes| && Scopes[k] == scope;
      return requested;
    }

    var chain, maxDepth := p.fallback.value.chain, p.fallback.value.maxDepth;
    model := requested;
    var depth := 0;
    while depth < maxDepth
      invariant 0 <= depth <= if maxDepth < 0 then 0 else maxDepth
      invariant model == Walk(chain, p.allowedModels, requested, depth)
    {
      WalkOneMore(chain, p.allowedModels, requested, depth);
      var edge := FindEdge(chain, model);
      if edge.None? || edge.value.to !in p.allowedModels {
        WalkStops(chain, p.allowedModels, requested, depth, maxDepth);
        return;
      }
      model := edge.value.to;
      depth := depth + 1;
    }
  }

  // ----- where the walk ends

  /** The models visited, the first one included. */
  function Path(chain: seq<Edge>, allowed: seq<string>, model: string, depth: nat): (path: seq<string>)
    ensures |path| > 0 && path[0] == model
    decreases depth
  {
    if depth == 0 then [model]
    else match Hop(chain, allowed, model)
      case None => [model]
      case Some(next) => [model] + Path(chain, allowed, next, depth - 1)
  }

  predicate IsFirstEdge(chain: seq<Edge>, from: string, to: string) {
    exists i :: 0 <= i < |chain| && chain[i] == Edge(from, to) && forall j :: 0 <= j < i ==> chain[j].from != from
  }

  lemma {:induction false} FindEdgeIsFirst(chain: seq<Edge>, from: string)
    requires FindEdge(chain, from).Some?
    ensures IsFirstEdge(chain, from, FindEdge(chain, from).value.to)
  {
    if chain[0].from == from {
      assert chain[0] == Edge(from, chain[0].to);
    } else {
      FindEdgeIsFirst(chain[1..], from);
      var to := FindEdge(chain, from).value.to;
      var i :| 0 <= i < |chain[1..]| && chain[1..][i] == Edge(from, to)
        && forall j :: 0 <= j < i ==> chain[1..][j].from != from;
      assert chain[i + 1] == Edge(from, to);
      forall j | 0 <= j < i + 1 ensures chain[j].from != from { if j > 0 { assert chain[j] == chain[1..][j - 1]; } }
    }
  }

  /** One step of a path: the first edge leaving its model, to an allowed one. */
  predicate FollowsEdge(chain: seq<Edge>, allowed: seq<string>, path: seq<string>, i: nat)
    requires i + 1 < |path|
  {
    IsFirstEdge(chain, path[i], path[i + 1]) && path[i + 1] in allowed
  }

  /**
   * The walk ends within its depth, along edges each of which is the first one leaving its model and
   * leads to an allowed model; it stops early only where no such edge leaves.
   */
  lemma {:induction false} WalkFollowsAllowedEdges(chain: seq<Edge>, allowed: seq<string>, model: string, depth: nat)
    ensures var path := Path(chain, allowed, model, depth);
      && |path| <= depth + 1
      && path[|path| - 1] == Walk(chain, allowed, model, depth)
      && (forall i :: 0 <= i < |path| - 1 ==> FollowsEdge(chain, allowed, path, i))
      && (|path| < depth + 1 ==> Hop(chain, allowed, Walk(chain, allowed, model, depth)).None?)
    decreases depth
  {
    hide IsFirstEdge, FindEdge;
    if depth > 0 {
      match Hop(chain, allowed, model)
      case None =>
      case Some(next) =>
        WalkFollowsAllowedEdges(chain, allowed, next, depth - 1);
        FindEdgeIsFirst(chain, model);
        var path, rest := Path(chain, allowed, model, depth), Path(chain, allowed, next, depth - 1);
        forall i | 0 <= i < |path| - 1 ensures FollowsEdge(chain, allowed, path, i) {
          if i > 0 { assert FollowsEdge(chain, allowed, rest, i - 1); }
        }
    }
  }

  /** An admitted request is always served by a model of its own allowlist. */
  lemma ServedModelIsAllowed(p: Policy, requested: string, remaining: Remaining)
    requires requested in p.allowedModels
    ensures ModelOf(p, requested, remaining) in p.allowedModels
  {
    hide Breached, Walk, Hop, IsFirstEdge;
    if Substitutes(p, requested, remaining) {
      var chain, depth := p.fallback.value.chain, Depth(p);
      WalkFollowsAllowedEdges(chain, p.allowedModels, requested, depth);
      var path := Path(chain, p.allowedModels, requested, depth);
      if |path| > 1 { assert FollowsEdge(chain, p.allowedModels, path, |path| - 2); }
    }
  }

  // ----- what `fallbackApplied` tells

  /** The model exactly so many hops away, if the walk gets that far. */
  function After(chain: seq<Edge>, allowed: seq<string>, model: string, hops: nat): Option<string>
    decreases hops
  {
    if hops == 0 then Some(model)
    else match Hop(chain, allowed, model)
      case None => None
      case Some(next) => After(chain, allowed, next, hops - 1)
  }

  predicate Returns(chain: seq<Edge>, allowed: seq<string>, model: string, hops: nat) {
    hops > 0 && After(chain, allowed, model, hops) == Some(model)
  }

  ghost predicate OnCycle(chain: seq<Edge>, allowed: seq<string>, model: string) {
    exists hops: nat :: Returns(chain, allowed, model, hops)
  }

  lemma {:induction false} WalkIsAfter(chain: seq<Edge>, allowed: seq<string>, model: string, depth: nat)
    returns (hops: nat)
    ensures hops <= depth && After(chain, allowed, model, hops) == Some(Walk(chain, allowed, model, depth))
    ensures hops == 0 <==> depth == 0 || Hop(chain, allowed, model).None?
    decreases depth
  {
    if depth == 0 || Hop(chain, allowed, model).None? {
      hops := 0;
    } else {
      var rest := WalkIsAfter(chain, allowed, Hop(chain, allowed, model).value, depth - 1);
      hops := rest + 1;
    }
  }

  lemma {:induction false} WalkReaches(chain: seq<Edge>, allowed: seq<string>, model: string, hops: nat)
    requires After(chain, allowed, model, hops).Some?
    ensures Walk(chain, allowed, model, hops) == After(chain, allowed, model, hops).value
    decreases hops
  {
    if hops > 0 { WalkReaches(chain, allowed, Hop(chain, allowed, model).value, hops - 1); }
  }

  /** A hop was taken. */
  predicate Hopped(chain: seq<Edge>, allowed: seq<string>, model: string, depth: nat) {
    depth > 0 && Hop(chain, allowed, model).Some?
  }

  /**
   * The answer differs from the requested model exactly when a hop was taken, whatever the depth, if
   * and only if the allowed chain never leads back to that model.
   */
  lemma AppliedMeansHopped(chain: seq<Edge>, allowed: seq<string>, model: string)
    ensures (forall depth: nat :: Walk(chain, allowed, model, depth) != model <==> Hopped(chain, allowed, model, depth))
      <==> !OnCycle(chain, allowed, model)
  {
    hide Hop;
    forall depth: nat ensures Walk(chain, allowed, model, depth) != model ==> Hopped(chain, allowed, model, depth) {}
    if OnCycle(chain, allowed, model) {
      var hops: nat :| Returns(chain, allowed, model, hops);
      WalkReaches(chain, allowed, model, hops);
      assert Hopped(chain, allowed, model, hops) && Walk(chain, allowed, model, hops) == model;
    } else {
      forall depth: nat | Hopped(chain, allowed, model, depth) ensures Walk(chain, allowed, model, depth) != model {
        var hops := WalkIsAfter(chain, allowed, model, depth);
        assert !Returns(chain, allowed, model, hops);
      }
    }
  }

  predicate InRange(p: Policy, remaining: Remaining) {
    && (forall scope :: scope in remaining ==> IsInt64(remaining[scope]))
    && (forall scope :: scope in Scopes ==> IsInt64(QuotaOf(p.limits, scope)))
  }

  /** That share of a metered quota is consumed, and the subtraction that says so stays within Int64. */
  predicate UnderPressure(p: Policy, remaining: Remaining, scope: Scope) {
    && scope in remaining
    && var quota := QuotaOf(p.limits, scope);
    && quota > 0 && !Wraps(quota, remaining[scope]) && (quota - remaining[scope]) * 100 >= Threshold(p) * quota
  }

  lemma ScopeBreachedExactly(p: Policy, remaining: Remaining, scope: Scope)
    requires Threshold(p) > 0 && scope in Scopes && InRange(p, remaining)
    ensures ScopeBreached(p.limits, remaining, Threshold(p), scope) <==> UnderPressure(p, remaining, scope)
  {
    hide Crossed, QuotaOf;
    assert Pow10(2) == HUNDRED;
    var quota := QuotaOf(p.limits, scope);
    if scope in remaining && quota > 0 { CrossedExactly(quota, quota, remaining[scope], 2, HUNDRED, Threshold(p)); }
  }

  /** A substitute is looked for exactly when the model itself or some metered scope is under pressure. */
  lemma BreachedExactly(p: Policy, requested: string, remaining: Remaining)
    requires Threshold(p) > 0 && InRange(p, remaining)
    ensures Breached(p, requested, remaining, Threshold(p)) <==>
      || ModelBreached(p.modelPressure, requested, Threshold(p))
      || exists scope :: scope in Scopes && UnderPressure(p, remaining, scope)
  {
    hide ScopeBreached, UnderPressure, ModelBreached;
    forall scope | scope in Scopes
      ensures ScopeBreached(p.limits, remaining, Threshold(p), scope) <==> UnderPressure(p, remaining, scope)
    {
      ScopeBreachedExactly(p, remaining, scope);
    }
  }

  // ----- more consumption

  /** Some counters are lower and none is higher. */
  predicate Lower(less: Remaining, more: Remaining) {
    less.Keys == more.Keys && forall scope :: scope in less ==> less[scope] <= more[scope]
  }

  /**
   * A substitution at higher counters survives lower ones exactly when the model is still under pressure, or some
   * metered scope is: by its consumption, which only grew, and without a wrap.
   */
  lemma SubstitutionSurvivesExactly(p: Policy, requested: string, more: Remaining, less: Remaining)
    requires Lower(less, more) && InRange(p, more) && InRange(p, less)
    requires ModelOf(p, requested, more) != requested
    ensures ModelOf(p, requested, less) == ModelOf(p, requested, more) <==>
      || ModelBreached(p.modelPressure, requested, Threshold(p))
      || exists scope :: scope in Scopes && UnderPressure(p, less, scope)
  {
    hide Breached, UnderPressure, ModelBreached, Walk;
    BreachedExactly(p, requested, less);
  }

  /** So it survives while one scope that was under pressure does not wrap, whatever the other counters do. */
  lemma SubstitutionSurvivesConsumption(p: Policy, requested: string, more: Remaining, less: Remaining, scope: Scope)
    requires Lower(less, more) && InRange(p, more) && InRange(p, less)
    requires ModelOf(p, requested, more) != requested
    requires scope in Scopes && UnderPressure(p, more, scope) && !Wraps(QuotaOf(p.limits, scope), less[scope])
    ensures ModelOf(p, requested, less) == ModelOf(p, requested, more)
  {
    hide ModelOf, ModelBreached, QuotaOf;
    assert (QuotaOf(p.limits, scope) - less[scope]) * 100 >= (QuotaOf(p.limits, scope) - more[scope]) * 100;
    SubstitutionSurvivesExactly(p, requested, more, less);
  }

  const SomeLimit := Limit(Organization, AllModels, None, Some(100), None, 0)

  const WrappingPolicy := Policy(["a", "b"], None, [SomeLimit], Some(80), None,
                                 Some(Fallback(true, [Edge("a", "b")], 1)), Some("preferred"), None)

  /** With every metered budget exhausted beyond what Int64 can say, only the model's own pressure substitutes. */
  lemma WrapsHideEveryBreach(p: Policy, requested: string, remaining: Remaining)
    requires InRange(p, remaining)
    requires forall scope :: scope in remaining && QuotaOf(p.limits, scope) > 0 ==>
      Wraps(QuotaOf(p.limits, scope), remaining[scope])
    ensures ModelOf(p, requested, remaining) != requested ==> ModelBreached(p.modelPressure, requested, Threshold(p))
  {
    hide Breached, Wraps, QuotaOf, Walk, ModelBreached;
    if Threshold(p) > 0 { BreachedExactly(p, requested, remaining); }
  }

  /** So a wrap undoes a substitution: the exhausted budget serves the substitute, the more exhausted one does not. */
  lemma WrapUndoesSubstitution()
    ensures Lower(map[Organization := -INT64_MAX], map[Organization := 0])
    ensures ModelOf(WrappingPolicy, "a", map[Organization := 0]) == "b"
    ensures ModelOf(WrappingPolicy, "a", map[Organization := -INT64_MAX]) == "a"
  {
    hide Crossed, Wraps, ModelOf;
    forall scope ensures QuotaOf(WrappingPolicy.limits, scope) == if scope == Organization then 100 else 0 {
      assert WrappingPolicy.limits[1..] == [];
      assert FindLimit(WrappingPolicy.limits[1..], scope) == None;
    }
    WrapFacts();
    ExhaustedServesSubstitute();
    WrapsHideEveryBreach(WrappingPolicy, "a", map[Organization := -INT64_MAX]);
  }

  lemma ExhaustedServesSubstitute()
    ensures ModelOf(WrappingPolicy, "a", map[Organization := 0]) == "b"
  {
    hide Crossed, Wraps;
    var p := WrappingPolicy;
    assert Pow10(2) == HUNDRED;
    WrapFacts();
    CrossedExactly(100, 100, 0, 2, HUNDRED, 80);
    assert ScopeBreached(p.limits, map[Organization := 0], 80, Scopes[0]);
    assert Hop(p.fallback.value.chain, p.allowedModels, "a") == Some("b") by { assert p.allowedModels[1] == "b"; }
  }

  lemma WrapFacts()
    ensures !Wraps(100, 0) && Wraps(100, -INT64_MAX)
  {}
}
