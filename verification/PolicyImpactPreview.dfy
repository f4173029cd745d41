/**
 * The impact preview: resolve the stored proposal and the serving set with one calculator, then
 * read the serving set again and refuse to answer when it moved.
 *
 * Every read is an await: any other component may act before it, and the five snapshot documents
 * of a set are read one at a time.
 */
module PolicyImpactPreview {
  import opened Common
  import opened Json
  import opened CanonicalForm
  import L = Lifecycle

  // ----- what changed between two resolutions

  datatype Semantic =
    | AllowedModels | ModelDeployments | Limits | WarnThreshold | ThrottleTiers | Fallback
    | FallbackRestrictions | ModelSelectionIntent | SubstitutionNotice

  const SemanticFields: seq<Semantic> := [
    AllowedModels, ModelDeployments, Limits, WarnThreshold, ThrottleTiers, Fallback,
    FallbackRestrictions, ModelSelectionIntent, SubstitutionNotice]

  type Policy = map<Semantic, Json>

  /** What the resolver answers; `restrictions` is the evaluation's fallback evidence, defaults filled in. */
  datatype Resolution = Resolution(status: int, document: Option<Policy>, reasonCode: Option<string>, restrictions: Json)

  datatype Standing = Resolved | RefusedPolicy | UnavailablePolicy

  datatype Outcome = Outcome(state: Standing, reasonCode: Option<string>, policy: Option<Policy>)

  function OutcomeOf(r: Resolution): Outcome {
    if r.status != 200 || r.document.None? then
      Outcome(if r.status == 403 then RefusedPolicy else UnavailablePolicy,
              Some(if r.reasonCode.Some? then r.reasonCode.value else "policy-resolution-unavailable"), None)
    else Outcome(Resolved, r.reasonCode, Some(r.document.value[FallbackRestrictions := r.restrictions]))
  }

  datatype Change =
    | ResolutionChange(before: (Standing, Option<string>), after: (Standing, Option<string>))
    | FieldChange(category: Semantic, shownBefore: Json, shownAfter: Json)

  function Lookup(p: Policy, field: Semantic): Option<Json> { if field in p then Some(p[field]) else None }

  /** An absent field is shown as null, and is still told apart from a null one. */
  function Shown(v: Option<Json>): Json { if v.Some? then v.value else Null }

  function FieldChanges(before: Policy, after: Policy, fields: seq<Semantic>): seq<Change> {
    if fields == [] then []
    else
      var b, a := Lookup(before, fields[0]), Lookup(after, fields[0]);
      (if Fingerprint(b) != Fingerprint(a) then [FieldChange(fields[0], Shown(b), Shown(a))] else [])
        + FieldChanges(before, after, fields[1..])
  }

  function Changes(before: Outcome, after: Outcome): seq<Change> {
    if before.state != after.state || before.reasonCode != after.reasonCode then
      [ResolutionChange((before.state, before.reasonCode), (after.state, after.reasonCode))]
    else if before.policy.None? || after.policy.None? then []
    else FieldChanges(before.policy.value, after.policy.value, SemanticFields)
  }

  datatype Verdict = Unavailable | Refused | NoChange | Changed

  function ComparisonState(before: Outcome, after: Outcome, differences: seq<Change>): Verdict {
    if before.state == UnavailablePolicy || after.state == UnavailablePolicy then Unavailable
    else if before.state == RefusedPolicy && after.state == RefusedPolicy then Refused
    else if differences == [] then NoChange else Changed
  }

  predicate WellFormedPolicy(p: Policy) { forall field :: field in p ==> WellFormed(p[field]) }

  predicate WellFormedResolution(r: Resolution) {
    (r.document.Some? ==> WellFormedPolicy(r.document.value)) && WellFormed(r.restrictions)
  }

  ghost predicate SameField(before: Policy, after: Policy, field: Semantic) {
    SaysTheSame(Lookup(before, field), Lookup(after, field))
  }

  ghost predicate Differing(before: Policy, after: Policy, fields: seq<Semantic>, field: Semantic) {
    field in fields && !SameField(before, after, field)
  }

  ghost predicate Names(changes: seq<Change>, field: Semantic) {
    exists i :: 0 <= i < |changes| && changes[i].FieldChange? && changes[i].category == field
  }

  /** A change shows the field as each side has it, or as null where it has none. */
  predicate ShowsBoth(d: Change, before: Policy, after: Policy) {
    && d.FieldChange?
    && d.shownBefore == (if d.category in before then before[d.category] else Null)
    && d.shownAfter == (if d.category in after then after[d.category] else Null)
  }

  lemma LookupIsWellFormed(p: Policy, field: Semantic)
    requires WellFormedPolicy(p)
    ensures WellFormedOption(Lookup(p, field))
  {}

  lemma {:induction false} FieldChangesAreExact(before: Policy, after: Policy, fields: seq<Semantic>)
    requires WellFormedPolicy(before) && WellFormedPolicy(after)
    ensures var changes := FieldChanges(before, after, fields);
      && (forall field :: Names(changes, field) <==> Differing(before, after, fields, field))
      && (forall c :: c in changes ==> ShowsBoth(c, before, after))
  {
    hide Fingerprint, SaysTheSame, WellFormed, WellFormedOption, WellFormedPolicy;
    if fields != [] {
      var first, rest := fields[0], FieldChanges(before, after, fields[1..]);
      var changes := FieldChanges(before, after, fields);
      var own := |changes| - |rest|;
      FieldChangesAreExact(before, after, fields[1..]);
      LookupIsWellFormed(before, first);
      LookupIsWellFormed(after, first);
      FingerprintDecides(Lookup(before, first), Lookup(after, first));
      assert changes == changes[..own] + rest && fields == [first] + fields[1..];
      forall field ensures Names(changes, field) <==> Differing(before, after, fields, field) {
        NamesOfMore(changes[..own], rest, field);
        if own == 1 { assert changes[..own][0].category == first; }
        assert Names(changes[..own], field) <==> own == 1 && field == first;
        assert field in fields <==> field == first || field in fields[1..];
        assert own == 1 <==> !SameField(before, after, first);
        assert Names(rest, field) <==> Differing(before, after, fields[1..], field);
      }
    }
  }

  lemma NamesOfMore(own: seq<Change>, rest: seq<Change>, field: Semantic)
    ensures Names(own + rest, field) <==> Names(own, field) || Names(rest, field)
  {
    var all := own + rest;
    if Names(own, field) {
      var i :| 0 <= i < |own| && own[i].FieldChange? && own[i].category == field;
      assert all[i] == own[i];
    }
    if Names(rest, field) {
      var i :| 0 <= i < |rest| && rest[i].FieldChange? && rest[i].category == field;
      assert all[i + |own|] == rest[i];
    }
  }

  lemma EverySemanticFieldIsListed(field: Semantic)
    ensures field in SemanticFields
  {
    match field
    case AllowedModels => assert SemanticFields[0] == field;
    case ModelDeployments => assert SemanticFields[1] == field;
    case Limits => assert SemanticFields[2] == field;
    case WarnThreshold => assert SemanticFields[3] == field;
    case ThrottleTiers => assert SemanticFields[4] == field;
    case Fallback => assert SemanticFields[5] == field;
    case FallbackRestrictions => assert SemanticFields[6] == field;
    case ModelSelectionIntent => assert SemanticFields[7] == field;
    case SubstitutionNotice => assert SemanticFields[8] == field;
  }

  /**
   * "No change" is claimed exactly when both sides resolve, for one reason, to policies that say
   * the same in every field; otherwise every differing field, and only those, is listed.
   */
  lemma NoChangeMeansNoDifference(before: Resolution, after: Resolution)
    requires WellFormedResolution(before) && WellFormedResolution(after)
    ensures var b, a := OutcomeOf(before), OutcomeOf(after);
      ComparisonState(b, a, Changes(b, a)) == NoChange <==>
        && b.policy.Some? && a.policy.Some? && b.reasonCode == a.reasonCode
        && forall field :: SameField(b.policy.value, a.policy.value, field)
    ensures var b, a := OutcomeOf(before), OutcomeOf(after);
      b.policy.Some? && a.policy.Some? && b.reasonCode == a.reasonCode ==>
        forall field :: Names(Changes(b, a), field) <==> !SameField(b.policy.value, a.policy.value, field)
  {
    hide SameField, WellFormed, FieldChanges;
    var b, a := OutcomeOf(before), OutcomeOf(after);
    if b.policy.Some? && a.policy.Some? && b.reasonCode == a.reasonCode {
      FieldChangesAreExact(b.policy.value, a.policy.value, SemanticFields);
      var changes := Changes(b, a);
      forall field ensures Names(changes, field) <==> !SameField(b.policy.value, a.policy.value, field) {
        EverySemanticFieldIsListed(field);
        assert Names(changes, field) <==> Differing(b.policy.value, a.policy.value, SemanticFields, field);
      }
      if changes != [] {
        assert changes[0] in changes && ShowsBoth(changes[0], b.policy.value, a.policy.value);
        assert Names(changes, changes[0].category);
      }
    }
  }

  // ----- the stores it reads

  const KINDS := 5

  datatype Head = Head(number: int, state: L.State)

  /** The stores at one instant. A draft without a set of snapshots is `Some(None)`. */
  datatype Moment = Moment(
    active: seq<Option<Json>>,
    activeRevision: Option<string>,
    revisions: map<string, Head>,
    drafts: map<string, Option<Json>>)

  predicate WellFormedMoment(m: Moment) {
    && |m.active| == KINDS
    && (forall k :: 0 <= k < KINDS ==> WellFormedOption(m.active[k]))
  }

  function PropertyName(k: nat): Text {
    if k == 0 then Units("assignmentSnapshot")
    else if k == 1 then Units("entitlementSnapshot")
    else if k == 2 then Units("modelRegistrySnapshot")
    else if k == 3 then Units("fallbackPolicySnapshot")
    else Units("budgetSnapshot")
  }

  /** The assembled set, as one object. */
  function Assembled(docs: seq<Json>): Json
    requires |docs| == KINDS
  {
    Obj(seq(KINDS, k requires 0 <= k < KINDS => Field(PropertyName(k), docs[k])))
  }

  lemma NamesDiffer(i: nat, j: nat)
    requires i < j < KINDS
    ensures PropertyName(i) != PropertyName(j)
  {
    assert |PropertyName(0)| == 18 && |PropertyName(1)| == 19 && |PropertyName(2)| == 21;
    assert |PropertyName(3)| == 22 && |PropertyName(4)| == 14;
  }

  /** Equal fingerprints of two sets: the sets agree document by document. */
  lemma SameSetSameDocuments(a: seq<Json>, b: seq<Json>)
    requires |a| == |b| == KINDS
    requires forall k :: 0 <= k < KINDS ==> WellFormed(a[k]) && WellFormed(b[k])
    ensures Fingerprint(Some(Assembled(a))) == Fingerprint(Some(Assembled(b))) ==>
      forall k :: 0 <= k < KINDS ==> Denote(a[k]) == Denote(b[k])
  {
    hide PropertyName, Fingerprint, WellFormed;
    var x, y := Assembled(a), Assembled(b);
    AssembledIsWellFormed(a);
    AssembledIsWellFormed(b);
    FingerprintDecides(Some(x), Some(y));
    DenoteFieldsIs(x.fields);
    DenoteFieldsIs(y.fields);
    if Fingerprint(Some(x)) == Fingerprint(Some(y)) {
      forall k | 0 <= k < KINDS ensures Denote(a[k]) == Denote(b[k]) {
        assert x.fields[k].value == a[k] && y.fields[k].value == b[k];
        assert x.fields[k].key == y.fields[k].key;
      }
    }
  }

  lemma AssembledIsWellFormed(docs: seq<Json>)
    requires |docs| == KINDS
    requires forall k :: 0 <= k < KINDS ==> WellFormed(docs[k])
    ensures WellFormed(Assembled(docs)) && DistinctKeys(Assembled(docs).fields)
  {
    hide PropertyName;
    forall i, j | 0 <= i < j < KINDS ensures PropertyName(i) != PropertyName(j) { NamesDiffer(i, j); }
    forall k | 0 <= k < KINDS ensures WellFormedField(Assembled(docs).fields[k]) {}
  }

  ghost predicate Sound(history: seq<Moment>) {
    forall i :: 0 <= i < |history| ==> WellFormedMoment(history[i])
  }

  ghost predicate RecursNever(history: seq<Moment>, k: nat)
    requires Sound(history) && k < KINDS
  {
    forall i, j, l :: 0 <= i <= j <= l < |history| ==>
      (SaysTheSame(history[i].active[k], history[l].active[k]) ==>
       SaysTheSame(history[i].active[k], history[j].active[k]))
  }

  /** A document that was replaced never says again what it said before. */
  ghost predicate VersionsNeverRecur(history: seq<Moment>)
    requires Sound(history)
  {
    forall k :: 0 <= k < KINDS ==> RecursNever(history, k)
  }

  /** All five documents said this at once, at every moment of the window. */
  ghost predicate HeldThroughout(history: seq<Moment>, from: nat, to: nat, docs: seq<Json>)
    requires Sound(history) && |docs| == KINDS
  {
    forall i, k :: from <= i <= to && i < |history| && 0 <= k < KINDS ==>
      SaysTheSame(history[i].active[k], Some(docs[k]))
  }

  /** Each document was read at some moment of the window. */
  ghost predicate Collected(history: seq<Moment>, docs: seq<Json>, at: seq<nat>, from: nat, to: nat)
    requires Sound(history)
  {
    && |docs| == |at| == KINDS && to < |history|
    && forall k :: 0 <= k < KINDS ==> CollectedAt(history, docs[k], k, at[k], from, to)
  }

  ghost predicate CollectedAt(history: seq<Moment>, doc: Json, k: nat, at: nat, from: nat, to: nat)
    requires Sound(history) && to < |history| && k < KINDS
  {
    from <= at <= to && WellFormed(doc) && history[at].active[k] == Some(doc)
  }

  lemma CollectedStays(history: seq<Moment>, later: seq<Moment>, docs: seq<Json>, at: seq<nat>, from: nat, to: nat)
    requires Sound(history) && Sound(later) && history <= later
    requires Collected(history, docs, at, from, to)
    ensures Collected(later, docs, at, from, to)
  {
    hide WellFormed;
    forall k | 0 <= k < KINDS ensures CollectedAt(later, docs[k], k, at[k], from, to) {
      assert CollectedAt(history, docs[k], k, at[k], from, to);
    }
  }

  /** Two collections with equal fingerprints, and no document returning: the set held in between. */
  lemma HeldBetweenReads(history: seq<Moment>, first: seq<Json>, again: seq<Json>, at: seq<nat>, atAgain: seq<nat>,
                         start: nat, from: nat, to: nat, end: nat)
    requires Sound(history) && from <= to
    requires Collected(history, first, at, start, from) && Collected(history, again, atAgain, to, end)
    requires Fingerprint(Some(Assembled(first))) == Fingerprint(Some(Assembled(again)))
    requires VersionsNeverRecur(history)
    ensures HeldThroughout(history, from, to, first)
  {
    hide WellFormed, Fingerprint, Assembled;
    forall k | 0 <= k < KINDS
      ensures CollectedAt(history, first[k], k, at[k], start, from) && CollectedAt(history, again[k], k, atAgain[k], to, end)
    {}
    SameSetSameDocuments(first, again);
    forall i, k | from <= i <= to && i < |history| && 0 <= k < KINDS
      ensures SaysTheSame(history[i].active[k], Some(first[k]))
    {
      assert RecursNever(history, k);
      assert SaysTheSame(history[at[k]].active[k], history[atAgain[k]].active[k]);
      assert SaysTheSame(history[at[k]].active[k], history[i].active[k]);
    }
  }

  datatype Comparison = Comparison(
    state: Verdict,
    revision: Head,
    basisRevision: Option<string>,
    before: Outcome,
    after: Outcome,
    changes: seq<Change>)

  function ComparisonOf(revision: Head, basisRevision: Option<string>, before: Resolution, after: Resolution): Comparison {
    var b, a := OutcomeOf(before), OutcomeOf(after);
    var differences := Changes(b, a);
    Comparison(ComparisonState(b, a, differences), revision, basisRevision, b, a, differences)
  }

  predicate Resolves(r: Resolution) { r.status == 200 && r.document.Some? }

  predicate IsRefused(r: Resolution) { r.status == 403 }

  /** How one side is shown: resolved, with the document's fields and the evaluation's restrictions; or why not. */
  ghost predicate ShowsResolution(o: Outcome, r: Resolution) {
    && (o.state == Resolved <==> Resolves(r))
    && (o.state == RefusedPolicy <==> IsRefused(r))
    && (o.policy.Some? <==> Resolves(r))
    && (Resolves(r) ==>
         && o.reasonCode == r.reasonCode
         && Lookup(o.policy.value, FallbackRestrictions) == Some(r.restrictions)
         && forall field :: field != FallbackRestrictions ==> Lookup(o.policy.value, field) == Lookup(r.document.value, field))
    && (!Resolves(r) ==>
         o.reasonCode == if r.reasonCode == None then Some("policy-resolution-unavailable") else r.reasonCode)
  }

  /**
   * What a comparison says of two resolutions: unavailable where either side neither resolves nor is refused,
   * refused where both are refused, and changed wherever else they stand differently; of two that resolve for one
   * reason, "no change" exactly when the policies are alike in every field, and otherwise every differing field,
   * only those, with what each side shows of it.
   */
  ghost predicate TellsDifferences(c: Comparison, before: Resolution, after: Resolution) {
    && ShowsResolution(c.before, before) && ShowsResolution(c.after, after)
    && (c.state == Unavailable <==>
         (!Resolves(before) && !IsRefused(before)) || (!Resolves(after) && !IsRefused(after)))
    && (c.state == Refused <==> IsRefused(before) && IsRefused(after))
    && ((Resolves(before) && IsRefused(after)) || (IsRefused(before) && Resolves(after)) ==> c.state == Changed)
    && (Resolves(before) && Resolves(after) && before.reasonCode != after.reasonCode ==> c.state == Changed)
    && (c.before.state != c.after.state || c.before.reasonCode != c.after.reasonCode ==>
         c.changes == [ResolutionChange((c.before.state, c.before.reasonCode), (c.after.state, c.after.reasonCode))])
    && (WellFormedResolution(before) && WellFormedResolution(after) && Resolves(before) && Resolves(after)
        && before.reasonCode == after.reasonCode ==>
         var b, a := c.before.policy.value, c.after.policy.value;
         && (c.state == NoChange <==> forall field :: SameField(b, a, field))
         && (forall field :: Names(c.changes, field) <==> !SameField(b, a, field))
         && forall d :: d in c.changes ==> ShowsBoth(d, b, a))
  }

  lemma ComparisonTells(revision: Head, basisRevision: Option<string>, before: Resolution, after: Resolution)
    ensures TellsDifferences(ComparisonOf(revision, basisRevision, before, after), before, after)
  {
    hide WellFormed, FieldChanges, Shown, SameField, ShowsResolution;
    ShownResolution(before);
    ShownResolution(after);
    VerdictByStanding(revision, basisRevision, before, after);
    if WellFormedResolution(before) && WellFormedResolution(after) {
      NoChangeMeansNoDifference(before, after);
      var b, a := OutcomeOf(before), OutcomeOf(after);
      if b.policy.Some? && a.policy.Some? { FieldChangesAreExact(b.policy.value, a.policy.value, SemanticFields); }
    }
  }

  lemma ShownResolution(r: Resolution)
    ensures ShowsResolution(OutcomeOf(r), r)
  {}

  lemma VerdictByStanding(revision: Head, basisRevision: Option<string>, before: Resolution, after: Resolution)
    ensures var c := ComparisonOf(revision, basisRevision, before, after);
      && (c.state == Unavailable <==>
           (!Resolves(before) && !IsRefused(before)) || (!Resolves(after) && !IsRefused(after)))
      && (c.state == Refused <==> IsRefused(before) && IsRefused(after))
      && ((Resolves(before) && IsRefused(after)) || (IsRefused(before) && Resolves(after)) ==> c.state == Changed)
      && (Resolves(before) && Resolves(after) && before.reasonCode != after.reasonCode ==> c.state == Changed)
  {
    hide FieldChanges;
  }

  /** `Raised` is a thrown PolicyImpactPreviewError. */
  datatype Preview = Raised(code: string) | Returned(comparison: Comparison)

  predicate IsMissing(m: Moment, k: nat) { k < |m.active| && m.active[k].None? }

  /** Since then some document of the serving set was absent at a moment. */
  predicate SomeMissing(history: seq<Moment>, from: nat) {
    exists i, k :: from <= i < |history| && 0 <= k < KINDS && IsMissing(history[i], k)
  }

  /** The proposal's revision, as a moment has it. */
  function HeadAt(m: Moment, revisionId: string): Option<Head> {
    if revisionId in m.revisions then Some(m.revisions[revisionId]) else None
  }

  /** The refusal that a revision's number and state call for, if any. */
  function HeadRefusal(head: Option<Head>, expectedNumber: int): Option<string> {
    if head.None? then Some("revision-absent")
    else if head.value.number != expectedNumber then Some(STALE)
    else if head.value.state !in {L.Draft, L.Approved, L.Failed} then Some("proposal-not-previewable")
    else None
  }

  function DraftRefusal(m: Moment, revisionId: string): Option<string> {
    if revisionId !in m.drafts then Some("draft-content-absent")
    else if m.drafts[revisionId].None? then Some("draft-content-incomplete")
    else None
  }

  /** A revision that may be previewed: it is there, has the number expected, and is not being or been published. */
  predicate MayBePreviewed(head: Option<Head>, expectedNumber: int) {
    match head
    case None => false
    case Some(h) => h.number == expectedNumber && (h.state == L.Draft || h.state == L.Approved || h.state == L.Failed)
  }

  predicate HeadCallsFor(head: Option<Head>, expectedNumber: int, code: string) {
    match head
    case None => code == "revision-absent"
    case Some(h) =>
      || (h.number != expectedNumber && code == "preview-stale")
      || (h.number == expectedNumber && !MayBePreviewed(head, expectedNumber) && code == "proposal-not-previewable")
  }

  lemma HeadRefusalIs(head: Option<Head>, expectedNumber: int)
    ensures HeadRefusal(head, expectedNumber).None? <==> MayBePreviewed(head, expectedNumber)
    ensures forall code :: HeadRefusal(head, expectedNumber) == Some(code) <==> HeadCallsFor(head, expectedNumber, code)
  {}

  predicate DraftCallsFor(m: Moment, revisionId: string, code: string) {
    || (revisionId !in m.drafts && code == "draft-content-absent")
    || (revisionId in m.drafts && m.drafts[revisionId] == None && code == "draft-content-incomplete")
  }

  lemma DraftRefusalIs(m: Moment, revisionId: string)
    ensures forall code :: DraftRefusal(m, revisionId) == Some(code) <==> DraftCallsFor(m, revisionId, code)
    ensures DraftRefusal(m, revisionId).None? <==> revisionId in m.drafts && m.drafts[revisionId].Some?
  {}

  class Stores {
    var now: Moment
    ghost var history: seq<Moment>

    ghost predicate Valid()
      reads this
    {
      |history| > 0 && history[|history| - 1] == now && Sound(history)
    }

    constructor (now: Moment)
      requires WellFormedMoment(now)
      ensures Valid() && this.now == now && history == [now]
    {
      this.now, history := now, [now];
    }

    ghost function Last(): nat
      requires Valid()
      reads this
    {
      |history| - 1
    }

    /** Everything other components do while this call awaits. */
    method OthersAct()
      requires Valid()
      modifies this
      ensures Valid() && old(history) <= history
    {}

    /** One read, after whatever others did before it. */
    method Look() returns (seen: Moment)
      requires Valid()
      modifies this
      ensures Valid() && old(history) <= history
      ensures seen == now && |seen.active| == KINDS
    {
      hide WellFormedOption;
      OthersAct();
      seen := now;
      assert WellFormedMoment(history[Last()]);
    }

    /** The serving set, one document at a time; `None` is a thrown incomplete-set error. */
    method ReadActive() returns (docs: Option<seq<Json>>, ghost at: seq<nat>)
      requires Valid()
      modifies this
      ensures Valid() && old(history) <= history
      ensures docs.Some? ==> |docs.value| == KINDS && Collected(history, docs.value, at, old(Last()), Last())
      ensures docs.None? ==> SomeMissing(history, old(Last()))
    {
      hide WellFormed;
      var found: seq<Json> := [];
      at := [];
      for k := 0 to KINDS
        invariant Valid() && old(history) <= history
        invariant |found| == |at| == k
        invariant forall j :: 0 <= j < k ==> CollectedAt(history, found[j], j, at[j], old(Last()), Last())
      {
        ghost var before := history;
        OthersAct();
        forall j | 0 <= j < k ensures CollectedAt(history, found[j], j, at[j], old(Last()), Last()) {
          assert CollectedAt(before, found[j], j, at[j], old(Last()), |before| - 1);
        }
        assert WellFormedMoment(history[Last()]);
        if now.active[k].None? {
          assert IsMissing(history[Last()], k);
          return None, [];
        }
        found := found + [now.active[k].value];
        at := at + [Last()];
        assert CollectedAt(history, found[k], k, at[k], old(Last()), Last());
      }
      docs := Some(found);
    }
  }

  /** What the reads of one preview found, and when: those before resolution, and those after it (`to`). */
  datatype Readings = Readings(
    headAt: nat, start: nat, from: nat, basis: seq<Json>, at: seq<nat>, basisAt: nat, readAt: nat, proposal: Json,
    to: nat, again: seq<Json>, atAgain: seq<nat>, basisAgain: nat, headAgain: nat)

  /** The first reads in their order, then the second ones; each found what was stored at its moment. */
  ghost predicate ReadTwice(history: seq<Moment>, r: Readings, revisionId: string)
    requires Sound(history)
  {
    && r.headAt <= r.start <= r.from <= r.basisAt <= r.readAt <= r.to < |history|
    && |r.basis| == |r.again| == KINDS
    && Collected(history, r.basis, r.at, r.start, r.from)
    && revisionId in history[r.readAt].drafts && history[r.readAt].drafts[revisionId] == Some(r.proposal)
    && Collected(history, r.again, r.atAgain, r.to, |history| - 1)
    && r.to <= r.basisAgain < |history| && r.to <= r.headAgain < |history|
  }

  /** The set, the active revision and the proposal's revision were the same both times. */
  ghost predicate Agree(history: seq<Moment>, r: Readings, revisionId: string)
    requires Sound(history) && ReadTwice(history, r, revisionId)
  {
    && Fingerprint(Some(Assembled(r.basis))) == Fingerprint(Some(Assembled(r.again)))
    && history[r.basisAt].activeRevision == history[r.basisAgain].activeRevision
    && HeadAt(history[r.headAt], revisionId) == HeadAt(history[r.headAgain], revisionId)
  }

  /** What a returned comparison is worth: of what was read twice alike, under a revision that may be previewed. */
  ghost predicate Justified(c: Comparison, history: seq<Moment>, r: Readings, revisionId: string, expectedNumber: int,
                            resolve: Json -> Resolution)
    requires Sound(history)
  {
    && ReadTwice(history, r, revisionId) && Agree(history, r, revisionId)
    && var head := HeadAt(history[r.headAt], revisionId);
    && MayBePreviewed(head, expectedNumber)
    && var before, after := resolve(Assembled(r.basis)), resolve(r.proposal);
    && c.revision == head.value && c.basisRevision == history[r.basisAt].activeRevision
    && TellsDifferences(c, before, after)
    && (VersionsNeverRecur(history) ==> HeldThroughout(history, r.from, r.to, r.basis))
  }

  /** The error is the one its reads call for: the revision's, a missing document's, the draft's, or a difference's. */
  ghost predicate CalledFor(code: string, history: seq<Moment>, r: Readings, revisionId: string, expectedNumber: int)
    requires Sound(history)
  {
    && r.headAt < |history|
    && var head := HeadAt(history[r.headAt], revisionId);
    if !MayBePreviewed(head, expectedNumber) then HeadCallsFor(head, expectedNumber, code)
    else
      || (code == "published-policy-source-incomplete" && SomeMissing(history, r.headAt))
      || (r.headAt <= r.readAt < |history| && DraftCallsFor(history[r.readAt], revisionId, code))
      || (code == "preview-stale" && ReadTwice(history, r, revisionId) && !Agree(history, r, revisionId))
  }

  const SOURCE_INCOMPLETE := "published-policy-source-incomplete"
  const STALE := "preview-stale"

  /** Readings that agree justify the comparison of what they found. */
  lemma AgreeingReadsJustify(history: seq<Moment>, r: Readings, revisionId: string, expectedNumber: int,
                             resolve: Json -> Resolution)
    requires Sound(history) && ReadTwice(history, r, revisionId) && Agree(history, r, revisionId)
    requires MayBePreviewed(HeadAt(history[r.headAt], revisionId), expectedNumber)
    ensures Justified(
      ComparisonOf(HeadAt(history[r.headAt], revisionId).value, history[r.basisAt].activeRevision,
                   resolve(Assembled(r.basis)), resolve(r.proposal)),
      history, r, revisionId, expectedNumber, resolve)
  {
    hide Fingerprint, Assembled, VersionsNeverRecur, HeldThroughout, Collected, Sound, OutcomeOf, Changes, ComparisonState;
    hide TellsDifferences;
    ComparisonTells(HeadAt(history[r.headAt], revisionId).value, history[r.basisAt].activeRevision,
                    resolve(Assembled(r.basis)), resolve(r.proposal));
    if VersionsNeverRecur(history) {
      HeldBetweenReads(history, r.basis, r.again, r.at, r.atAgain, r.start, r.from, r.to, |history| - 1);
    }
  }

  /** The documents no longer to be read, each as it was at some moment since the start. */
  ghost predicate DocumentsRead(history: seq<Moment>, found: map<int, Json>, at: map<int, nat>, todo: set<int>, from: nat)
    requires Sound(history) && 0 < |history|
  {
    forall k :: 0 <= k < KINDS && k !in todo ==>
      k in found && k in at && CollectedAt(history, found[k], k, at[k], from, |history| - 1)
  }

  lemma ReadStays(history: seq<Moment>, later: seq<Moment>, found: map<int, Json>, at: map<int, nat>, todo: set<int>,
                  from: nat)
    requires Sound(history) && Sound(later) && 0 < |history| && history <= later
    requires DocumentsRead(history, found, at, todo, from)
    ensures DocumentsRead(later, found, at, todo, from)
  {
    hide WellFormed;
  }

  lemma OneMoreRead(history: seq<Moment>, found: map<int, Json>, at: map<int, nat>, todo: set<int>, from: nat, k: nat)
    requires Sound(history) && from < |history| && k < KINDS
    requires DocumentsRead(history, found, at, todo, from)
    requires var now := history[|history| - 1]; k < |now.active| && now.active[k].Some?
    ensures DocumentsRead(history, found[k := history[|history| - 1].active[k].value], at[k := |history| - 1],
                          todo - {k}, from)
  {
    hide WellFormed;
    assert WellFormedMoment(history[|history| - 1]);
  }

  lemma NothingRead(history: seq<Moment>, todo: set<int>, from: nat)
    requires Sound(history) && 0 < |history| && forall k :: 0 <= k < KINDS ==> k in todo
    ensures DocumentsRead(history, map[], map[], todo, from)
  {}

  lemma OtherTaskDone(history: seq<Moment>, found: map<int, Json>, at: map<int, nat>, todo: set<int>, from: nat, t: int)
    requires Sound(history) && 0 < |history| && DocumentsRead(history, found, at, todo, from) && t >= KINDS
    ensures DocumentsRead(history, found, at, todo - {t}, from)
  {}

  lemma SomeTaskIsLeft(todo: set<int>)
    requires todo != {}
    ensures exists t :: t in todo
  {
    assert (forall t :: t !in todo) ==> todo == {};
  }

  lemma AllRead(history: seq<Moment>, found: map<int, Json>, at: map<int, nat>, from: nat, docs: seq<Json>, times: seq<nat>)
    requires Sound(history) && 0 < |history| && DocumentsRead(history, found, at, {}, from)
    requires |docs| == |times| == KINDS
    requires forall k :: 0 <= k < KINDS && k in found && k in at ==> docs[k] == found[k] && times[k] == at[k]
    ensures Collected(history, docs, times, from, |history| - 1)
  {
    hide WellFormed;
  }

  class PolicyPreview {
    const stores: Stores

    constructor (stores: Stores)
      ensures this.stores == stores
    {
      this.stores := stores;
    }

    /** The reads before resolution, one after another, and the refusal each of them may call for. */
    method FirstReads(revisionId: string, expectedNumber: int)
      returns (stop: Option<string>, revision: Head, active: seq<Json>, activeRevision: Option<string>, proposed: Json,
               ghost headAt: nat, ghost at: seq<nat>, ghost start: nat, ghost from: nat, ghost basisAt: nat,
               ghost readAt: nat)
      requires stores.Valid()
      modifies stores
      ensures stores.Valid() && old(stores.history) <= stores.history
      ensures old(stores.Last()) <= headAt < |stores.history|
      ensures var head := HeadAt(stores.history[headAt], revisionId);
        && (HeadRefusal(head, expectedNumber).Some? ==> stop == HeadRefusal(head, expectedNumber))
        && (stop.None? ==> Some(revision) == head)
      ensures stop.Some? && HeadRefusal(HeadAt(stores.history[headAt], revisionId), expectedNumber).None? ==>
        || (stop == Some(SOURCE_INCOMPLETE) && SomeMissing(stores.history, headAt))
        || (headAt <= readAt < |stores.history| && stop == DraftRefusal(stores.history[readAt], revisionId))
      ensures stop.None? ==>
        && |active| == KINDS && Collected(stores.history, active, at, start, from)
        && headAt <= start <= from <= basisAt <= readAt < |stores.history|
        && stores.history[basisAt].activeRevision == activeRevision
        && revisionId in stores.history[readAt].drafts && stores.history[readAt].drafts[revisionId] == Some(proposed)
    {
      hide Collected, Sound, SomeMissing;
      stop, revision, active, activeRevision, proposed := None, Head(0, L.Draft), [], None, Null;
      at, start, from, basisAt, readAt := [], stores.Last(), 0, 0, 0;
      stores.OthersAct();
      headAt := stores.Last();
      var head := HeadAt(stores.now, revisionId);
      stop := HeadRefusal(head, expectedNumber);
      if stop.Some? { return; }
      revision := head.value;

      var found;
      start := stores.Last();
      found, at := stores.ReadActive();
      if found.None? { stop := Some(SOURCE_INCOMPLETE); return; }
      active, from := found.value, stores.Last();
      ghost var firstReads := stores.history;
      stores.OthersAct();
      activeRevision, basisAt := stores.now.activeRevision, stores.Last();
      stores.OthersAct();
      readAt := stores.Last();
      stop := DraftRefusal(stores.now, revisionId);
      if stop.Some? { return; }
      proposed := stores.now.drafts[revisionId].value;
      CollectedStays(firstReads, stores.history, active, at, start, from);
    }

    /**
     * The set, the active revision and the proposal's revision, read again together: seven reads in whatever order
     * they come. A missing document ends them all.
     */
    method SecondReads(revisionId: string)
      returns (active: Option<seq<Json>>, activeRevision: Option<string>, revision: Option<Head>,
               ghost at: seq<nat>, ghost basisAt: nat, ghost headAt: nat)
      requires stores.Valid()
      modifies stores
      ensures stores.Valid() && old(stores.history) <= stores.history
      ensures active.None? ==> SomeMissing(stores.history, old(stores.Last()))
      ensures active.Some? ==>
        && |active.value| == KINDS && Collected(stores.history, active.value, at, old(stores.Last()), stores.Last())
        && old(stores.Last()) <= basisAt < |stores.history| && stores.history[basisAt].activeRevision == activeRevision
        && old(stores.Last()) <= headAt < |stores.history| && HeadAt(stores.history[headAt], revisionId) == revision
    {
      hide Sound, DocumentsRead, CollectedAt, Collected, WellFormedMoment;
      var todo: set<int> := {0, 1, 2, 3, 4, KINDS, KINDS + 1};
      var found: map<int, Json> := map[];
      ghost var when: map<int, nat>, start := map[], stores.Last();
      activeRevision, revision, at, basisAt, headAt := None, None, [], start, start;
      NothingRead(stores.history, todo, start);
      while todo != {}
        invariant stores.Valid() && old(stores.history) <= stores.history
        invariant forall t :: t in todo ==> 0 <= t < KINDS + 2
        invariant DocumentsRead(stores.history, found, when, todo, start)
        invariant start <= basisAt < |stores.history| && start <= headAt < |stores.history|
        invariant KINDS !in todo ==> stores.history[basisAt].activeRevision == activeRevision
        invariant KINDS + 1 !in todo ==> HeadAt(stores.history[headAt], revisionId) == revision
        decreases |todo|
      {
        SomeTaskIsLeft(todo);
        var task: int :| task in todo;
        ghost var before := stores.history;
        var seen := stores.Look();
        ReadStays(before, stores.history, found, when, todo, start);
        if task == KINDS {
          activeRevision, basisAt := seen.activeRevision, stores.Last();
          OtherTaskDone(stores.history, found, when, todo, start, task);
        } else if task == KINDS + 1 {
          revision, headAt := HeadAt(seen, revisionId), stores.Last();
          OtherTaskDone(stores.history, found, when, todo, start, task);
        } else {
          if seen.active[task].None? {
            assert IsMissing(stores.history[stores.Last()], task);
            return None, activeRevision, revision, [], basisAt, headAt;
          }
          OneMoreRead(stores.history, found, when, todo, start, task);
          found, when := found[task := seen.active[task].value], when[task := stores.Last()];
        }
        todo := todo - {task};
      }
      active := Some(seq(KINDS, k requires 0 <= k < KINDS => if k in found then found[k] else Null));
      at := seq(KINDS, k requires 0 <= k < KINDS => if k in when then when[k] else 0);
      AllRead(stores.history, found, when, start, active.value, at);
    }

    /**
     * `preview`. When it returns, and served documents never return to an earlier content, the
     * set it resolved is one that held, all five documents together, at every moment from before
     * the draft was read until after both resolutions. When it raises, what it read calls for that error.
     */
    method Preview(revisionId: string, expectedNumber: int, resolve: Json -> Resolution)
      returns (result: Preview, ghost r: Readings)
      requires stores.Valid()
      modifies stores
      ensures stores.Valid() && old(stores.history) <= stores.history && old(stores.Last()) <= r.headAt
      ensures match result
        case Returned(comparison) => Justified(comparison, stores.history, r, revisionId, expectedNumber, resolve)
        case Raised(code) => CalledFor(code, stores.history, r, revisionId, expectedNumber)
    {
      hide Fingerprint, Assembled, ComparisonOf, Collected, Sound, Justified, SomeMissing, TellsDifferences, HeadRefusal;
      hide DraftRefusal, HeadCallsFor, DraftCallsFor, MayBePreviewed, OutcomeOf, Changes, ComparisonState;
      var stop, head, basis, activeRevision, proposed;
      ghost var headAt, at, start, from, basisAt, readAt;
      stop, head, basis, activeRevision, proposed, headAt, at, start, from, basisAt, readAt :=
        FirstReads(revisionId, expectedNumber);
      r := Readings(headAt, start, from, basis, at, basisAt, readAt, proposed, from, [], [], 0, 0);
      HeadRefusalIs(HeadAt(stores.history[headAt], revisionId), expectedNumber);
      if stop.Some? {
        if headAt <= readAt < |stores.history| { DraftRefusalIs(stores.history[readAt], revisionId); }
        return Raised(stop.value), r;
      }
      ghost var firstReads := stores.history;

      var before, after := resolve(Assembled(basis)), resolve(proposed);
      stores.OthersAct();
      ghost var to := stores.Last();

      var again, activeAgain, revisionAgain, atAgain, basisAgain, headAgain := SecondReads(revisionId);
      if again.None? {
        MissingSince(stores.history, to, headAt);
        return Raised(SOURCE_INCOMPLETE), r;
      }
      r := Readings(headAt, start, from, basis, at, basisAt, readAt, proposed, to, again.value, atAgain, basisAgain, headAgain);
      CollectedStays(firstReads, stores.history, basis, at, start, from);
      if || Fingerprint(Some(Assembled(basis))) != Fingerprint(Some(Assembled(again.value)))
         || activeRevision != activeAgain
         || revisionAgain != Some(head)
      {
        return Raised(STALE), r;
      }
      AgreeingReadsJustify(stores.history, r, revisionId, expectedNumber, resolve);
      result := Returned(ComparisonOf(head, activeRevision, before, after));
    }
  }

  lemma MissingSince(history: seq<Moment>, from: nat, earlier: nat)
    requires earlier <= from && SomeMissing(history, from)
    ensures SomeMissing(history, earlier)
  {
    var i, k :| from <= i < |history| && 0 <= k < KINDS && IsMissing(history[i], k);
    assert IsMissing(history[i], k);
  }
}
