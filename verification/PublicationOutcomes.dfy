/**
 * How each target of a publish ends, said of the content, the validators and the store alone: which documents
 * are put, which outcome and reason each target gets, and what the store showed when a write or a read-back failed.
 */
module PublicationOutcomes {
  import opened Common
  import opened Json
  import opened CanonicalForm
  import L = Lifecycle
  import opened GovernancePublisher

  // ----- what a document says

  function KindText(kind: Kind): string {
    match kind
    case Assignment => "assignment"
    case Entitlement => "entitlement"
    case ModelRegistry => "modelRegistry"
    case FallbackPolicy => "fallbackPolicy"
    case Budget => "budget"
  }

  /** Read by property name, a snapshot document says its scope, its kind and its content. */
  lemma SnapshotDocumentSays(scope: Text, kind: Kind, snapshot: Json)
    ensures SnapshotDocument(scope, kind, snapshot).Obj?
    ensures var fields := SnapshotDocument(scope, kind, snapshot).fields;
      && Carries(fields, Units("id"),
                 Str(Units("governance-snapshot|") + scope + Units("|") + Units(KindText(kind))))
      && Carries(fields, Units("documentType"), Str(Units("governance-snapshot")))
      && Carries(fields, Units("scopeGroupId"), Str(scope))
      && Carries(fields, Units("kind"), Str(Units(KindText(kind))))
      && Carries(fields, Units("snapshot"), snapshot)
  {
    hide KindName, FindKey;
    SnapshotDocumentIsWellFormed(scope, kind, Null);
    var fields, bare := SnapshotDocument(scope, kind, snapshot).fields, SnapshotDocument(scope, kind, Null).fields;
    KindTextIsName(kind);
    forall i | 0 <= i < 5 ensures FindKey(fields, fields[i].key) == i { FoundAt(fields, bare, i); }
    assert fields[0].key == Units("id") && fields[1].key == Units("documentType");
    assert fields[2].key == Units("scopeGroupId") && fields[3].key == Units("kind") && fields[4].key == Units("snapshot");
  }

  lemma KindTextIsName(kind: Kind)
    ensures KindText(kind) == KindName(kind)
  {}

  lemma FoundAt(fields: seq<Field>, bare: seq<Field>, i: nat)
    requires |fields| == |bare| && (forall k :: 0 <= k < |fields| ==> fields[k].key == bare[k].key) && DistinctKeys(bare)
    requires i < |fields|
    ensures FindKey(fields, fields[i].key) == i
  {
    var f := FindKey(fields, fields[i].key);
    assert f < |fields| && bare[f].key == fields[f].key == fields[i].key == bare[i].key;
  }

  /** A membership document says its scope, its principal and the evidence. */
  lemma MembershipDocumentSays(scope: Text, m: Membership)
    ensures MembershipDocument(scope, m).Obj?
    ensures var fields := MembershipDocument(scope, m).fields;
      && Carries(fields, Units("id"),
                 Str(Units("principal-membership|") + scope + Units("|") + m.tenant + Units("|") + m.subject))
      && Carries(fields, Units("documentType"), Str(Units("principal-membership")))
      && Carries(fields, Units("scopeGroupId"), Str(scope))
      && Carries(fields, Units("tenantId"), Str(m.tenant)) && Carries(fields, Units("subjectId"), Str(m.subject))
      && Carries(fields, Units("memberships"), m.evidence)
  {
    hide FindKey;
    var bare := MembershipDocument(scope, Membership(m.tenant, m.subject, Null)).fields;
    MembershipDocumentIsWellFormed(scope, Membership(m.tenant, m.subject, Null));
    var fields := MembershipDocument(scope, m).fields;
    forall i | 0 <= i < 6 ensures FindKey(fields, fields[i].key) == i { FoundAt(fields, bare, i); }
    assert fields[0].key == Units("id") && fields[1].key == Units("documentType");
    assert fields[2].key == Units("scopeGroupId") && fields[3].key == Units("tenantId");
    assert fields[4].key == Units("subjectId") && fields[5].key == Units("memberships");
  }

  // ----- every put was accepted

  /** The attempt has been under way since it held this reading and took up its targets at this instant. */
  ghost predicate UnderWaySince(s: Setup, w: World, trace: seq<Event>, a: AttemptId, p: Phase, j: nat)
    requires p.Attempting?
  {
    && j < |trace| && trace[j] == Target(a, p.at)
    && a in After(s, w, trace[..j]).attempts && After(s, w, trace[..j]).attempts[a] == Held(p.start, p.tag)
    && forall n :: j < n <= |trace| ==> IsUnderWay(After(s, w, trace[..n]), a)
  }

  predicate IsUnderWay(w: World, a: AttemptId) { a in w.attempts && w.attempts[a].Attempting? }

  /** An attempt keeps its reading, its tag and its instant until it ends, and takes them from a `Target` event. */
  lemma StepKeepsStart(s: Setup, w: World, e: Event, a: AttemptId)
    requires IsUnderWay(Happen(s, w, e), a)
    ensures var after := Happen(s, w, e).attempts[a];
      || (IsUnderWay(w, a) && var p := w.attempts[a]; p.start == after.start && p.tag == after.tag && p.at == after.at)
      || (e == Target(a, after.at) && a in w.attempts && w.attempts[a] == Held(after.start, after.tag))
  {
    hide L.Apply, L.RecordOutcome, PlanOf, Matches, Seek;
    if IsOther(e, a) { OtherKeepsPhase(s, w, e, a); }
  }

  lemma {:induction false} EveryAttemptWasTakenUp(s: Setup, w: World, trace: seq<Event>, a: AttemptId)
    requires !IsUnderWay(w, a) && IsUnderWay(After(s, w, trace), a)
    ensures exists j :: UnderWaySince(s, w, trace, a, After(s, w, trace).attempts[a], j)
    decreases |trace|
  {
    hide Happen;
    var init, last := trace[..|trace| - 1], trace[|trace| - 1];
    var before, p := After(s, w, init), After(s, w, trace).attempts[a];
    StepKeepsStart(s, before, last, a);
    assert forall n :: 0 <= n < |trace| ==> trace[..n] == init[..n];
    assert init[..|init|] == init && trace[..|trace|] == trace;
    if IsUnderWay(before, a) && before.attempts[a].start == p.start && before.attempts[a].tag == p.tag
       && before.attempts[a].at == p.at {
      EveryAttemptWasTakenUp(s, w, init, a);
      var j :| UnderWaySince(s, w, init, a, before.attempts[a], j);
      assert UnderWaySince(s, w, trace, a, p, j);
    } else {
      assert UnderWaySince(s, w, trace, a, p, |init|);
    }
  }

  /**
   * This step of the run put the document, and nothing else: a step of the attempt, whose target in hand was pending
   * in the version it took up and is the one this document is for; the document is the content's own, the validators
   * accept it at the instant the attempt took up its targets, and the version the attempt named was the stored one.
   */
  ghost predicate PutAt(s: Setup, w: World, trace: seq<Event>, k: nat, a: AttemptId, id: DocId, document: Json) {
    && k < |trace| && trace[k] == Advance(a)
    && var before := After(s, w, trace[..k]);
    && IsUnderWay(before, a)
    && var p := before.attempts[a];
    && p.index < |p.start.targets| && p.start.targets[p.index].outcome == L.Pending
    && p.start.targets[p.index].code == CodeOf(id)
    && IsOwnDocument(s, id, document) && s.accepts(document, p.at)
    && p.stage.Send? && IsVersion(before.documents, id, p.stage.expected)
    && After(s, w, trace[..k + 1]).documents == before.documents[id := Stored(document, before.nextTag)]
    && exists j :: UnderWaySince(s, w, trace[..k], a, p, j)
  }

  /** A step that logs an attempt's put puts it, against the version the attempt names. */
  lemma StepPuts(s: Setup, w: World, a: AttemptId, id: DocId, document: Json)
    requires Happen(s, w, Advance(a)).log == w.log + [Wrote(Some(a), id, document)] && IsUnderWay(w, a)
    ensures w.attempts[a].stage.Send? && IsVersion(w.documents, id, w.attempts[a].stage.expected)
    ensures Happen(s, w, Advance(a)).documents == w.documents[id := Stored(document, w.nextTag)]
  {
    hide PlanOf, Finish, Matches;
    var log := w.log + [Wrote(Some(a), id, document)];
    assert log[|w.log|] == Wrote(Some(a), id, document) && |log| == |w.log| + 1;
  }

  lemma StepLogs(s: Setup, w: World, e: Event)
    ensures var after := Happen(s, w, e);
      || after.log == w.log
      || (|after.log| == |w.log| + 1 && after.log[..|w.log|] == w.log
          && (after.log[|w.log|].Wrote? && after.log[|w.log|].writer.Some? ==> e == Advance(after.log[|w.log|].writer.value)))
  {
    hide L.Apply, L.RecordOutcome, PlanOf, Matches, Finish, Arrive;
  }

  /** Whatever an attempt put in any run, the validators had accepted at that attempt's own instant. */
  lemma {:induction false} EveryPutWasAccepted(s: Setup, w: World, trace: seq<Event>, n: nat, a: AttemptId, id: DocId,
                                               document: Json)
    requires Inv(s, w) && !IsUnderWay(w, a)
    requires |w.log| <= n < |After(s, w, trace).log| && After(s, w, trace).log[n] == Wrote(Some(a), id, document)
    ensures exists k: nat :: PutAt(s, w, trace, k, a, id, document) && |After(s, w, trace[..k]).log| == n
    decreases |trace|
  {
    hide Happen, Inv, UnderWaySince, IsUnderWay, IsOwnDocument, CodeOf, IsVersion;
    var init, last := trace[..|trace| - 1], trace[|trace| - 1];
    var before := After(s, w, init);
    StepLogs(s, before, last);
    assert forall k :: 0 <= k < |trace| ==> trace[..k] == init[..k];
    assert trace[..|init| + 1] == trace;
    if n < |before.log| {
      assert before.log[n] == After(s, w, trace).log[n];
      EveryPutWasAccepted(s, w, init, n, a, id, document);
      var k: nat :| PutAt(s, w, init, k, a, id, document) && |After(s, w, init[..k]).log| == n;
      assert PutAt(s, w, trace, k, a, id, document);
    } else {
      var after := After(s, w, trace);
      assert after.log == before.log + [Wrote(Some(a), id, document)];
      PutsOnlyPendingTargets(s, w, init, a, Wrote(Some(a), id, document));
      assert IsUnderWay(before, a) by { InProgress(before, a); }
      EveryAttemptWasTakenUp(s, w, init, a);
      StepPuts(s, before, a, id, document);
      assert PutAt(s, w, trace, |init|, a, id, document);
    }
  }

  lemma InProgress(w: World, a: AttemptId)
    requires a in w.attempts && w.attempts[a].Attempting?
    ensures IsUnderWay(w, a)
  {}

  // ----- how each target ends

  predicate Fails(e: Attempted, reason: string) { e.outcome == L.TargetFailed && e.reason == Some(reason) }

  predicate Verifies(e: Attempted) { e.outcome == L.Verified && e.reason == None }

  predicate FailsInStore(e: Attempted) {
    Fails(e, "publish-write-refused") || Fails(e, "publish-read-back-absent") || Fails(e, "publish-read-back-differs")
  }

  predicate SnapshotEnds(s: Setup, kind: Kind, at: Instant, e: Attempted) {
    if !HasSnapshot(s.content, kind) then Fails(e, "publish-content-absent")
    else if !s.accepts(SnapshotJob(s, kind).document, at) then Fails(e, "publish-content-invalid")
    else Verifies(e) || FailsInStore(e)
  }

  predicate Rejected(s: Setup, m: Membership, at: Instant) { !s.accepts(MembershipJob(s, m).document, at) }

  predicate MembershipEnds(s: Setup, at: Instant, e: Attempted) {
    var memberships := s.content.memberships;
    if memberships == [] then Fails(e, "publish-content-absent")
    else if exists m :: m in memberships && Rejected(s, m, at) then
      Fails(e, "publish-content-invalid") || (FailsInStore(e) && !Rejected(s, memberships[0], at))
    else Verifies(e) || FailsInStore(e)
  }

  /** What the content and the validators leave of how an attempted target can end. */
  predicate Ends(s: Setup, at: Instant, e: Attempted) {
    if e.code == "principal-membership" then MembershipEnds(s, at, e)
    else if e.code == "governance-snapshot-assignment" then SnapshotEnds(s, Assignment, at, e)
    else if e.code == "governance-snapshot-entitlement" then SnapshotEnds(s, Entitlement, at, e)
    else if e.code == "governance-snapshot-modelRegistry" then SnapshotEnds(s, ModelRegistry, at, e)
    else if e.code == "governance-snapshot-fallbackPolicy" then SnapshotEnds(s, FallbackPolicy, at, e)
    else if e.code == "governance-snapshot-budget" then SnapshotEnds(s, Budget, at, e)
    else Fails(e, "publish-target-unknown")
  }

  /** An attempted target as it stands in the revision. */
  function AsAttempted(target: L.Target): Attempted { Attempted(target.code, target.outcome, target.reason) }

  /** The reports to the reducer that the attempts of one publish make, in order. */
  function ReportsOf(attempted: seq<Attempted>, at: Instant): seq<L.Step> {
    seq(|attempted|, i requires 0 <= i < |attempted| =>
      L.TargetOutcome(attempted[i].code, attempted[i].outcome, at, attempted[i].reason))
  }

  /**
   * Every target attempted so far ended as it must, and stands so in the revision the attempt builds, which is the
   * one it started from with these outcomes reported to the reducer and nothing else.
   */
  ghost predicate EndedRightly(s: Setup, p: Phase) {
    p.Attempting? ==>
      && p.current == L.Run(p.start, ReportsOf(p.attempted, p.at))
      && (forall e :: e in p.attempted ==> Ends(s, p.at, e))
      && |p.current.targets| == |p.start.targets|
      && forall k :: 0 <= k < p.index && k < |p.start.targets| && p.start.targets[k].outcome == L.Pending
           ==> IsFirst(p.start.targets, k) ==> AsAttempted(p.current.targets[k]) in p.attempted
  }

  ghost predicate AllEndedRightly(s: Setup, w: World) {
    forall id :: id in w.attempts ==> EndedRightly(s, w.attempts[id])
  }

  lemma CodesAreThese(code: string)
    ensures KindOf(code) ==
      if code == "governance-snapshot-assignment" then Some(Assignment)
      else if code == "governance-snapshot-entitlement" then Some(Entitlement)
      else if code == "governance-snapshot-modelRegistry" then Some(ModelRegistry)
      else if code == "governance-snapshot-fallbackPolicy" then Some(FallbackPolicy)
      else if code == "governance-snapshot-budget" then Some(Budget)
      else None
  {
    assert "governance-snapshot-" + "assignment" == "governance-snapshot-assignment";
    assert "governance-snapshot-" + "entitlement" == "governance-snapshot-entitlement";
    assert "governance-snapshot-" + "modelRegistry" == "governance-snapshot-modelRegistry";
    assert "governance-snapshot-" + "fallbackPolicy" == "governance-snapshot-fallbackPolicy";
    assert "governance-snapshot-" + "budget" == "governance-snapshot-budget";
  }

  /** Which code a document is put for. */
  lemma DocumentCodesAre(id: DocId)
    ensures CodeOf(id) == match id
      case MembershipId(_, _) => "principal-membership"
      case SnapshotId(Assignment) => "governance-snapshot-assignment"
      case SnapshotId(Entitlement) => "governance-snapshot-entitlement"
      case SnapshotId(ModelRegistry) => "governance-snapshot-modelRegistry"
      case SnapshotId(FallbackPolicy) => "governance-snapshot-fallbackPolicy"
      case SnapshotId(Budget) => "governance-snapshot-budget"
  {
    assert "governance-snapshot-" + "assignment" == "governance-snapshot-assignment";
    assert "governance-snapshot-" + "entitlement" == "governance-snapshot-entitlement";
    assert "governance-snapshot-" + "modelRegistry" == "governance-snapshot-modelRegistry";
    assert "governance-snapshot-" + "fallbackPolicy" == "governance-snapshot-fallbackPolicy";
    assert "governance-snapshot-" + "budget" == "governance-snapshot-budget";
  }

  lemma MembershipPlanEnds(s: Setup, at: Instant, reason: Option<string>)
    requires s.content.memberships != []
    requires var plan := MembershipPlan(s, s.content.memberships, at);
      reason == plan.ending || (plan.jobs != [] && reason.Some? && IsStoreReason(reason.value))
    ensures MembershipEnds(s, at, EndOf(MEMBERSHIP_TARGET, reason))
  {
    hide MembershipPlan, MembershipJob;
    var memberships := s.content.memberships;
    var plan := MembershipPlan(s, memberships, at);
    MembershipPlanCoversAll(s, memberships, at);
    if plan.ending.None? {
      forall m | m in memberships ensures !Rejected(s, m, at) {
        var i :| 0 <= i < |memberships| && memberships[i] == m;
        assert plan.jobs[i] == MembershipJob(s, m);
      }
    } else {
      assert Rejected(s, memberships[|plan.jobs|], at) by { MembershipJobDocument(s, memberships[|plan.jobs|]); }
      if plan.jobs != [] { assert plan.jobs[0] == MembershipJob(s, memberships[0]); }
    }
  }

  lemma MembershipJobDocument(s: Setup, m: Membership)
    ensures MembershipJob(s, m).document == MembershipDocument(s.scope, m)
  {}

  predicate IsStoreReason(reason: string) {
    reason == WRITE_REFUSED || reason == READ_BACK_ABSENT || reason == READ_BACK_DIFFERS
  }

  function EndOf(code: string, reason: Option<string>): Attempted {
    Attempted(code, if reason.Some? then L.TargetFailed else L.Verified, reason)
  }

  /** A target ends with its plan, or with what the store did to one of the plan's documents. */
  lemma PlanEnds(s: Setup, code: string, at: Instant, reason: Option<string>)
    requires var plan := PlanOf(s, code, at);
      reason == plan.ending || (plan.jobs != [] && reason.Some? && IsStoreReason(reason.value))
    ensures Ends(s, at, EndOf(code, reason))
  {
    hide MembershipPlan, MembershipEnds, SnapshotDocument, KindOf;
    CodesAreThese(code);
    if code == MEMBERSHIP_TARGET && s.content.memberships != [] { MembershipPlanEnds(s, at, reason); }
    if code == MEMBERSHIP_TARGET && s.content.memberships == [] { NoMembershipsEnd(s, at); }
  }

  lemma NoMembershipsEnd(s: Setup, at: Instant)
    requires s.content.memberships == []
    ensures MembershipEnds(s, at, EndOf(MEMBERSHIP_TARGET, Some(CONTENT_ABSENT)))
  {}

  lemma FinishEndsRightly(s: Setup, p: Phase, reason: Option<string>)
    requires p.Attempting? && p.index < |p.start.targets| && EndedRightly(s, p)
    requires Progressed(p.start.targets, p.current.targets, p.index)
    requires Ends(s, p.at, EndOf(p.start.targets[p.index].code, reason))
    ensures EndedRightly(s, Finish(s, p, reason))
  {
    hide Ends, PlanOf, IsReasonCode, L.Run;
    var after := Finish(s, p, reason);
    var code := p.start.targets[p.index].code;
    if after.Attempting? {
      OneMoreReport(p.start, p.attempted, EndOf(code, reason), p.at);
      var f := L.FindTarget(p.current.targets, code);
      assert after.attempted == p.attempted + [EndOf(code, reason)];
      assert AsAttempted(after.current.targets[f]) == EndOf(code, reason);
      forall k | 0 <= k < after.index && k < |p.start.targets| && p.start.targets[k].outcome == L.Pending
        && IsFirst(p.start.targets, k) ensures AsAttempted(after.current.targets[k]) in after.attempted {
        if k != f {
          assert after.current.targets[k] == p.current.targets[k];
        }
      }
    }
  }

  lemma OneMoreReport(start: Revision, attempted: seq<Attempted>, e: Attempted, at: Instant)
    ensures L.Run(start, ReportsOf(attempted + [e], at)) ==
      L.Take(L.Run(start, ReportsOf(attempted, at)), L.TargetOutcome(e.code, e.outcome, at, e.reason))
  {
    hide L.Take;
    var reports := ReportsOf(attempted + [e], at);
    assert reports[..|attempted|] == ReportsOf(attempted, at);
  }

  lemma ArriveEndsRightly(s: Setup, tag: nat, r: Revision, at: Instant)
    ensures EndedRightly(s, Arrive(s, tag, r, r, at, 0, []))
  {
    hide PlanOf;
  }

  lemma RunStageEndsRightly(s: Setup, w: World, id: AttemptId, p: Phase, after: World)
    requires Inv(s, w) && id in w.attempts && p == w.attempts[id] && p.Attempting? && EndedRightly(s, p)
    requires p.index < |p.start.targets| && p.plan.jobs != []
    requires after == RunStage(s, w, id, p) && id in after.attempts
    ensures EndedRightly(s, after.attempts[id])
  {
    hide Inv, PlanOf, Ends, Finish, Matches, Credible, L.Continues, PendingCodes, JobVerified, L.Run, TagOf;
    InvPhase(s, w, id);
    var code := p.start.targets[p.index].code;
    assert PlanOf(s, code, p.at).jobs != [];
    forall reason | IsStoreReason(reason) ensures EndedRightly(s, Finish(s, p, Some(reason))) {
      PlanEnds(s, code, p.at, Some(reason));
      FinishEndsRightly(s, p, Some(reason));
    }
  }

  lemma HappenEndsRightly(s: Setup, w: World, e: Event)
    requires Inv(s, w) && AllEndedRightly(s, w)
    ensures AllEndedRightly(s, Happen(s, w, e))
  {
    hide Inv, Happen, EndedRightly;
    var after := Happen(s, w, e);
    forall id | id in after.attempts ensures EndedRightly(s, after.attempts[id]) {
      if IsOther(e, id) {
        OtherKeepsPhase(s, w, e, id);
      } else {
        OwnStepEndsRightly(s, w, e, id);
      }
    }
  }

  lemma OwnStepEndsRightly(s: Setup, w: World, e: Event, id: AttemptId)
    requires Inv(s, w) && AllEndedRightly(s, w) && !IsOther(e, id) && id in Happen(s, w, e).attempts
    ensures EndedRightly(s, Happen(s, w, e).attempts[id])
  {
    hide Inv, Arrive, Finish, L.Apply, Ends, PlanOf, RunStage, Credible, L.Continues, PendingCodes, JobVerified;
    if e.Target? && id in w.attempts && w.attempts[id].Held? {
      ArriveEndsRightly(s, w.attempts[id].tag, w.attempts[id].revision, e.at);
    }
    if e.Advance? && IsUnderWay(w, id) && w.attempts[id].index < |w.attempts[id].start.targets| {
      var p := w.attempts[id];
      InvPhase(s, w, id);
      if p.plan.jobs == [] {
        PlanEnds(s, p.start.targets[p.index].code, p.at, p.plan.ending);
        FinishEndsRightly(s, p, p.plan.ending);
      } else {
        RunStageEndsRightly(s, w, id, p, Happen(s, w, e));
      }
    }
  }

  lemma {:induction false} EveryRunEndsRightly(s: Setup, w: World, trace: seq<Event>)
    requires Inv(s, w) && AllEndedRightly(s, w)
    ensures AllEndedRightly(s, After(s, w, trace))
    decreases |trace|
  {
    hide Inv, Happen, AllEndedRightly;
    if trace != [] {
      EveryRunEndsRightly(s, w, trace[..|trace| - 1]);
      EveryRunKeepsInv(s, w, trace[..|trace| - 1]);
      HappenEndsRightly(s, After(s, w, trace[..|trace| - 1]), trace[|trace| - 1]);
    }
  }

  /**
   * In every run, an attempt that went through its targets ended each initially pending target, the first of its
   * code, as its content and the validators at this instant require: absent and rejected content fail with their
   * reasons, an unknown code fails as unknown, and accepted content is verified or failed in the store. So it is
   * in the list of attempts and in the revision alike, which differs by these reports only.
   */
  lemma EveryTargetEndsAsItMust(s: Setup, w: World, trace: seq<Event>, a: AttemptId)
    requires Inv(s, w) && AllEndedRightly(s, w) && IsUnderWay(After(s, w, trace), a)
    requires After(s, w, trace).attempts[a].index >= |After(s, w, trace).attempts[a].start.targets|
    ensures var p := After(s, w, trace).attempts[a];
      && CodesOf(p.attempted) == PendingCodes(p.start.targets)
      && (forall e :: e in p.attempted ==> Ends(s, p.at, e))
      && p.current == L.Run(p.start, ReportsOf(p.attempted, p.at))
      && |p.current.targets| == |p.start.targets|
      && (forall k :: 0 <= k < |p.start.targets| && p.start.targets[k].outcome == L.Pending && IsFirst(p.start.targets, k)
           ==> AsAttempted(p.current.targets[k]) in p.attempted && Ends(s, p.at, AsAttempted(p.current.targets[k])))
  {
    hide Inv, Happen, Ends, PendingCodes, CodesOf, IsFirst, AsAttempted;
    EveryRunEndsRightly(s, w, trace);
    FinishedAttemptDecides(s, w, trace, a);
    assert EndedRightly(s, After(s, w, trace).attempts[a]);
  }

  // ----- what the store showed

  /**
   * A step that ends a target in the store says what the store showed: the document's version was no longer the
   * one asked for, or after the put it was gone, or it was there, accepted, and of another stable form. It
   * writes nothing.
   */
  lemma TargetFailsAsObserved(s: Setup, w: World, id: AttemptId, e: Attempted)
    requires IsUnderWay(w, id) && IsUnderWay(Happen(s, w, Advance(id)), id)
    requires w.attempts[id].index < |w.attempts[id].start.targets| && w.attempts[id].plan.jobs != []
    requires Happen(s, w, Advance(id)).attempts[id].attempted == w.attempts[id].attempted + [e]
    ensures var p, after := w.attempts[id], Happen(s, w, Advance(id)); var job := p.plan.jobs[0];
      && e.code == p.start.targets[p.index].code && after.documents == w.documents && after.log == w.log
      && !p.stage.Ask?
      && (p.stage.Send? ==> Fails(e, "publish-write-refused") && !IsVersion(w.documents, job.id, p.stage.expected))
      && (p.stage.Check? && job.id !in w.documents ==> Fails(e, "publish-read-back-absent"))
      && (p.stage.Check? && job.id in w.documents ==>
           var read := s.hydrate(w.documents[job.id].value);
           Fails(e, "publish-read-back-differs") && s.accepts(read, p.at)
           && (read.Obj? && job.document.Obj? ==> StableForm(read) != StableForm(job.document)))
  {
    hide PlanOf, StableForm, Seek, L.FindTarget, IsReasonCode;
    var p := w.attempts[id];
    assert p.attempted != p.attempted + [e] by { assert |p.attempted + [e]| == |p.attempted| + 1; }
    var after := Happen(s, w, Advance(id)).attempts[id];
    assert after.attempted[|p.attempted|] == e;
  }

  predicate Touches(e: Entry, id: DocId) { (e.Wrote? || e.Removed?) && e.id == id }

  /** At this step the attempt asked for the version of the document in hand, and was told this one. */
  ghost predicate AskedAt(s: Setup, w: World, trace: seq<Event>, j: nat, a: AttemptId, id: DocId, version: Option<nat>) {
    j < |trace| && trace[j] == Advance(a) && IsVersion(After(s, w, trace[..j]).documents, id, version)
  }

  /** Since the version was asked for, somebody touched the document, or it still has that version. */
  ghost predicate StillOrTouched(s: Setup, w: World, trace: seq<Event>, a: AttemptId, id: DocId, version: Option<nat>) {
    exists j: nat :: AskedAt(s, w, trace, j, a, id, version)
      && (IsVersion(After(s, w, trace).documents, id, version) || TouchedSince(s, w, trace, j, id))
  }

  ghost predicate TouchedSince(s: Setup, w: World, trace: seq<Event>, j: nat, id: DocId)
    requires j <= |trace|
  {
    exists q :: |After(s, w, trace[..j]).log| <= q < |After(s, w, trace).log| && Touches(After(s, w, trace).log[q], id)
  }

  lemma StepTouches(s: Setup, w: World, e: Event, id: DocId, version: Option<nat>)
    requires IsVersion(w.documents, id, version)
    ensures var after := Happen(s, w, e);
      IsVersion(after.documents, id, version)
      || (|after.log| == |w.log| + 1 && Touches(after.log[|w.log|], id))
  {
    hide L.Apply, L.RecordOutcome, PlanOf, Matches, Finish, Arrive;
  }

  /** An attempt about to put a document. */
  predicate IsSending(w: World, a: AttemptId, id: DocId, version: Option<nat>) {
    IsUnderWay(w, a) && var p := w.attempts[a]; p.stage == Send(version) && p.plan.jobs != [] && p.plan.jobs[0].id == id
  }

  lemma StepSends(s: Setup, w: World, e: Event, a: AttemptId, id: DocId, version: Option<nat>)
    requires IsSending(Happen(s, w, e), a, id, version) && !IsSending(w, a, id, version)
    ensures e == Advance(a) && IsVersion(w.documents, id, version) && Happen(s, w, e).documents == w.documents
  {
    hide L.Apply, L.RecordOutcome, PlanOf, Matches;
    if IsOther(e, a) { OtherKeepsPhase(s, w, e, a); }
  }

  lemma {:induction false} EverySendExpects(s: Setup, w: World, trace: seq<Event>, a: AttemptId, id: DocId,
                                            version: Option<nat>)
    requires !IsSending(w, a, id, version) && IsSending(After(s, w, trace), a, id, version)
    ensures StillOrTouched(s, w, trace, a, id, version)
    decreases |trace|
  {
    hide Happen, IsSending, IsVersion, Touches;
    var init, last := trace[..|trace| - 1], trace[|trace| - 1];
    var before, after := After(s, w, init), After(s, w, trace);
    assert forall k :: 0 <= k < |trace| ==> trace[..k] == init[..k];
    assert init[..|init|] == init;
    StepLogs(s, before, last);
    if IsSending(before, a, id, version) {
      EverySendExpects(s, w, init, a, id, version);
      var j: nat :| AskedAt(s, w, init, j, a, id, version)
        && (IsVersion(before.documents, id, version) || TouchedSince(s, w, init, j, id));
      assert AskedAt(s, w, trace, j, a, id, version);
      if TouchedSince(s, w, init, j, id) {
        var q :| |After(s, w, init[..j]).log| <= q < |before.log| && Touches(before.log[q], id);
        assert after.log[q] == before.log[q];
      } else {
        StepTouches(s, before, last, id, version);
        LogGrows(s, w, init, j);
      }
    } else {
      StepSends(s, before, last, a, id, version);
      SameVersion(before.documents, after.documents, id, version);
      assert AskedAt(s, w, trace, |init|, a, id, version);
    }
  }

  lemma SameVersion(a: map<DocId, Stored<Json>>, b: map<DocId, Stored<Json>>, id: DocId, version: Option<nat>)
    requires a == b && IsVersion(a, id, version)
    ensures IsVersion(b, id, version)
  {}

  lemma {:induction false} LogGrows(s: Setup, w: World, trace: seq<Event>, j: nat)
    requires j <= |trace|
    ensures |After(s, w, trace[..j]).log| <= |After(s, w, trace).log|
    decreases |trace|
  {
    hide Happen;
    if j < |trace| {
      var init := trace[..|trace| - 1];
      assert init[..j] == trace[..j];
      LogGrows(s, w, init, j);
      StepLogs(s, After(s, w, init), trace[|trace| - 1]);
    } else {
      assert trace[..j] == trace;
    }
  }

  /** In every run a write is refused only if somebody touched the document since its version was asked for. */
  lemma RefusedWriteWasOvertaken(s: Setup, w: World, trace: seq<Event>, a: AttemptId, e: Attempted)
    requires var before := After(s, w, trace); var after := Happen(s, before, Advance(a));
      && IsUnderWay(before, a) && IsUnderWay(after, a)
      && before.attempts[a].index < |before.attempts[a].start.targets| && before.attempts[a].plan.jobs != []
      && after.attempts[a].attempted == before.attempts[a].attempted + [e] && Fails(e, "publish-write-refused")
    requires !IsUnderWay(w, a)
    ensures var id := After(s, w, trace).attempts[a].plan.jobs[0].id;
      exists j: nat, version :: AskedAt(s, w, trace, j, a, id, version) && TouchedSince(s, w, trace, j, id)
  {
    hide After, Happen, IsVersion, Touches, TouchedSince, AskedAt;
    var before := After(s, w, trace);
    var p := before.attempts[a];
    TargetFailsAsObserved(s, before, a, e);
    assert "publish-write-refused"[8] == 'w' && "publish-read-back-absent"[8] == 'r' && "publish-read-back-differs"[8] == 'r';
    assert p.stage.Send?;
    var id, version := p.plan.jobs[0].id, p.stage.expected;
    EverySendExpects(s, w, trace, a, id, version);
  }
}
