/**
 * The reducer's rules, one by one: when a command or a report is refused and with which refusal, and what an accepted
 * one changes and leaves alone.
 */
module LifecycleRules {
  import opened Common
  import opened Lifecycle

  /** The commands a state allows. */
  predicate IsPermitted(state: State, command: Command) {
    match state
    case Draft => command in {Edit, Approve, Withdraw, Abandon}
    case Approved => command in {Withdraw, Abandon, Publish}
    case Publishing => command in {Abandon, Complete, Fail}
    case Failed => command in {Abandon, Retry, Supersede}
    case Active => command == Supersede
    case Superseded => false
    case Withdrawn => false
  }

  /** The order is about this version of the revision, and its state allows the command. */
  predicate IsInOrder(r: Revision, o: Order) {
    o.expectedRevisionNumber == r.revisionNumber && IsPermitted(r.state, o.command)
  }

  predicate IsOwnApproval(r: Revision, o: Order) { o.command == Approve && o.actor == r.authoredBy }

  predicate SomeOutcome(r: Revision, outcome: Outcome) {
    exists i :: 0 <= i < |r.targets| && r.targets[i].outcome == outcome
  }

  /** Some publish of this revision has started. */
  predicate PublishStarted(r: Revision) {
    || r.state == Publishing || r.publishedBy.Some? || r.publishStartedAt.Some? || r.publishCompletedAt.Some?
    || SomeOutcome(r, Written) || SomeOutcome(r, Verified) || SomeOutcome(r, TargetFailed)
  }

  predicate ReasonIsCode(reason: Option<string>) { reason.Some? && IsReasonCode(reason.value) }

  lemma StatesOf(command: Command, state: State)
    ensures state in AllowedFrom(command) <==> IsPermitted(state, command)
  {}

  lemma StartedIsActivity(r: Revision)
    ensures HasPublicationActivity(r) <==> PublishStarted(r)
  {
    if i :| 0 <= i < |r.targets| && r.targets[i].outcome != Pending {
      match r.targets[i].outcome
      case Pending =>
      case Written => assert SomeOutcome(r, Written);
      case Verified => assert SomeOutcome(r, Verified);
      case TargetFailed => assert SomeOutcome(r, TargetFailed);
    }
  }

  /**
   * Each refusal is given exactly in its case: a revision number that is not the stored one, a state that does not
   * allow the command, an own approval that was not granted, another revision being published, a target not verified,
   * a failure without a reason, no other revision to supersede by, and a publish that has started.
   */
  lemma RefusedExactly(r: Revision, o: Order)
    ensures var result, due := Apply(r, o), IsInOrder(r, o);
      && (result == Refused(RevisionConflict(o.expectedRevisionNumber, r.revisionNumber)) <==>
           o.expectedRevisionNumber != r.revisionNumber)
      && (result == Refused(TransitionNotAllowed(r.state, o.command)) <==>
           o.expectedRevisionNumber == r.revisionNumber && !IsPermitted(r.state, o.command))
      && (result == Malformed <==>
           due && ((IsOwnApproval(r, o) && o.selfApproval == None) || (o.command == Publish && o.inFlight == None)))
      && (result == Refused(SeparationOfDuties) <==> due && IsOwnApproval(r, o) && o.selfApproval == Some(false))
      && (forall other :: result == Refused(PublishInProgress(other)) <==>
           due && o.command == Publish && o.inFlight == Some(Some(other)) && other != r.revisionId)
      && ((exists codes :: result == Refused(TargetsNotVerified(codes))) <==>
           due && o.command == Complete && exists i :: 0 <= i < |r.targets| && r.targets[i].outcome != Verified)
      && (result == Refused(FailureReasonRequired) <==> due && o.command == Fail && !ReasonIsCode(o.reason))
      && (result == Refused(NoPreviousActive) <==> due && o.command == Supersede && o.previousActive == None)
      && (result == Refused(SupersedeToSelf) <==> due && o.command == Supersede && o.previousActive == Some(r.revisionId))
      && (result == Refused(AbandonVerifiedTargets) <==> due && o.command == Abandon && SomeOutcome(r, Verified))
      && (result == Refused(AbandonPublishStarted) <==>
           due && o.command == Abandon && PublishStarted(r) && !SomeOutcome(r, Verified))
  {
    hide IsReasonCode, Next, AllowedFrom, IsPermitted, HasPublicationActivity, PublishStarted, UnverifiedCodes;
    StatesOf(o.command, r.state);
    StartedIsActivity(r);
    if o.selfApproval.Some? { assert o.selfApproval == if o.selfApproval.value then Some(true) else Some(false); }
    assert SomeOutcome(r, Verified) ==> PublishStarted(r) by { VerifiedMeansStarted(r); }
  }

  lemma VerifiedMeansStarted(r: Revision)
    ensures SomeOutcome(r, Verified) ==> PublishStarted(r)
  {}

  /** And there is no other refusal: an order is accepted where none of these cases holds. */
  lemma AcceptedExactly(r: Revision, o: Order)
    ensures Apply(r, o).Accepted? <==>
      && IsInOrder(r, o)
      && (IsOwnApproval(r, o) ==> o.selfApproval == Some(true))
      && (o.command == Publish ==> o.inFlight == Some(None) || o.inFlight == Some(Some(r.revisionId)))
      && (o.command == Complete ==> forall i :: 0 <= i < |r.targets| ==> r.targets[i].outcome == Verified)
      && (o.command == Fail ==> ReasonIsCode(o.reason))
      && (o.command == Supersede ==> o.previousActive.Some? && o.previousActive.value != r.revisionId)
      && (o.command == Abandon ==> !PublishStarted(r))
  {
    hide IsReasonCode, Next, AllowedFrom, IsPermitted, HasPublicationActivity, PublishStarted, UnverifiedCodes;
    StatesOf(o.command, r.state);
    StartedIsActivity(r);
  }

  /** The codes a completion is refused over are those of the targets not verified, in order. */
  lemma {:induction false} UnverifiedAreListed(targets: seq<Target>)
    ensures forall code :: code in UnverifiedCodes(targets) <==>
      exists i :: 0 <= i < |targets| && targets[i].code == code && targets[i].outcome != Verified
  {
    if targets != [] {
      var rest := targets[1..];
      UnverifiedAreListed(rest);
      forall code
        ensures code in UnverifiedCodes(targets) <==>
          exists i :: 0 <= i < |targets| && targets[i].code == code && targets[i].outcome != Verified
      {
        if i :| 0 <= i < |rest| && rest[i].code == code && rest[i].outcome != Verified {
          assert targets[i + 1] == rest[i];
        }
        if i :| 0 <= i < |targets| && targets[i].code == code && targets[i].outcome != Verified {
          if i > 0 { assert rest[i - 1] == targets[i]; }
        }
      }
    }
  }

  // ----- what an accepted command does

  /** The state a command leads to. */
  predicate LeadsTo(from: State, command: Command, state: State) {
    match command
    case Edit => state == Draft
    case Approve => state == Approved
    case Withdraw => (from == Draft && state == Withdrawn) || (from == Approved && state == Draft)
    case Abandon => state == Withdrawn
    case Publish => state == Publishing
    case Retry => state == Publishing
    case Complete => state == Active
    case Fail => state == Failed
    case Supersede => state == Superseded
  }

  /** One entry more: who ordered what when, between which states, and for what reason. */
  predicate RecordsOrder(r: Revision, o: Order, next: Revision) {
    && |next.history| == |r.history| + 1 && next.history[..|r.history|] == r.history
    && var e := next.history[|r.history|];
    && e.at == o.at && e.actor == o.actor && e.action == Applied(o.command)
    && e.from == At(r.state) && e.to == At(next.state)
    && (o.reason.Some? ==> e.reason == o.reason.value)
    && (o.reason.None? && IsOwnApproval(r, o) ==> e.reason == "self-approval-granted")
    && (o.reason.None? && !IsOwnApproval(r, o) ==> e.reason == CommandText(o.command) + "-applied")
  }

  function CommandText(command: Command): string {
    match command
    case Edit => "edit"
    case Approve => "approve"
    case Withdraw => "withdraw"
    case Abandon => "abandon"
    case Publish => "publish"
    case Complete => "complete"
    case Fail => "fail"
    case Retry => "retry"
    case Supersede => "supersede"
  }

  predicate SameIdentity(r: Revision, next: Revision) {
    && next.revisionId == r.revisionId && next.scopeGroupId == r.scopeGroupId
    && next.revisionNumber == r.revisionNumber
    && next.authoredBy == r.authoredBy && next.authoredAt == r.authoredAt
  }

  /** What a command sets, field by field; what it does not set stays. */
  predicate SetsFields(r: Revision, o: Order, next: Revision) {
    var starts := o.command == Publish || o.command == Retry;
    && next.approvedBy == (if o.command == Approve then Some(o.actor) else if o.command == Withdraw then None else r.approvedBy)
    && next.approvedAt == (if o.command == Approve then Some(o.at) else if o.command == Withdraw then None else r.approvedAt)
    && next.publishedBy == (if starts then Some(o.actor) else r.publishedBy)
    && next.publishStartedAt == (if starts then Some(o.at) else r.publishStartedAt)
    && next.publishCompletedAt ==
         (if starts then None else if o.command == Complete then Some(o.at) else r.publishCompletedAt)
    && (o.command == Fail ==> next.failure.Some? && Some(next.failure.value.reason) == o.reason && next.failure.value.at == o.at)
    && (starts || o.command == Complete ==> next.failure == None)
    && (o.command != Fail && !starts && o.command != Complete ==> next.failure == r.failure)
    && next.supersededInFavourOf == (if o.command == Supersede then o.previousActive else r.supersededInFavourOf)
  }

  /** A retry sets every target back that is not verified; no other command touches one. */
  predicate SetsTargets(r: Revision, o: Order, next: Revision) {
    && |next.targets| == |r.targets|
    && forall i :: 0 <= i < |r.targets| ==>
         if o.command == Retry && r.targets[i].outcome != Verified
         then next.targets[i] == Target(r.targets[i].code, Pending, None) else next.targets[i] == r.targets[i]
  }

  lemma AcceptedDoes(r: Revision, o: Order)
    requires Apply(r, o).Accepted?
    ensures var next := Apply(r, o).revision;
      && LeadsTo(r.state, o.command, next.state) && RecordsOrder(r, o, next)
      && SameIdentity(r, next) && SetsFields(r, o, next) && SetsTargets(r, o, next)
  {
    hide IsReasonCode, HasPublicationActivity, UnverifiedCodes;
    var next := Apply(r, o).revision;
    assert next.history == r.history + [EntryFor(r, o)];
    assert CommandText(o.command) == CommandName(o.command);
  }

  // ----- what a report does

  /** The first target of this code. */
  predicate IsTargetOf(targets: seq<Target>, i: nat, code: string) {
    i < |targets| && targets[i].code == code && forall j :: 0 <= j < i ==> targets[j].code != code
  }

  /** A decided target takes no other outcome in an attempt, and a written one does not become pending. */
  predicate GoesBack(was: Outcome, outcome: Outcome) {
    match was
    case Pending => false
    case Written => outcome == Pending
    case Verified => outcome != Verified
    case TargetFailed => outcome != TargetFailed
  }

  /**
   * A report of a target's outcome is refused exactly outside a publish, of a code not declared, of a failure without
   * a reason, or where the outcome goes back; otherwise it sets the first target of that code and nothing else, and
   * is recorded.
   */
  lemma ReportedExactly(r: Revision, code: string, outcome: Outcome, at: Instant, reason: Option<string>, i: nat)
    requires IsTargetOf(r.targets, i, code)
      || (i == |r.targets| && forall k :: 0 <= k < |r.targets| ==> r.targets[k].code != code)
    ensures var result := RecordOutcome(r, code, outcome, at, reason);
      var declared := i < |r.targets|; var unexplained := outcome == TargetFailed && !ReasonIsCode(reason);
      && (result == Refused(NotPublishing(r.state)) <==> r.state != Publishing)
      && (result == Refused(TargetNotDeclared) <==> r.state == Publishing && !declared)
      && (result == Refused(FailureReasonRequired) <==> r.state == Publishing && declared && unexplained)
      && ((exists was :: result == Refused(OutcomeRegression(was, outcome))) <==>
           r.state == Publishing && declared && !unexplained && GoesBack(r.targets[i].outcome, outcome))
      && (result.Accepted? <==>
           r.state == Publishing && declared && !unexplained && !GoesBack(r.targets[i].outcome, outcome))
      && (result.Accepted? ==>
           && result.revision == r.(targets := result.revision.targets, history := result.revision.history)
           && result.revision.targets ==
                r.targets[i := Target(code, outcome, if outcome == TargetFailed then reason else None)]
           && result.revision.history == r.history + [
                Entry(at, code, Reported(r.targets[i].outcome), Reported(outcome), TargetReport,
                      match reason case Some(given) => given case None => "target-" + OutcomeText(outcome))])
  {
    hide IsReasonCode;
    var f := FindTarget(r.targets, code);
    assert f == i;
    assert OutcomeText(outcome) == OutcomeName(outcome);
  }

  function OutcomeText(outcome: Outcome): string {
    match outcome
    case Pending => "pending"
    case Written => "written"
    case Verified => "verified"
    case TargetFailed => "failed"
  }
}
