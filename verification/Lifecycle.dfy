/**
 * One revision and the two functions that move it, commands and reports of target outcomes: what holds of a
 * revision after any sequence of them, and what its history tells.
 */
module Lifecycle {
  import opened Common

  datatype State = Draft | Approved | Publishing | Active | Failed | Superseded | Withdrawn

  datatype Command = Edit | Approve | Withdraw | Abandon | Publish | Complete | Fail | Retry | Supersede

  datatype Outcome = Pending | Written | Verified | TargetFailed

  datatype Target = Target(code: string, outcome: Outcome, reason: Option<string>)

  /** What an entry moved between: lifecycle states, target outcomes, or nothing yet. */
  datatype Mark = Nowhere | At(state: State) | Reported(outcome: Outcome)

  datatype Action = Create | Applied(command: Command) | TargetReport

  datatype Entry = Entry(at: Instant, actor: string, from: Mark, to: Mark, action: Action, reason: string)

  datatype Failure = Failure(reason: string, at: Instant)

  datatype Revision = Revision(
    revisionId: string,
    scopeGroupId: string,
    revisionNumber: int,
    state: State,
    authoredBy: string,
    authoredAt: Instant,
    approvedBy: Option<string>,
    approvedAt: Option<Instant>,
    publishedBy: Option<string>,
    publishStartedAt: Option<Instant>,
    publishCompletedAt: Option<Instant>,
    targets: seq<Target>,
    failure: Option<Failure>,
    supersededInFavourOf: Option<string>,
    history: seq<Entry>)

  /** What a caller states beside the revision. `None` is an argument the caller left out. */
  datatype Order = Order(
    command: Command,
    actor: string,
    at: Instant,
    expectedRevisionNumber: int,
    reason: Option<string>,
    inFlight: Option<Option<string>>,
    previousActive: Option<string>,
    selfApproval: Option<bool>)

  datatype Refusal =
    | RevisionConflict(expected: int, current: int)
    | TransitionNotAllowed(from: State, command: Command)
    | SeparationOfDuties
    | PublishInProgress(publishing: string)
    | TargetsNotVerified(codes: seq<string>)
    | FailureReasonRequired
    | NoPreviousActive
    | SupersedeToSelf
    | AbandonVerifiedTargets
    | AbandonPublishStarted
    | NotPublishing(state: State)
    | TargetNotDeclared
    | OutcomeRegression(was: Outcome, reported: Outcome)

  /** `Malformed` is the thrown TypeError of a call that leaves a required answer out. */
  datatype Result = Accepted(revision: Revision) | Refused(refusal: Refusal) | Malformed

  /** Order of strings by character, as an unadorned sort compares them. */
  predicate NotAfter(a: string, b: string) {
    if a == [] then true
    else if b == [] then false
    else if a[0] != b[0] then a[0] < b[0]
    else NotAfter(a[1..], b[1..])
  }

  function InsertCode(code: string, codes: seq<string>): seq<string> {
    if codes == [] || NotAfter(code, codes[0]) then [code] + codes else [codes[0]] + InsertCode(code, codes[1..])
  }

  function SortedCodes(codes: seq<string>): seq<string> {
    if codes == [] then [] else InsertCode(codes[0], SortedCodes(codes[1..]))
  }

  predicate Ascending(codes: seq<string>) {
    forall i :: 0 < i < |codes| ==> NotAfter(codes[i - 1], codes[i])
  }

  lemma {:induction false} InsertCodeSorts(code: string, codes: seq<string>)
    requires Ascending(codes)
    ensures Ascending(InsertCode(code, codes)) && multiset(InsertCode(code, codes)) == multiset(codes) + multiset{code}
    ensures codes != [] && !NotAfter(code, codes[0]) ==> InsertCode(code, codes)[0] == codes[0]
  {
    if codes != [] && !NotAfter(code, codes[0]) {
      assert codes == [codes[0]] + codes[1..];
      InsertCodeSorts(code, codes[1..]);
      NotAfterIsTotal(code, codes[0]);
      var rest := InsertCode(code, codes[1..]);
      assert NotAfter(codes[0], rest[0]);
    }
  }

  lemma {:induction false} NotAfterIsTotal(a: string, b: string)
    ensures NotAfter(a, b) || NotAfter(b, a)
  {
    if a != [] && b != [] && a[0] == b[0] { NotAfterIsTotal(a[1..], b[1..]); }
  }

  /** The declared targets, each as often as it was declared, in ascending order: repetitions are kept. */
  lemma {:induction false} SortedCodesAreTheDeclared(codes: seq<string>)
    ensures Ascending(SortedCodes(codes)) && multiset(SortedCodes(codes)) == multiset(codes)
  {
    hide NotAfter;
    if codes != [] {
      SortedCodesAreTheDeclared(codes[1..]);
      InsertCodeSorts(codes[0], SortedCodes(codes[1..]));
      assert codes == [codes[0]] + codes[1..];
    }
  }

  function NewRevision(revisionId: string, scopeGroupId: string, revisionNumber: int, authoredBy: string,
                       authoredAt: Instant, codes: seq<string>): Revision
  {
    var sorted := SortedCodes(codes);
    Revision(
      revisionId, scopeGroupId, revisionNumber, Draft, authoredBy, authoredAt,
      None, None, None, None, None,
      seq(|sorted|, i requires 0 <= i < |sorted| => Target(sorted[i], Pending, None)),
      None, None,
      [Entry(authoredAt, authoredBy, Nowhere, At(Draft), Create, "revision-created")])
  }

  function AllowedFrom(command: Command): set<State> {
    match command
    case Edit => {Draft}
    case Approve => {Draft}
    case Withdraw => {Draft, Approved}
    case Abandon => {Draft, Approved, Publishing, Failed}
    case Publish => {Approved}
    case Complete => {Publishing}
    case Fail => {Publishing}
    case Retry => {Failed}
    case Supersede => {Active, Failed}
  }

  function NextState(command: Command, from: State): State {
    match command
    case Edit => Draft
    case Approve => Approved
    case Withdraw => if from == Draft then Withdrawn else Draft
    case Abandon => Withdrawn
    case Publish => Publishing
    case Complete => Active
    case Fail => Failed
    case Retry => Publishing
    case Supersede => Superseded
  }

  function CommandName(command: Command): string {
    match command
    case Edit => "edit"
    case Approve => "approve"
    case Withdraw => "withdraw"
    case Abandon => "abandon"
    case Publish => "publish"
    case Complete => "complete"
    case Fail => "fail"
    case Retry => "retry"
    case Supersede => "supersede"
  }

  predicate FullyVerified(targets: seq<Target>) {
    forall i :: 0 <= i < |targets| ==> targets[i].outcome == Verified
  }

  function UnverifiedCodes(targets: seq<Target>): seq<string> {
    if targets == [] then []
    else (if targets[0].outcome != Verified then [targets[0].code] else []) + UnverifiedCodes(targets[1..])
  }

  predicate HasPublicationActivity(r: Revision) {
    || r.state == Publishing
    || r.publishedBy.Some?
    || r.publishStartedAt.Some?
    || r.publishCompletedAt.Some?
    || exists i :: 0 <= i < |r.targets| && r.targets[i].outcome != Pending
  }

  function ResetForRetry(targets: seq<Target>): (reset: seq<Target>)
    ensures |reset| == |targets|
    ensures forall i :: 0 <= i < |targets| ==>
      reset[i] == if targets[i].outcome == Verified then targets[i] else Target(targets[i].code, Pending, None)
  {
    seq(|targets|, i requires 0 <= i < |targets| =>
      if targets[i].outcome == Verified then targets[i] else Target(targets[i].code, Pending, None))
  }

  /** The refusals, in the order the reducer decides them; `None` lets the command through. */
  function RefusalOf(r: Revision, o: Order): Option<Refusal> {
    if o.expectedRevisionNumber != r.revisionNumber then
      Some(RevisionConflict(o.expectedRevisionNumber, r.revisionNumber))
    else if r.state !in AllowedFrom(o.command) then Some(TransitionNotAllowed(r.state, o.command))
    else if o.command == Approve && o.actor == r.authoredBy && o.selfApproval != Some(true) then
      Some(SeparationOfDuties)
    else if o.command == Publish && o.inFlight.Some? && o.inFlight.value.Some?
            && o.inFlight.value.value != r.revisionId then
      Some(PublishInProgress(o.inFlight.value.value))
    else if o.command == Complete && !FullyVerified(r.targets) then
      Some(TargetsNotVerified(UnverifiedCodes(r.targets)))
    else if o.command == Fail && (o.reason.None? || !IsReasonCode(o.reason.value)) then Some(FailureReasonRequired)
    else if o.command == Supersede && o.previousActive.None? then Some(NoPreviousActive)
    else if o.command == Supersede && o.previousActive.value == r.revisionId then Some(SupersedeToSelf)
    else if o.command == Abandon && HasPublicationActivity(r) then
      if exists i :: 0 <= i < |r.targets| && r.targets[i].outcome == Verified
      then Some(AbandonVerifiedTargets) else Some(AbandonPublishStarted)
    else None
  }

  /** A call that never states an answer the reducer needs is thrown, not refused. */
  predicate IsMalformed(r: Revision, o: Order) {
    && o.expectedRevisionNumber == r.revisionNumber
    && r.state in AllowedFrom(o.command)
    && (|| (o.command == Approve && o.actor == r.authoredBy && o.selfApproval.None?)
        || (o.command == Publish && o.inFlight.None?))
  }

  function EntryFor(r: Revision, o: Order): Entry {
    var selfApproved := o.command == Approve && o.actor == r.authoredBy;
    Entry(o.at, o.actor, At(r.state), At(NextState(o.command, r.state)), Applied(o.command),
          if o.reason.Some? then o.reason.value
          else if selfApproved then "self-approval-granted"
          else CommandName(o.command) + "-applied")
  }

  function Next(r: Revision, o: Order): Revision {
    var next := r.(state := NextState(o.command, r.state), history := r.history + [EntryFor(r, o)]);
    match o.command
    case Approve => next.(approvedBy := Some(o.actor), approvedAt := Some(o.at))
    case Withdraw => next.(approvedBy := None, approvedAt := None)
    case Publish =>
      next.(publishedBy := Some(o.actor), publishStartedAt := Some(o.at), publishCompletedAt := None, failure := None)
    case Retry =>
      next.(publishedBy := Some(o.actor), publishStartedAt := Some(o.at), publishCompletedAt := None, failure := None,
            targets := ResetForRetry(r.targets))
    case Complete => next.(publishCompletedAt := Some(o.at), failure := None)
    case Fail => if o.reason.Some? then next.(failure := Some(Failure(o.reason.value, o.at))) else next
    case Supersede => next.(supersededInFavourOf := o.previousActive)
    case _ => next
  }

  function Apply(r: Revision, o: Order): Result {
    if IsMalformed(r, o) then Malformed
    else match RefusalOf(r, o)
      case Some(refusal) => Refused(refusal)
      case None => Accepted(Next(r, o))
  }

  function Rank(outcome: Outcome): int {
    match outcome
    case Pending => 0
    case Written => 1
    case Verified => 2
    case TargetFailed => 2
  }

  function OutcomeName(outcome: Outcome): string {
    match outcome
    case Pending => "pending"
    case Written => "written"
    case Verified => "verified"
    case TargetFailed => "failed"
  }

  /** Index of the first target with this code, or the length of the sequence. */
  function FindTarget(targets: seq<Target>, code: string): (index: nat)
    ensures index <= |targets|
    ensures index < |targets| ==> targets[index].code == code
    ensures forall i :: 0 <= i < index ==> targets[i].code != code
  {
    if targets == [] then 0
    else if targets[0].code == code then 0
    else
      var rest := FindTarget(targets[1..], code);
      assert forall i :: 1 <= i < rest + 1 ==> targets[i] == targets[1..][i - 1];
      1 + rest
  }

  function RecordOutcome(r: Revision, code: string, outcome: Outcome, at: Instant, reason: Option<string>): Result {
    if r.state != Publishing then Refused(NotPublishing(r.state))
    else
      var index := FindTarget(r.targets, code);
      if index == |r.targets| then Refused(TargetNotDeclared)
      else if outcome == TargetFailed && (reason.None? || !IsReasonCode(reason.value)) then
        Refused(FailureReasonRequired)
      else
        var current := r.targets[index];
        if Rank(outcome) < Rank(current.outcome)
           || (Rank(outcome) == Rank(current.outcome) && outcome != current.outcome) then
          Refused(OutcomeRegression(current.outcome, outcome))
        else
          Accepted(r.(
            targets := r.targets[index := Target(code, outcome, if outcome == TargetFailed then reason else None)],
            history := r.history + [
              Entry(at, code, Reported(current.outcome), Reported(outcome), TargetReport,
                    if reason.Some? then reason.value else "target-" + OutcomeName(outcome))]))
  }

  // ----- runs of the reducer

  datatype Step =
    | Ordered(order: Order)
    | TargetOutcome(code: string, outcome: Outcome, at: Instant, reason: Option<string>)

  /** What the store holds after a step: a refused or thrown call leaves the revision alone. */
  function Take(r: Revision, step: Step): Revision {
    var result := match step
      case Ordered(order) => Apply(r, order)
      case TargetOutcome(code, outcome, at, reason) => RecordOutcome(r, code, outcome, at, reason);
    if result.Accepted? then result.revision else r
  }

  function Run(r: Revision, steps: seq<Step>): Revision
    decreases |steps|
  {
    if steps == [] then r else Take(Run(r, steps[..|steps| - 1]), steps[|steps| - 1])
  }

  /** The last approval on the record, by whom, if the approval still stands. */
  predicate ApprovalOnRecord(r: Revision) {
    exists i :: 0 <= i < |r.history| && IsApprovalBy(r.history[i], r.approvedBy)
  }

  predicate IsApprovalBy(e: Entry, who: Option<string>) {
    e.action == Applied(Approve) && who == Some(e.actor) && e.to == At(Approved)
  }

  /** What every reachable revision satisfies. */
  predicate Sound(r: Revision) {
    && (r.state == Active ==> FullyVerified(r.targets))
    && (r.state in {Draft, Approved} ==> !HasPublicationActivity(r))
    && (r.state in {Publishing, Active, Failed, Superseded} ==> r.publishedBy.Some? && r.publishStartedAt.Some?)
    && (r.state in {Approved, Publishing, Active, Failed, Superseded} ==> ApprovalOnRecord(r))
    && (r.state == Draft ==> r.approvedBy.None?)
    && (r.state == Withdrawn ==> !HasPublicationActivity(r))
  }

  lemma ApprovalEntry(r: Revision, o: Order)
    requires o.command == Approve
    ensures IsApprovalBy(EntryFor(r, o), Some(o.actor))
  {}

  lemma ApplyKeepsSound(r: Revision, o: Order)
    requires Sound(r) && Apply(r, o).Accepted?
    ensures Sound(Apply(r, o).revision)
  {
    hide IsReasonCode, UnverifiedCodes, EntryFor;
    var next := Apply(r, o).revision;
    assert next.history == r.history + [EntryFor(r, o)];
    if o.command == Approve {
      ApprovalEntry(r, o);
      assert IsApprovalBy(next.history[|r.history|], next.approvedBy);
    } else if ApprovalOnRecord(r) {
      var i :| 0 <= i < |r.history| && IsApprovalBy(r.history[i], r.approvedBy);
      assert next.history[i] == r.history[i];
    }
  }

  lemma RecordKeepsSound(r: Revision, code: string, outcome: Outcome, at: Instant, reason: Option<string>)
    requires Sound(r) && RecordOutcome(r, code, outcome, at, reason).Accepted?
    ensures Sound(RecordOutcome(r, code, outcome, at, reason).revision)
  {
    var next := RecordOutcome(r, code, outcome, at, reason).revision;
    var i :| 0 <= i < |r.history| && IsApprovalBy(r.history[i], r.approvedBy);
    assert next.history[i] == r.history[i];
  }

  lemma TakeKeepsSound(r: Revision, step: Step)
    requires Sound(r)
    ensures Sound(Take(r, step))
  {
    match step
    case Ordered(order) => if Apply(r, order).Accepted? { ApplyKeepsSound(r, order); }
    case TargetOutcome(code, outcome, at, reason) =>
      if RecordOutcome(r, code, outcome, at, reason).Accepted? { RecordKeepsSound(r, code, outcome, at, reason); }
  }

  /**
   * From a fresh draft, whatever commands and reports arrive in whatever order: an active revision has every
   * target verified, nothing is published without an approval on its record, and a proposal
   * that was withdrawn or abandoned never had a publication start.
   */
  lemma {:induction false} EveryRunIsSound(r: Revision, steps: seq<Step>)
    requires Sound(r)
    ensures Sound(Run(r, steps))
    decreases |steps|
  {
    if steps != [] {
      EveryRunIsSound(r, steps[..|steps| - 1]);
      TakeKeepsSound(Run(r, steps[..|steps| - 1]), steps[|steps| - 1]);
    }
  }

  lemma NewRevisionIsSound(revisionId: string, scopeGroupId: string, revisionNumber: int, authoredBy: string,
                           authoredAt: Instant, codes: seq<string>)
    ensures Sound(NewRevision(revisionId, scopeGroupId, revisionNumber, authoredBy, authoredAt, codes))
  {}

  /**
   * The record only grows, the declared targets never change, and a verified target stays
   * verified through every command, retry and late report.
   */
  predicate Continues(before: Revision, after: Revision) {
    && before.history <= after.history
    && |before.targets| == |after.targets|
    && forall i :: 0 <= i < |before.targets| ==>
         && before.targets[i].code == after.targets[i].code
         && (before.targets[i].outcome == Verified ==> after.targets[i].outcome == Verified)
  }

  lemma TakeContinues(r: Revision, step: Step)
    ensures Continues(r, Take(r, step))
  {}

  lemma {:induction false} EveryRunContinues(r: Revision, steps: seq<Step>)
    ensures Continues(r, Run(r, steps))
    decreases |steps|
  {
    if steps != [] {
      EveryRunContinues(r, steps[..|steps| - 1]);
      TakeContinues(Run(r, steps[..|steps| - 1]), steps[|steps| - 1]);
    }
  }

  // ----- what a screen may offer

  /** The commands a screen offers a revision's viewer, named or not, from the reducer's own table. */
  predicate IsAvailable(r: Revision, command: Command, actor: Option<string>, granted: bool) {
    && r.state in AllowedFrom(command)
    && (command == Approve && actor == Some(r.authoredBy) ==> granted)
    && (command == Complete ==> FullyVerified(r.targets))
    && (command == Abandon ==> !HasPublicationActivity(r))
  }

  predicate Orders(o: Order, command: Command, actor: Option<string>, granted: bool) {
    o.command == command && (actor.Some? ==> o.actor == actor.value) && o.selfApproval == Some(granted)
  }

  /**
   * A command is offered exactly when some way of ordering it is accepted: as this viewer, or as anybody where
   * none is named.
   */
  lemma OfferedMeansAcceptable(r: Revision, command: Command, actor: Option<string>, granted: bool)
    ensures IsAvailable(r, command, actor, granted) <==>
      exists o :: Orders(o, command, actor, granted) && Apply(r, o).Accepted?
  {
    hide IsReasonCode, UnverifiedCodes, Next;
    var reason := "abc";
    assert IsReasonCode(reason) by { ShortestReason(); }
    var other := r.authoredBy + "x";
    assert |other| != |r.authoredBy| && |r.revisionId + "x"| != |r.revisionId|;
    var who := if actor.Some? then actor.value else other;
    var o := Order(command, who, 0, r.revisionNumber, Some(reason), Some(None), Some(r.revisionId + "x"), Some(granted));
    assert Orders(o, command, actor, granted);
  }

  lemma ShortestReason()
    ensures IsReasonCode("abc")
  {}

  /** A withdrawn or superseded revision takes no command and no report ever again. */
  lemma {:induction false} ClosedStaysClosed(r: Revision, steps: seq<Step>)
    requires r.state in {Withdrawn, Superseded}
    ensures Run(r, steps) == r
    decreases |steps|
  {
    if steps != [] { ClosedStaysClosed(r, steps[..|steps| - 1]); }
  }

  /** An active revision can only be superseded, once, and its targets stay as they are. */
  lemma {:induction false} ActiveIsOnlySuperseded(r: Revision, steps: seq<Step>)
    requires r.state == Active
    ensures Run(r, steps) == r || (Run(r, steps).state == Superseded && Run(r, steps).targets == r.targets)
    decreases |steps|
  {
    if steps != [] { ActiveIsOnlySuperseded(r, steps[..|steps| - 1]); }
  }

  // ----- the record

  /** Where the last entry that moved the revision left it. */
  function LeftAt(history: seq<Entry>): Mark {
    if history == [] then Nowhere
    else if history[|history| - 1].action != TargetReport then history[|history| - 1].to
    else LeftAt(history[..|history| - 1])
  }

  /** Each move starts where the one before it ended, and follows the table of its command. */
  predicate IsConnected(history: seq<Entry>) {
    forall i :: 0 <= i < |history| ==> FollowsRecord(history[..i], history[i])
  }

  predicate FollowsRecord(before: seq<Entry>, e: Entry) {
    match e.action
    case Create => before == []
    case Applied(command) =>
      e.from == LeftAt(before) && e.from.At? && e.from.state in AllowedFrom(command)
      && e.to == At(NextState(command, e.from.state))
    case TargetReport => LeftAt(before) == At(Publishing)
  }

  predicate RecordTells(r: Revision) {
    IsConnected(r.history) && LeftAt(r.history) == At(r.state)
  }

  lemma NewRecordTells(revisionId: string, scopeGroupId: string, revisionNumber: int, authoredBy: string,
                       authoredAt: Instant, codes: seq<string>)
    ensures RecordTells(NewRevision(revisionId, scopeGroupId, revisionNumber, authoredBy, authoredAt, codes))
  {}

  lemma OneMoreEntry(history: seq<Entry>, e: Entry)
    requires IsConnected(history) && FollowsRecord(history, e)
    ensures IsConnected(history + [e])
    ensures LeftAt(history + [e]) == if e.action == TargetReport then LeftAt(history) else e.to
  {
    var longer := history + [e];
    assert longer[..|history|] == history;
    forall i | 0 <= i < |longer| ensures FollowsRecord(longer[..i], longer[i]) {
      if i < |history| { assert longer[..i] == history[..i] && FollowsRecord(history[..i], history[i]); }
    }
  }

  lemma TakeKeepsRecord(r: Revision, step: Step)
    requires RecordTells(r)
    ensures RecordTells(Take(r, step))
  {
    hide IsConnected, LeftAt, RefusalOf, IsReasonCode;
    match step
    case Ordered(o) =>
      if Apply(r, o).Accepted? {
        AcceptedFromTable(r, o);
        OneMoreEntry(r.history, EntryFor(r, o));
      }
    case TargetOutcome(code, outcome, at, reason) =>
      var recorded := RecordOutcome(r, code, outcome, at, reason);
      if recorded.Accepted? { OneMoreEntry(r.history, recorded.revision.history[|r.history|]); }
  }

  lemma AcceptedFromTable(r: Revision, o: Order)
    requires Apply(r, o).Accepted?
    ensures r.state in AllowedFrom(o.command)
    ensures Apply(r, o).revision.history == r.history + [EntryFor(r, o)]
    ensures Apply(r, o).revision.state == NextState(o.command, r.state)
  {}

  /**
   * Over every run the history is a path through the command table that ends in the present
   * state: no move is missing from it and none is invented.
   */
  lemma {:induction false} EveryRunKeepsRecord(r: Revision, steps: seq<Step>)
    requires RecordTells(r)
    ensures RecordTells(Run(r, steps))
    decreases |steps|
  {
    if steps != [] {
      EveryRunKeepsRecord(r, steps[..|steps| - 1]);
      TakeKeepsRecord(Run(r, steps[..|steps| - 1]), steps[|steps| - 1]);
    }
  }

  /** So of every revision created here, whatever is ordered of it and reported on it since. */
  lemma EveryCreatedRevision(revisionId: string, scopeGroupId: string, revisionNumber: int, authoredBy: string,
                             authoredAt: Instant, codes: seq<string>, steps: seq<Step>)
    ensures var created := NewRevision(revisionId, scopeGroupId, revisionNumber, authoredBy, authoredAt, codes);
      var r := Run(created, steps);
      && Sound(r) && RecordTells(r) && Continues(created, r)
      && multiset(TargetCodes(r.targets)) == multiset(codes)
  {
    hide Run, Sound, RecordTells, SortedCodes;
    var created := NewRevision(revisionId, scopeGroupId, revisionNumber, authoredBy, authoredAt, codes);
    NewRevisionIsSound(revisionId, scopeGroupId, revisionNumber, authoredBy, authoredAt, codes);
    NewRecordTells(revisionId, scopeGroupId, revisionNumber, authoredBy, authoredAt, codes);
    EveryRunIsSound(created, steps);
    EveryRunKeepsRecord(created, steps);
    EveryRunContinues(created, steps);
    SortedCodesAreTheDeclared(codes);
    assert TargetCodes(Run(created, steps).targets) == SortedCodes(codes);
  }

  function TargetCodes(targets: seq<Target>): seq<string> {
    seq(|targets|, i requires 0 <= i < |targets| => targets[i].code)
  }
}
