/** The commands the publication driver gives, spelled out: what each of them states, and when it is accepted. */
module PublicationOrders {
  import opened Common
  import L = Lifecycle
  import opened LifecycleRules
  import opened GovernancePublisher
  import opened ProposalPublication

  /** A command on this version of the revision, by this actor at this instant. */
  predicate Gives(o: L.Order, command: L.Command, r: Revision, actor: string, at: Instant) {
    o.command == command && o.actor == actor && o.at == at && o.expectedRevisionNumber == r.revisionNumber
  }

  /** A publish states what is in flight, is accepted exactly of an approved revision beside no other, and starts it. */
  lemma PublishIsGiven(r: Revision, actor: string, at: Instant, inFlight: Option<string>)
    ensures var o := PublishOrder(r, actor, at, inFlight);
      && Gives(o, L.Publish, r, actor, at) && o.inFlight == Some(inFlight) && o.reason == None
      && (L.Apply(r, o).Accepted? <==> r.state == L.Approved && (inFlight == None || inFlight == Some(r.revisionId)))
      && (L.Apply(r, o).Accepted? ==> L.Apply(r, o).revision.state == L.Publishing)
  {
    hide L.Apply, PublishStarted;
    var o := PublishOrder(r, actor, at, inFlight);
    AcceptedExactly(r, o);
    assert inFlight.Some? ==> inFlight == Some(inFlight.value);
    if L.Apply(r, o).Accepted? { AcceptedDoes(r, o); }
  }

  /** An approval states whether its actor holds the right to approve an own change, and is accepted exactly so. */
  lemma ApproveIsGiven(r: Revision, actor: string, at: Instant, granted: bool)
    ensures var o := ApproveOrder(r, actor, at, granted);
      && Gives(o, L.Approve, r, actor, at) && o.selfApproval == Some(granted) && o.reason == None
      && (L.Apply(r, o).Accepted? <==> r.state == L.Draft && (actor != r.authoredBy || granted))
      && (L.Apply(r, o).Accepted? ==> L.Apply(r, o).revision.state == L.Approved)
  {
    hide L.Apply, PublishStarted;
    var o := ApproveOrder(r, actor, at, granted);
    AcceptedExactly(r, o);
    if L.Apply(r, o).Accepted? { AcceptedDoes(r, o); }
  }

  predicate IsFirstFailed(targets: seq<L.Target>, i: nat) {
    i < |targets| && targets[i].outcome == L.TargetFailed && forall j :: 0 <= j < i ==> targets[j].outcome != L.TargetFailed
  }

  /** A publish fails for the reason of its first failed target, or as incomplete where none states one. */
  ghost predicate FailsFor(targets: seq<L.Target>, reason: string) {
    if exists i: nat :: IsFirstFailed(targets, i) then
      exists i: nat :: IsFirstFailed(targets, i)
        && (targets[i].reason == Some(reason) || (targets[i].reason == None && reason == "publish-incomplete"))
    else reason == "publish-incomplete"
  }

  lemma {:induction false} FirstFailureIs(targets: seq<L.Target>)
    ensures FailsFor(targets, FirstFailureReason(targets))
  {
    if targets != [] {
      if targets[0].outcome == L.TargetFailed {
        assert IsFirstFailed(targets, 0);
      } else {
        var rest := targets[1..];
        FirstFailureIs(rest);
        assert forall j :: 0 < j < |targets| ==> targets[j] == rest[j - 1];
        forall i: nat | IsFirstFailed(targets, i) ensures i > 0 && IsFirstFailed(rest, i - 1) {}
        if exists i: nat :: IsFirstFailed(rest, i) {
          var i: nat :| IsFirstFailed(rest, i)
            && (rest[i].reason == Some(FirstFailureReason(rest))
                || (rest[i].reason == None && FirstFailureReason(rest) == "publish-incomplete"));
          assert IsFirstFailed(targets, i + 1);
        }
      }
    }
  }

  lemma FailIsGiven(r: Revision, actor: string, at: Instant)
    ensures var o := FailOrder(r, actor, at);
      Gives(o, L.Fail, r, actor, at) && o.reason.Some? && FailsFor(r.targets, o.reason.value)
  {
    hide FirstFailureReason, FailsFor;
    FirstFailureIs(r.targets);
  }

  /**
   * What settles a publish: with every target verified it is completed, otherwise with a failed one it is failed for
   * the reason of the first, and otherwise it is left as it is.
   */
  lemma SettledBy(r: Revision, actor: string, at: Instant)
    ensures var order := ConcludeOrder(r, actor, at);
      if forall i :: 0 <= i < |r.targets| ==> r.targets[i].outcome == L.Verified then
        order.Some? && Gives(order.value, L.Complete, r, actor, at)
      else if exists i :: 0 <= i < |r.targets| && r.targets[i].outcome == L.TargetFailed then
        order.Some? && Gives(order.value, L.Fail, r, actor, at)
        && order.value.reason.Some? && FailsFor(r.targets, order.value.reason.value)
      else order == None && Settled(r, actor, at) == r
  {
    hide CountOf, FirstFailureReason, FailsFor, L.Apply;
    CountsTell(r.targets, L.Verified);
    CountsTell(r.targets, L.TargetFailed);
    FailIsGiven(r, actor, at);
  }

  /** Settled, a publishing revision whose failures state their reasons is active with every target verified, or failed. */
  lemma SettledAs(r: Revision, actor: string, at: Instant)
    requires r.state == L.Publishing && ReasonsGiven(r.targets)
    ensures var settled := Settled(r, actor, at);
      && settled.targets == r.targets
      && (settled.state == L.Active <==> forall i :: 0 <= i < |r.targets| ==> r.targets[i].outcome == L.Verified)
      && (settled.state == L.Failed <==> exists i :: 0 <= i < |r.targets| && r.targets[i].outcome == L.TargetFailed)
      && (settled.state == L.Failed ==> settled.failure.Some? && FailsFor(r.targets, settled.failure.value.reason))
  {
    hide CountOf, FirstFailureReason, FailsFor, L.Apply, ConcludeOrder, PublishStarted;
    SettledBy(r, actor, at);
    if ConcludeOrder(r, actor, at).Some? {
      SettlingEndsPublishing(r, actor, at);
      AcceptedDoes(r, ConcludeOrder(r, actor, at).value);
    }
  }

  function CommandsOf(orders: seq<L.Order>): seq<L.Command> {
    seq(|orders|, i requires 0 <= i < |orders| => orders[i].command)
  }

  /** What a resume orders before its targets, by the state it found the proposal in. */
  lemma ResumeOrdersAre(found: Revision, begun: Revision, actor: string, granted: bool, now: Instant, started: Instant)
    ensures var orders := ResumeOrders(found, begun, actor, granted, now, started);
      CommandsOf(orders) == match found.state
        case Draft => [L.Approve, L.Publish]
        case Approved => [L.Publish]
        case Publishing => [L.Fail, L.Retry]
        case _ => [L.Retry]
  {
    hide FirstFailureReason;
  }

  /** The run of a resume that found a proposal publishing or failed: a publish again, of the targets not verified yet. */
  lemma RerunStartsOver(found: Revision, actor: string, now: Instant)
    requires ReasonsGiven(found.targets)
    ensures var run := Rerunning(found, actor, now);
      && (run.Accepted? <==> found.state == L.Publishing || found.state == L.Failed)
      && (run.Accepted? ==>
           && run.revision.state == L.Publishing && |run.revision.targets| == |found.targets|
           && forall i :: 0 <= i < |found.targets| ==>
                run.revision.targets[i] == if found.targets[i].outcome == L.Verified then found.targets[i]
                                           else L.Target(found.targets[i].code, L.Pending, None))
  {
    hide L.Apply, FailOrder, OrderOf, L.ResetForRetry, ReasonsGiven;
    if found.state == L.Publishing {
      FailLeads(found, actor, now);
      var failed := L.Apply(found, FailOrder(found, actor, now)).revision;
      RetryResets(failed, actor, now);
      RetryOfFailed(found, failed, actor, now);
    } else {
      RetryResets(found, actor, now);
    }
  }
}
