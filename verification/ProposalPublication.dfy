/**
 * The publication driver: an approved proposal is marked publishing, its targets are attempted, and
 * the revision is completed or failed, each stage persisted against the version the last one left.
 */
module ProposalPublication {
  import opened Common
  import opened Json
  import L = Lifecycle
  import opened GovernancePublisher

  function CountOf(targets: seq<L.Target>, outcome: L.Outcome): (count: nat)
    ensures count <= |targets|
  {
    if targets == [] then 0
    else CountOf(targets[..|targets| - 1], outcome) + (if targets[|targets| - 1].outcome == outcome then 1 else 0)
  }

  /** All targets have this outcome; some target has it. */
  predicate AllAre(targets: seq<L.Target>, outcome: L.Outcome) {
    forall i :: 0 <= i < |targets| ==> targets[i].outcome == outcome
  }

  predicate SomeIs(targets: seq<L.Target>, outcome: L.Outcome) {
    exists i :: 0 <= i < |targets| && targets[i].outcome == outcome
  }

  lemma {:induction false} CountsTell(targets: seq<L.Target>, outcome: L.Outcome)
    ensures CountOf(targets, outcome) == |targets| <==> AllAre(targets, outcome)
    ensures CountOf(targets, outcome) > 0 <==> SomeIs(targets, outcome)
  {
    hide AllAre, SomeIs, CountOf;
    if targets == [] {
      NoneAre(outcome);
    } else {
      var init, last := targets[..|targets| - 1], targets[|targets| - 1];
      CountsTell(init, outcome);
      OneMoreTarget(init, last, outcome);
      CountsOneMore(init, last, outcome);
      assert targets == init + [last];
    }
  }

  lemma NoneAre(outcome: L.Outcome)
    ensures AllAre([], outcome) && !SomeIs([], outcome) && CountOf([], outcome) == 0
  {}

  lemma CountsOneMore(init: seq<L.Target>, last: L.Target, outcome: L.Outcome)
    ensures CountOf(init + [last], outcome) == CountOf(init, outcome) + (if last.outcome == outcome then 1 else 0)
  {
    assert (init + [last])[..|init|] == init;
  }

  lemma OneMoreTarget(init: seq<L.Target>, last: L.Target, outcome: L.Outcome)
    ensures AllAre(init + [last], outcome) <==> AllAre(init, outcome) && last.outcome == outcome
    ensures SomeIs(init + [last], outcome) <==> SomeIs(init, outcome) || last.outcome == outcome
  {
    var all := init + [last];
    assert all[|init|] == last && forall i :: 0 <= i < |init| ==> all[i] == init[i];
    if SomeIs(init, outcome) {
      var i :| 0 <= i < |init| && init[i].outcome == outcome;
      assert all[i].outcome == outcome;
    }
  }

  const INCOMPLETE := "publish-incomplete"

  /** The recorded reason of the first failed target. */
  function FirstFailureReason(targets: seq<L.Target>): string {
    if targets == [] then INCOMPLETE
    else if targets[0].outcome == L.TargetFailed then
      if targets[0].reason.Some? then targets[0].reason.value else INCOMPLETE
    else FirstFailureReason(targets[1..])
  }

  lemma {:induction false} FirstFailureReasonIsCode(targets: seq<L.Target>)
    requires ReasonsGiven(targets)
    ensures IsReasonCode(FirstFailureReason(targets))
  {
    hide IsReasonCode;
    if targets == [] { IncompleteIsCode(); } else { FirstFailureReasonIsCode(targets[1..]); }
  }

  lemma IncompleteIsCode()
    ensures IsReasonCode(INCOMPLETE)
  {}

  function OrderOf(command: L.Command, r: Revision, actor: string, at: Instant): L.Order {
    L.Order(command, actor, at, r.revisionNumber, None, None, None, None)
  }

  function PublishOrder(r: Revision, actor: string, at: Instant, inFlight: Option<string>): L.Order {
    OrderOf(L.Publish, r, actor, at).(inFlight := Some(inFlight))
  }

  function ApproveOrder(r: Revision, actor: string, at: Instant, granted: bool): L.Order {
    OrderOf(L.Approve, r, actor, at).(selfApproval := Some(granted))
  }

  function FailOrder(r: Revision, actor: string, at: Instant): L.Order {
    OrderOf(L.Fail, r, actor, at).(reason := Some(FirstFailureReason(r.targets)))
  }

  /** The command that settles a publish that went through its targets, if either applies. */
  function ConcludeOrder(r: Revision, actor: string, at: Instant): Option<L.Order> {
    if CountOf(r.targets, L.Verified) == |r.targets| then Some(OrderOf(L.Complete, r, actor, at))
    else if CountOf(r.targets, L.TargetFailed) > 0 then
      Some(FailOrder(r, actor, at))
    else None
  }

  function ConcludeOrders(r: Revision, actor: string, at: Instant): seq<L.Order> {
    if ConcludeOrder(r, actor, at).Some? then [ConcludeOrder(r, actor, at).value] else []
  }

  /** Where that command leaves the revision. */
  function Settled(r: Revision, actor: string, at: Instant): Revision {
    if ConcludeOrder(r, actor, at).None? then r
    else
      var applied := L.Apply(r, ConcludeOrder(r, actor, at).value);
      if applied.Accepted? then applied.revision else r
  }

  /** What a resume of a revision left publishing or failed orders before its targets, and where that leads. */
  function RerunOrders(r: Revision, actor: string, now: Instant): seq<L.Order> {
    (if r.state == L.Publishing then [FailOrder(r, actor, now)] else []) + [OrderOf(L.Retry, r, actor, now)]
  }

  function Rerunning(r: Revision, actor: string, now: Instant): L.Result {
    if r.state != L.Publishing then L.Apply(r, OrderOf(L.Retry, r, actor, now))
    else
      var failed := L.Apply(r, FailOrder(r, actor, now));
      if failed.Accepted? then L.Apply(failed.revision, OrderOf(L.Retry, r, actor, now)) else failed
  }

  /** A resume of any revision that may be taken up: what it orders, `begun` being what its publish found. */
  function ResumeOrders(found: Revision, begun: Revision, actor: string, granted: bool, now: Instant, started: Instant)
    : seq<L.Order>
  {
    if found.state == L.Draft then
      [ApproveOrder(found, actor, now, granted), PublishOrder(begun, actor, started, None)]
    else if found.state == L.Approved then [PublishOrder(begun, actor, started, None)]
    else RerunOrders(found, actor, now)
  }

  predicate Decided(targets: seq<L.Target>) {
    forall i :: 0 <= i < |targets| ==> targets[i].outcome in {L.Verified, L.TargetFailed}
  }

  /** No pending target repeats the code of an earlier target. */
  predicate NoPendingRepeats(targets: seq<L.Target>) {
    forall k :: 0 <= k < |targets| && targets[k].outcome == L.Pending ==> IsFirst(targets, k)
  }

  /**
   * A publishing revision whose targets are all verified or failed is settled by exactly one command, which the
   * reducer accepts: active when all are verified, failed otherwise.
   */
  lemma DecidedIsSettled(r: Revision, actor: string, at: Instant)
    requires r.state == L.Publishing && Decided(r.targets) && ReasonsGiven(r.targets)
    ensures ConcludeOrder(r, actor, at).Some?
    ensures var settled := L.Apply(r, ConcludeOrder(r, actor, at).value);
      settled.Accepted? && settled.revision.state == (if L.FullyVerified(r.targets) then L.Active else L.Failed)
  {
    hide IsReasonCode, CountOf;
    CountsTell(r.targets, L.Verified);
    CountsTell(r.targets, L.TargetFailed);
    FirstFailureReasonIsCode(r.targets);
  }

  /** Left publishing: some target is still pending and none failed; nothing here ever ends that. */
  lemma NotSettledMeansPending(r: Revision, actor: string, at: Instant)
    ensures ConcludeOrder(r, actor, at).None? <==>
      && (exists i :: 0 <= i < |r.targets| && r.targets[i].outcome != L.Verified)
      && (forall i :: 0 <= i < |r.targets| ==> r.targets[i].outcome != L.TargetFailed)
  {
    hide CountOf, FirstFailureReason;
    CountsTell(r.targets, L.Verified);
    CountsTell(r.targets, L.TargetFailed);
  }

  /** An attempt ends with its targets decided exactly when no pending target repeated an earlier code. */
  lemma AttemptEndsDecided(s: Setup, w: World, trace: seq<Event>, id: AttemptId)
    requires Inv(s, w)
    requires id in After(s, w, trace).attempts && After(s, w, trace).attempts[id].Attempting?
    requires var p := After(s, w, trace).attempts[id]; p.index >= |p.start.targets|
    ensures var p := After(s, w, trace).attempts[id];
      Decided(p.current.targets) <==> NoPendingRepeats(p.start.targets)
  {
    hide Inv, After, IsFirst, CodesOf, PendingCodes, Progressed, L.Sound, Backed, ReasonsGiven;
    FinishedAttemptDecides(s, w, trace, id);
    EveryRunKeepsInv(s, w, trace);
    InvPhase(s, After(s, w, trace), id);
    var p := After(s, w, trace).attempts[id];
    if Decided(p.current.targets) {
      assert forall k :: 0 <= k < |p.current.targets| ==> p.current.targets[k].outcome != L.Pending;
    }
  }

  /** The settling command is never refused, and ends the publishing state. */
  lemma SettlingEndsPublishing(r: Revision, actor: string, at: Instant)
    requires r.state == L.Publishing && ReasonsGiven(r.targets) && ConcludeOrder(r, actor, at).Some?
    ensures var settled := L.Apply(r, ConcludeOrder(r, actor, at).value);
      settled.Accepted? && settled.revision.state in {L.Active, L.Failed}
  {
    hide CountOf, FirstFailureReason, IsReasonCode;
    CountsTell(r.targets, L.Verified);
    FirstFailureReasonIsCode(r.targets);
  }

  lemma ArrivedAtEnd(s: Setup, tag: nat, start: Revision, current: Revision, at: Instant, attempted: seq<Attempted>)
    ensures var p := Arrive(s, tag, start, current, at, |start.targets|, attempted);
      p.Attempting? && p.index == |p.start.targets| && p.tag == tag && p.start == start && p.current == current
  {}

  /** Where a run left an attempt that went through its targets. */
  lemma EndedAttempt(s: Setup, w: World, trace: seq<Event>, id: AttemptId)
    requires Inv(s, w)
    requires id in After(s, w, trace).attempts && After(s, w, trace).attempts[id].Attempting?
    requires var p := After(s, w, trace).attempts[id]; p.index == |p.start.targets|
    ensures var p := After(s, w, trace).attempts[id];
      ReasonsGiven(p.current.targets) && (Decided(p.current.targets) <==> NoPendingRepeats(p.start.targets))
  {
    hide After, L.Sound, Backed, Progressed, PendingCodes, CodesOf, NoPendingRepeats, Decided, NoWritten, VersionsHold;
    EveryRunKeepsInv(s, w, trace);
    AttemptEndsDecided(s, w, trace, id);
  }

  /** An approved revision that starts publishing still has every target pending. */
  lemma PublishStartsPending(s: Setup, log: seq<Entry>, r: Revision, order: L.Order)
    requires Credible(s, log, r) && order.command == L.Publish && L.Apply(r, order).Accepted?
    ensures L.Apply(r, order).revision.state == L.Publishing && L.Apply(r, order).revision.targets == r.targets
    ensures forall i :: 0 <= i < |r.targets| ==> r.targets[i].outcome == L.Pending
  {}

  // ----- the product's own targets

  const AllKinds: seq<Kind> := [Assignment, Entitlement, ModelRegistry, FallbackPolicy, Budget]

  function SnapshotTargetCode(kind: Kind): string { SNAPSHOT_TARGET_PREFIX + KindName(kind) }

  /** The targets a complete governance set declares. */
  function PublicationTargets(includeMembership: bool): seq<string> {
    seq(|AllKinds|, i requires 0 <= i < |AllKinds| => SnapshotTargetCode(AllKinds[i]))
      + (if includeMembership then [MEMBERSHIP_TARGET] else [])
  }

  /** A snapshot target's code reads back to its kind, and is no membership target. */
  lemma TargetCodeReadsBack(kind: Kind)
    ensures KindOf(SnapshotTargetCode(kind)) == Some(kind)
    ensures SnapshotTargetCode(kind) != MEMBERSHIP_TARGET
  {
    KindNamesDiffer();
    assert SnapshotTargetCode(kind)[0] == 'g' && MEMBERSHIP_TARGET[0] == 'p';
    forall a, b | SnapshotTargetCode(a) == SnapshotTargetCode(b) ensures KindName(a) == KindName(b) {
      assert KindName(a) == SnapshotTargetCode(a)[|SNAPSHOT_TARGET_PREFIX|..];
      assert KindName(b) == SnapshotTargetCode(b)[|SNAPSHOT_TARGET_PREFIX|..];
    }
    assert SnapshotTargetCode(kind) == SNAPSHOT_TARGET_PREFIX + KindName(kind);
  }

  lemma KindNamesDiffer()
    ensures forall a, b :: KindName(a) == KindName(b) ==> a == b
  {
    assert |KindName(Assignment)| == 10 && |KindName(Entitlement)| == 11 && |KindName(ModelRegistry)| == 13;
    assert |KindName(FallbackPolicy)| == 14 && |KindName(Budget)| == 6;
  }

  predicate Distinct(codes: seq<string>) { forall i, j :: 0 <= i < j < |codes| ==> codes[i] != codes[j] }

  lemma PublicationTargetsAreDistinct(includeMembership: bool)
    ensures Distinct(PublicationTargets(includeMembership))
  {
    hide KindOf, SnapshotTargetCode;
    var codes := PublicationTargets(includeMembership);
    forall i | 0 <= i < |AllKinds| ensures KindOf(codes[i]) == Some(AllKinds[i]) && codes[i] != MEMBERSHIP_TARGET {
      TargetCodeReadsBack(AllKinds[i]);
    }
  }

  lemma {:induction false} OnceEach(codes: seq<string>)
    ensures Distinct(codes) <==> forall c :: multiset(codes)[c] <= 1
  {
    if codes != [] {
      var init, last := codes[..|codes| - 1], codes[|codes| - 1];
      OnceEach(init);
      assert codes == init + [last];
      assert multiset(codes) == multiset(init) + multiset{last};
      if last in init {
        assert multiset(codes)[last] >= 2;
        var i :| 0 <= i < |init| && init[i] == last;
        assert codes[i] == codes[|init|];
      } else {
        assert multiset(init)[last] == 0;
        assert forall c :: multiset(codes)[c] == multiset(init)[c] + (if c == last then 1 else 0);
        assert (forall c :: multiset(codes)[c] <= 1) ==> forall c :: multiset(init)[c] <= 1 by {
          if forall c :: multiset(codes)[c] <= 1 {
            forall c ensures multiset(init)[c] <= 1 { assert multiset(codes)[c] <= 1; }
          }
        }
        assert Distinct(init) <==> Distinct(codes);
      }
    }
  }

  /** A revision declared over the product's own targets repeats none, so a publish of it is always settled. */
  lemma OwnTargetsNeverRepeat(revisionId: string, scopeGroupId: string, number: int, author: string, at: Instant,
                              includeMembership: bool)
    ensures NoPendingRepeats(
      L.NewRevision(revisionId, scopeGroupId, number, author, at, PublicationTargets(includeMembership)).targets)
  {
    hide PublicationTargets, L.SortedCodes;
    var codes := PublicationTargets(includeMembership);
    var sorted := L.SortedCodes(codes);
    PublicationTargetsAreDistinct(includeMembership);
    L.SortedCodesAreTheDeclared(codes);
    OnceEach(codes);
    OnceEach(sorted);
    var targets := L.NewRevision(revisionId, scopeGroupId, number, author, at, codes).targets;
    assert forall k :: 0 <= k < |targets| ==> targets[k].code == sorted[k];
  }

  const BOOTSTRAP_AUTHOR := "bootstrap-import"

  /** `LegacyRecovery` is a resume without content: to be abandoned if nothing of it is verified yet. */
  datatype Publication =
    | ContentAbsent
    | InitialOnly
    | LegacyRecovery(abandon: bool)
    | RefusedBy(refusal: L.Result)
    | Broken
    | Finished(revision: Revision, tag: nat)

  class ProposalPublisher {
    const publisher: Publisher
    const store: PublicationStore

    constructor (publisher: Publisher)
      ensures this.publisher == publisher && store == publisher.store
    {
      this.publisher, store := publisher, publisher.store;
    }

    ghost predicate Valid() { store == publisher.store }

    /** Where each result leaves the attempt. */
    ghost predicate Leaves(id: AttemptId, result: Publication)
      reads publisher.store
    {
      match result
      case Finished(revision, tag) => publisher.InPhase(id, Held(revision, tag))
      case Broken => publisher.InPhase(id, Threw)
      case RefusedBy(_) => publisher.InPhase(id, Stopped)
      case _ => true
    }

    /** Every run of the store starts where nothing is in flight and nothing is claimed. */
    ghost predicate Sane()
      reads store
    {
      store.Valid() && Inv(store.setup, store.origin)
    }

    /** One lifecycle command, persisted against the version in hand. `None` is a thrown conflict. */
    method Persist(ghost id: AttemptId, held: Revision, tag: nat, order: L.Order)
      returns (applied: L.Result, put: Option<nat>)
      requires Valid() && publisher.InPhase(id, Held(held, tag))
      modifies store
      ensures old(store.trace) <= store.trace
      ensures OrdersOf(store.trace, id) == OrdersOf(old(store.trace), id) + [order]
      ensures applied == L.Apply(held, order)
      ensures publisher.InPhase(id,
        if !applied.Accepted? then Stopped else if put.Some? then Held(applied.revision, put.value) else Threw)
      ensures !applied.Accepted? ==> put.None?
    {
      hide L.Apply, After, OrdersOf;
      applied, put := L.Apply(held, order), None;
      if applied.Accepted? {
        publisher.Await(id, Held(held, tag));
        put := store.PutRevision(applied.revision, tag);
      }
      publisher.Record(Command(id, order));
    }

    method Conclude(ghost id: AttemptId, held: Revision, tag: nat, actor: string, at: Instant)
      returns (result: Publication)
      requires Valid() && publisher.InPhase(id, Held(held, tag)) && held.state == L.Publishing && ReasonsGiven(held.targets)
      modifies store
      ensures store.Valid() && old(store.trace) <= store.trace
      ensures (result.Broken? || result.Finished?) && Leaves(id, result)
      ensures OrdersOf(store.trace, id) == OrdersOf(old(store.trace), id) + ConcludeOrders(held, actor, at)
      ensures result.Finished? ==> result.revision == Settled(held, actor, at)
    {
      hide L.Apply, ConcludeOrder, After, ReasonsGiven, OrdersOf;
      var order := ConcludeOrder(held, actor, at);
      if order.None? { return Finished(held, tag); }
      SettlingEndsPublishing(held, actor, at);
      var applied, put := Persist(id, held, tag, order.value);
      if put.None? { return Broken; }
      result := Finished(applied.revision, put.value);
    }

    /** The targets, their outcomes, and the settling command. */
    method RunTargets(ghost id: AttemptId, start: Revision, tag: nat, content: Content, actor: string,
                      at: Instant, end: Instant)
      returns (result: Publication, ghost e: Ending)
      requires Valid() && Sane() && publisher.Publishes(content)
      requires publisher.InPhase(id, Held(start, tag)) && start.state == L.Publishing
      modifies store
      ensures store.Valid() && old(store.trace) <= store.trace
      ensures (result.Broken? || result.Finished?) && Leaves(id, result)
      ensures Ordered(old(store.trace), store.trace, id, ConcludeOrders(e.current, actor, end))
      ensures result.Finished? ==>
        Completed(store.setup, store.origin, old(store.trace), store.trace, id, [], start, at, actor, end, e,
                  result.revision)
      ensures result.Finished? && NoPendingRepeats(start.targets) ==> result.revision.state in {L.Active, L.Failed}
    {
      hide L.Apply, After, Inv, Arrive, ReasonsGiven, NoPendingRepeats, Decided, L.FullyVerified, OrdersOf, ConcludeOrder;
      hide Settled, Ordered, Completed, ConcludeOrders;
      ghost var before := store.trace;
      e := Ending(start, 0, tag, []);
      var published := publisher.Publish(id, start, tag, content, at);
      BrokenOff(before, store.trace, id, [], ConcludeOrders(e.current, actor, end));
      assert [] + ConcludeOrders(e.current, actor, end) == ConcludeOrders(e.current, actor, end);
      if published.None? { return Broken, e; }
      var (current, attempted) := published.value;
      ghost var p := Arrive(store.setup, tag, start, current, at, |start.targets|, attempted);
      ArrivedAtEnd(store.setup, tag, start, current, at, attempted);
      e := Ending(current, |store.trace|, tag, attempted);
      ghost var reached := store.trace;
      assert reached[..|reached|] == reached;
      assert ReachedEnd(store.setup, store.origin, reached, id, start, at, e);
      publisher.Await(id, p);
      EndedAttempt(store.setup, store.origin, store.trace, id);
      var put := store.PutRevision(current, tag);
      publisher.Record(Advance(id));
      BrokenOff(before, store.trace, id, [], ConcludeOrders(e.current, actor, end));
      assert [] + ConcludeOrders(e.current, actor, end) == ConcludeOrders(e.current, actor, end);
      if put.None? { return Broken, e; }
      result := Conclude(id, current, put.value, actor, end);
      EndStaysReached(store.setup, store.origin, reached, store.trace, id, start, at, e);
      AllOrdered(store.setup, store.origin, before, store.trace, id, start, at, actor, end, e);
      if NoPendingRepeats(start.targets) { DecidedSettles(current, actor, end); }
    }

    /**
     * `publish`: from the stored approved revision, with the content of its stored draft. Refused exactly when the
     * reducer refuses the command; otherwise, unless a conflict or a broken read stops it, the revision the command
     * led to went through all its targets and is left settled: active or failed, provided no target repeats
     * another's code.
     */
    method Publish(ghost id: AttemptId, actor: string, inFlight: Option<string>, content: Option<Content>,
                   started: Instant, at: Instant, end: Instant)
      returns (result: Publication, ghost found: Revision, ghost e: Ending)
      requires Valid() && Sane() && (id !in store.Now().attempts || store.Now().attempts[id].Held?)
      requires content.Some? ==> publisher.Publishes(content.value)
      modifies store
      ensures store.Valid() && old(store.trace) <= store.trace
      ensures found == old(store.revision.value) && Leaves(id, result)
      ensures result.ContentAbsent? || result.RefusedBy? || result.Broken? || result.Finished?
      ensures result.ContentAbsent? <==> content.None?
      ensures result.ContentAbsent? ==> OrdersOf(store.trace, id) == OrdersOf(old(store.trace), id)
      ensures content.Some? ==>
        var order := PublishOrder(found, actor, started, inFlight);
        && (result.RefusedBy? <==> !L.Apply(found, order).Accepted?)
        && (result.RefusedBy? ==> result.refusal == L.Apply(found, order))
        && Ordered(old(store.trace), store.trace, id, [order] + ConcludeOrders(e.current, actor, end))
        && (result.Finished? ==>
             Completed(store.setup, store.origin, old(store.trace), store.trace, id, [order],
                       L.Apply(found, order).revision, at, actor, end, e, result.revision))
      ensures result.Finished? && NoPendingRepeats(found.targets) ==> result.revision.state in {L.Active, L.Failed}
    {
      hide L.Apply, After, Inv, NoPendingRepeats, Credible, OrdersOf, ConcludeOrders, Settled, Ordered, Completed;
      hide PublishOrder;
      ghost var before := store.trace;
      EveryRunKeepsInv(store.setup, store.origin, store.trace);
      InvRevision(store.setup, store.Now());
      publisher.Record(Begin(id));
      var held := store.revision;
      found := held.value;
      e := Ending(found, 0, 0, []);
      if content.None? { result := ContentAbsent; return; }
      var order := PublishOrder(held.value, actor, started, inFlight);
      ghost var log := store.Now().log;
      var applied, put := Persist(id, held.value, held.tag, order);
      BrokenOff(before, store.trace, id, [order], ConcludeOrders(e.current, actor, end));
      if !applied.Accepted? { result := RefusedBy(applied); return; }
      if put.None? { result := Broken; return; }
      IsPublish(held.value, actor, started, inFlight);
      PublishStartsPending(store.setup, log, held.value, order);
      ghost var ordered := store.trace;
      result, e := RunTargets(id, applied.revision, put.value, content.value, actor, at, end);
      OrderedBefore(before, ordered, store.trace, id, [order], ConcludeOrders(e.current, actor, end));
      if result.Finished? {
        CompletedBefore(store.setup, store.origin, before, ordered, store.trace, id, [order], [], applied.revision, at,
                        actor, end, e, result.revision);
        assert [order] + [] == [order];
      }
    }

    /**
     * A proposal left publishing is failed, and a failed one is retried, which returns every unverified target to
     * pending, and run through its targets again. Anything else is refused.
     */
    method Rerun(ghost id: AttemptId, found: Revision, from: nat, content: Content, actor: string,
                 now: Instant, at: Instant, end: Instant)
      returns (result: Publication, ghost e: Ending)
      requires Valid() && Sane() && publisher.Publishes(content) && publisher.InPhase(id, Held(found, from))
      modifies store
      ensures store.Valid() && old(store.trace) <= store.trace
      ensures (result.RefusedBy? || result.Broken? || result.Finished?) && Leaves(id, result)
      ensures result.RefusedBy? <==> found.state !in {L.Publishing, L.Failed}
      ensures result.RefusedBy? ==> result.refusal == Rerunning(found, actor, now)
      ensures Ordered(old(store.trace), store.trace, id,
                      RerunOrders(found, actor, now) + ConcludeOrders(e.current, actor, end))
      ensures result.Finished? ==>
        && Rerunning(found, actor, now).Accepted?
        && Completed(store.setup, store.origin, old(store.trace), store.trace, id, RerunOrders(found, actor, now),
                     Rerunning(found, actor, now).revision, at, actor, end, e, result.revision)
      ensures result.Finished? && NoPendingRepeats(L.ResetForRetry(found.targets)) ==>
        result.revision.state in {L.Active, L.Failed}
    {
      hide L.Apply, After, Inv, NoPendingRepeats, Credible, L.ResetForRetry, OrdersOf, ConcludeOrders, Settled, FailOrder;
      hide OrderOf, Ordered, Completed;
      ghost var before := store.trace;
      HeldReasons(store.setup, store.origin, store.trace, id);
      e := Ending(found, 0, 0, []);
      ghost var orders := RerunOrders(found, actor, now);
      ghost var last := ConcludeOrders(e.current, actor, end);
      var held, tag := found, from;
      if held.state == L.Publishing {
        FailLeads(held, actor, now);
        var applied, put := Persist(id, held, tag, FailOrder(held, actor, now));
        BrokenOff(before, store.trace, id, [orders[0]], orders[1..] + last);
        assert [orders[0]] + (orders[1..] + last) == orders + last;
        if put.None? { result := Broken; return; }
        held, tag := applied.revision, put.value;
      }
      RetryResets(held, actor, now);
      RetryOfFailed(found, held, actor, now);
      var applied, put := Persist(id, held, tag, OrderOf(L.Retry, held, actor, now));
      ghost var ordered := store.trace;
      assert OrdersOf(ordered, id) == OrdersOf(before, id) + orders;
      BrokenOff(before, ordered, id, orders, last);
      if !applied.Accepted? { result := RefusedBy(applied); return; }
      if put.None? { result := Broken; return; }
      result, e := RunTargets(id, applied.revision, put.value, content, actor, at, end);
      OrderedBefore(before, ordered, store.trace, id, orders, ConcludeOrders(e.current, actor, end));
      if result.Finished? {
        CompletedBefore(store.setup, store.origin, before, ordered, store.trace, id, orders, [], applied.revision, at,
                        actor, end, e, result.revision);
        assert orders + [] == orders;
      }
    }

    /** A draft is approved, and what is stored then is published. */
    method ApproveAndPublish(ghost id: AttemptId, found: Revision, from: nat, actor: string, granted: bool,
                             content: Content, now: Instant, started: Instant, at: Instant, end: Instant)
      returns (result: Publication, ghost begun: Revision, ghost e: Ending)
      requires Valid() && Sane() && publisher.Publishes(content) && publisher.InPhase(id, Held(found, from))
      modifies store
      ensures store.Valid() && old(store.trace) <= store.trace
      ensures (result.RefusedBy? || result.Broken? || result.Finished?) && Leaves(id, result)
      ensures var approve, publish := ApproveOrder(found, actor, now, granted), PublishOrder(begun, actor, started, None);
        && (!L.Apply(found, approve).Accepted? ==> result == RefusedBy(L.Apply(found, approve)))
        && (L.Apply(found, approve).Accepted? ==>
             && (result.RefusedBy? ==> !L.Apply(begun, publish).Accepted? && result.refusal == L.Apply(begun, publish))
             && (!L.Apply(begun, publish).Accepted? ==> result.RefusedBy? || result.Broken?))
        && Ordered(old(store.trace), store.trace, id, [approve, publish] + ConcludeOrders(e.current, actor, end))
        && (result.Finished? ==>
             && L.Apply(begun, publish).Accepted?
             && Completed(store.setup, store.origin, old(store.trace), store.trace, id, [approve, publish],
                          L.Apply(begun, publish).revision, at, actor, end, e, result.revision))
      ensures result.Finished? && NoPendingRepeats(begun.targets) ==> result.revision.state in {L.Active, L.Failed}
    {
      hide L.Apply, After, Inv, NoPendingRepeats, Credible, OrdersOf, ConcludeOrders, Settled, ReachedEnd, Ordered;
      hide Completed, ApproveOrder, PublishOrder;
      ghost var before := store.trace;
      begun, e := found, Ending(found, 0, 0, []);
      var order := ApproveOrder(found, actor, now, granted);
      ghost var rest := [PublishOrder(begun, actor, started, None)] + ConcludeOrders(e.current, actor, end);
      var applied, put := Persist(id, found, from, order);
      BrokenOff(before, store.trace, id, [order], rest);
      assert [order] + rest == [order, PublishOrder(begun, actor, started, None)] + ConcludeOrders(e.current, actor, end);
      if !applied.Accepted? { result := RefusedBy(applied); return; }
      if put.None? { result := Broken; return; }
      publisher.Await(id, Held(applied.revision, put.value));
      ghost var ordered := store.trace;
      result, begun, e := Publish(id, actor, None, Some(content), started, at, end);
      ghost var publish := PublishOrder(begun, actor, started, None);
      OrderedBefore(before, ordered, store.trace, id, [order], [publish] + ConcludeOrders(e.current, actor, end));
      assert [order] + ([publish] + ConcludeOrders(e.current, actor, end))
          == [order, publish] + ConcludeOrders(e.current, actor, end);
      if result.Finished? {
        CompletedBefore(store.setup, store.origin, before, ordered, store.trace, id, [order], [publish],
                        L.Apply(begun, publish).revision, at, actor, end, e, result.revision);
        assert [order] + [publish] == [order, publish];
      }
    }

    /**
     * A resume of a held proposal. A draft is approved first; an approved one is published afresh, from the
     * version stored by then (`begun`); any other is run again from where it was left.
     */
    method Resume(ghost id: AttemptId, actor: string, granted: bool, initialOnly: bool, content: Option<Content>,
                  now: Instant, started: Instant, at: Instant, end: Instant)
      returns (result: Publication, ghost found: Revision, ghost begun: Revision, ghost e: Ending)
      requires Valid() && Sane() && id !in store.Now().attempts
      requires content.Some? ==> publisher.Publishes(content.value)
      modifies store
      ensures store.Valid() && old(store.trace) <= store.trace
      ensures found == old(store.revision.value) && Leaves(id, result)
      ensures !result.ContentAbsent?
      ensures result.InitialOnly? <==> found.authoredBy == BOOTSTRAP_AUTHOR && !initialOnly
      ensures result.LegacyRecovery? <==> content.None? && !result.InitialOnly?
      ensures result.LegacyRecovery? ==> (result.abandon <==> !SomeIs(found.targets, L.Verified))
      ensures result.InitialOnly? || result.LegacyRecovery? ==>
        OrdersOf(store.trace, id) == OrdersOf(old(store.trace), id)
      ensures !result.InitialOnly? && !result.LegacyRecovery? ==>
        var orders := ResumeOrders(found, begun, actor, granted, now, started);
        && RefusesExactly(result, found, begun, actor, granted, now, started)
        && Ordered(old(store.trace), store.trace, id, orders + ConcludeOrders(e.current, actor, end))
        && (result.Finished? ==>
             && Resuming(found, begun, actor, now, started).Accepted?
             && Completed(store.setup, store.origin, old(store.trace), store.trace, id, orders,
                          Resuming(found, begun, actor, now, started).revision, at, actor, end, e, result.revision))
      ensures result.Finished? && found.state in {L.Draft, L.Approved} && NoPendingRepeats(begun.targets) ==>
        result.revision.state in {L.Active, L.Failed}
      ensures result.Finished? && found.state !in {L.Draft, L.Approved} ==>
        NoPendingRepeats(L.ResetForRetry(found.targets)) ==> result.revision.state in {L.Active, L.Failed}
    {
      hide L.Apply, After, Inv, NoPendingRepeats, Credible, L.ResetForRetry, CountOf, SomeIs, OrdersOf, ConcludeOrders;
      hide Settled, OrderOf, ReachedEnd, RerunOrders, Rerunning, Ordered, Completed, ApproveOrder, PublishOrder;
      ghost var before := store.trace;
      publisher.Record(Begin(id));
      ghost var ordered := store.trace;
      var held, tag := store.revision.value, store.revision.tag;
      found, begun, e := held, held, Ending(held, 0, 0, []);
      if held.authoredBy == BOOTSTRAP_AUTHOR && !initialOnly { result := InitialOnly; return; }
      if content.None? {
        CountsTell(held.targets, L.Verified);
        result := LegacyRecovery(CountOf(held.targets, L.Verified) == 0);
        return;
      }
      if held.state == L.Draft {
        result, begun, e := ApproveAndPublish(id, held, tag, actor, granted, content.value, now, started, at, end);
      } else if held.state == L.Approved {
        publisher.Await(id, Held(held, tag));
        ordered := store.trace;
        result, begun, e := Publish(id, actor, None, content, started, at, end);
      } else {
        result, e := Rerun(id, held, tag, content.value, actor, now, at, end);
      }
      ghost var orders := ResumeOrders(found, begun, actor, granted, now, started);
      NoOrdersBefore(store.setup, store.origin, before, ordered, store.trace, id, orders, at, actor, end, e, result,
                     Resuming(found, begun, actor, now, started));
    }
  }

  /** Reading the revision orders nothing: what a call did since is what it did at all. */
  lemma NoOrdersBefore(s: Setup, origin: World, before: seq<Event>, ordered: seq<Event>, trace: seq<Event>, id: AttemptId,
                       orders: seq<L.Order>, at: Instant, actor: string, end: Instant, e: Ending, result: Publication,
                       run: L.Result)
    requires before <= ordered && OrdersOf(ordered, id) == OrdersOf(before, id)
    requires Ordered(ordered, trace, id, orders + ConcludeOrders(e.current, actor, end))
    requires result.Finished? ==>
      run.Accepted? && Completed(s, origin, ordered, trace, id, orders, run.revision, at, actor, end, e, result.revision)
    ensures Ordered(before, trace, id, orders + ConcludeOrders(e.current, actor, end))
    ensures result.Finished? ==>
      Completed(s, origin, before, trace, id, orders, run.revision, at, actor, end, e, result.revision)
  {
    hide OrdersOf, ConcludeOrders, ReachedEnd, Settled;
  }

  /** Where and with what an attempt ended: its revision, the length of the trace then, its version and attempts. */
  datatype Ending = Ending(current: Revision, ended: nat, tag: nat, attempted: seq<Attempted>)

  /** At that point of the trace the attempt had gone through every target of `start`. */
  ghost predicate ReachedEnd(s: Setup, origin: World, trace: seq<Event>, id: AttemptId, start: Revision, at: Instant,
                             e: Ending)
  {
    && e.ended <= |trace|
    && var attempts := After(s, origin, trace[..e.ended]).attempts;
    && id in attempts
    && attempts[id] == Arrive(s, e.tag, start, e.current, at, |start.targets|, e.attempted)
  }

  lemma EndStaysReached(s: Setup, origin: World, trace: seq<Event>, later: seq<Event>, id: AttemptId, start: Revision,
                        at: Instant, e: Ending)
    requires trace <= later && ReachedEnd(s, origin, trace, id, start, at, e)
    ensures ReachedEnd(s, origin, later, id, start, at, e)
  {
    hide After, Arrive;
    assert later[..e.ended] == trace[..e.ended];
  }

  lemma DecidedSettles(r: Revision, actor: string, at: Instant)
    requires r.state == L.Publishing && Decided(r.targets) && ReasonsGiven(r.targets)
    ensures Settled(r, actor, at).state in {L.Active, L.Failed}
  {
    hide L.Apply, ConcludeOrder, Decided, ReasonsGiven;
    DecidedIsSettled(r, actor, at);
  }

  /** Nothing but these commands was ordered since, in this order, up to where the call broke off. */
  ghost predicate Ordered(before: seq<Event>, trace: seq<Event>, id: AttemptId, orders: seq<L.Order>) {
    OrdersOf(before, id) <= OrdersOf(trace, id) <= OrdersOf(before, id) + orders
  }

  /**
   * A finished call: all the commands were ordered, an attempt went through every target of `start`, ending with
   * `e.current` at a point since the call began, and the settling command was applied to that.
   */
  ghost predicate Completed(s: Setup, origin: World, before: seq<Event>, trace: seq<Event>, id: AttemptId,
                            orders: seq<L.Order>, start: Revision, at: Instant, actor: string, end: Instant, e: Ending,
                            revision: Revision)
  {
    && OrdersOf(trace, id) == OrdersOf(before, id) + orders + ConcludeOrders(e.current, actor, end)
    && |before| <= e.ended
    && ReachedEnd(s, origin, trace, id, start, at, e)
    && revision == Settled(e.current, actor, end)
  }

  /** Commands ordered first, and then the rest. */
  lemma OrderedBefore(before: seq<Event>, ordered: seq<Event>, trace: seq<Event>, id: AttemptId, first: seq<L.Order>,
                      rest: seq<L.Order>)
    requires OrdersOf(ordered, id) == OrdersOf(before, id) + first && Ordered(ordered, trace, id, rest)
    ensures Ordered(before, trace, id, first + rest)
  {
    hide OrdersOf;
    assert OrdersOf(before, id) + (first + rest) == OrdersOf(ordered, id) + rest;
  }

  lemma CompletedBefore(s: Setup, origin: World, before: seq<Event>, ordered: seq<Event>, trace: seq<Event>, id: AttemptId,
                        first: seq<L.Order>, rest: seq<L.Order>, start: Revision, at: Instant, actor: string,
                        end: Instant, e: Ending, revision: Revision)
    requires before <= ordered && OrdersOf(ordered, id) == OrdersOf(before, id) + first
    requires Completed(s, origin, ordered, trace, id, rest, start, at, actor, end, e, revision)
    ensures Completed(s, origin, before, trace, id, first + rest, start, at, actor, end, e, revision)
  {
    hide OrdersOf, ConcludeOrders, ReachedEnd, Settled;
    assert OrdersOf(before, id) + (first + rest) + ConcludeOrders(e.current, actor, end)
        == OrdersOf(ordered, id) + rest + ConcludeOrders(e.current, actor, end);
  }

  /** An attempt's end, with the settling command ordered and nothing else. */
  lemma AllOrdered(s: Setup, origin: World, before: seq<Event>, trace: seq<Event>, id: AttemptId, start: Revision,
                   at: Instant, actor: string, end: Instant, e: Ending)
    requires OrdersOf(trace, id) == OrdersOf(before, id) + ConcludeOrders(e.current, actor, end)
    requires |before| <= e.ended && ReachedEnd(s, origin, trace, id, start, at, e)
    ensures Ordered(before, trace, id, ConcludeOrders(e.current, actor, end))
    ensures Completed(s, origin, before, trace, id, [], start, at, actor, end, e, Settled(e.current, actor, end))
  {
    hide OrdersOf, ConcludeOrders, ReachedEnd, Settled;
  }

  /** Where the call broke off after the first commands. */
  lemma BrokenOff(before: seq<Event>, trace: seq<Event>, id: AttemptId, first: seq<L.Order>, rest: seq<L.Order>)
    requires OrdersOf(trace, id) == OrdersOf(before, id) + first
    ensures Ordered(before, trace, id, first + rest)
  {
    hide OrdersOf;
    assert OrdersOf(before, id) + (first + rest) == OrdersOf(trace, id) + rest;
  }

  /** What a resume runs its targets on, once its commands were accepted. */
  function Resuming(found: Revision, begun: Revision, actor: string, now: Instant, started: Instant): L.Result {
    if found.state in {L.Draft, L.Approved} then L.Apply(begun, PublishOrder(begun, actor, started, None))
    else Rerunning(found, actor, now)
  }

  /**
   * A resume is refused exactly when the reducer refuses one of its commands: the approval of a draft; the publish
   * of what is stored then, unless the approval was not stored; or, for what is neither publishing nor failed, the
   * retry.
   */
  predicate RefusesExactly(result: Publication, found: Revision, begun: Revision, actor: string, granted: bool,
                           now: Instant, started: Instant)
  {
    var approved := L.Apply(found, ApproveOrder(found, actor, now, granted));
    var published := L.Apply(begun, PublishOrder(begun, actor, started, None));
    if found.state == L.Draft && !approved.Accepted? then result == RefusedBy(approved)
    else if found.state in {L.Draft, L.Approved} then
      && (result.RefusedBy? ==> !published.Accepted? && result.refusal == published)
      && (!published.Accepted? ==> result.RefusedBy? || (result.Broken? && found.state == L.Draft))
    else
      && (result.RefusedBy? <==> found.state !in {L.Publishing, L.Failed})
      && (result.RefusedBy? ==> result.refusal == Rerunning(found, actor, now))
  }

  lemma InvRevision(s: Setup, w: World)
    requires Inv(s, w)
    ensures Credible(s, w.log, w.revision.value)
  {}

  /** A held revision is one the store held, so its failures have their reasons. */
  lemma HeldReasons(s: Setup, origin: World, trace: seq<Event>, id: AttemptId)
    requires Inv(s, origin) && id in After(s, origin, trace).attempts && After(s, origin, trace).attempts[id].Held?
    ensures ReasonsGiven(After(s, origin, trace).attempts[id].revision.targets)
  {
    hide After, ReasonsGiven, Backed, L.Sound, NoWritten, SameCodes;
    EveryRunKeepsInv(s, origin, trace);
    InvPhase(s, After(s, origin, trace), id);
    VersionIsCredible(s, After(s, origin, trace), After(s, origin, trace).attempts[id].revision);
  }

  lemma FailLeads(r: Revision, actor: string, now: Instant)
    requires r.state == L.Publishing && ReasonsGiven(r.targets)
    ensures var failed := L.Apply(r, FailOrder(r, actor, now));
      failed.Accepted? && failed.revision.state == L.Failed && failed.revision.targets == r.targets
      && failed.revision.revisionNumber == r.revisionNumber
  {
    hide IsReasonCode, FirstFailureReason, L.UnverifiedCodes;
    FirstFailureReasonIsCode(r.targets);
  }

  lemma RetryResets(r: Revision, actor: string, now: Instant)
    ensures var retried := L.Apply(r, OrderOf(L.Retry, r, actor, now));
      && (retried.Accepted? <==> r.state == L.Failed)
      && (retried.Accepted? ==>
           retried.revision.state == L.Publishing && retried.revision.targets == L.ResetForRetry(r.targets))
  {
    hide L.ResetForRetry;
  }

  lemma IsPublish(r: Revision, actor: string, at: Instant, inFlight: Option<string>)
    ensures PublishOrder(r, actor, at, inFlight).command == L.Publish
  {}

  lemma RetryOfFailed(found: Revision, held: Revision, actor: string, now: Instant)
    requires held.revisionNumber == found.revisionNumber
    ensures OrderOf(L.Retry, held, actor, now) == OrderOf(L.Retry, found, actor, now)
  {}
}
