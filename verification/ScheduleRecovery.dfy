/**
 * Planning from a stored checkpoint: the windows closed since its mark, split into a reported gap and the windows to
 * run, and when a lease refuses the plan.
 */
module ScheduleRecovery {
  import opened Common

  type Positive = n: int | n >= 1 witness 1

  datatype Lease = Lease(owner: string, acquiredAt: Instant, expiresAt: Instant, plannedThrough: Instant)

  /** Windows that are not run any more, as they are reported. */
  datatype Gap = Gap(count: int, windowStart: Instant, windowEnd: Instant)

  datatype Checkpoint = Checkpoint(
    intervalSeconds: Positive,
    startedFrom: Instant,
    completedThrough: Option<Instant>,
    lastCompletedAt: Option<Instant>,
    lease: Option<Lease>,
    skipped: Option<Gap>)

  datatype Window = Window(start: Instant, end: Instant)

  datatype PlanRefusal = ClockBehindCheckpoint | LeaseHeld | NothingDue

  datatype Plan =
    | NotPlanned(reason: PlanRefusal, reported: Option<Gap>)
    | Planned(windows: seq<Window>, skipped: Option<Gap>, checkpoint: Checkpoint)

  datatype CompletionRefusal = LeaseNotHeld | LeaseExpired | CompletionBeyondPlan | CompletionBehindCheckpoint

  datatype Completion = NotRecorded(refusal: CompletionRefusal) | Recorded(checkpoint: Checkpoint)

  function NewCheckpoint(intervalSeconds: Positive, startedFrom: Instant): Checkpoint {
    Checkpoint(intervalSeconds, startedFrom, None, None, None, None)
  }

  function Interval(c: Checkpoint): Positive { c.intervalSeconds * 1000 }

  /** How far the work got: the completion mark, or the origin before anything completed. */
  function Mark(c: Checkpoint): Instant {
    if c.completedThrough.Some? then c.completedThrough.value else c.startedFrom
  }

  predicate LeaseBlocks(c: Checkpoint, now: Instant, owner: string) {
    c.lease.Some? && c.lease.value.owner != owner && now < c.lease.value.expiresAt
  }

  /** Windows that have closed since the mark. */
  function Closed(c: Checkpoint, now: Instant): int { (now - Mark(c)) / Interval(c) }

  function WindowAt(c: Checkpoint, index: int): Window {
    var start := Mark(c) + index * Interval(c);
    Window(start, start + Interval(c))
  }

  function PlanRun(c: Checkpoint, now: Instant, owner: string, leaseSeconds: Positive, maxBackfill: Positive): Plan {
    if now < Mark(c) then NotPlanned(ClockBehindCheckpoint, c.skipped)
    else if LeaseBlocks(c, now, owner) then NotPlanned(LeaseHeld, c.skipped)
    else
      var closed := Closed(c, now);
      if closed < 1 then NotPlanned(NothingDue, c.skipped)
      else
        var runnable := if closed < maxBackfill then closed else maxBackfill;
        var firstIndex := closed - runnable;
        var windows := seq(runnable, offset requires 0 <= offset < runnable => WindowAt(c, firstIndex + offset));
        var skipped := if firstIndex == 0 then c.skipped else Some(Gap(firstIndex, Mark(c), windows[0].start));
        Planned(windows, skipped, c.(
          skipped := skipped,
          lease := Some(Lease(owner, now, now + leaseSeconds * 1000, windows[runnable - 1].end))))
  }

  function CompleteRun(c: Checkpoint, owner: string, through: Instant, at: Instant): Completion {
    if c.lease.None? || c.lease.value.owner != owner then NotRecorded(LeaseNotHeld)
    else if at >= c.lease.value.expiresAt then NotRecorded(LeaseExpired)
    else if through > c.lease.value.plannedThrough then NotRecorded(CompletionBeyondPlan)
    else if through < Mark(c) then NotRecorded(CompletionBehindCheckpoint)
    else Recorded(c.(completedThrough := Some(through), lastCompletedAt := Some(at), lease := None))
  }

  // ----- what a plan means

  predicate IsPlan(c: Checkpoint, now: Instant, owner: string, plan: Plan, first: nat)
    requires plan.Planned?
  {
    && |plan.windows| >= 1
    && (forall k :: 0 <= k < |plan.windows| ==> plan.windows[k] == WindowAt(c, first + k))
    && (first == 0 ==> plan.skipped == c.skipped)
    && (first > 0 ==> plan.skipped == Some(Gap(first, Mark(c), Mark(c) + first * Interval(c))))
    && plan.checkpoint.intervalSeconds == c.intervalSeconds
    && plan.checkpoint.startedFrom == c.startedFrom
    && plan.checkpoint.completedThrough == c.completedThrough
    && plan.checkpoint.skipped == plan.skipped
    && plan.checkpoint.lease.Some?
    && plan.checkpoint.lease.value.owner == owner
    && plan.checkpoint.lease.value.acquiredAt == now
    && plan.checkpoint.lease.value.expiresAt > now
    && plan.checkpoint.lease.value.plannedThrough == plan.windows[|plan.windows| - 1].end
  }

  /** How many windows the plan leaves out. */
  function FirstIndex(c: Checkpoint, now: Instant, maxBackfill: Positive): nat
    requires Mark(c) <= now
  {
    if Closed(c, now) <= maxBackfill then 0 else Closed(c, now) - maxBackfill
  }

  /** Another owner holds a lease that has not expired. */
  predicate HeldByAnother(c: Checkpoint, now: Instant, owner: string) {
    match c.lease
    case None => false
    case Some(lease) => lease.owner != owner && lease.expiresAt > now
  }

  /**
   * A plan is refused exactly when the clock is before the mark, or else another owner's lease is live, or else no
   * window has closed since the mark; it gives that reason, and the gap reported so far.
   */
  lemma PlanRefusedExactly(c: Checkpoint, now: Instant, owner: string, leaseSeconds: Positive, maxBackfill: Positive)
    ensures var plan := PlanRun(c, now, owner, leaseSeconds, maxBackfill);
      && (plan.NotPlanned? <==> now < Mark(c) + Interval(c) || HeldByAnother(c, now, owner))
      && (plan.NotPlanned? ==>
           && plan.reported == c.skipped
           && (plan.reason == ClockBehindCheckpoint <==> now < Mark(c))
           && (plan.reason == LeaseHeld <==> Mark(c) <= now && HeldByAnother(c, now, owner))
           && (plan.reason == NothingDue <==> Mark(c) <= now < Mark(c) + Interval(c) && !HeldByAnother(c, now, owner)))
  {
    hide Interval;
    QuotientAtLeastOne(now - Mark(c), Interval(c));
  }

  lemma QuotientAtLeastOne(n: int, d: Positive)
    ensures n / d >= 1 <==> n >= d
  {
    Division(n, d);
    if n >= d { ProductMonotone(n / d, 0, d); } else { ProductMonotone(1, n / d, d); }
  }

  lemma Division(n: int, d: Positive)
    ensures n / d * d <= n < n / d * d + d
  {}

  /**
   * A granted plan covers everything owed, in order: the gap it reports starts at the mark, the
   * windows follow it without a hole, and what remains after the last one has not closed yet.
   */
  lemma PlanCoversWhatIsOwed(c: Checkpoint, now: Instant, owner: string, leaseSeconds: Positive, maxBackfill: Positive)
    requires PlanRun(c, now, owner, leaseSeconds, maxBackfill).Planned?
    ensures var plan := PlanRun(c, now, owner, leaseSeconds, maxBackfill);
      && Mark(c) <= now
      && IsPlan(c, now, owner, plan, FirstIndex(c, now, maxBackfill))
      && |plan.windows| <= maxBackfill && (FirstIndex(c, now, maxBackfill) > 0 ==> |plan.windows| == maxBackfill)
      && plan.checkpoint.lease.value.expiresAt == now + leaseSeconds * 1000
      && plan.windows[|plan.windows| - 1].end <= now < plan.windows[|plan.windows| - 1].end + Interval(c)
  {
    hide Interval;
    var plan := PlanRun(c, now, owner, leaseSeconds, maxBackfill);
    var closed := Closed(c, now);
    var first := FirstIndex(c, now, maxBackfill);
    var n := |plan.windows|;
    assert first + n == closed;
    assert plan.windows[n - 1] == WindowAt(c, first + (n - 1));
    OneMore(first + (n - 1), Interval(c));
    Division(now - Mark(c), Interval(c));
    assert plan.windows[0] == WindowAt(c, first);
  }

  /**
   * Recording part of a granted plan at the instant it was planned is always accepted: within
   * one tick neither the lease nor the bounds can refuse, so only the store's tag fences.
   */
  lemma CompletionWithinTickIsAccepted(c: Checkpoint, now: Instant, owner: string, plan: Plan, first: nat, done: nat)
    requires plan.Planned? && IsPlan(c, now, owner, plan, first) && 1 <= done <= |plan.windows|
    ensures CompleteRun(plan.checkpoint, owner, plan.windows[done - 1].end, now) ==
      Recorded(plan.checkpoint.(completedThrough := Some(plan.windows[done - 1].end),
                                lastCompletedAt := Some(now), lease := None))
    ensures plan.windows[done - 1].end == Mark(c) + (first + done) * Interval(c)
    ensures plan.windows[done - 1].end > Mark(c)
  {
    hide Interval;
    var n := |plan.windows|;
    assert plan.windows[done - 1] == WindowAt(c, first + (done - 1));
    assert plan.windows[n - 1] == WindowAt(c, first + (n - 1));
    OneMore(first + (done - 1), Interval(c));
    OneMore(first + (n - 1), Interval(c));
    ProductMonotone(first + done, first + n, Interval(c));
    ProductMonotone(1, first + done, Interval(c));
  }

  /** A completion is recorded exactly by the owner of a live lease, for a mark within its plan that moves nothing back. */
  lemma CompletionRecordedExactly(c: Checkpoint, owner: string, through: Instant, at: Instant)
    ensures var completion := CompleteRun(c, owner, through, at);
      && (completion.Recorded? <==>
           match c.lease
           case None => false
           case Some(lease) => lease.owner == owner && at < lease.expiresAt && Mark(c) <= through <= lease.plannedThrough)
      && (completion.Recorded? ==>
           && completion.checkpoint.completedThrough == Some(through)
           && completion.checkpoint.lastCompletedAt == Some(at) && completion.checkpoint.lease == None
           && completion.checkpoint.intervalSeconds == c.intervalSeconds
           && completion.checkpoint.startedFrom == c.startedFrom && completion.checkpoint.skipped == c.skipped)
  {}

  lemma OneMore(a: int, k: Positive)
    ensures a * k + k == (a + 1) * k
  {}

  lemma ProductMonotone(a: int, b: int, k: Positive)
    ensures a <= b ==> a * k <= b * k
  {}
}
