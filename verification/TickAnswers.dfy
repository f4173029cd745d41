/**
 * What the answer of a tick says of the run it was part of: which windows its work ended, what it had claimed and
 * settled, and why it was skipped or threw.
 */
module TickAnswers {
  import opened Common
  import opened ScheduleRecovery
  import opened ScheduleRunner

  /** What the work answered for each window this tick handed it, in order. */
  function WorkOf(trace: seq<Event>, id: TickId): seq<bool> {
    if trace == [] then []
    else
      var init, last := trace[..|trace| - 1], trace[|trace| - 1];
      WorkOf(init, id) + (if last.WindowEnds? && last.id == id && IsRunning(After(init), id) then [last.ok] else [])
  }

  predicate IsRunning(w: World, id: TickId) { id in w.ticks && w.ticks[id].Running? }

  /** The work returned for the first n windows, and for no other. */
  predicate Returned(work: seq<bool>, n: nat) { |work| == n && forall k :: 0 <= k < n ==> work[k] }

  /** The work returned for the first n windows and threw on the next one. */
  predicate ReturnedThenThrew(work: seq<bool>, n: nat) { |work| == n + 1 && Returned(work[..n], n) && !work[n] }

  /** The checkpoint a tick plans from: the one it read, or a new one of its own where nothing was stored. */
  predicate PlansFrom(t: Ticket, read: Option<Stored>, c: Checkpoint) {
    match read
    case Some(stored) => c == stored.checkpoint
    case None => c == Checkpoint(t.intervalSeconds, t.startedFrom, None, None, None, None)
  }

  /** At this step of the run the tick read the store and planned from what it read. */
  ghost predicate PlannedAt(trace: seq<Event>, i: nat, id: TickId, t: Ticket, read: Option<Stored>, plan: Plan) {
    && i < |trace| && trace[i] == Advance(id) && Held(After(trace[..i])) == read
    && exists c :: PlansFrom(t, read, c) && plan == PlanRun(c, t.now, t.owner, t.leaseSeconds, t.maxBackfill)
  }

  /** At this step the plan's checkpoint was stored over the version read, under this tag. */
  predicate ClaimedAt(trace: seq<Event>, j: nat, id: TickId, read: Option<Stored>, plan: Plan, claimed: Stored) {
    && j < |trace| && trace[j] == Advance(id) && plan.Planned? && claimed.checkpoint == plan.checkpoint
    && IsHeld(After(trace[..j]), if read.Some? then Some(read.value.etag) else None)
    && claimed.etag == |After(trace[..j]).log|
    && |After(trace[..j + 1]).log| == claimed.etag + 1
    && After(trace[..j + 1]).log[claimed.etag].checkpoint == plan.checkpoint
  }

  /** The stored version has this tag, or nothing is stored. */
  predicate IsHeld(w: World, tag: Option<Tag>) {
    match tag
    case None => w.log == []
    case Some(etag) => |w.log| == etag + 1
  }

  /** What a tick stores last: its lease given back, and what it completed, if anything. */
  predicate IsSettled(t: Ticket, plan: Plan, n: nat, c: Checkpoint)
    requires plan.Planned? && n <= |plan.windows|
  {
    && c.intervalSeconds == plan.checkpoint.intervalSeconds && c.startedFrom == plan.checkpoint.startedFrom
    && c.skipped == plan.skipped && c.lease == None
    && (n == 0 ==>
         c.completedThrough == plan.checkpoint.completedThrough && c.lastCompletedAt == plan.checkpoint.lastCompletedAt)
    && (n > 0 ==> c.completedThrough == Some(plan.windows[n - 1].end) && c.lastCompletedAt == Some(t.now))
  }

  /** At this step the tick stored its settlement directly over its own claim. */
  predicate SettledAt(trace: seq<Event>, k: nat, id: TickId, t: Ticket, plan: Plan, claimed: Stored, n: nat)
    requires plan.Planned? && n <= |plan.windows|
  {
    && k < |trace| && trace[k] == Advance(id) && IsHeld(After(trace[..k]), Some(claimed.etag))
    && |After(trace[..k + 1]).log| == claimed.etag + 2
    && IsSettled(t, plan, n, After(trace[..k + 1]).log[claimed.etag + 1].checkpoint)
  }

  /** At this step the tick found another version than its claim stored. */
  predicate OvertakenAt(trace: seq<Event>, k: nat, id: TickId, claimed: Stored) {
    k < |trace| && trace[k] == Advance(id) && !IsHeld(After(trace[..k]), Some(claimed.etag))
  }

  ghost predicate Claimed(trace: seq<Event>, id: TickId, t: Ticket, read: Option<Stored>, plan: Plan, claimed: Stored) {
    && (exists i: nat :: PlannedAt(trace, i, id, t, read, plan))
    && exists j: nat :: ClaimedAt(trace, j, id, read, plan, claimed)
  }

  /** The tick claimed this plan and settled n of its windows on its own claim. */
  ghost predicate Settled(trace: seq<Event>, id: TickId, t: Ticket, plan: Plan, n: nat) {
    && plan.Planned? && n <= |plan.windows|
    && exists read, claimed, k: nat ::
         Claimed(trace, id, t, read, plan, claimed) && SettledAt(trace, k, id, t, plan, claimed, n)
  }

  /** At this step the tick stored its own origin, unless something was stored by then. */
  predicate SeededAt(trace: seq<Event>, k: nat, id: TickId, t: Ticket) {
    && k < |trace| && trace[k] == Advance(id)
    && var log := After(trace[..k + 1]).log;
    && (After(trace[..k]).log == [] ==> |log| == 1 && PlansFrom(t, None, log[0].checkpoint))
    && (After(trace[..k]).log != [] ==> log == After(trace[..k]).log)
  }

  /** What each answer of a tick says of the run. */
  ghost predicate Answers(trace: seq<Event>, id: TickId, t: Ticket, result: TickResult) {
    var work := WorkOf(trace, id);
    match result
    case Ran(n, gap) =>
      exists plan :: Settled(trace, id, t, plan, n) && gap == plan.skipped && n == |plan.windows| && Returned(work, n)
    case Incomplete(n, gap) =>
      exists plan :: Settled(trace, id, t, plan, n)
        && gap == plan.skipped && n < |plan.windows| && ReturnedThenThrew(work, n)
    case Skipped(Refused(reason), gap) =>
      && work == []
      && exists i: nat, read :: PlannedAt(trace, i, id, t, read, NotPlanned(reason, gap))
           && (read == None ==> exists k: nat :: SeededAt(trace, k, id, t))
    case Skipped(ClaimLost, gap) =>
      && work == []
      && exists i: nat, j: nat, read, plan :: PlannedAt(trace, i, id, t, read, plan)
           && plan.Planned? && gap == plan.skipped && LostAt(trace, j, id, read)
    case Threw =>
      && work != []
      && exists read, plan, claimed, k: nat ::
           Claimed(trace, id, t, read, plan, claimed) && OvertakenAt(trace, k, id, claimed)
  }

  /** At this step the tick found another version stored than the one it had read. */
  predicate LostAt(trace: seq<Event>, j: nat, id: TickId, read: Option<Stored>) {
    && j < |trace| && trace[j] == Advance(id)
    && !IsHeld(After(trace[..j]), if read.Some? then Some(read.value.etag) else None)
  }

  /** What is known of a tick on its way. */
  ghost predicate Tells(trace: seq<Event>, id: TickId, phase: Phase) {
    var work := WorkOf(trace, id);
    match phase
    case Started(_) => work == []
    case Seeding(t, plan) => work == [] && exists i: nat :: PlannedAt(trace, i, id, t, None, plan)
    case Claiming(t, read, plan) => work == [] && exists i: nat :: PlannedAt(trace, i, id, t, read, plan)
    case Running(t, read, plan, claimed, done) => Claimed(trace, id, t, read, plan, claimed) && Returned(work, done)
    case Settling(t, read, plan, claimed, done, failed) =>
      && Claimed(trace, id, t, read, plan, claimed) && plan.Planned? && done <= |plan.windows|
      && (failed ==> done < |plan.windows| && ReturnedThenThrew(work, done))
      && (!failed ==> done == |plan.windows| && done > 0 && Returned(work, done))
    case Finished(t, result) => Answers(trace, id, t, result)
  }

  // ----- what was told stays told

  lemma ClaimedStays(trace: seq<Event>, e: Event, id: TickId, t: Ticket, read: Option<Stored>, plan: Plan, claimed: Stored)
    requires Claimed(trace, id, t, read, plan, claimed)
    ensures Claimed(trace + [e], id, t, read, plan, claimed)
  {
    hide After, PlansFrom, PlanRun, IsHeld;
    var longer := trace + [e];
    assert forall k :: 0 <= k <= |trace| ==> longer[..k] == trace[..k];
    var i: nat :| PlannedAt(trace, i, id, t, read, plan);
    var j: nat :| ClaimedAt(trace, j, id, read, plan, claimed);
    assert PlannedAt(longer, i, id, t, read, plan) && ClaimedAt(longer, j, id, read, plan, claimed);
  }

  lemma PlannedStays(trace: seq<Event>, e: Event, i: nat, id: TickId, t: Ticket, read: Option<Stored>, plan: Plan)
    requires PlannedAt(trace, i, id, t, read, plan)
    ensures PlannedAt(trace + [e], i, id, t, read, plan)
  {
    hide After, PlansFrom, PlanRun;
    assert (trace + [e])[..i] == trace[..i];
  }

  lemma SettledStays(trace: seq<Event>, e: Event, id: TickId, t: Ticket, plan: Plan, n: nat)
    requires Settled(trace, id, t, plan, n)
    ensures Settled(trace + [e], id, t, plan, n)
  {
    hide After, Claimed, IsSettled, IsHeld;
    var read, claimed, k: nat :| Claimed(trace, id, t, read, plan, claimed) && SettledAt(trace, k, id, t, plan, claimed, n);
    ClaimedStays(trace, e, id, t, read, plan, claimed);
    assert (trace + [e])[..k] == trace[..k] && (trace + [e])[..k + 1] == trace[..k + 1];
    assert SettledAt(trace + [e], k, id, t, plan, claimed, n);
  }

  lemma AnswersStay(trace: seq<Event>, e: Event, id: TickId, t: Ticket, result: TickResult)
    requires Answers(trace, id, t, result) && WorkOf(trace + [e], id) == WorkOf(trace, id)
    ensures Answers(trace + [e], id, t, result)
  {
    hide After, WorkOf, Claimed, Settled, PlannedAt, Returned, ReturnedThenThrew, IsHeld;
    var longer := trace + [e];
    assert forall k :: 0 <= k <= |trace| ==> longer[..k] == trace[..k];
    match result
    case Ran(n, gap) => RanStays(trace, e, id, t, n, gap);
    case Incomplete(n, gap) => IncompleteStays(trace, e, id, t, n, gap);
    case Skipped(Refused(reason), gap) =>
      var i: nat, read :| PlannedAt(trace, i, id, t, read, NotPlanned(reason, gap))
        && (read == None ==> exists k: nat :: SeededAt(trace, k, id, t));
      PlannedStays(trace, e, i, id, t, read, NotPlanned(reason, gap));
      if read == None {
        var k: nat :| SeededAt(trace, k, id, t);
        assert longer[..k + 1] == trace[..k + 1];
        assert SeededAt(longer, k, id, t);
      }
    case Skipped(ClaimLost, gap) =>
      var i: nat, j: nat, read, plan :| PlannedAt(trace, i, id, t, read, plan)
        && plan.Planned? && gap == plan.skipped && LostAt(trace, j, id, read);
      PlannedStays(trace, e, i, id, t, read, plan);
      assert LostAt(longer, j, id, read);
    case Threw =>
      var read, plan, claimed, k: nat :| Claimed(trace, id, t, read, plan, claimed) && OvertakenAt(trace, k, id, claimed);
      ClaimedStays(trace, e, id, t, read, plan, claimed);
      assert OvertakenAt(longer, k, id, claimed);
  }

  lemma RanStays(trace: seq<Event>, e: Event, id: TickId, t: Ticket, n: nat, gap: Option<Gap>)
    requires Answers(trace, id, t, Ran(n, gap)) && WorkOf(trace + [e], id) == WorkOf(trace, id)
    ensures Answers(trace + [e], id, t, Ran(n, gap))
  {
    hide After, WorkOf, Claimed, SettledAt;
    var plan: Plan :| plan.Planned? && Settled(trace, id, t, plan, n)
      && gap == plan.skipped && n == |plan.windows| && Returned(WorkOf(trace, id), n);
    SettledStays(trace, e, id, t, plan, n);
  }

  lemma IncompleteStays(trace: seq<Event>, e: Event, id: TickId, t: Ticket, n: nat, gap: Option<Gap>)
    requires Answers(trace, id, t, Incomplete(n, gap)) && WorkOf(trace + [e], id) == WorkOf(trace, id)
    ensures Answers(trace + [e], id, t, Incomplete(n, gap))
  {
    hide After, WorkOf, Claimed, SettledAt;
    var plan: Plan :| plan.Planned? && Settled(trace, id, t, plan, n)
      && gap == plan.skipped && n < |plan.windows| && ReturnedThenThrew(WorkOf(trace, id), n);
    SettledStays(trace, e, id, t, plan, n);
  }

  lemma WorkOfOneMore(trace: seq<Event>, e: Event, id: TickId)
    ensures WorkOf(trace + [e], id) ==
      WorkOf(trace, id) + if e.WindowEnds? && e.id == id && IsRunning(After(trace), id) then [e.ok] else []
  {
    assert (trace + [e])[..|trace|] == trace;
  }

  lemma TellsStays(trace: seq<Event>, e: Event, id: TickId, phase: Phase)
    requires Tells(trace, id, phase) && WorkOf(trace + [e], id) == WorkOf(trace, id)
    ensures Tells(trace + [e], id, phase)
  {
    hide After, WorkOf, Claimed, PlannedAt, Answers, Returned, ReturnedThenThrew;
    match phase
    case Started(_) =>
    case Seeding(t, plan) =>
      var i: nat :| PlannedAt(trace, i, id, t, None, plan);
      PlannedStays(trace, e, i, id, t, None, plan);
    case Claiming(t, read, plan) =>
      var i: nat :| PlannedAt(trace, i, id, t, read, plan);
      PlannedStays(trace, e, i, id, t, read, plan);
    case Running(t, read, plan, claimed, done) => ClaimedStays(trace, e, id, t, read, plan, claimed);
    case Settling(t, read, plan, claimed, done, failed) => ClaimedStays(trace, e, id, t, read, plan, claimed);
    case Finished(t, result) => AnswersStay(trace, e, id, t, result);
  }

  // ----- each step tells

  /** The tick reads and plans. */
  lemma StartTells(trace: seq<Event>, id: TickId)
    requires var w := After(trace); id in w.ticks && w.ticks[id].Started? && Tells(trace, id, w.ticks[id])
    ensures var after := After(trace + [Advance(id)]); id in after.ticks && Tells(trace + [Advance(id)], id, after.ticks[id])
  {
    hide After, WorkOf, PlanRun, Claimed, Settled;
    var longer := trace + [Advance(id)];
    AfterOneMore(trace, Advance(id));
    WorkOfOneMore(trace, Advance(id), id);
    assert longer[..|trace|] == trace;
    var w := After(trace);
    var t, read := w.ticks[id].ticket, Held(w);
    assert PlansFrom(t, read, Base(t, read));
    assert PlannedAt(longer, |trace|, id, t, read, PlanFor(t, read));
    var plan := PlanFor(t, read);
    assert plan.NotPlanned? ==> plan == NotPlanned(plan.reason, plan.reported);
  }

  lemma SeedTells(trace: seq<Event>, id: TickId)
    requires var w := After(trace); id in w.ticks && w.ticks[id].Seeding? && Tells(trace, id, w.ticks[id])
    ensures var after := After(trace + [Advance(id)]); id in after.ticks && Tells(trace + [Advance(id)], id, after.ticks[id])
  {
    hide After, WorkOf, PlanRun, Claimed, Settled, PlannedAt;
    var longer := trace + [Advance(id)];
    AfterOneMore(trace, Advance(id));
    WorkOfOneMore(trace, Advance(id), id);
    var Seeding(t, plan) := After(trace).ticks[id];
    var i: nat :| PlannedAt(trace, i, id, t, None, plan);
    PlannedStays(trace, Advance(id), i, id, t, None, plan);
    assert longer[..|trace|] == trace && longer[..|trace| + 1] == longer;
    assert PlansFrom(t, None, Seed(t));
    assert plan.NotPlanned? ==> SeededAt(longer, |trace|, id, t);
    assert plan.NotPlanned? ==> plan == NotPlanned(plan.reason, plan.reported);
  }

  lemma ClaimTells(trace: seq<Event>, id: TickId)
    requires var w := After(trace); id in w.ticks && w.ticks[id].Claiming? && Tells(trace, id, w.ticks[id])
    ensures var after := After(trace + [Advance(id)]); id in after.ticks && Tells(trace + [Advance(id)], id, after.ticks[id])
  {
    hide After, WorkOf, PlanRun, Settled, PlannedAt;
    var longer := trace + [Advance(id)];
    AfterOneMore(trace, Advance(id));
    WorkOfOneMore(trace, Advance(id), id);
    assert longer[..|trace|] == trace && longer[..|trace| + 1] == longer;
    var w := After(trace);
    var Claiming(t, read, plan) := w.ticks[id];
    var i: nat :| PlannedAt(trace, i, id, t, read, plan);
    PlannedStays(trace, Advance(id), i, id, t, read, plan);
    if plan.Planned? {
      if TagOf(Held(w)) == TagOf(read) {
        assert ClaimedAt(longer, |trace|, id, read, plan, Stored(plan.checkpoint, |w.log|));
      } else {
        assert LostAt(longer, |trace|, id, read);
      }
    }
  }

  /** Within a tick a completion is never refused, so what it settles is always written or fenced by the tag. */
  lemma SettlementIs(w: World, id: TickId)
    requires Inv(w) && id in w.ticks && w.ticks[id].Settling?
    ensures var Settling(t, read, plan, claimed, done, failed) := w.ticks[id];
      && plan.Planned? && done <= |plan.windows|
      && var settlement := Settlement(t, plan, claimed, done);
      settlement.Some? && IsSettled(t, plan, done, settlement.value.0)
  {
    hide PlanRun, Interval, CompleteRun, FirstIndex, NothingWritten, Accounted, GridWindow;
    var Settling(t, read, plan, claimed, done, failed) := w.ticks[id];
    assert PhaseHolds(w, id, w.ticks[id]) && WriteHolds(w, claimed.etag);
    PlanFacts(t, read);
    if done > 0 {
      CompletionWithinTickIsAccepted(Base(t, read), t.now, t.owner, plan, LeftOut(t, read), done);
    }
  }

  lemma SettleTells(trace: seq<Event>, id: TickId)
    requires var w := After(trace); Inv(w) && id in w.ticks && w.ticks[id].Settling? && Tells(trace, id, w.ticks[id])
    ensures var after := After(trace + [Advance(id)]); id in after.ticks && Tells(trace + [Advance(id)], id, after.ticks[id])
  {
    hide After, WorkOf, Inv, Claimed, Settlement, LeftOut, IsSettled;
    var w := After(trace);
    var longer := trace + [Advance(id)];
    var Settling(t, read, plan, claimed, done, failed) := w.ticks[id];
    AfterOneMore(trace, Advance(id));
    WorkOfOneMore(trace, Advance(id), id);
    SettlementIs(w, id);
    ClaimedStays(trace, Advance(id), id, t, read, plan, claimed);
    assert longer[..|trace|] == trace && longer[..|trace| + 1] == longer;
    if TagOf(Held(w)) == Some(claimed.etag) {
      assert SettledAt(longer, |trace|, id, t, plan, claimed, done);
      assert Settled(longer, id, t, plan, done);
    } else {
      assert OvertakenAt(longer, |trace|, id, claimed);
    }
  }

  lemma WorkTells(trace: seq<Event>, id: TickId, ok: bool)
    requires var w := After(trace); Inv(w) && IsRunning(w, id) && Tells(trace, id, w.ticks[id])
    ensures var after := After(trace + [WindowEnds(id, ok)]);
      id in after.ticks && Tells(trace + [WindowEnds(id, ok)], id, after.ticks[id])
  {
    hide After, WorkOf, Claimed, PlanRun, Interval, PlanFor, Accounted, GridWindow;
    var w := After(trace);
    var Running(t, read, plan, claimed, done) := w.ticks[id];
    assert PhaseHolds(w, id, w.ticks[id]);
    AfterOneMore(trace, WindowEnds(id, ok));
    WorkOfOneMore(trace, WindowEnds(id, ok), id);
    ClaimedStays(trace, WindowEnds(id, ok), id, t, read, plan, claimed);
    var work := WorkOf(trace, id);
    assert (work + [ok])[..done] == work;
  }

  lemma StepTells(trace: seq<Event>, e: Event, id: TickId)
    requires Inv(After(trace)) && (id in After(trace).ticks ==> Tells(trace, id, After(trace).ticks[id]))
    requires id !in After(trace).ticks ==> WorkOf(trace, id) == []
    ensures var after := After(trace + [e]);
      if id in after.ticks then Tells(trace + [e], id, after.ticks[id]) else WorkOf(trace + [e], id) == []
  {
    hide After, WorkOf, Inv, Tells, PlanFor, Settle, EndWindow;
    var w := After(trace);
    AfterOneMore(trace, e);
    WorkOfOneMore(trace, e, id);
    if e.id != id {
      OtherKeepsPhase(w, e, id);
      if id in w.ticks { TellsStays(trace, e, id, w.ticks[id]); }
    } else if id !in w.ticks {
      if e.Arrive? { ArrivalTells(trace + [e], id, e.ticket); }
    } else if e.WindowEnds? && IsRunning(w, id) {
      WorkTells(trace, id, e.ok);
    } else if e.Advance? && w.ticks[id].Started? {
      StartTells(trace, id);
    } else if e.Advance? && w.ticks[id].Seeding? {
      SeedTells(trace, id);
    } else if e.Advance? && w.ticks[id].Claiming? {
      ClaimTells(trace, id);
    } else if e.Advance? && w.ticks[id].Settling? {
      SettleTells(trace, id);
    } else {
      IdleStep(w, e);
      TellsStays(trace, e, id, w.ticks[id]);
    }
  }

  lemma ArrivalTells(trace: seq<Event>, id: TickId, t: Ticket)
    requires WorkOf(trace, id) == []
    ensures Tells(trace, id, Started(t))
  {
    hide WorkOf;
  }

  lemma IdleStep(w: World, e: Event)
    requires e.id in w.ticks && (e.WindowEnds? ==> !IsRunning(w, e.id))
    requires e.Advance? ==> w.ticks[e.id].Running? || w.ticks[e.id].Finished?
    ensures Happen(w, e) == w
  {}

  /**
   * In every run, a tick that answers `ran` claimed the plan it made of what it read, its work returned for every
   * window of that plan and was handed no other, and all of them were recorded on that claim; one that answers
   * `incomplete` counts the windows before the only one its work threw on; a skipped one was handed no window, and
   * its reason is what the clock, the lease and the mark it read call for, or another version was stored where it
   * claimed; and one that throws found another version stored than its claim.
   */
  lemma {:induction false} EveryTickAnswersRightly(trace: seq<Event>, id: TickId)
    ensures if id in After(trace).ticks then Tells(trace, id, After(trace).ticks[id]) else WorkOf(trace, id) == []
    decreases |trace|
  {
    hide Inv, Happen, Tells;
    if trace != [] {
      var init, last := trace[..|trace| - 1], trace[|trace| - 1];
      EveryTickAnswersRightly(init, id);
      EveryRunKeepsInv(init);
      assert trace == init + [last];
      StepTells(init, last, id);
    }
  }

  /** At this step the tick read the store, and this is the checkpoint it planned from. */
  predicate ReadAs(trace: seq<Event>, i: nat, id: TickId, t: Ticket, c: Checkpoint) {
    i < |trace| && trace[i] == Advance(id) && PlansFrom(t, Held(After(trace[..i])), c)
  }

  /** What a refused plan calls for, of the checkpoint planned from. */
  predicate Causes(c: Checkpoint, t: Ticket, reason: PlanRefusal) {
    match reason
    case ClockBehindCheckpoint => t.now < Mark(c)
    case LeaseHeld => Mark(c) <= t.now && HeldByAnother(c, t.now, t.owner)
    case NothingDue => Mark(c) <= t.now < Mark(c) + Interval(c) && !HeldByAnother(c, t.now, t.owner)
  }

  /** A tick skipped for a reason read a checkpoint that calls for this reason, and answers the gap it reports. */
  lemma SkippedForCause(trace: seq<Event>, id: TickId, t: Ticket, reason: PlanRefusal, gap: Option<Gap>)
    requires id in After(trace).ticks && After(trace).ticks[id] == Finished(t, Skipped(Refused(reason), gap))
    ensures exists i: nat, c :: ReadAs(trace, i, id, t, c) && Causes(c, t, reason) && gap == c.skipped
  {
    hide After, PlanRun, Interval, PlansFrom;
    EveryTickAnswersRightly(trace, id);
    var i: nat, read :| PlannedAt(trace, i, id, t, read, NotPlanned(reason, gap))
      && (read == None ==> exists k: nat :: SeededAt(trace, k, id, t));
    var c :| PlansFrom(t, read, c)
      && NotPlanned(reason, gap) == PlanRun(c, t.now, t.owner, t.leaseSeconds, t.maxBackfill);
    PlanRefusedExactly(c, t.now, t.owner, t.leaseSeconds, t.maxBackfill);
    assert ReadAs(trace, i, id, t, c);
  }
}
