/**
 * Ticks of any number of workers over one stored checkpoint: that every closed window is run or reported, that the
 * mark never moves back, and when two ticks can overlap.
 *
 * First the stored checkpoint with every tick in flight as one state machine: an event is one
 * access to the store or one window handed to the work, ticks interleave freely, and a tick that
 * never advances again is a worker that died. Then `tick` itself, proved to be a run of it.
 */
module ScheduleRunner {
  import opened Common
  import opened ScheduleRecovery

  type Tag = nat
  type TickId = nat

  datatype Stored = Stored(checkpoint: Checkpoint, etag: Tag)

  /** What one tick brings: its clock reading, and its process's own configuration and seed. */
  datatype Ticket = Ticket(
    now: Instant,
    owner: string,
    leaseSeconds: Positive,
    maxBackfill: Positive,
    intervalSeconds: Positive,
    startedFrom: Instant)

  function Seed(t: Ticket): Checkpoint { NewCheckpoint(t.intervalSeconds, t.startedFrom) }

  /** The checkpoint a tick plans from: the stored one, or its own seed when nothing is stored. */
  function Base(t: Ticket, read: Option<Stored>): Checkpoint {
    if read.Some? then read.value.checkpoint else Seed(t)
  }

  function PlanFor(t: Ticket, read: Option<Stored>): Plan {
    PlanRun(Base(t, read), t.now, t.owner, t.leaseSeconds, t.maxBackfill)
  }

  datatype SkipReason = Refused(reason: PlanRefusal) | ClaimLost

  datatype TickResult =
    | Skipped(reason: SkipReason, gap: Option<Gap>)
    | Ran(windows: nat, gap: Option<Gap>)
    | Incomplete(windows: nat, gap: Option<Gap>)
    | Threw

  datatype Phase =
    | Started(ticket: Ticket)
    | Seeding(ticket: Ticket, plan: Plan)
    | Claiming(ticket: Ticket, read: Option<Stored>, plan: Plan)
    | Running(ticket: Ticket, read: Option<Stored>, plan: Plan, claimed: Stored, done: nat)
    | Settling(ticket: Ticket, read: Option<Stored>, plan: Plan, claimed: Stored, done: nat, failed: bool)
    | Finished(ticket: Ticket, result: TickResult)

  datatype Kind = Seeds | Claims | Records(done: nat) | Releases

  /**
   * One write of the checkpoint. Its tag is its position in the log, and its index counts the
   * windows its completion mark has moved past the origin.
   */
  datatype Write = Write(checkpoint: Checkpoint, index: nat, id: TickId, kind: Kind, ticket: Ticket)

  datatype World = World(log: seq<Write>, ran: set<Window>, ticks: map<TickId, Phase>)

  const Empty: World := World([], {}, map[])

  function Held(w: World): Option<Stored> {
    if w.log == [] then None else Some(Stored(w.log[|w.log| - 1].checkpoint, |w.log| - 1))
  }

  datatype Event = Arrive(id: TickId, ticket: Ticket) | Advance(id: TickId) | WindowEnds(id: TickId, ok: bool)

  function Enter(w: World, id: TickId, phase: Phase): World {
    w.(ticks := w.ticks[id := phase])
  }

  function Append(w: World, id: TickId, checkpoint: Checkpoint, index: nat, kind: Kind, ticket: Ticket): World {
    w.(log := w.log + [Write(checkpoint, index, id, kind, ticket)])
  }

  function HeldIndex(w: World): nat {
    if w.log == [] then 0 else w.log[|w.log| - 1].index
  }

  function TagOf(read: Option<Stored>): Option<Tag> {
    if read.Some? then Some(read.value.etag) else None
  }

  /** What settling a tick writes: the completion of what it ran, or the released lease. */
  function Settlement(t: Ticket, plan: Plan, claimed: Stored, done: nat): Option<(Checkpoint, Kind)>
    requires plan.Planned? && done <= |plan.windows|
  {
    if done > 0 then
      match CompleteRun(claimed.checkpoint, t.owner, plan.windows[done - 1].end, t.now)
      case NotRecorded(_) => None
      case Recorded(checkpoint) => Some((checkpoint, Records(done)))
    else Some((claimed.checkpoint.(lease := None), Releases))
  }

  /** Windows a tick's plan leaves out before the first it runs. */
  function LeftOut(t: Ticket, read: Option<Stored>): nat {
    if Mark(Base(t, read)) <= t.now then FirstIndex(Base(t, read), t.now, t.maxBackfill) else 0
  }

  function Verdict(plan: Plan, done: nat, failed: bool): TickResult
    requires plan.Planned?
  {
    if failed then Incomplete(done, plan.skipped) else Ran(done, plan.skipped)
  }

  function Settle(w: World, id: TickId, ticket: Ticket, read: Option<Stored>, plan: Plan, claimed: Stored, done: nat,
                  failed: bool): World
    requires plan.Planned? && done <= |plan.windows|
  {
    var result := Verdict(plan, done, failed);
    match Settlement(ticket, plan, claimed, done)
    case None => Enter(w, id, Finished(ticket, result))
    case Some((checkpoint, kind)) =>
      if TagOf(Held(w)) == Some(claimed.etag) then
        var index := HeldIndex(w) + if done > 0 then LeftOut(ticket, read) + done else 0;
        Enter(Append(w, id, checkpoint, index, kind, ticket), id, Finished(ticket, result))
      else Enter(w, id, Finished(ticket, Threw))
  }

  function Progress(w: World, id: TickId, phase: Phase): World {
    match phase
    case Started(ticket) =>
      var read := Held(w);
      var plan := PlanFor(ticket, read);
      if plan.Planned? then Enter(w, id, Claiming(ticket, read, plan))
      else if read.None? then Enter(w, id, Seeding(ticket, plan))
      else Enter(w, id, Finished(ticket, Skipped(Refused(plan.reason), plan.reported)))
    case Seeding(ticket, plan) =>
      if plan.Planned? then w
      else
        var seeded := if w.log == [] then Append(w, id, Seed(ticket), 0, Seeds, ticket) else w;
        Enter(seeded, id, Finished(ticket, Skipped(Refused(plan.reason), plan.reported)))
    case Claiming(ticket, read, plan) =>
      if plan.NotPlanned? then w
      else if TagOf(Held(w)) == TagOf(read) then
        var landed := Append(w, id, plan.checkpoint, HeldIndex(w), Claims, ticket);
        Enter(landed, id, Running(ticket, read, plan, Stored(plan.checkpoint, |w.log|), 0))
      else Enter(w, id, Finished(ticket, Skipped(ClaimLost, plan.skipped)))
    case Running(_, _, _, _, _) => w
    case Settling(ticket, read, plan, claimed, done, failed) =>
      if plan.Planned? && done <= |plan.windows| then Settle(w, id, ticket, read, plan, claimed, done, failed) else w
    case Finished(_, _) => w
  }

  /** The work returned for the window in hand, or threw; the loop goes on, ends, or breaks. */
  function EndWindow(w: World, id: TickId, phase: Phase, ok: bool): World {
    match phase
    case Running(ticket, read, plan, claimed, done) =>
      if plan.NotPlanned? || done >= |plan.windows| then w
      else if !ok then Enter(w, id, Settling(ticket, read, plan, claimed, done, true))
      else
        var ran := w.(ran := w.ran + {plan.windows[done]});
        Enter(ran, id,
          if done + 1 < |plan.windows| then Running(ticket, read, plan, claimed, done + 1)
          else Settling(ticket, read, plan, claimed, done + 1, false))
    case _ => w
  }

  function Happen(w: World, e: Event): World {
    match e
    case Arrive(id, ticket) => if id in w.ticks then w else Enter(w, id, Started(ticket))
    case Advance(id) => if id in w.ticks then Progress(w, id, w.ticks[id]) else w
    case WindowEnds(id, ok) => if id in w.ticks then EndWindow(w, id, w.ticks[id], ok) else w
  }

  function After(trace: seq<Event>): World {
    if trace == [] then Empty else Happen(After(trace[..|trace| - 1]), trace[|trace| - 1])
  }

  // ----- what every run keeps

  function Origin(w: World): Instant
    requires w.log != []
  {
    w.log[0].checkpoint.startedFrom
  }

  function Size(w: World): Positive
    requires w.log != []
  {
    Interval(w.log[0].checkpoint)
  }

  /** The k-th window of the one grid the first stored checkpoint fixes. */
  function GridWindow(w: World, k: int): Window
    requires w.log != []
  {
    Window(Origin(w) + k * Size(w), Origin(w) + k * Size(w) + Size(w))
  }

  /** The mark has moved k windows past the one origin, on the one grid. */
  predicate OnGrid(w: World, c: Checkpoint, k: nat)
    requires w.log != []
  {
    && c.startedFrom == Origin(w)
    && Interval(c) == Size(w)
    && Mark(c) == Origin(w) + k * Size(w)
  }

  predicate Reports(gap: Option<Gap>, window: Window) {
    gap.Some? && gap.value.windowStart <= window.start && window.end <= gap.value.windowEnd
  }

  /** Run to completion by some tick, or reported as skipped in a checkpoint that was stored. */
  predicate Accounted(w: World, window: Window) {
    window in w.ran || exists i :: 0 <= i < |w.log| && Reports(w.log[i].checkpoint.skipped, window)
  }

  /** What was stored just before the i-th write. */
  function ReadAt(w: World, i: nat): Option<Stored>
    requires i < |w.log|
  {
    if i == 0 then None else Some(Stored(w.log[i - 1].checkpoint, i - 1))
  }

  function IndexBefore(w: World, i: nat): nat
    requires i < |w.log|
  {
    if i == 0 then 0 else w.log[i - 1].index
  }

  /** Only a claim rests on another tick's version; a settlement rests on its own claim. */
  predicate WriteHolds(w: World, i: nat)
    requires i < |w.log|
  {
    var write := w.log[i];
    && OnGrid(w, write.checkpoint, write.index)
    && match write.kind
       case Seeds => i == 0
       case Claims =>
         && PlanFor(write.ticket, ReadAt(w, i)).Planned?
         && write.checkpoint == PlanFor(write.ticket, ReadAt(w, i)).checkpoint
         && write.index == IndexBefore(w, i)
       case Records(done) => OwnClaimBefore(w, i) && write.index >= IndexBefore(w, i)
       case Releases => OwnClaimBefore(w, i) && write.index == IndexBefore(w, i)
  }

  predicate OwnClaimBefore(w: World, i: nat)
    requires i < |w.log|
  {
    i > 0 && w.log[i - 1].kind == Claims && w.log[i - 1].id == w.log[i].id
  }

  predicate NothingWritten(w: World, id: TickId) {
    forall i :: 0 <= i < |w.log| ==> w.log[i].id != id
  }

  /** A tick past its claim holds exactly the plan it stored, and has run what it counts. */
  predicate ClaimHolds(w: World, id: TickId, ticket: Ticket, read: Option<Stored>, plan: Plan, claimed: Stored, done: nat) {
    && claimed.etag < |w.log|
    && var write := w.log[claimed.etag];
    && write.id == id && write.kind == Claims && write.ticket == ticket && write.checkpoint == claimed.checkpoint
    && read == ReadAt(w, claimed.etag)
    && plan == PlanFor(ticket, read)
    && plan.Planned?
    && done <= |plan.windows|
    && (forall k :: 0 <= k < done ==> plan.windows[k] in w.ran)
    && (forall i :: 0 <= i < |w.log| && w.log[i].id == id ==> i == claimed.etag)
  }

  predicate PhaseHolds(w: World, id: TickId, phase: Phase) {
    match phase
    case Started(_) => NothingWritten(w, id)
    case Seeding(_, _) => NothingWritten(w, id)
    case Claiming(ticket, read, plan) =>
      && NothingWritten(w, id)
      && plan == PlanFor(ticket, read)
      && (read.Some? ==> read.value.etag < |w.log| && w.log[read.value.etag].checkpoint == read.value.checkpoint)
    case Running(ticket, read, plan, claimed, done) =>
      ClaimHolds(w, id, ticket, read, plan, claimed, done) && done < |plan.windows|
    case Settling(ticket, read, plan, claimed, done, failed) => ClaimHolds(w, id, ticket, read, plan, claimed, done)
    case Finished(_, _) => true
  }

  predicate Inv(w: World) {
    && (forall i :: 0 <= i < |w.log| ==> WriteHolds(w, i))
    && (forall i :: 0 <= i < |w.log| ==> w.log[i].id in w.ticks)
    && (forall id :: id in w.ticks ==> PhaseHolds(w, id, w.ticks[id]))
    && (w.log != [] ==> forall k :: 0 <= k < HeldIndex(w) ==> Accounted(w, GridWindow(w, k)))
  }

  // ----- the invariant is kept

  lemma EnterKeepsInv(w: World, id: TickId, phase: Phase)
    requires Inv(w) && PhaseHolds(w, id, phase)
    ensures Inv(Enter(w, id, phase))
  {
    hide PlanRun, Interval;
    var after := Enter(w, id, phase);
    forall i | 0 <= i < |after.log| ensures WriteHolds(after, i) { assert WriteHolds(w, i); }
    forall other | other in after.ticks ensures PhaseHolds(after, other, after.ticks[other]) {
      if other != id { assert PhaseHolds(w, other, w.ticks[other]); }
    }
    if w.log != [] {
      forall k | 0 <= k < HeldIndex(after) ensures Accounted(after, GridWindow(after, k)) {
        assert Accounted(w, GridWindow(w, k));
        assert GridWindow(after, k) == GridWindow(w, k);
      }
    }
  }

  lemma WriteStays(w: World, after: World, i: nat)
    requires w.log <= after.log && i < |w.log| && WriteHolds(w, i)
    ensures WriteHolds(after, i)
  {
    hide PlanRun, Interval;
    forall k | 0 <= k <= i ensures after.log[k] == w.log[k] {}
  }

  /** One more write, by another tick. */
  lemma PhaseStays(w: World, after: World, id: TickId, phase: Phase)
    requires w.log <= after.log && |after.log| == |w.log| + 1 && after.log[|w.log|].id != id && w.ran <= after.ran
    requires PhaseHolds(w, id, phase)
    ensures PhaseHolds(after, id, phase)
  {
    hide PlanRun, Interval;
    forall k | 0 <= k < |w.log| ensures after.log[k] == w.log[k] {}
  }

  /** A write that keeps the grid, accounts for what it passes and finishes or claims its own tick. */
  lemma AppendKeepsInv(w: World, id: TickId, checkpoint: Checkpoint, index: nat, kind: Kind, ticket: Ticket, phase: Phase)
    requires Inv(w) && id in w.ticks
    requires var after := Enter(Append(w, id, checkpoint, index, kind, ticket), id, phase);
      && WriteHolds(after, |w.log|)
      && PhaseHolds(after, id, phase)
      && forall k :: HeldIndex(w) <= k < index ==> Accounted(after, GridWindow(after, k))
    ensures Inv(Enter(Append(w, id, checkpoint, index, kind, ticket), id, phase))
  {
    hide PlanRun, Interval, PhaseHolds, WriteHolds, Accounted;
    var after := Enter(Append(w, id, checkpoint, index, kind, ticket), id, phase);
    forall i | 0 <= i < |after.log| ensures WriteHolds(after, i) {
      if i < |w.log| { WriteStays(w, after, i); }
    }
    forall other | other in after.ticks ensures PhaseHolds(after, other, after.ticks[other]) {
      if other != id { PhaseStays(w, after, other, w.ticks[other]); }
    }
    forall k | 0 <= k < HeldIndex(after) ensures Accounted(after, GridWindow(after, k)) {
      if k < HeldIndex(w) { AccountedSurvives(w, after, k); }
    }
  }

  lemma AccountedSurvives(w: World, after: World, k: nat)
    requires w.log != [] && w.log <= after.log && w.ran <= after.ran
    requires Accounted(w, GridWindow(w, k))
    ensures Accounted(after, GridWindow(after, k))
  {
    hide Interval;
    assert after.log[0] == w.log[0];
    var window := GridWindow(w, k);
    if window !in w.ran {
      var i :| 0 <= i < |w.log| && Reports(w.log[i].checkpoint.skipped, window);
      assert Reports(after.log[i].checkpoint.skipped, window);
    }
  }

  lemma GridAdds(w: World, c: Checkpoint, k: nat, m: int)
    requires w.log != [] && OnGrid(w, c, k)
    ensures Mark(c) + m * Interval(c) == Origin(w) + (k + m) * Size(w)
  {
    assert k * Size(w) + m * Size(w) == (k + m) * Size(w);
  }

  /** A lease or a reported gap moves no mark. */
  lemma SameGrid(w: World, c: Checkpoint, d: Checkpoint, k: nat)
    requires w.log != []
    requires d.startedFrom == c.startedFrom && d.intervalSeconds == c.intervalSeconds
    requires d.completedThrough == c.completedThrough
    ensures OnGrid(w, d, k) <==> OnGrid(w, c, k)
  {}

  lemma SeedKeepsInv(w: World, id: TickId, ticket: Ticket, phase: Phase)
    requires Inv(w) && id in w.ticks && w.log == [] && phase.Finished?
    ensures Inv(Enter(Append(w, id, Seed(ticket), 0, Seeds, ticket), id, phase))
  {
    hide Interval;
    var after := Enter(Append(w, id, Seed(ticket), 0, Seeds, ticket), id, phase);
    assert WriteHolds(after, 0);
    AppendKeepsInv(w, id, Seed(ticket), 0, Seeds, ticket, phase);
  }

  /** The plan's facts, for a tick that planned from this reading. */
  lemma PlanFacts(t: Ticket, read: Option<Stored>)
    requires PlanFor(t, read).Planned?
    ensures IsPlan(Base(t, read), t.now, t.owner, PlanFor(t, read), LeftOut(t, read))
    ensures var base, plan := Base(t, read), PlanFor(t, read);
      && plan.checkpoint.intervalSeconds == base.intervalSeconds
      && plan.checkpoint.startedFrom == base.startedFrom
      && plan.checkpoint.completedThrough == base.completedThrough
      && plan.checkpoint.skipped == plan.skipped
      && plan.checkpoint.lease.Some?
      && plan.checkpoint.lease.value.owner == t.owner
  {
    hide PlanRun, Interval;
    PlanCoversWhatIsOwed(Base(t, read), t.now, t.owner, t.leaseSeconds, t.maxBackfill);
  }

  lemma ClaimKeepsInv(w: World, id: TickId)
    requires Inv(w) && id in w.ticks && w.ticks[id].Claiming? && w.ticks[id].plan.Planned?
    requires TagOf(Held(w)) == TagOf(w.ticks[id].read)
    ensures Inv(Progress(w, id, w.ticks[id]))
  {
    hide PlanRun, Interval;
    var Claiming(ticket, read, plan) := w.ticks[id];
    assert PhaseHolds(w, id, w.ticks[id]);
    PlanFacts(ticket, read);
    var phase := Running(ticket, read, plan, Stored(plan.checkpoint, |w.log|), 0);
    var after := Enter(Append(w, id, plan.checkpoint, HeldIndex(w), Claims, ticket), id, phase);
    assert read == ReadAt(after, |w.log|);
    if w.log != [] { assert WriteHolds(w, |w.log| - 1); }
    SameGrid(after, Base(ticket, read), plan.checkpoint, HeldIndex(w));
    assert WriteHolds(after, |w.log|);
    AppendKeepsInv(w, id, plan.checkpoint, HeldIndex(w), Claims, ticket, phase);
  }

  lemma ReleaseKeepsInv(w: World, id: TickId)
    requires Inv(w) && id in w.ticks && w.ticks[id].Settling? && w.ticks[id].done == 0
    requires w.ticks[id].plan.Planned? && TagOf(Held(w)) == Some(w.ticks[id].claimed.etag)
    ensures Inv(Progress(w, id, w.ticks[id]))
  {
    hide PlanRun, Interval, CompleteRun;
    var Settling(ticket, read, plan, claimed, done, failed) := w.ticks[id];
    assert PhaseHolds(w, id, w.ticks[id]);
    var checkpoint := claimed.checkpoint.(lease := None);
    var phase := Finished(ticket, Verdict(plan, done, failed));
    var after := Enter(Append(w, id, checkpoint, HeldIndex(w), Releases, ticket), id, phase);
    assert WriteHolds(w, |w.log| - 1);
    SameGrid(after, claimed.checkpoint, checkpoint, HeldIndex(w));
    assert WriteHolds(after, |w.log|);
    AppendKeepsInv(w, id, checkpoint, HeldIndex(w), Releases, ticket, phase);
  }

  /** Every window a recorded completion moves past was run by this tick or is in the gap it reports. */
  lemma RecordAccounts(w: World, base: Checkpoint, t: Ticket, plan: Plan, first: nat, index: nat, done: nat, k: nat)
    requires w.log != [] && OnGrid(w, base, index)
    requires plan.Planned? && IsPlan(base, t.now, t.owner, plan, first) && done <= |plan.windows|
    requires forall j :: 0 <= j < done ==> plan.windows[j] in w.ran
    requires w.log[|w.log| - 1].checkpoint.skipped == plan.skipped
    requires index <= k < index + first + done
    ensures Accounted(w, GridWindow(w, k))
  {
    hide Interval;
    GridAdds(w, base, index, k - index);
    if k < index + first {
      GridAdds(w, base, index, first);
      ProductMonotone(index, k, Size(w));
      ProductMonotone(k + 1, index + first, Size(w));
      OneMore(k, Size(w));
      assert Reports(w.log[|w.log| - 1].checkpoint.skipped, GridWindow(w, k));
    } else {
      assert plan.windows[k - index - first] == WindowAt(base, k - index) == GridWindow(w, k);
    }
  }

  lemma RecordKeepsInv(w: World, id: TickId)
    requires Inv(w) && id in w.ticks && w.ticks[id].Settling? && w.ticks[id].done > 0
    requires w.ticks[id].plan.Planned? && TagOf(Held(w)) == Some(w.ticks[id].claimed.etag)
    ensures Inv(Progress(w, id, w.ticks[id]))
  {
    hide PlanRun, Interval, CompleteRun, FirstIndex, IsPlan, NothingWritten, Accounted, GridWindow;
    var Settling(ticket, read, plan, claimed, done, failed) := w.ticks[id];
    assert PhaseHolds(w, id, w.ticks[id]);
    var base, first := Base(ticket, read), LeftOut(ticket, read);
    PlanFacts(ticket, read);
    CompletionWithinTickIsAccepted(base, ticket.now, ticket.owner, plan, first, done);
    var checkpoint := plan.checkpoint.(completedThrough := Some(plan.windows[done - 1].end),
                                       lastCompletedAt := Some(ticket.now), lease := None);
    var phase := Finished(ticket, Verdict(plan, done, failed));
    var index := HeldIndex(w);
    var after := Enter(Append(w, id, checkpoint, index + (first + done), Records(done), ticket), id, phase);
    assert WriteHolds(w, |w.log| - 1);
    assert after.log[0] == w.log[0] && after.log[|w.log| - 1] == w.log[|w.log| - 1];
    SameGrid(after, claimed.checkpoint, base, index);
    RecordedOnGrid(after, base, checkpoint, index, first + done);
    assert WriteHolds(after, |w.log|);
    forall k | index <= k < index + (first + done) ensures Accounted(after, GridWindow(after, k)) {
      RecordAccounts(after, base, ticket, plan, first, index, done, k);
    }
    AppendKeepsInv(w, id, checkpoint, index + (first + done), Records(done), ticket, phase);
  }

  lemma RecordedOnGrid(w: World, base: Checkpoint, c: Checkpoint, index: nat, moved: nat)
    requires w.log != []
    requires c.startedFrom == base.startedFrom && c.intervalSeconds == base.intervalSeconds
    requires c.completedThrough == Some(Mark(base) + moved * Interval(base))
    requires OnGrid(w, base, index)
    ensures OnGrid(w, c, index + moved)
  {
    GridAdds(w, base, index, moved);
  }

  lemma SettleKeepsInv(w: World, id: TickId)
    requires Inv(w) && id in w.ticks && w.ticks[id].Settling?
    ensures Inv(Progress(w, id, w.ticks[id]))
  {
    hide PlanRun, Interval, IsPlan, CompleteRun;
    var Settling(ticket, read, plan, claimed, done, failed) := w.ticks[id];
    assert PhaseHolds(w, id, w.ticks[id]);
    if Settlement(ticket, plan, claimed, done).None? {
      EnterKeepsInv(w, id, Finished(ticket, Verdict(plan, done, failed)));
    } else if TagOf(Held(w)) != Some(claimed.etag) {
      EnterKeepsInv(w, id, Finished(ticket, Threw));
    } else if done > 0 {
      RecordKeepsInv(w, id);
    } else {
      ReleaseKeepsInv(w, id);
    }
  }

  lemma ProgressKeepsInv(w: World, id: TickId)
    requires Inv(w) && id in w.ticks
    ensures Inv(Progress(w, id, w.ticks[id]))
  {
    hide PlanRun, Interval, IsPlan, CompleteRun;
    assert PhaseHolds(w, id, w.ticks[id]);
    match w.ticks[id]
    case Started(ticket) =>
      if w.log != [] { assert WriteHolds(w, |w.log| - 1); }
      EnterKeepsInv(w, id, Progress(w, id, w.ticks[id]).ticks[id]);
    case Seeding(ticket, plan) =>
      if plan.NotPlanned? {
        var phase := Finished(ticket, Skipped(Refused(plan.reason), plan.reported));
        if w.log == [] { SeedKeepsInv(w, id, ticket, phase); } else { EnterKeepsInv(w, id, phase); }
      }
    case Claiming(ticket, read, plan) =>
      if plan.Planned? {
        if TagOf(Held(w)) == TagOf(read) { ClaimKeepsInv(w, id); }
        else { EnterKeepsInv(w, id, Finished(ticket, Skipped(ClaimLost, plan.skipped))); }
      }
    case Settling(_, _, _, _, _, _) => SettleKeepsInv(w, id);
    case _ =>
  }

  lemma EndWindowKeepsInv(w: World, id: TickId, ok: bool)
    requires Inv(w) && id in w.ticks
    ensures Inv(EndWindow(w, id, w.ticks[id], ok))
  {
    hide PlanRun, Interval;
    assert PhaseHolds(w, id, w.ticks[id]);
    if w.ticks[id].Running? {
      var after := EndWindow(w, id, w.ticks[id], ok);
      var ran := w.(ran := after.ran);
      RanKeepsInv(w, after.ran);
      EnterKeepsInv(ran, id, after.ticks[id]);
    }
  }

  lemma RanKeepsInv(w: World, ran: set<Window>)
    requires Inv(w) && w.ran <= ran
    ensures Inv(w.(ran := ran))
  {
    hide PlanRun, Interval;
    var after := w.(ran := ran);
    forall i | 0 <= i < |after.log| ensures WriteHolds(after, i) { assert WriteHolds(w, i); }
    forall other | other in after.ticks ensures PhaseHolds(after, other, after.ticks[other]) {
      assert PhaseHolds(w, other, w.ticks[other]);
    }
    if w.log != [] {
      forall k | 0 <= k < HeldIndex(after) ensures Accounted(after, GridWindow(after, k)) {
        AccountedSurvives(w, after, k);
      }
    }
  }

  lemma HappenKeepsInv(w: World, e: Event)
    requires Inv(w)
    ensures Inv(Happen(w, e))
  {
    hide PlanRun, Interval;
    match e
    case Arrive(id, ticket) =>
      if id !in w.ticks { EnterKeepsInv(w, id, Started(ticket)); }
    case Advance(id) => if id in w.ticks { ProgressKeepsInv(w, id); }
    case WindowEnds(id, ok) => if id in w.ticks { EndWindowKeepsInv(w, id, ok); }
  }

  lemma {:induction false} EveryRunKeepsInv(trace: seq<Event>)
    ensures Inv(After(trace))
  {
    if trace != [] {
      EveryRunKeepsInv(trace[..|trace| - 1]);
      HappenKeepsInv(After(trace[..|trace| - 1]), trace[|trace| - 1]);
    }
  }

  // ----- what the run guarantees

  /** The origin and the window size stored first are never replaced by a later seed: there is one grid. */
  lemma OneGrid(trace: seq<Event>, i: nat)
    requires i < |After(trace).log|
    ensures var w := After(trace);
      w.log[i].checkpoint.startedFrom == Origin(w) && Interval(w.log[i].checkpoint) == Size(w)
  {
    hide PlanRun, Interval, Happen, After;
    EveryRunKeepsInv(trace);
    assert WriteHolds(After(trace), i);
  }

  lemma {:induction false} IndexNeverDecreases(w: World, i: nat, j: nat)
    requires Inv(w) && i <= j < |w.log|
    ensures w.log[i].index <= w.log[j].index
    decreases j
  {
    hide PlanRun, Interval, Happen, After;
    if i < j {
      assert WriteHolds(w, j);
      IndexNeverDecreases(w, i, j - 1);
    }
  }

  /** Whatever dies, restarts or races, a stored completion mark is never moved back. */
  lemma MarkNeverDecreases(trace: seq<Event>, i: nat, j: nat)
    requires i <= j < |After(trace).log|
    ensures Mark(After(trace).log[i].checkpoint) <= Mark(After(trace).log[j].checkpoint)
  {
    hide PlanRun, Interval, Happen, After;
    var w := After(trace);
    EveryRunKeepsInv(trace);
    IndexNeverDecreases(w, i, j);
    assert WriteHolds(w, i) && WriteHolds(w, j);
    ProductMonotone(w.log[i].index, w.log[j].index, Size(w));
  }

  /**
   * No window is lost: each one between the first stored origin and the stored completion mark
   * was run to completion by some tick, or was reported as skipped in a stored checkpoint.
   */
  lemma EveryWindowIsAccounted(trace: seq<Event>, k: nat)
    requires After(trace).log != []
    requires GridWindow(After(trace), k).end <= Mark(Held(After(trace)).value.checkpoint)
    ensures Accounted(After(trace), GridWindow(After(trace), k))
  {
    hide PlanRun, Interval, Happen, After;
    var w := After(trace);
    EveryRunKeepsInv(trace);
    assert WriteHolds(w, |w.log| - 1);
    OneMore(k, Size(w));
    ProductMonotone(HeldIndex(w), k, Size(w));
  }

  predicate InLoop(w: World, id: TickId) {
    id in w.ticks && (w.ticks[id].Running? || w.ticks[id].Settling?)
  }

  function ClaimTag(w: World, id: TickId): Tag
    requires InLoop(w, id)
  {
    w.ticks[id].claimed.etag
  }

  predicate IsClaim(w: World, i: nat, id: TickId) {
    i < |w.log| && w.log[i].kind == Claims && w.log[i].id == id
  }

  /**
   * A tick in its run loop claimed the version it read, and nobody else ever claimed that
   * version: of the ticks that read one version, at most one does the work.
   */
  lemma OneRunnerPerVersion(trace: seq<Event>, id: TickId, other: TickId, j: nat)
    requires InLoop(After(trace), id) && IsClaim(After(trace), j, other)
    ensures IsClaim(After(trace), ClaimTag(After(trace), id), id)
    ensures TagOf(ReadAt(After(trace), j)) == TagOf(After(trace).ticks[id].read) ==> other == id
  {
    hide PlanRun, Interval, Happen, After;
    EveryRunKeepsInv(trace);
    var w := After(trace);
    assert PhaseHolds(w, id, w.ticks[id]);
  }

  /**
   * A completion or a release lands only on top of the tick's own claim. Once a newer claim is
   * stored, the older tick can neither record nor release over it, now or later.
   */
  lemma OnlyTheClaimantSettles(trace: seq<Event>, i: nat)
    requires i < |After(trace).log|
    requires After(trace).log[i].kind.Records? || After(trace).log[i].kind == Releases
    ensures i > 0 && IsClaim(After(trace), i - 1, After(trace).log[i].id)
  {
    hide PlanRun, Interval, Happen, After;
    EveryRunKeepsInv(trace);
    assert WriteHolds(After(trace), i);
  }

  predicate Overtaken(w: World, id: TickId) {
    InLoop(w, id) && ClaimTag(w, id) + 1 < |w.log|
  }

  function LeaseOf(w: World, i: nat): Option<Lease>
    requires i < |w.log|
  {
    w.log[i].checkpoint.lease
  }

  /**
   * What overtakes a tick still in its loop is a claim, made by the same owner or at a clock
   * reading no earlier than the overtaken lease's expiry.
   */
  lemma OvertakenAfterExpiryOrByOwner(trace: seq<Event>, id: TickId)
    requires Overtaken(After(trace), id)
    ensures var w := After(trace); var c := ClaimTag(w, id);
      && LeaseOf(w, c).Some?
      && LeaseOf(w, c).value.owner == w.ticks[id].ticket.owner
      && w.log[c + 1].kind == Claims
      && w.log[c + 1].id != id
      && (w.log[c + 1].ticket.owner == w.ticks[id].ticket.owner
          || w.log[c + 1].ticket.now >= LeaseOf(w, c).value.expiresAt)
  {
    hide PlanRun, Interval, IsPlan, Happen, After;
    EveryRunKeepsInv(trace);
    var w := After(trace);
    var c := ClaimTag(w, id);
    assert PhaseHolds(w, id, w.ticks[id]);
    assert WriteHolds(w, c) && WriteHolds(w, c + 1);
    PlanFacts(w.ticks[id].ticket, w.ticks[id].read);
    var t, read := w.log[c + 1].ticket, ReadAt(w, c + 1);
    PlanRefusedExactly(Base(t, read), t.now, t.owner, t.leaseSeconds, t.maxBackfill);
  }

  /**
   * Two ticks overlap under a live lease, that is before the earlier one's lease expired at the later one's clock,
   * only where the claim right after the earlier one is by the same owner or its clock is ahead of the later tick's.
   */
  lemma OverlapUnderLiveLease(trace: seq<Event>, earlier: TickId, later: TickId)
    requires InLoop(After(trace), earlier) && InLoop(After(trace), later)
    requires ClaimTag(After(trace), earlier) < ClaimTag(After(trace), later)
    ensures var w := After(trace); var c := ClaimTag(w, earlier);
      && c + 1 < |w.log| && LeaseOf(w, c).Some? && w.log[c + 1].kind == Claims
      && (w.ticks[later].ticket.now < LeaseOf(w, c).value.expiresAt ==>
            || w.log[c + 1].ticket.owner == w.ticks[earlier].ticket.owner
            || w.log[c + 1].ticket.now > w.ticks[later].ticket.now)
  {
    hide PlanRun, Interval, IsPlan, Happen, After;
    EveryRunKeepsInv(trace);
    var w := After(trace);
    assert PhaseHolds(w, earlier, w.ticks[earlier]) && PhaseHolds(w, later, w.ticks[later]);
    OvertakenAfterExpiryOrByOwner(trace, earlier);
  }

  predicate ClaimsInClockOrder(w: World) {
    forall i, j :: 0 <= i < j < |w.log| && w.log[i].kind == Claims && w.log[j].kind == Claims ==>
      w.log[i].ticket.now <= w.log[j].ticket.now
  }

  /** No owner claims again while a tick of its own is still in the loop. */
  ghost predicate OwnersWaitForTheirTicks(w: World) {
    forall id, i :: InLoop(w, id) && ClaimTag(w, id) < i < |w.log| && w.log[i].kind == Claims ==>
      w.log[i].ticket.owner != w.ticks[id].ticket.owner
  }

  /** So where clocks agree on the order of claims and owners wait for themselves, ticks overlap only after expiry. */
  lemma OverlapOnlyAfterExpiry(trace: seq<Event>, earlier: TickId, later: TickId)
    requires InLoop(After(trace), earlier) && InLoop(After(trace), later)
    requires ClaimTag(After(trace), earlier) < ClaimTag(After(trace), later)
    requires ClaimsInClockOrder(After(trace)) && OwnersWaitForTheirTicks(After(trace))
    ensures var w := After(trace); var c := ClaimTag(w, earlier);
      && c < |w.log|
      && LeaseOf(w, c).Some?
      && w.ticks[later].ticket.now >= LeaseOf(w, c).value.expiresAt
  {
    hide PlanRun, Interval, IsPlan, Happen, After;
    EveryRunKeepsInv(trace);
    var w := After(trace);
    var c, d := ClaimTag(w, earlier), ClaimTag(w, later);
    assert PhaseHolds(w, later, w.ticks[later]);
    OverlapUnderLiveLease(trace, earlier, later);
    assert w.log[c + 1].ticket.now <= w.log[d].ticket.now;
  }

  lemma AfterOneMore(trace: seq<Event>, e: Event)
    ensures After(trace + [e]) == Happen(After(trace), e)
  {
    assert (trace + [e])[..|trace|] == trace;
  }

  // ----- runs in which ticks overlap under a live lease

  /** A tick arrives, reads and claims, with nothing in between. */
  function ArriveAndClaim(id: TickId, t: Ticket): seq<Event> { [Arrive(id, t), Advance(id), Advance(id)] }

  lemma TickClaims(trace: seq<Event>, id: TickId, t: Ticket)
    requires id !in After(trace).ticks && PlanFor(t, Held(After(trace))).Planned?
    ensures var w := After(trace); var plan := PlanFor(t, Held(w)); var after := After(trace + ArriveAndClaim(id, t));
      && after.log == w.log + [Write(plan.checkpoint, HeldIndex(w), id, Claims, t)] && after.ran == w.ran
      && after.ticks == w.ticks[id := Running(t, Held(w), plan, Stored(plan.checkpoint, |w.log|), 0)]
  {
    hide PlanFor, After;
    var w := After(trace);
    AfterOneMore(trace, Arrive(id, t));
    AfterOneMore(trace + [Arrive(id, t)], Advance(id));
    AfterOneMore(trace + [Arrive(id, t)] + [Advance(id)], Advance(id));
    assert trace + ArriveAndClaim(id, t) == trace + [Arrive(id, t)] + [Advance(id)] + [Advance(id)];
    var plan := PlanFor(t, Held(w));
    var running := Running(t, Held(w), plan, Stored(plan.checkpoint, |w.log|), 0);
    assert w.ticks[id := Started(t)][id := Claiming(t, Held(w), plan)][id := running] == w.ticks[id := running];
  }

  /** The first window of a tick fails, and the tick releases its lease. */
  lemma TickReleases(trace: seq<Event>, id: TickId)
    requires var w := After(trace); id in w.ticks && w.ticks[id].Running? && w.ticks[id].done == 0
    requires var w := After(trace);
      && w.ticks[id].plan.Planned? && w.ticks[id].plan.windows != []
      && TagOf(Held(w)) == Some(w.ticks[id].claimed.etag)
    ensures var w := After(trace); var after := After(trace + [WindowEnds(id, false), Advance(id)]);
      && |after.log| == |w.log| + 1 && after.log[..|w.log|] == w.log
      && after.log[|w.log|].checkpoint == w.ticks[id].claimed.checkpoint.(lease := None)
      && (forall other :: other in w.ticks && other != id ==> other in after.ticks && after.ticks[other] == w.ticks[other])
      && (forall other :: other in after.ticks ==> other in w.ticks)
  {
    hide After, PlanFor;
    AfterOneMore(trace, WindowEnds(id, false));
    AfterOneMore(trace + [WindowEnds(id, false)], Advance(id));
    assert trace + [WindowEnds(id, false), Advance(id)] == trace + [WindowEnds(id, false)] + [Advance(id)];
  }

  predicate IsDue(t: Ticket) { t.startedFrom + t.intervalSeconds * 1000 <= t.now }

  /** The claim of the first tick over an empty store: granted when a window is due. */
  lemma FirstClaim(t: Ticket)
    requires IsDue(t)
    ensures var plan := PlanFor(t, None);
      && plan.Planned? && plan.windows != []
      && plan.checkpoint.intervalSeconds == t.intervalSeconds && Mark(plan.checkpoint) == t.startedFrom
      && plan.checkpoint.lease.Some? && plan.checkpoint.lease.value.owner == t.owner
      && plan.checkpoint.lease.value.expiresAt == t.now + t.leaseSeconds * 1000
  {
    hide IsPlan;
    PlanRefusedExactly(Seed(t), t.now, t.owner, t.leaseSeconds, t.maxBackfill);
    PlanFacts(t, None);
  }

  /** A later claim: granted when a window is due and no other owner's lease is live. */
  lemma LaterClaim(t: Ticket, held: Stored)
    requires Mark(held.checkpoint) + Interval(held.checkpoint) <= t.now && !LeaseBlocks(held.checkpoint, t.now, t.owner)
    ensures var plan := PlanFor(t, Some(held));
      && plan.Planned? && plan.windows != []
      && plan.checkpoint.intervalSeconds == held.checkpoint.intervalSeconds
      && Mark(plan.checkpoint) == Mark(held.checkpoint)
  {
    hide PlanRun, Interval;
    PlanRefusedExactly(held.checkpoint, t.now, t.owner, t.leaseSeconds, t.maxBackfill);
    PlanFacts(t, Some(held));
  }

  /**
   * The lease does not separate two ticks of one owner: for any ticket with a window due, a
   * second tick of the same owner enters the loop while the first is in it and its lease is live.
   */
  lemma SameOwnerOverlaps(t: Ticket) returns (trace: seq<Event>)
    requires IsDue(t)
    ensures var w := After(trace);
      && InLoop(w, 1) && InLoop(w, 2)
      && ClaimTag(w, 1) == 0 && |w.log| == 2
      && LeaseOf(w, 0).Some?
      && w.ticks[2].ticket.now < LeaseOf(w, 0).value.expiresAt
  {
    hide PlanFor, After, ArriveAndClaim, Happen;
    NothingHappened();
    FirstClaim(t);
    TickClaims([], 1, t);
    var one := [] + ArriveAndClaim(1, t);
    var held := Held(After(one)).value;
    LaterClaim(t, held);
    TickClaims(one, 2, t);
    trace := one + ArriveAndClaim(2, t);
  }

  lemma NothingHappened()
    ensures After([]) == Empty
  {}

  /**
   * Nor does it separate owners whose clocks disagree: a tick claims; another owner's, whose clock is past the
   * lease, claims over it, fails and releases; and a third one, whose clock is before the first lease's expiry, enters
   * the loop beside the first.
   */
  lemma SkewedClocksOverlap(a: Ticket, b: Ticket, c: Ticket) returns (trace: seq<Event>)
    requires IsDue(a) && a.owner != b.owner && a.owner != c.owner
    requires a.now + a.leaseSeconds * 1000 <= b.now
    requires a.startedFrom + a.intervalSeconds * 1000 <= c.now < a.now + a.leaseSeconds * 1000
    ensures var w := After(trace);
      && InLoop(w, 1) && InLoop(w, 3) && w.ticks[1].ticket == a && w.ticks[3].ticket == c
      && ClaimTag(w, 1) == 0 < ClaimTag(w, 3)
      && |w.log| > 0 && LeaseOf(w, 0).Some? && c.now < LeaseOf(w, 0).value.expiresAt
  {
    hide PlanFor, After, ArriveAndClaim, Happen, LeaseBlocks;
    NothingHappened();
    FirstClaim(a);
    TickClaims([], 1, a);
    var one := [] + ArriveAndClaim(1, a);
    var held := Held(After(one)).value;
    assert !LeaseBlocks(held.checkpoint, b.now, b.owner) by { ExpiredNeverBlocks(held.checkpoint, b.now, b.owner); }
    LaterClaim(b, held);
    TickClaims(one, 2, b);
    var two := one + ArriveAndClaim(2, b);
    TickReleases(two, 2);
    var three := two + [WindowEnds(2, false), Advance(2)];
    var released := Held(After(three)).value;
    assert !LeaseBlocks(released.checkpoint, c.now, c.owner) by { ExpiredNeverBlocks(released.checkpoint, c.now, c.owner); }
    LaterClaim(c, released);
    TickClaims(three, 3, c);
    trace := three + ArriveAndClaim(3, c);
    assert After(trace).log[0] == After(one).log[0];
  }

  lemma ExpiredNeverBlocks(c: Checkpoint, now: Instant, owner: string)
    requires c.lease.None? || c.lease.value.expiresAt <= now
    ensures !LeaseBlocks(c, now, owner)
  {}

  // ----- the runner itself

  predicate OnlyOthers(events: seq<Event>, id: TickId) {
    forall i :: 0 <= i < |events| ==> events[i].id != id
  }

  lemma OtherKeepsPhase(w: World, e: Event, id: TickId)
    requires e.id != id
    ensures id in Happen(w, e).ticks <==> id in w.ticks
    ensures id in w.ticks ==> Happen(w, e).ticks[id] == w.ticks[id]
  {
    hide PlanFor, Settlement, LeftOut;
  }

  lemma {:induction false} OthersKeepPhase(trace: seq<Event>, events: seq<Event>, id: TickId)
    requires OnlyOthers(events, id)
    ensures id in After(trace + events).ticks <==> id in After(trace).ticks
    ensures id in After(trace).ticks ==> After(trace + events).ticks[id] == After(trace).ticks[id]
  {
    hide Happen;
    if events == [] {
      assert trace + events == trace;
    } else {
      var init, last := events[..|events| - 1], events[|events| - 1];
      OthersKeepPhase(trace, init, id);
      assert trace + events == (trace + init) + [last];
      AfterOneMore(trace + init, last);
      OtherKeepsPhase(After(trace + init), last, id);
    }
  }

  /** The stored checkpoint, and every event so far as ghost history. */
  class CheckpointStore {
    var held: Option<Stored>
    var issued: Tag
    ghost var trace: seq<Event>

    ghost predicate Valid()
      reads this
    {
      held == Held(After(trace)) && issued == |After(trace).log|
    }

    constructor ()
      ensures Valid() && trace == []
    {
      held, issued, trace := None, 0, [];
    }

    /** Everything other ticks do while this one awaits the store or its work. */
    method OthersAct(ghost id: TickId)
      requires Valid()
      modifies this
      ensures Valid()
      ensures old(trace) <= trace && OnlyOthers(trace[|old(trace)|..], id)
    {}

    method Read() returns (read: Option<Stored>)
      ensures read == held
    {
      read := held;
    }

    /** A conditional write: no tag means create only. `None` is the thrown ConcurrencyConflictError. */
    method Put(checkpoint: Checkpoint, ifMatch: Option<Tag>) returns (written: Option<Stored>)
      modifies this`held, this`issued
      ensures written == if old(TagOf(held)) == ifMatch then Some(Stored(checkpoint, old(issued))) else None
      ensures held == if written.Some? then written else old(held)
      ensures issued == if written.Some? then old(issued) + 1 else old(issued)
    {
      if TagOf(held) != ifMatch { return None; }
      held := Some(Stored(checkpoint, issued));
      issued := issued + 1;
      return held;
    }
  }

  class Runner {
    const store: CheckpointStore

    constructor (store: CheckpointStore)
      ensures this.store == store
    {
      this.store := store;
    }

    ghost predicate InPhase(id: TickId, phase: Phase)
      reads store
    {
      store.Valid() && id in After(store.trace).ticks && After(store.trace).ticks[id] == phase
    }

    ghost method Record(e: Event)
      requires var w := Happen(After(store.trace), e); store.held == Held(w) && store.issued == |w.log|
      modifies store`trace
      ensures store.trace == old(store.trace) + [e] && store.Valid()
      ensures After(store.trace) == Happen(old(After(store.trace)), e)
    {
      AfterOneMore(store.trace, e);
      store.trace := store.trace + [e];
    }

    method Await(ghost id: TickId, ghost phase: Phase)
      requires InPhase(id, phase)
      modifies store
      ensures InPhase(id, phase) && old(store.trace) <= store.trace
    {
      ghost var before := store.trace;
      store.OthersAct(id);
      OthersKeepPhase(before, store.trace[|before|..], id);
      assert store.trace == before + store.trace[|before|..];
    }

    /** Reads the checkpoint and decides what is owed. */
    method ReadAndPlan(ghost id: TickId, t: Ticket) returns (read: Option<Stored>, plan: Plan)
      requires InPhase(id, Started(t))
      modifies store
      ensures store.Valid() && old(store.trace) <= store.trace
      ensures plan == PlanFor(t, read)
      ensures InPhase(id,
        if plan.Planned? then Claiming(t, read, plan)
        else if read.None? then Seeding(t, plan)
        else Finished(t, Skipped(Refused(plan.reason), plan.reported)))
    {
      hide PlanRun, Settlement, LeftOut, After, OnlyOthers;
      Await(id, Started(t));
      read := store.Read();
      var checkpoint := if read.Some? then read.value.checkpoint else Seed(t);
      plan := PlanRun(checkpoint, t.now, t.owner, t.leaseSeconds, t.maxBackfill);
      Record(Advance(id));
    }

    /** Records the origin when nothing is stored; losing that race is no error. */
    method StoreOrigin(ghost id: TickId, t: Ticket, ghost plan: Plan)
      requires plan.NotPlanned? && InPhase(id, Seeding(t, plan))
      modifies store
      ensures old(store.trace) <= store.trace
      ensures InPhase(id, Finished(t, Skipped(Refused(plan.reason), plan.reported)))
    {
      hide PlanFor, Settlement, LeftOut, After, OnlyOthers;
      Await(id, Seeding(t, plan));
      var ignored := store.Put(Seed(t), None);
      Record(Advance(id));
    }

    method Claim(ghost id: TickId, t: Ticket, read: Option<Stored>, plan: Plan) returns (claimed: Option<Stored>)
      requires plan.Planned? && InPhase(id, Claiming(t, read, plan))
      modifies store
      ensures store.Valid() && old(store.trace) <= store.trace
      ensures InPhase(id,
        if claimed.None? then Finished(t, Skipped(ClaimLost, plan.skipped))
        else Running(t, read, plan, claimed.value, 0))
    {
      hide PlanFor, Settlement, LeftOut, After, OnlyOthers;
      Await(id, Claiming(t, read, plan));
      claimed := store.Put(plan.checkpoint, TagOf(read));
      Record(Advance(id));
    }

    /** The window loop: whatever the work answers, the count is of the windows it finished. */
    method RunWindows(ghost id: TickId, t: Ticket, ghost read: Option<Stored>, plan: Plan, ghost claimed: Stored)
      returns (completedThrough: Option<Instant>, completed: nat, failed: bool)
      requires plan.Planned? && plan.windows != [] && InPhase(id, Running(t, read, plan, claimed, 0))
      modifies store
      ensures old(store.trace) <= store.trace
      ensures completed <= |plan.windows| && (failed <==> completed < |plan.windows|)
      ensures completedThrough == if completed == 0 then None else Some(plan.windows[completed - 1].end)
      ensures InPhase(id, Settling(t, read, plan, claimed, completed, failed))
    {
      hide PlanFor, Settlement, LeftOut, After, OnlyOthers;
      completedThrough, completed, failed := None, 0, false;
      while completed < |plan.windows|
        invariant completed <= |plan.windows| && !failed
        invariant completedThrough == if completed == 0 then None else Some(plan.windows[completed - 1].end)
        invariant old(store.trace) <= store.trace
        invariant InPhase(id, if completed < |plan.windows| then Running(t, read, plan, claimed, completed)
                              else Settling(t, read, plan, claimed, completed, false))
      {
        var window := plan.windows[completed];
        Await(id, Running(t, read, plan, claimed, completed));
        var ok := *;
        Record(WindowEnds(id, ok));
        if !ok {
          failed := true;
          return;
        }
        completedThrough := Some(window.end);
        completed := completed + 1;
      }
    }

    /** Records what finished, or gives the lease back when nothing did. Losing the claim throws. */
    method Conclude(ghost id: TickId, t: Ticket, ghost read: Option<Stored>, plan: Plan, claimed: Stored,
                    completedThrough: Option<Instant>, completed: nat, failed: bool)
      returns (threw: bool)
      requires plan.Planned? && completed <= |plan.windows|
      requires completedThrough == if completed == 0 then None else Some(plan.windows[completed - 1].end)
      requires InPhase(id, Settling(t, read, plan, claimed, completed, failed))
      modifies store
      ensures old(store.trace) <= store.trace
      ensures InPhase(id, Finished(t, if threw then Threw else Verdict(plan, completed, failed)))
    {
      hide PlanFor, CompleteRun, LeftOut, After, OnlyOthers;
      var next := Some(claimed.checkpoint.(lease := None));
      if completedThrough.Some? {
        var recorded := CompleteRun(claimed.checkpoint, t.owner, completedThrough.value, t.now);
        next := if recorded.Recorded? then Some(recorded.checkpoint) else None;
      }
      Await(id, Settling(t, read, plan, claimed, completed, failed));
      threw := false;
      if next.Some? {
        var written := store.Put(next.value, Some(claimed.etag));
        threw := written.None?;
      }
      Record(Advance(id));
    }

    /**
     * `tick`, step for step, with every other tick free to act at each await. Its execution is a
     * run of the machine above, and its answer is the answer the machine gives this tick.
     */
    method Tick(ghost id: TickId, t: Ticket) returns (result: TickResult)
      requires store.Valid() && id !in After(store.trace).ticks
      modifies store
      ensures old(store.trace) <= store.trace
      ensures InPhase(id, Finished(t, result))
    {
      hide PlanFor, Settlement, LeftOut, After, OnlyOthers;
      Record(Arrive(id, t));
      var read, plan := ReadAndPlan(id, t);
      if plan.NotPlanned? {
        if read.None? {
          StoreOrigin(id, t, plan);
        }
        return Skipped(Refused(plan.reason), plan.reported);
      }
      var claimed := Claim(id, t, read, plan);
      if claimed.None? {
        return Skipped(ClaimLost, plan.skipped);
      }
      PlanHasWindows(t, read);
      var completedThrough, completed, failed := RunWindows(id, t, read, plan, claimed.value);
      var threw := Conclude(id, t, read, plan, claimed.value, completedThrough, completed, failed);
      if threw {
        return Threw;
      }
      return if failed then Incomplete(completed, plan.skipped) else Ran(completed, plan.skipped);
    }
  }

  lemma PlanHasWindows(t: Ticket, read: Option<Stored>)
    requires PlanFor(t, read).Planned?
    ensures PlanFor(t, read).windows != []
  {
    hide PlanRun, Interval;
    PlanCoversWhatIsOwed(Base(t, read), t.now, t.owner, t.leaseSeconds, t.maxBackfill);
  }
}
