/**
 * Saves that compete for one stored revision: which version each of them replaces, what a forced one puts on
 * record, and when that record describes the version it replaced.
 *
 * The first half is the shared store with every call in flight as one state machine: each
 * event is one access to the store, so a run interleaves any number of saves at every point
 * where the source awaits. The second half is `save` itself, proved to be a run of it.
 */
module ConfigurationWriter {
  import opened Common
  import opened Lifecycle
  import opened ConfigurationConflict

  type Tag = nat
  type CallId = nat

  datatype Version = Version(document: Revision, etag: Tag)

  datatype Request = Request(
    loaded: Revision,
    etag: Tag,
    order: Order,
    stated: Option<int>,
    force: bool,
    acknowledged: Option<Tag>,
    priorReading: Option<Revision>)

  /** The revision number the caller believes in: stated, else as read before, else as loaded. */
  function OrderOf(req: Request): Order {
    req.order.(expectedRevisionNumber :=
      match req.stated
      case Some(number) => number
      case None => if req.priorReading.Some? then req.priorReading.value.revisionNumber else req.loaded.revisionNumber)
  }

  /** What the caller actually read, which is what a conflict is reported against. */
  function Basis(req: Request): Revision {
    if req.priorReading.Some? then req.priorReading.value else req.loaded
  }

  datatype Report = Vanished | Conflict(comparison: Comparison, shown: Version) | Incomparable

  function ConflictFrom(req: Request, held: Option<Version>): Report {
    match held
    case None => Vanished
    case Some(version) =>
      match Compare(Basis(req), version.document)
      case None => Incomparable
      case Some(comparison) => Conflict(comparison, version)
  }

  /** A report says what became of the caller's reading: the prior one it named, or else the revision it loaded. */
  ghost predicate TellsOfReading(req: Request, stored: Revision, comparison: Comparison) {
    match req.priorReading
    case Some(reading) => Compares(reading, stored, comparison)
    case None => Compares(req.loaded, stored, comparison)
  }

  /** The caller's reading and this revision are of different revisions. */
  predicate IsOfAnother(req: Request, stored: Revision) {
    match req.priorReading
    case Some(reading) => reading.revisionId != stored.revisionId || reading.scopeGroupId != stored.scopeGroupId
    case None => req.loaded.revisionId != stored.revisionId || req.loaded.scopeGroupId != stored.scopeGroupId
  }

  lemma ComparedWithReading(req: Request, stored: Revision)
    ensures Compare(Basis(req), stored).None? <==> IsOfAnother(req, stored)
    ensures Compare(Basis(req), stored).Some? ==> TellsOfReading(req, stored, Compare(Basis(req), stored).value)
  {
    hide Compare, Compares;
    CompareIsExact(Basis(req), stored);
  }

  /** What a report of what is stored says. */
  ghost predicate Reports(req: Request, held: Option<Version>, report: Report) {
    match report
    case Vanished => held == None
    case Conflict(comparison, shown) => held == Some(shown) && TellsOfReading(req, shown.document, comparison)
    case Incomparable => held.Some? && IsOfAnother(req, held.value.document)
  }

  lemma ReportIsOfReading(req: Request, held: Option<Version>)
    ensures Reports(req, held, ConflictFrom(req, held))
  {
    hide Compare, Basis, TellsOfReading;
    if held.Some? { ComparedWithReading(req, held.value.document); }
  }

  /** The order as the caller gave it, under the number it stated, or else read before, or else loaded. */
  predicate IsOrderOf(req: Request, o: Order) {
    && o == req.order.(expectedRevisionNumber := o.expectedRevisionNumber)
    && (req.stated.Some? ==> o.expectedRevisionNumber == req.stated.value)
    && (req.stated.None? && req.priorReading.Some? ==> o.expectedRevisionNumber == req.priorReading.value.revisionNumber)
    && (req.stated.None? && req.priorReading.None? ==> o.expectedRevisionNumber == req.loaded.revisionNumber)
  }

  lemma OrderIsTheCallers(req: Request, o: Order)
    ensures IsOrderOf(req, o) <==> o == OrderOf(req)
  {}

  datatype SaveOutcome =
    | Saved(version: Version, overwrote: Option<OverwriteRecord>)
    | Told(report: Report)
    | RefusedBy(refusal: Refusal)
    | Threw

  function AsOutcome(report: Report): SaveOutcome {
    if report.Incomparable? then Threw else Told(report)
  }

  /** A diverged history, an unforced save and an unnamed version are never overwritten. */
  predicate MayOverwrite(req: Request, report: Report) {
    req.force && report.Conflict? && report.comparison.reason != HistoryDiverged && req.acknowledged.Some?
  }

  function Overwritten(req: Request, comparison: Comparison, written: Version): SaveOutcome {
    match Describe(comparison, req.order.actor, req.order.at)
    case None => Threw
    case Some(record) => Saved(written, Some(record))
  }

  // ----- the store and the calls in flight

  datatype Intent = ReportOnly | ThenOverwrite(next: Revision)

  datatype Phase =
    | Putting(req: Request, begunAt: nat, next: Revision)
    | Explaining(req: Request, begunAt: nat, intent: Intent)
    | Overwriting(req: Request, begunAt: nat, next: Revision, comparison: Comparison, shown: Version, readAt: nat)
    | Done(req: Request, begunAt: nat, outcome: SaveOutcome, landed: Option<nat>)

  datatype Author =
    | Elsewhere
    | Direct(id: CallId)
    | Forced(id: CallId, comparison: Comparison, shown: Version, readAt: nat)

  /** One write that reached the store, with the version it replaced. */
  datatype Landing = Landing(version: Version, replaced: Option<Version>, author: Author)

  datatype World = World(held: Option<Version>, issued: nat, log: seq<Landing>, calls: map<CallId, Phase>)

  datatype Event =
    | Begin(id: CallId, req: Request)
    | Advance(id: CallId)
    | WrittenElsewhere(document: Revision)
    | Removed

  const Empty: World := World(None, 0, [], map[])

  function Land(w: World, document: Revision, author: Author): World {
    var version := Version(document, w.issued);
    w.(held := Some(version), issued := w.issued + 1, log := w.log + [Landing(version, w.held, author)])
  }

  predicate Matches(held: Option<Version>, ifMatch: Tag) {
    held.Some? && held.value.etag == ifMatch
  }

  function First(req: Request, begunAt: nat): Phase {
    match Apply(req.loaded, OrderOf(req))
    case Malformed => Done(req, begunAt, Threw, None)
    case Refused(refusal) =>
      if refusal.RevisionConflict? then Explaining(req, begunAt, ReportOnly)
      else Done(req, begunAt, RefusedBy(refusal), None)
    case Accepted(next) => Putting(req, begunAt, next)
  }

  function Progress(w: World, id: CallId, phase: Phase): World {
    match phase
    case Putting(req, begunAt, next) =>
      if Matches(w.held, req.etag) then
        var landed := Land(w, next, Direct(id));
        landed.(calls := w.calls[id := Done(req, begunAt, Saved(landed.held.value, None), Some(|w.log|))])
      else
        w.(calls := w.calls[id := Explaining(req, begunAt, ThenOverwrite(next))])
    case Explaining(req, begunAt, intent) =>
      var report := ConflictFrom(req, w.held);
      if intent.ThenOverwrite? && MayOverwrite(req, report) then
        w.(calls := w.calls[id :=
          Overwriting(req, begunAt, intent.next, report.comparison, report.shown, w.issued)])
      else
        w.(calls := w.calls[id := Done(req, begunAt, AsOutcome(report), None)])
    case Overwriting(req, begunAt, next, comparison, shown, readAt) =>
      if req.acknowledged.Some? && Matches(w.held, req.acknowledged.value) then
        var landed := Land(w, next, Forced(id, comparison, shown, readAt));
        landed.(calls := w.calls[id :=
          Done(req, begunAt, Overwritten(req, comparison, landed.held.value), Some(|w.log|))])
      else
        w.(calls := w.calls[id := Explaining(req, begunAt, ReportOnly)])
    case Done(_, _, _, _) => w
  }

  function Happen(w: World, e: Event): World {
    match e
    case Begin(id, req) => if id in w.calls then w else w.(calls := w.calls[id := First(req, w.issued)])
    case Advance(id) => if id in w.calls then Progress(w, id, w.calls[id]) else w
    case WrittenElsewhere(document) => Land(w, document, Elsewhere)
    case Removed => w.(held := None)
  }

  function After(trace: seq<Event>): World {
    if trace == [] then Empty else Happen(After(trace[..|trace| - 1]), trace[|trace| - 1])
  }

  // ----- what every run keeps

  predicate TagsAreFresh(w: World) {
    && (w.held.Some? ==> w.held.value.etag < w.issued)
    && (forall i :: 0 <= i < |w.log| ==> w.log[i].version.etag < w.issued)
    && (forall i :: 0 <= i < |w.log| && w.log[i].replaced.Some? ==>
          w.log[i].replaced.value.etag < w.log[i].version.etag)
    && (forall i, j :: 0 <= i < j < |w.log| ==> w.log[i].version.etag < w.log[j].version.etag)
  }

  /** A version older than the conflict read that is still held is the version that was shown. */
  predicate PhaseHolds(w: World, id: CallId, phase: Phase) {
    && phase.begunAt <= w.issued
    && match phase
       case Putting(req, _, next) => Apply(req.loaded, OrderOf(req)) == Accepted(next)
       case Explaining(req, _, intent) =>
         intent.ThenOverwrite? ==> Apply(req.loaded, OrderOf(req)) == Accepted(intent.next)
       case Overwriting(req, begunAt, next, comparison, shown, readAt) =>
         && Apply(req.loaded, OrderOf(req)) == Accepted(next)
         && ForcedAfterReading(w, req, begunAt, comparison, shown, readAt)
         && (w.held.Some? && w.held.value.etag < readAt ==> w.held.value == shown)
       case Done(req, _, outcome, landed) =>
         match landed
         case None => !outcome.Saved?
         case Some(i) => i < |w.log| && w.log[i].author != Elsewhere && w.log[i].author.id == id
  }

  predicate ForcedAfterReading(w: World, req: Request, begunAt: nat, comparison: Comparison, shown: Version, readAt: nat) {
    && MayOverwrite(req, Conflict(comparison, shown))
    && Compare(Basis(req), shown.document) == Some(comparison)
    && begunAt <= readAt <= w.issued
    && shown.etag < readAt
  }

  predicate LandingHolds(w: World, i: nat)
    requires i < |w.log|
  {
    var landing := w.log[i];
    landing.author != Elsewhere ==>
      && landing.author.id in w.calls
      && landing.replaced.Some?
      && var phase := w.calls[landing.author.id];
      && phase.Done?
      && phase.landed == Some(i)
      && Apply(phase.req.loaded, OrderOf(phase.req)) == Accepted(landing.version.document)
      && match landing.author
         case Direct(_) =>
           phase.req.etag == landing.replaced.value.etag && phase.outcome == Saved(landing.version, None)
         case Forced(_, comparison, shown, readAt) =>
           && ForcedAfterReading(w, phase.req, phase.begunAt, comparison, shown, readAt)
           && phase.req.acknowledged == Some(landing.replaced.value.etag)
           && phase.outcome == Overwritten(phase.req, comparison, landing.version)
           && (landing.replaced.value.etag < readAt ==> landing.replaced.value == shown)
  }

  predicate Inv(w: World) {
    && TagsAreFresh(w)
    && (forall id :: id in w.calls ==> PhaseHolds(w, id, w.calls[id]))
    && (forall i :: 0 <= i < |w.log| ==> LandingHolds(w, i))
  }

  /** Only this call's phase changed, and the store did not. */
  lemma PhaseChangeKeepsInv(w: World, id: CallId, phase: Phase)
    requires Inv(w)
    requires id in w.calls && !w.calls[id].Done?
    requires PhaseHolds(w.(calls := w.calls[id := phase]), id, phase)
    ensures Inv(w.(calls := w.calls[id := phase]))
  {
    hide Apply, Compare, Describe, OrderOf, Basis;
    var after := w.(calls := w.calls[id := phase]);
    forall i | 0 <= i < |after.log| ensures LandingHolds(after, i) {
      assert LandingHolds(w, i);
    }
    forall other | other in after.calls ensures PhaseHolds(after, other, after.calls[other]) {
      if other != id { assert PhaseHolds(w, other, w.calls[other]); }
    }
  }

  lemma LandKeepsTags(w: World, document: Revision, author: Author, calls: map<CallId, Phase>)
    requires TagsAreFresh(w)
    ensures TagsAreFresh(Land(w, document, author).(calls := calls))
  {}

  /** A fresh tag is never one a conflict read was waiting on. */
  lemma PhaseSurvivesLanding(w: World, document: Revision, author: Author, calls: map<CallId, Phase>, other: CallId)
    requires other in w.calls && PhaseHolds(w, other, w.calls[other])
    ensures PhaseHolds(Land(w, document, author).(calls := calls), other, w.calls[other])
  {}

  lemma LandingSurvivesLanding(w: World, document: Revision, author: Author, id: CallId, phase: Phase, i: nat)
    requires i < |w.log| && LandingHolds(w, i)
    requires id in w.calls ==> !w.calls[id].Done?
    ensures LandingHolds(Land(w, document, author).(calls := w.calls[id := phase]), i)
  {
    assert Land(w, document, author).log[i] == w.log[i];
  }

  /** A write lands and finishes the call that made it. */
  lemma LandingKeepsInv(w: World, id: CallId, document: Revision, author: Author, phase: Phase)
    requires Inv(w)
    requires id in w.calls && !w.calls[id].Done?
    requires var after := Land(w, document, author).(calls := w.calls[id := phase]);
      LandingHolds(after, |w.log|) && PhaseHolds(after, id, phase)
    ensures Inv(Land(w, document, author).(calls := w.calls[id := phase]))
  {
    hide LandingHolds, PhaseHolds, TagsAreFresh;
    var calls := w.calls[id := phase];
    var after := Land(w, document, author).(calls := calls);
    LandKeepsTags(w, document, author, calls);
    forall i | 0 <= i < |after.log| ensures LandingHolds(after, i) {
      if i < |w.log| { LandingSurvivesLanding(w, document, author, id, phase, i); }
    }
    forall other | other in after.calls ensures PhaseHolds(after, other, after.calls[other]) {
      if other != id { PhaseSurvivesLanding(w, document, author, calls, other); }
    }
  }

  lemma ProgressKeepsInv(w: World, id: CallId)
    requires Inv(w) && id in w.calls
    ensures Inv(Progress(w, id, w.calls[id]))
  {
    hide Apply, Compare, Describe, OrderOf, Basis;
    var phase := w.calls[id];
    var after := Progress(w, id, phase);
    assert PhaseHolds(w, id, phase);
    match phase
    case Putting(req, begunAt, next) =>
      if Matches(w.held, req.etag) {
        assert after.log[|w.log|] == Landing(after.held.value, w.held, Direct(id));
        LandingKeepsInv(w, id, next, Direct(id), after.calls[id]);
      } else {
        PhaseChangeKeepsInv(w, id, after.calls[id]);
      }
    case Explaining(req, begunAt, intent) =>
      PhaseChangeKeepsInv(w, id, after.calls[id]);
    case Overwriting(req, begunAt, next, comparison, shown, readAt) =>
      if req.acknowledged.Some? && Matches(w.held, req.acknowledged.value) {
        assert after.log[|w.log|] == Landing(after.held.value, w.held, Forced(id, comparison, shown, readAt));
        LandingKeepsInv(w, id, next, Forced(id, comparison, shown, readAt), after.calls[id]);
      } else {
        PhaseChangeKeepsInv(w, id, after.calls[id]);
      }
    case Done(_, _, _, _) =>
  }

  lemma HappenKeepsInv(w: World, e: Event)
    requires Inv(w)
    ensures Inv(Happen(w, e))
  {
    hide ConflictFrom, MayOverwrite, Overwritten, AsOutcome, Apply, Compare, OrderOf, Basis;
    var after := Happen(w, e);
    match e
    case Advance(id) => if id in w.calls { ProgressKeepsInv(w, id); }
    case _ =>
      forall i | 0 <= i < |after.log| ensures LandingHolds(after, i) {
        if i < |w.log| { assert LandingHolds(w, i) && after.log[i] == w.log[i]; }
      }
      forall other | other in after.calls ensures PhaseHolds(after, other, after.calls[other]) {
        if other in w.calls { assert PhaseHolds(w, other, w.calls[other]); }
      }
  }

  lemma {:induction false} EveryRunKeepsInv(trace: seq<Event>)
    ensures Inv(After(trace))
  {
    if trace != [] {
      EveryRunKeepsInv(trace[..|trace| - 1]);
      HappenKeepsInv(After(trace[..|trace| - 1]), trace[|trace| - 1]);
    }
  }

  // ----- what the run guarantees

  /** The version a call names as the one it may replace: its own reading, or the one it acknowledged. */
  function NamedBy(req: Request, author: Author): Option<Tag>
    requires author != Elsewhere
  {
    match author
    case Direct(_) => Some(req.etag)
    case Forced(_, _, _, _) => if req.force then req.acknowledged else None
  }

  /** In every interleaving a save replaces exactly the version its caller named, or nothing. */
  lemma ReplacedOnlyByName(trace: seq<Event>, i: nat, o: Order)
    requires i < |After(trace).log| && After(trace).log[i].author != Elsewhere
    requires var w := After(trace); w.log[i].author.id in w.calls ==> IsOrderOf(w.calls[w.log[i].author.id].req, o)
    ensures var w := After(trace); var landing := w.log[i];
      && landing.author.id in w.calls
      && landing.replaced.Some?
      && NamedBy(w.calls[landing.author.id].req, landing.author) == Some(landing.replaced.value.etag)
      && Apply(w.calls[landing.author.id].req.loaded, o) == Accepted(landing.version.document)
      && w.calls[landing.author.id].Done?
      && (landing.author.Direct? ==> w.calls[landing.author.id].outcome == Saved(landing.version, None))
  {
    hide Apply, Compare, Describe, OrderOf, Basis, IsOrderOf;
    EveryRunKeepsInv(trace);
    var w := After(trace);
    assert LandingHolds(w, i);
    OrderIsTheCallers(w.calls[w.log[i].author.id].req, o);
  }

  predicate LandedBy(w: World, id: CallId, i: nat) {
    i < |w.log| && w.log[i].author != Elsewhere && w.log[i].author.id == id
  }

  predicate Finished(w: World, id: CallId) {
    id in w.calls && w.calls[id].Done?
  }

  /** No call ever lands twice, and one that landed never answers with a conflict or a refusal. */
  lemma AtMostOneLanding(trace: seq<Event>, id: CallId, i: nat, j: nat)
    requires LandedBy(After(trace), id, i) && LandedBy(After(trace), id, j)
    ensures i == j
    ensures Finished(After(trace), id)
    ensures After(trace).calls[id].outcome.Saved? || After(trace).calls[id].outcome.Threw?
  {
    hide Apply, Compare, Describe, OrderOf, Basis;
    EveryRunKeepsInv(trace);
    assert LandingHolds(After(trace), i) && LandingHolds(After(trace), j);
  }

  predicate QuietOverwrite(w: World, id: CallId, i: nat) {
    LandedBy(w, id, i) && w.log[i].author.Forced? && !w.log[i].author.comparison.conflicted
  }

  /**
   * A finished call has a landing exactly when it answers `saved`, with one exception: a forced
   * write over a version whose comparison shows no change lands, and then throws because there
   * is no conflict to describe.
   */
  lemma LandedMeansSavedOrQuietOverwrite(trace: seq<Event>, id: CallId)
    requires Finished(After(trace), id)
    ensures var w := After(trace);
      && ((exists i :: LandedBy(w, id, i)) <==>
           w.calls[id].outcome.Saved? || (exists i :: QuietOverwrite(w, id, i)))
      && ((exists i :: QuietOverwrite(w, id, i)) ==> w.calls[id].outcome.Threw?)
  {
    hide Apply, Compare, OrderOf, Basis;
    EveryRunKeepsInv(trace);
    var w := After(trace);
    assert PhaseHolds(w, id, w.calls[id]);
    if w.calls[id].landed.Some? {
      var i := w.calls[id].landed.value;
      assert LandedBy(w, id, i) && LandingHolds(w, i);
      assert w.calls[id].outcome.Saved? || QuietOverwrite(w, id, i);
      forall j | LandedBy(w, id, j) ensures j == i { assert LandingHolds(w, j); }
    } else {
      forall i: nat ensures !LandedBy(w, id, i) {
        if i < |w.log| { assert LandingHolds(w, i); }
      }
    }
  }

  /** The request behind a forced landing, which named a version. */
  predicate ForcedBy(w: World, i: nat, call: Phase) {
    && i < |w.log|
    && w.log[i].author.Forced?
    && w.log[i].replaced.Some?
    && w.log[i].author.id in w.calls
    && w.calls[w.log[i].author.id] == call
    && call.Done?
    && call.req.acknowledged.Some?
  }

  /** The acknowledged tag is one the caller had been shown before it called. */
  predicate ShownBeforehand(call: Phase)
    requires call.req.acknowledged.Some?
  {
    call.req.acknowledged.value < call.begunAt
  }

  /**
   * The comparison an overwrite records was computed against the very version the write
   * discarded exactly when the acknowledged tag had been issued by the time of the conflict
   * read. A tag the caller was shown before it called always had been. The comparison tells of the caller's own
   * reading and never of a diverged history; with something discarded the answer carries the record of it, and
   * with nothing discarded there is no answer.
   */
  lemma OverwriteRecordsWhatItDiscarded(trace: seq<Event>, i: nat, call: Phase)
    requires ForcedBy(After(trace), i, call)
    ensures var landing := After(trace).log[i];
      && var comparison := landing.author.comparison;
      && TellsOfReading(call.req, landing.author.shown.document, comparison) && comparison.reason != HistoryDiverged
      && (landing.author.shown == landing.replaced.value <==>
           call.req.acknowledged.value < landing.author.readAt)
      && (ShownBeforehand(call) ==> landing.author.shown == landing.replaced.value)
      && call.req.force && call.req.acknowledged == Some(landing.replaced.value.etag)
      && (!comparison.conflicted ==> call.outcome == Threw)
      && (comparison.conflicted ==>
           && call.outcome.Saved? && call.outcome.version == landing.version && call.outcome.overwrote.Some?
           && Records(call.outcome.overwrote.value, comparison, call.req.order.actor, call.req.order.at))
  {
    hide Apply, Compare, Describe, OrderOf, Basis, TellsOfReading, Records;
    EveryRunKeepsInv(trace);
    var landing := After(trace).log[i];
    assert LandingHolds(After(trace), i);
    ComparedWithReading(call.req, landing.author.shown.document);
    DescribeIsExact(landing.author.comparison, call.req.order.actor, call.req.order.at);
  }

  lemma InvLanding(w: World, i: nat)
    requires Inv(w) && i < |w.log|
    ensures LandingHolds(w, i)
  {}

  /**
   * Nothing is destroyed without a trace. An overwrite naming a version its caller had been
   * shown keeps every entry of that version's history, in the new version or in the record,
   * provided the reading it compares with is not ahead of the revision it applied the command to.
   */
  lemma NothingDiscardedIsUnrecorded(trace: seq<Event>, i: nat, call: Phase, entry: Entry)
    requires ForcedBy(After(trace), i, call) && ShownBeforehand(call)
    requires call.req.priorReading.Some? ==> call.req.priorReading.value.history <= call.req.loaded.history
    requires entry in After(trace).log[i].replaced.value.document.history
    ensures var landing := After(trace).log[i];
      entry in landing.version.document.history || entry in landing.author.comparison.discarded
  {
    hide Describe, OrderOf, Basis, After, HeldAsIs, ShowsMoved, Records, Compare, Inv, IsReasonCode;
    EveryRunKeepsInv(trace);
    assert LandingHolds(After(trace), i) by { InvLanding(After(trace), i); }
    OverwriteRecordsWhatItDiscarded(trace, i, call);
    var landing := After(trace).log[i];
    var reading := if call.req.priorReading.Some? then call.req.priorReading.value else call.req.loaded;
    assert landing.replaced.value.document.history == reading.history + landing.author.comparison.discarded;
    assert landing.version.document == Next(call.req.loaded, OrderOf(call.req));
  }

  // ----- what every call answers

  /** At this step of the run the call read what is stored. */
  predicate ReadAt(trace: seq<Event>, j: nat, id: CallId, held: Option<Version>) {
    && j < |trace| && trace[j] == Advance(id)
    && id in After(trace[..j]).calls && After(trace[..j]).calls[id].Explaining?
    && After(trace[..j]).held == held
  }

  /** An answer without a write: the reducer's, or a report of what was stored when the call read it. */
  ghost predicate Explained(trace: seq<Event>, id: CallId, req: Request, outcome: SaveOutcome) {
    match outcome
    case Saved(_, _) => false
    case RefusedBy(refusal) => Apply(req.loaded, OrderOf(req)) == Refused(refusal) && !refusal.RevisionConflict?
    case Told(report) => !report.Incomparable? && exists j: nat, held :: ReadAt(trace, j, id, held) && Reports(req, held, report)
    case Threw =>
      || Apply(req.loaded, OrderOf(req)).Malformed?
      || exists j: nat, held :: ReadAt(trace, j, id, held) && Reports(req, held, Incomparable)
  }

  /** A step that ends a call without a write is its begin, or its read of what is stored. */
  lemma StepExplains(w: World, e: Event, id: CallId)
    requires !Finished(w, id) && Finished(Happen(w, e), id) && Happen(w, e).calls[id].landed.None?
    ensures var done := Happen(w, e).calls[id]; var applied := Apply(done.req.loaded, OrderOf(done.req));
      || (applied.Malformed? && done.outcome == Threw)
      || (applied.Refused? && !applied.refusal.RevisionConflict? && done.outcome == RefusedBy(applied.refusal))
      || (e == Advance(id) && id in w.calls && w.calls[id].Explaining?
          && done.outcome == AsOutcome(ConflictFrom(done.req, w.held)))
  {
    hide Apply, OrderOf, ConflictFrom, Overwritten, MayOverwrite;
  }

  lemma FinishedStays(w: World, e: Event, id: CallId)
    requires Finished(w, id)
    ensures Finished(Happen(w, e), id) && Happen(w, e).calls[id] == w.calls[id]
  {
    hide First, ConflictFrom, Overwritten, MayOverwrite;
  }

  /**
   * In every run a finished call that wrote nothing answers what the reducer refused, or reports what was stored
   * at a read of its own, compared with the caller's reading; where the two are of different revisions it throws.
   */
  lemma {:induction false} EveryAnswerIsExplained(trace: seq<Event>, id: CallId)
    requires Finished(After(trace), id) && After(trace).calls[id].landed.None?
    ensures Explained(trace, id, After(trace).calls[id].req, After(trace).calls[id].outcome)
  {
    hide Happen, Apply, OrderOf, ConflictFrom, Reports;
    var init, last := trace[..|trace| - 1], trace[|trace| - 1];
    var before, done := After(init), After(trace).calls[id];
    if Finished(before, id) {
      FinishedStays(before, last, id);
      EveryAnswerIsExplained(init, id);
      forall j: nat, held | ReadAt(init, j, id, held) ensures ReadAt(trace, j, id, held) {
        assert init[..j] == trace[..j];
      }
    } else {
      StepExplains(before, last, id);
      assert trace[..|init|] == init;
      if last == Advance(id) && id in before.calls && before.calls[id].Explaining? {
        assert ReadAt(trace, |init|, id, before.held);
        ReportIsOfReading(done.req, before.held);
      }
    }
  }

  /**
   * A caller whose number, stated or read before, is not that of the revision it loaded is told so: nothing is
   * written, and the reducer's other refusals are not reached.
   */
  lemma StaleReadingNeverLands(trace: seq<Event>, id: CallId, o: Order)
    requires Finished(After(trace), id)
    requires var req := After(trace).calls[id].req;
      IsOrderOf(req, o) && o.expectedRevisionNumber != req.loaded.revisionNumber
    ensures var call := After(trace).calls[id];
      && (forall i :: !LandedBy(After(trace), id, i))
      && (call.outcome.Told? || call.outcome.Threw?) && Explained(trace, id, call.req, call.outcome)
  {
    hide Compare, Describe, Basis, OrderOf, Apply, Reports, ReadAt;
    EveryRunKeepsInv(trace);
    var w := After(trace);
    var call := w.calls[id];
    OrderIsTheCallers(call.req, o);
    StaleIsConflict(call.req.loaded, o);
    assert PhaseHolds(w, id, call);
    forall i: nat ensures !LandedBy(w, id, i) {
      if i < |w.log| { assert LandingHolds(w, i); }
    }
    assert call.landed.Some? ==> LandedBy(w, id, call.landed.value);
    if call.landed.None? { EveryAnswerIsExplained(trace, id); }
  }

  lemma StaleIsConflict(r: Revision, o: Order)
    requires o.expectedRevisionNumber != r.revisionNumber
    ensures Apply(r, o) == Refused(RevisionConflict(o.expectedRevisionNumber, r.revisionNumber))
  {}

  /** What one save orders and nobody disturbs: at most a write, a conflict read and a forced write. */
  function UndisturbedSave(id: CallId, req: Request): seq<Event> {
    [Begin(id, req), Advance(id), Advance(id), Advance(id)]
  }

  /** The stored revision extends the caller's reading. */
  predicate ExtendsReading(req: Request, stored: Revision) {
    && !IsOfAnother(req, stored)
    && match req.priorReading
       case Some(reading) => reading.history <= stored.history
       case None => req.loaded.history <= stored.history
  }

  /**
   * Undisturbed over a stored version, a save writes exactly when the reducer accepts its order and it names that
   * version: as its own reading, or forced, as the version it acknowledged, where this one extends its reading.
   */
  lemma UndisturbedSaveLandsExactly(trace: seq<Event>, id: CallId, req: Request, o: Order, stored: Version)
    requires id !in After(trace).calls && After(trace).held == Some(stored) && IsOrderOf(req, o)
    ensures var before, after := After(trace), After(trace + UndisturbedSave(id, req));
      var lands := Apply(req.loaded, o).Accepted?
        && (req.etag == stored.etag
            || (req.force && req.acknowledged == Some(stored.etag) && ExtendsReading(req, stored.document)));
      && (lands ==>
           after.held == Some(Version(Apply(req.loaded, o).revision, before.issued)) && |after.log| == |before.log| + 1)
      && (!lands ==> after.held == before.held && after.log == before.log)
  {
    hide Apply, After, OrderOf, Overwritten;
    OrderIsTheCallers(req, o);
    var e := UndisturbedSave(id, req);
    AfterOneMore(trace, e[0]);
    AfterOneMore(trace + [e[0]], e[1]);
    AfterOneMore(trace + [e[0]] + [e[1]], e[2]);
    AfterOneMore(trace + [e[0]] + [e[1]] + [e[2]], e[3]);
    assert trace + e == trace + [e[0]] + [e[1]] + [e[2]] + [e[3]];
    MayOverwriteExactly(req, stored);
  }

  lemma MayOverwriteExactly(req: Request, stored: Version)
    ensures MayOverwrite(req, ConflictFrom(req, Some(stored))) <==>
      req.force && req.acknowledged.Some? && ExtendsReading(req, stored.document)
  {
    hide Compare, Basis, HeldAsIs, ShowsMoved;
    ComparedWithReading(req, stored.document);
  }

  lemma AfterOneMore(trace: seq<Event>, e: Event)
    ensures After(trace + [e]) == Happen(After(trace), e)
  {
    assert (trace + [e])[..|trace|] == trace;
  }

  // ----- the two ways a forced save departs from its promise

  const Author0: Revision := NewRevision("revision-0001", "platform", 1, "author", 0, ["gateway-policy"])
  const EditOrder: Order := Order(Edit, "editor", 1, 1, None, None, None, None)
  const Edited: Revision := Next(Author0, EditOrder)
  const EditedTwice: Revision := Next(Edited, EditOrder)

  /** A forced save whose acknowledged tag is issued only between its conflict read and its second write. */
  lemma ForcedRace(req: Request, next: Revision, first: Revision, second: Revision, comparison: Comparison)
    returns (trace: seq<Event>)
    requires First(req, 1) == Putting(req, 1, next)
    requires req.etag == 9 && req.acknowledged == Some(1)
    requires ConflictFrom(req, Some(Version(first, 0))) == Conflict(comparison, Version(first, 0))
    requires MayOverwrite(req, Conflict(comparison, Version(first, 0)))
    ensures var w := After(trace);
      && |w.log| == 3
      && 7 in w.calls
      && ForcedBy(w, 2, w.calls[7])
      && w.calls[7].outcome == Overwritten(req, comparison, w.log[2].version)
      && w.log[2].author.shown.document == first
      && w.log[2].replaced.value.document == second
  {
    hide First, ConflictFrom, MayOverwrite, Overwritten;
    var t1 := [WrittenElsewhere(first)];
    AfterOneMore([], WrittenElsewhere(first));
    assert [] + t1 == t1;
    AfterOneMore(t1, Begin(7, req));
    var t2 := t1 + [Begin(7, req)];
    AfterOneMore(t2, Advance(7));
    var t3 := t2 + [Advance(7)];
    assert After(t3).calls[7] == Explaining(req, 1, ThenOverwrite(next));
    AfterOneMore(t3, Advance(7));
    var t4 := t3 + [Advance(7)];
    assert After(t4).calls[7] == Overwriting(req, 1, next, comparison, Version(first, 0), 1);
    AfterOneMore(t4, WrittenElsewhere(second));
    var t5 := t4 + [WrittenElsewhere(second)];
    AfterOneMore(t5, Advance(7));
    trace := t5 + [Advance(7)];
  }

  /**
   * With a tag guessed before it was issued, the record describes another version than the one destroyed:
   * the read saw the first edit, the write discarded the second.
   */
  lemma GuessedTagMisreports() returns (trace: seq<Event>)
    ensures var w := After(trace);
      && |w.log| == 3
      && 7 in w.calls
      && ForcedBy(w, 2, w.calls[7])
      && w.calls[7].outcome.Saved?
      && w.log[2].author.shown.document == Edited
      && w.log[2].replaced.value.document == EditedTwice
  {
    hide After;
    var req := Request(Author0, 9, EditOrder, None, true, Some(1), None);
    assert Apply(req.loaded, OrderOf(req)) == Accepted(Edited);
    var report := ConflictFrom(req, Some(Version(Edited, 0)));
    assert !Diverged(Author0.history, Edited.history);
    assert Overwritten(req, report.comparison, Version(Edited, 2)).Saved?;
    trace := ForcedRace(req, Edited, Edited, EditedTwice, report.comparison);
  }

  predicate DistinctCodes(targets: seq<Target>) {
    forall j, k :: 0 <= j < k < |targets| ==> targets[j].code != targets[k].code
  }

  /**
   * A stale tag beside a fresh reading, confirmed against the stored version: whatever the
   * command, the forced write lands and the call throws instead of answering.
   */
  lemma QuietOverwriteHappens(req: Request, next: Revision) returns (trace: seq<Event>)
    requires Apply(req.loaded, OrderOf(req)) == Accepted(next)
    requires req.etag == 9 && req.force && req.acknowledged == Some(0) && req.priorReading.None?
    requires DistinctCodes(req.loaded.targets)
    ensures var w := After(trace);
      && Finished(w, 7)
      && QuietOverwrite(w, 7, 1)
      && w.calls[7].outcome.Threw?
      && w.held == Some(Version(next, 1))
  {
    hide Apply;
    SelfComparisonIsQuiet(req.loaded);
    CompareIsExact(req.loaded, req.loaded);
    var comparison := Compare(req.loaded, req.loaded).value;
    assert Compare(Basis(req), req.loaded) == Some(comparison);
    hide First, Compare, Basis;
    var e := WrittenElsewhere(req.loaded);
    AfterOneMore([], e);
    assert [] + [e] == [e];
    AfterOneMore([e], Begin(7, req));
    var t2 := [e] + [Begin(7, req)];
    AfterOneMore(t2, Advance(7));
    var t3 := t2 + [Advance(7)];
    assert After(t3).calls[7] == Explaining(req, 1, ThenOverwrite(next));
    AfterOneMore(t3, Advance(7));
    var t4 := t3 + [Advance(7)];
    assert After(t4).calls[7] == Overwriting(req, 1, next, comparison, Version(req.loaded, 0), 1);
    AfterOneMore(t4, Advance(7));
    trace := t4 + [Advance(7)];
  }

  // ----- the writer itself

  /** Events of calls other than this one; they cannot touch its phase. */
  predicate OnlyOthers(events: seq<Event>, id: CallId) {
    forall i :: 0 <= i < |events| ==>
      match events[i]
      case Begin(other, _) => other != id
      case Advance(other) => other != id
      case _ => true
  }

  lemma {:induction false} OthersKeepPhase(trace: seq<Event>, events: seq<Event>, id: CallId)
    requires OnlyOthers(events, id)
    ensures id in After(trace + events).calls <==> id in After(trace).calls
    ensures id in After(trace).calls ==> After(trace + events).calls[id] == After(trace).calls[id]
  {
    hide First, ConflictFrom, MayOverwrite, AsOutcome, Overwritten;
    if events == [] {
      assert trace + events == trace;
    } else {
      var init, last := events[..|events| - 1], events[|events| - 1];
      OthersKeepPhase(trace, init, id);
      assert trace + events == (trace + init) + [last];
      AfterOneMore(trace + init, last);
    }
  }

  /** The revision store as one writer sees it: what is held, and every event so far as ghost history. */
  class RevisionStore {
    var held: Option<Version>
    var issued: Tag
    ghost var trace: seq<Event>

    ghost predicate Valid()
      reads this
    {
      held == After(trace).held && issued == After(trace).issued
    }

    constructor ()
      ensures Valid() && trace == []
    {
      held, issued, trace := None, 0, [];
    }

    /** Everything other callers do while this one awaits. */
    method OthersAct(ghost id: CallId)
      requires Valid()
      modifies this
      ensures Valid()
      ensures old(trace) <= trace && OnlyOthers(trace[|old(trace)|..], id)
    {}

    method Read() returns (version: Option<Version>)
      ensures version == held
    {
      version := held;
    }

    /** A conditional write; `None` is the thrown ConcurrencyConflictError. */
    method Put(document: Revision, ifMatch: Tag) returns (written: Option<Version>)
      modifies this`held, this`issued
      ensures written == if old(Matches(held, ifMatch)) then Some(Version(document, old(issued))) else None
      ensures held == if written.Some? then written else old(held)
      ensures issued == if written.Some? then old(issued) + 1 else old(issued)
    {
      if held.None? || held.value.etag != ifMatch { return None; }
      held := Some(Version(document, issued));
      issued := issued + 1;
      return held;
    }
  }

  class Writer {
    const store: RevisionStore

    constructor (store: RevisionStore)
      ensures this.store == store
    {
      this.store := store;
    }

    ghost predicate InPhase(id: CallId, phase: Phase)
      reads store
    {
      store.Valid() && id in After(store.trace).calls && After(store.trace).calls[id] == phase
    }

    /** One access to the store by this call has just happened. */
    ghost method Record(e: Event)
      requires var w := Happen(After(store.trace), e); store.held == w.held && store.issued == w.issued
      modifies store`trace
      ensures store.trace == old(store.trace) + [e] && store.Valid()
      ensures After(store.trace) == Happen(old(After(store.trace)), e)
    {
      AfterOneMore(store.trace, e);
      store.trace := store.trace + [e];
    }

    method Await(ghost id: CallId, ghost phase: Phase)
      requires InPhase(id, phase)
      modifies store
      ensures InPhase(id, phase) && old(store.trace) <= store.trace
    {
      ghost var before := store.trace;
      store.OthersAct(id);
      OthersKeepPhase(before, store.trace[|before|..], id);
      assert store.trace == before + store.trace[|before|..];
    }

    method ReadForEdit() returns (reading: Option<Version>)
      ensures reading == store.held
    {
      reading := store.Read();
    }

    /** Reads what is stored now and compares it with what the caller had read. */
    method ConflictReport(ghost id: CallId, req: Request, ghost begunAt: nat, ghost intent: Intent)
      returns (report: Report)
      requires InPhase(id, Explaining(req, begunAt, intent))
      modifies store
      ensures store.Valid() && old(store.trace) <= store.trace
      ensures report == ConflictFrom(req, store.held) && Reports(req, store.held, report)
      ensures InPhase(id,
        if intent.ThenOverwrite? && MayOverwrite(req, report)
        then Overwriting(req, begunAt, intent.next, report.comparison, report.shown, store.issued)
        else Done(req, begunAt, AsOutcome(report), None))
    {
      hide Apply, Compare, First, OrderOf, Basis, Reports;
      Await(id, Explaining(req, begunAt, intent));
      var held := store.Read();
      ReportIsOfReading(req, held);
      report := ConflictFrom(req, held);
      Record(Advance(id));
    }

    /** Writes against the version this phase names, and learns whether it was still the stored one. */
    method Write(ghost id: CallId, ghost phase: Phase, document: Revision, ifMatch: Tag)
      returns (written: Option<Version>)
      requires InPhase(id, phase)
      requires phase.Putting? || phase.Overwriting?
      requires document == phase.next
      requires if phase.Putting? then ifMatch == phase.req.etag else phase.req.acknowledged == Some(ifMatch)
      modifies store
      ensures store.Valid() && old(store.trace) <= store.trace
      ensures id in After(store.trace).calls
      ensures var now := After(store.trace).calls[id];
        match written
        case None =>
          now == Explaining(phase.req, phase.begunAt, if phase.Putting? then ThenOverwrite(phase.next) else ReportOnly)
        case Some(version) =>
          && now.Done?
          && now.req == phase.req
          && now.outcome == if phase.Putting? then Saved(version, None)
                            else Overwritten(phase.req, phase.comparison, version)
    {
      hide Apply, Compare, Describe, OrderOf, Basis, ConflictFrom, Overwritten, MayOverwrite;
      Await(id, phase);
      written := store.Put(document, ifMatch);
      Record(Advance(id));
    }

    /**
     * `save`, step for step, with every other caller free to act at each await. Its execution is
     * a run of the machine above, and its answer is the answer the machine gives this call.
     */
    method Save(ghost id: CallId, req: Request) returns (outcome: SaveOutcome)
      requires store.Valid() && id !in After(store.trace).calls
      modifies store
      ensures store.Valid() && old(store.trace) <= store.trace
      ensures Finished(After(store.trace), id)
      ensures After(store.trace).calls[id].outcome == outcome && After(store.trace).calls[id].req == req
      ensures outcome.Told? && outcome.report.Conflict? ==>
        TellsOfReading(req, outcome.report.shown.document, outcome.report.comparison)
    {
      hide Apply, Compare, OrderOf, Basis, ConflictFrom, Describe, TellsOfReading, After, IsOfAnother;
      ghost var begunAt := store.issued;
      Record(Begin(id, req));
      var next;
      match Apply(req.loaded, OrderOf(req)) {
        case Malformed =>
          return Threw;
        case Refused(refusal) =>
          if refusal.RevisionConflict? {
            var report := ConflictReport(id, req, begunAt, ReportOnly);
            return AsOutcome(report);
          }
          return RefusedBy(refusal);
        case Accepted(revision) =>
          next := revision;
      }

      var written := Write(id, Putting(req, begunAt, next), next, req.etag);
      if written.Some? {
        return Saved(written.value, None);
      }

      var conflict := ConflictReport(id, req, begunAt, ThenOverwrite(next));
      if !req.force || !conflict.Conflict? || conflict.comparison.reason == HistoryDiverged {
        return AsOutcome(conflict);
      }
      if req.acknowledged.None? {
        return AsOutcome(conflict);
      }

      ghost var confirmed := Overwriting(req, begunAt, next, conflict.comparison, conflict.shown, store.issued);
      var overwritten := Write(id, confirmed, next, req.acknowledged.value);
      if overwritten.None? {
        var report := ConflictReport(id, req, begunAt, ReportOnly);
        return AsOutcome(report);
      }
      return Overwritten(req, conflict.comparison, overwritten.value);
    }
  }
}
