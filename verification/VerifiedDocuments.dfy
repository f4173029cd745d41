/**
 * When a put touches the documents of a target recorded as verified. While an attempt's version is the stored
 * one it does so exactly when the revision repeats a code; an attempt that was overtaken does so freely. Each
 * departure comes with a run that reaches it from a fresh publishing revision.
 */
module VerifiedDocuments {
  import opened Common
  import opened Json
  import L = Lifecycle
  import opened GovernancePublisher
  import opened ProposalPublication

  /** Some target of this code is recorded as verified. */
  predicate VerifiedCode(targets: seq<L.Target>, code: string) {
    exists k :: 0 <= k < |targets| && targets[k].outcome == L.Verified && targets[k].code == code
  }

  predicate CodesDiffer(targets: seq<L.Target>) {
    forall i, j :: 0 <= i < j < |targets| ==> targets[i].code != targets[j].code
  }

  /**
   * A put by an attempt whose version is the stored one hits a document of a verified target exactly when the
   * target in hand repeats the code of one already verified; so with distinct codes it never does, and only an
   * overtaken attempt puts such a document.
   */
  lemma PutHitsVerifiedExactly(s: Setup, w: World, trace: seq<Event>, id: AttemptId, put: Entry)
    requires Inv(s, w) && put.Wrote?
    requires Happen(s, After(s, w, trace), Advance(id)).log == After(s, w, trace).log + [put]
    ensures var before := After(s, w, trace);
      && id in before.attempts && before.attempts[id].Attempting?
      && var p := before.attempts[id];
      && p.index < |p.start.targets|
      && var stored := before.revision.value.targets;
      && (before.revision.tag == p.tag ==>
           (VerifiedCode(stored, CodeOf(put.id)) <==> VerifiedCode(p.start.targets, p.start.targets[p.index].code)))
      && (CodesDiffer(stored) && VerifiedCode(stored, CodeOf(put.id)) ==> before.revision.tag != p.tag)
  {
    hide After, Happen, PlanOf, Inv;
    PutsOnlyPendingTargets(s, w, trace, id, put);
  }

  /** Overtaken, an attempt goes on putting its documents, one verified meanwhile among them. */
  lemma OvertakenAttemptStillPuts(s: Setup, w: World, trace: seq<Event>, id: AttemptId)
    requires Inv(s, w)
    requires var before := After(s, w, trace);
      && id in before.attempts && before.attempts[id].Attempting?
      && var p := before.attempts[id];
      && p.stage.Ask? && p.index < |p.start.targets| && p.plan.jobs != []
      && p.tag != before.revision.tag
      && VerifiedCode(before.revision.value.targets, p.start.targets[p.index].code)
    ensures var before := After(s, w, trace); var job := before.attempts[id].plan.jobs[0];
      var after := After(s, w, trace + [Advance(id), Advance(id)]);
      && after.log == before.log + [Wrote(Some(id), job.id, job.document)]
      && after.documents == before.documents[job.id := Stored(job.document, before.nextTag)]
      && after.revision == before.revision && VerifiedCode(after.revision.value.targets, CodeOf(job.id))
  {
    hide After, Inv, Credible, VersionsHold, PlanOf, Progressed, JobVerified, L.Continues, Finish, Matches, PendingCodes;
    hide CodesOf, VerifiedCode;
    var before := After(s, w, trace);
    var p := before.attempts[id];
    EveryRunKeepsInv(s, w, trace);
    InvPhase(s, before, id);
    assert PlanOf(s, p.start.targets[p.index].code, p.at).jobs[|p.finished|] == p.plan.jobs[0];
    PlanWritesOwnCode(s, p.start.targets[p.index].code, p.at, p.plan.jobs[0]);
    AfterOneMore(s, w, trace, Advance(id));
    AfterOneMore(s, w, trace + [Advance(id)], Advance(id));
    assert trace + [Advance(id), Advance(id)] == (trace + [Advance(id)]) + [Advance(id)];
  }

  // ----- parts of runs

  lemma {:induction false} AfterAppend(s: Setup, w: World, first: seq<Event>, second: seq<Event>)
    ensures After(s, w, first + second) == After(s, After(s, w, first), second)
    decreases |second|
  {
    hide Happen;
    if second == [] {
      assert first + second == first;
    } else {
      var init, last := second[..|second| - 1], second[|second| - 1];
      AfterAppend(s, w, first, init);
      assert first + second == (first + init) + [last];
      AfterOneMore(s, w, first + init, last);
    }
  }

  lemma AfterOne(s: Setup, w: World, e: Event)
    ensures After(s, w, [e]) == Happen(s, w, e)
  {
    AfterOneMore(s, w, [], e);
    assert [] + [e] == [e];
  }

  /** The target's content is there, is accepted, and reads back as a match. */
  predicate Writable(s: Setup, kind: Kind, at: Instant) {
    && HasSnapshot(s.content, kind)
    && var document := SnapshotDocument(s.scope, kind, s.content.snapshots[kind]);
    && s.accepts(document, at) && s.accepts(s.hydrate(document), at) && Matches(s.hydrate(document), document)
  }

  lemma PlanOfWritable(s: Setup, kind: Kind, at: Instant)
    requires Writable(s, kind, at)
    ensures PlanOf(s, SnapshotTargetCode(kind), at) == Plan([SnapshotJob(s, kind)], None)
  {
    hide KindOf, SnapshotTargetCode, SnapshotDocument, Matches;
    TargetCodeReadsBack(kind);
  }

  /** An attempt about to ask for the one document of a writable target. */
  ghost predicate AtDocument(s: Setup, w: World, id: AttemptId, kind: Kind) {
    && id in w.attempts && w.attempts[id].Attempting?
    && var p := w.attempts[id];
    && p.index < |p.start.targets| && Writable(s, kind, p.at)
    && p.plan == Plan([SnapshotJob(s, kind)], None) && p.stage == Ask && p.finished == []
  }

  function Asks(id: AttemptId): seq<Event> { [Advance(id), Advance(id)] }

  /** The version is asked for and the document put. */
  lemma DocumentIsPut(s: Setup, w: World, id: AttemptId, kind: Kind)
    requires AtDocument(s, w, id, kind)
    ensures var after := After(s, w, Asks(id));
      after == Enter(w.(documents := w.documents[SnapshotId(kind) := Stored(SnapshotJob(s, kind).document, w.nextTag)],
                        nextTag := w.nextTag + 1,
                        log := w.log + [Wrote(Some(id), SnapshotId(kind), SnapshotJob(s, kind).document)]),
                     id, w.attempts[id].(stage := Check))
  {
    hide After, Finish, Matches, SnapshotDocument;
    AfterOne(s, w, Advance(id));
    AfterAppend(s, w, [Advance(id)], [Advance(id)]);
    AfterOne(s, After(s, w, [Advance(id)]), Advance(id));
    assert [Advance(id)] + [Advance(id)] == Asks(id);
    var asked := Happen(s, w, Advance(id));
    assert w.attempts[id := w.attempts[id].(stage := Send(TagOf(w.documents, SnapshotId(kind))))]
      [id := w.attempts[id].(stage := Check)] == w.attempts[id := w.attempts[id].(stage := Check)];
  }

  /** And then it is read back, and the target ends. */
  lemma TargetIsDone(s: Setup, w: World, id: AttemptId, kind: Kind)
    requires AtDocument(s, w, id, kind)
    ensures var after := After(s, w, Asks(id) + Asks(id));
      && after.revision == w.revision && after.versions == w.versions && after.nextTag > w.nextTag
      && after.attempts == w.attempts[id := Finish(s, w.attempts[id], None)]
  {
    hide After, Finish, Matches, SnapshotDocument;
    DocumentIsPut(s, w, id, kind);
    var put := After(s, w, Asks(id));
    AfterAppend(s, w, Asks(id), Asks(id));
    AfterAppend(s, put, [Advance(id)], [Advance(id)]);
    assert [Advance(id)] + [Advance(id)] == Asks(id);
    AfterOne(s, put, Advance(id));
    var checked := Happen(s, put, Advance(id));
    AfterOne(s, checked, Advance(id));
    FinishIgnoresJobs(s, w.attempts[id], checked.attempts[id], None);
  }

  /** A revision being published, with these outcomes so far. */
  predicate Going(r: Revision, number: int, targets: seq<L.Target>) {
    r.state == L.Publishing && r.revisionNumber == number && r.targets == targets
  }

  /** What a resume of a revision left publishing does up to its first target. */
  function ResumeEvents(id: AttemptId, r: Revision, actor: string, now: Instant, at: Instant): seq<Event> {
    [Begin(id), Command(id, FailOrder(r, actor, now)),
     Command(id, OrderOf(L.Retry, r, actor, now)), Target(id, at)]
  }

  lemma FailAndRetryAreAccepted(r: Revision, actor: string, now: Instant)
    requires r.state == L.Publishing && ReasonsGiven(r.targets)
    ensures var failed := L.Apply(r, FailOrder(r, actor, now));
      && failed.Accepted?
      && var retried := L.Apply(failed.revision, OrderOf(L.Retry, r, actor, now));
      && retried.Accepted? && Going(retried.revision, r.revisionNumber, L.ResetForRetry(r.targets))
  {
    hide IsReasonCode, FirstFailureReason, L.ResetForRetry, L.UnverifiedCodes;
    FirstFailureReasonIsCode(r.targets);
  }

  lemma ResumeTakesUp(s: Setup, w: World, id: AttemptId, actor: string, now: Instant, at: Instant)
    requires id !in w.attempts && w.revision.value.state == L.Publishing && ReasonsGiven(w.revision.value.targets)
    ensures var after := After(s, w, ResumeEvents(id, w.revision.value, actor, now, at));
      && after.documents == w.documents && after.log == w.log
      && after.revision.tag == w.nextTag + 1 && after.nextTag == w.nextTag + 2
      && Going(after.revision.value, w.revision.value.revisionNumber, L.ResetForRetry(w.revision.value.targets))
      && after.attempts ==
           w.attempts[id := Arrive(s, after.revision.tag, after.revision.value, after.revision.value, at, 0, [])]
  {
    hide After, Arrive, OrderOf, FirstFailureReason, L.ResetForRetry, L.Apply;
    var r := w.revision.value;
    FailAndRetryAreAccepted(r, actor, now);
    var e := ResumeEvents(id, r, actor, now, at);
    AfterOne(s, w, e[0]);
    AfterOneMore(s, w, [e[0]], e[1]);
    AfterOneMore(s, w, [e[0], e[1]], e[2]);
    AfterOneMore(s, w, [e[0], e[1], e[2]], e[3]);
    assert [e[0]] + [e[1]] == [e[0], e[1]] && [e[0], e[1]] + [e[2]] == [e[0], e[1], e[2]];
    assert e == [e[0], e[1], e[2]] + [e[3]];
  }

  lemma TakenUp(s: Setup, w: World, id: AttemptId, at: Instant)
    requires id !in w.attempts
    ensures After(s, w, [Begin(id), Target(id, at)]) ==
      Enter(w, id, Arrive(s, w.revision.tag, w.revision.value, w.revision.value, at, 0, []))
  {
    hide After, Arrive;
    AfterOne(s, w, Begin(id));
    AfterOneMore(s, w, [Begin(id)], Target(id, at));
    assert [Begin(id), Target(id, at)] == [Begin(id)] + [Target(id, at)];
    var a := w.attempts[id := Held(w.revision.value, w.revision.tag)];
    var p := Arrive(s, w.revision.tag, w.revision.value, w.revision.value, at, 0, []);
    assert a[id := p] == w.attempts[id := p];
  }

  /** A target of this code, in the state a fresh or retried attempt finds it. */
  function Waiting(kind: Kind): L.Target { L.Target(SnapshotTargetCode(kind), L.Pending, None) }

  function Done(kind: Kind): L.Target { L.Target(SnapshotTargetCode(kind), L.Verified, None) }

  function Arrived(s: Setup, tag: nat, start: Revision, current: Revision, at: Instant, index: nat, kind: Kind,
                   attempted: seq<Attempted>): Phase
    requires HasSnapshot(s.content, kind)
  {
    Attempting(tag, start, current, at, index, [], Plan([SnapshotJob(s, kind)], None), Ask, attempted)
  }

  lemma ArrivesAtWaiting(s: Setup, tag: nat, start: Revision, current: Revision, at: Instant, from: nat, index: nat,
                         kind: Kind, attempted: seq<Attempted>)
    requires from <= index < |start.targets| && start.targets[index] == Waiting(kind) && Writable(s, kind, at)
    requires forall k :: from <= k < index ==> start.targets[k].outcome != L.Pending
    ensures Arrive(s, tag, start, current, at, from, attempted) ==
      Arrived(s, tag, start, current, at, index, kind, attempted)
  {
    hide SnapshotTargetCode, PlanOf, SnapshotDocument, Matches;
    PlanOfWritable(s, kind, at);
  }

  /** The whole target, from asking to its outcome, and the next target is taken up. */
  lemma TargetVerifies(s: Setup, w: World, id: AttemptId, kind: Kind, f: nat) returns (current: Revision)
    requires AtDocument(s, w, id, kind)
    requires var p := w.attempts[id];
      && p.start.targets[p.index].code == SnapshotTargetCode(kind)
      && p.current.state == L.Publishing && f == L.FindTarget(p.current.targets, SnapshotTargetCode(kind))
      && f < |p.current.targets| && p.current.targets[f] in [Waiting(kind), Done(kind)]
    ensures var p := w.attempts[id]; var after := After(s, w, Asks(id) + Asks(id));
      && after.revision == w.revision && after.versions == w.versions && after.nextTag > w.nextTag
      && Going(current, p.current.revisionNumber, p.current.targets[f := Done(kind)])
      && after.attempts == w.attempts[id :=
           Arrive(s, p.tag, p.start, current, p.at, p.index + 1,
                  p.attempted + [Attempted(SnapshotTargetCode(kind), L.Verified, None)])]
  {
    hide After, Finish, Arrive, SnapshotTargetCode, Asks;
    var p := w.attempts[id];
    TargetIsDone(s, w, id, kind);
    FinishIs(s, p, None);
    var code := SnapshotTargetCode(kind);
    RecordsVerified(p.current, kind, f, p.at);
    current := L.RecordOutcome(p.current, code, L.Verified, p.at, None).revision;
  }

  lemma RecordsVerified(r: Revision, kind: Kind, f: nat, at: Instant)
    requires r.state == L.Publishing && f == L.FindTarget(r.targets, SnapshotTargetCode(kind)) && f < |r.targets|
    requires r.targets[f] in [Waiting(kind), Done(kind)]
    ensures var recorded := L.RecordOutcome(r, SnapshotTargetCode(kind), L.Verified, at, None);
      && recorded.Accepted? && Going(recorded.revision, r.revisionNumber, r.targets[f := Done(kind)])
  {
    hide SnapshotTargetCode, L.FindTarget;
  }

  /** The end of an attempt: its revision is put against its own version. */
  lemma AttemptIsStored(s: Setup, w: World, id: AttemptId, start: Revision, current: Revision, at: Instant,
                        attempted: seq<Attempted>)
    requires id in w.attempts
    requires w.attempts[id] == Arrive(s, w.revision.tag, start, current, at, |start.targets|, attempted)
    ensures After(s, w, [Advance(id)]) == Enter(Replace(w, current), id, Held(current, w.nextTag))
  {
    hide After, Finish, Arrive;
    ArrivedAtEnd(s, w.revision.tag, start, current, at, attempted);
    AfterOne(s, w, Advance(id));
  }

  function WholeAttempt(id: AttemptId): seq<Event> { Asks(id) + Asks(id) + [Advance(id)] }

  /** An attempt over one writable target stores it as verified. */
  lemma SoleTargetVerifies(s: Setup, w: World, id: AttemptId, r: Revision, kind: Kind, at: Instant)
    requires id in w.attempts && Writable(s, kind, at) && Going(r, r.revisionNumber, [Waiting(kind)])
    requires w.attempts[id] == Arrive(s, w.revision.tag, r, r, at, 0, [])
    ensures var after := After(s, w, WholeAttempt(id));
      && Going(after.revision.value, r.revisionNumber, [Done(kind)])
      && w.nextTag <= after.revision.tag < after.nextTag
      && after.versions == w.versions + [after.revision.value]
      && after.attempts == w.attempts[id := Held(after.revision.value, after.revision.tag)]
  {
    hide After, Arrive, SnapshotTargetCode, Asks, Writable, Finish;
    ArrivesAtWaiting(s, w.revision.tag, r, r, at, 0, 0, kind, []);
    assert L.FindTarget(r.targets, SnapshotTargetCode(kind)) == 0;
    var current := TargetVerifies(s, w, id, kind, 0);
    var done := After(s, w, Asks(id) + Asks(id));
    var attempted := [Attempted(SnapshotTargetCode(kind), L.Verified, None)];
    assert r.targets[0 := Done(kind)] == [Done(kind)];
    AttemptIsStored(s, done, id, r, current, at, [] + attempted);
    AfterAppend(s, w, Asks(id) + Asks(id), [Advance(id)]);
  }

  // ----- a put by an overtaken attempt

  /** One attempt takes up its target; a resume overtakes it and completes; others then replace the document. */
  function OvertakingRun(r: Revision, kind: Kind, first: AttemptId, second: AttemptId, actor: string, now: Instant,
                         at: Instant, end: Instant, newer: Json): seq<Event>
  {
    [Begin(first), Target(first, at)] + ResumeEvents(second, r, actor, now, at) + WholeAttempt(second)
      + [Command(second, OrderOf(L.Complete, r, actor, end)), ElsewhereDocument(SnapshotId(kind), Some(newer))]
  }

  lemma CompleteIsAccepted(r: Revision, was: Revision, kind: Kind, actor: string, end: Instant)
    requires Going(r, was.revisionNumber, [Done(kind)])
    ensures var completed := L.Apply(r, OrderOf(L.Complete, was, actor, end));
      completed.Accepted? && completed.revision.state == L.Active && completed.revision.targets == r.targets
  {
    hide SnapshotTargetCode;
  }

  /** Where that run leaves the two attempts, the revision and the document. */
  lemma OvertakingRunLeads(s: Setup, r: Revision, documents: map<DocId, Json>, kind: Kind, first: AttemptId,
                           second: AttemptId, actor: string, now: Instant, at: Instant, end: Instant, newer: Json)
    requires Going(r, r.revisionNumber, [Waiting(kind)]) && Writable(s, kind, at) && first != second
    ensures var after := After(s, Initial(r, documents), OvertakingRun(r, kind, first, second, actor, now, at, end, newer));
      && after.revision.value.state == L.Active && after.revision.value.targets == [Done(kind)]
      && after.revision.tag > 0 && DocumentOf(after, SnapshotId(kind)) == Some(newer)
      && first in after.attempts && after.attempts[first] == Arrived(s, 0, r, r, at, 0, kind, [])
  {
    hide After, Arrive, SnapshotTargetCode, Writable, ResumeEvents, WholeAttempt, L.Apply, OrderOf, PlanOf, L.ResetForRetry;
    var w := Initial(r, documents);
    var e0 := [Begin(first), Target(first, at)];
    TakenUp(s, w, first, at);
    ArrivesAtWaiting(s, 0, r, r, at, 0, 0, kind, []);
    var w0 := After(s, w, e0);
    var e1 := ResumeEvents(second, r, actor, now, at);
    assert ReasonsGiven(r.targets);
    ResumeTakesUp(s, w0, second, actor, now, at);
    AfterAppend(s, w, e0, e1);
    var w1 := After(s, w0, e1);
    assert L.ResetForRetry(r.targets) == [Waiting(kind)];
    SoleTargetVerifies(s, w1, second, w1.revision.value, kind, at);
    AfterAppend(s, w, e0 + e1, WholeAttempt(second));
    var w2 := After(s, w1, WholeAttempt(second));
    var complete := Command(second, OrderOf(L.Complete, r, actor, end));
    var replace := ElsewhereDocument(SnapshotId(kind), Some(newer));
    CompleteIsAccepted(w2.revision.value, r, kind, actor, end);
    AfterOne(s, w2, complete);
    AfterOneMore(s, w2, [complete], replace);
    assert [complete] + [replace] == [complete, replace];
    AfterAppend(s, w, e0 + e1 + WholeAttempt(second), [complete, replace]);
  }

  /**
   * So a revision that became active, whose target is verified, still has that target's document rewritten by the
   * attempt it overtook, over whatever others published there since.
   */
  lemma OvertakenRewriteHappens(s: Setup, r: Revision, documents: map<DocId, Json>, kind: Kind, first: AttemptId,
                                second: AttemptId, actor: string, now: Instant, at: Instant, end: Instant, newer: Json)
    requires L.Sound(r) && Going(r, r.revisionNumber, [Waiting(kind)]) && Writable(s, kind, at) && first != second
    ensures var w := Initial(r, documents); var run := OvertakingRun(r, kind, first, second, actor, now, at, end, newer);
      var before, after := After(s, w, run), After(s, w, run + Asks(first));
      && Inv(s, w)
      && before.revision.value.state == L.Active
      && VerifiedCode(before.revision.value.targets, CodeOf(SnapshotId(kind)))
      && DocumentOf(before, SnapshotId(kind)) == Some(newer)
      && after.revision == before.revision
      && DocumentOf(after, SnapshotId(kind)) == Some(SnapshotJob(s, kind).document)
      && after.log == before.log + [Wrote(Some(first), SnapshotId(kind), SnapshotJob(s, kind).document)]
  {
    hide After, SnapshotTargetCode, Matches, OvertakingRun, Inv, SnapshotDocument;
    FreshRevisionHolds(s, r, documents);
    OvertakingRunLeads(s, r, documents, kind, first, second, actor, now, at, end, newer);
    var w, run := Initial(r, documents), OvertakingRun(r, kind, first, second, actor, now, at, end, newer);
    var before := After(s, w, run);
    assert before.revision.value.targets[0] == Done(kind);
    assert CodeOf(SnapshotId(kind)) == SnapshotTargetCode(kind) by { CodeIsTargetCode(kind); }
    DocumentIsPut(s, before, first, kind);
    AfterAppend(s, w, run, Asks(first));
  }

  lemma CodeIsTargetCode(kind: Kind)
    ensures CodeOf(SnapshotId(kind)) == SnapshotTargetCode(kind)
  {}

  // ----- a revision that declares one target twice

  /** An attempt over a target declared twice, to its end. */
  function RepeatingRun(first: AttemptId, at: Instant): seq<Event> {
    [Begin(first), Target(first, at)] + (Asks(first) + Asks(first)) + (Asks(first) + Asks(first)) + [Advance(first)]
  }

  /**
   * It records both outcomes on the first of the two targets: the stored revision is left publishing, with the
   * second one pending, and no command settles it.
   */
  lemma RepeatedCodeStaysPending(s: Setup, r: Revision, documents: map<DocId, Json>, kind: Kind, first: AttemptId,
                                 actor: string, at: Instant, end: Instant)
    requires L.Sound(r) && Going(r, r.revisionNumber, [Waiting(kind), Waiting(kind)]) && Writable(s, kind, at)
    ensures var w := Initial(r, documents); var after := After(s, w, RepeatingRun(first, at));
      && Inv(s, w)
      && Going(after.revision.value, r.revisionNumber, [Done(kind), Waiting(kind)])
      && after.attempts == map[first := Held(after.revision.value, after.revision.tag)]
      && ConcludeOrder(after.revision.value, actor, end).None?
  {
    hide After, Arrive, SnapshotTargetCode, Asks, SnapshotDocument, Matches, Finish, Inv, ConcludeOrder, L.Sound, Happen;
    hide PlanOf;
    FreshRevisionHolds(s, r, documents);
    var w := Initial(r, documents);
    var e0, e1 := [Begin(first), Target(first, at)], Asks(first) + Asks(first);
    var code := SnapshotTargetCode(kind);
    TakenUp(s, w, first, at);
    ArrivesAtWaiting(s, 0, r, r, at, 0, 0, kind, []);
    var w0 := After(s, w, e0);
    assert L.FindTarget(r.targets, code) == 0;
    var c1 := TargetVerifies(s, w0, first, kind, 0);
    assert c1.targets == [Done(kind), Waiting(kind)];
    var w1 := After(s, w0, e1);
    var a1 := [] + [Attempted(code, L.Verified, None)];
    ArrivesAtWaiting(s, 0, r, c1, at, 1, 1, kind, a1);
    assert w1.attempts[first] == Arrived(s, 0, r, c1, at, 1, kind, a1);
    assert L.FindTarget(c1.targets, code) == 0;
    var c2 := TargetVerifies(s, w1, first, kind, 0);
    assert c2.targets == [Done(kind), Waiting(kind)];
    var w2 := After(s, w1, e1);
    AttemptIsStored(s, w2, first, r, c2, at, a1 + [Attempted(code, L.Verified, None)]);
    AfterAppend(s, w, e0, e1);
    AfterAppend(s, w, e0 + e1, e1);
    AfterAppend(s, w, e0 + e1 + e1, [Advance(first)]);
    assert c2.targets[1].outcome == L.Pending && c2.targets[0].outcome == L.Verified;
    NotSettledMeansPending(c2, actor, end);
    var after := After(s, w, RepeatingRun(first, at));
    assert after.attempts == map[first := Held(after.revision.value, after.revision.tag)];
  }

  /**
   * The resume of that revision, on the stored version itself, then puts the document again though the first of
   * the two targets is stored as verified.
   */
  lemma RepeatedCodeRewritesVerified(s: Setup, r: Revision, documents: map<DocId, Json>, kind: Kind, first: AttemptId,
                                     second: AttemptId, actor: string, now: Instant, at: Instant)
    requires L.Sound(r) && Going(r, r.revisionNumber, [Waiting(kind), Waiting(kind)]) && Writable(s, kind, at)
    requires first != second
    ensures var w := Initial(r, documents); var left := After(s, w, RepeatingRun(first, at));
      var run := RepeatingRun(first, at) + ResumeEvents(second, left.revision.value, actor, now, at);
      var before, after := After(s, w, run), After(s, w, run + Asks(second));
      && second in before.attempts && before.attempts[second].Attempting?
      && before.attempts[second].tag == before.revision.tag
      && VerifiedCode(before.revision.value.targets, CodeOf(SnapshotId(kind)))
      && after.revision == before.revision
      && after.log == before.log + [Wrote(Some(second), SnapshotId(kind), SnapshotJob(s, kind).document)]
  {
    hide After, Arrive, SnapshotTargetCode, Asks, Matches, SnapshotDocument, Finish, Inv, RepeatingRun, ResumeEvents;
    hide ConcludeOrder;
    RepeatedCodeStaysPending(s, r, documents, kind, first, actor, at, now);
    var w := Initial(r, documents);
    var left := After(s, w, RepeatingRun(first, at));
    ResumeTakesUp(s, left, second, actor, now, at);
    var e1 := ResumeEvents(second, left.revision.value, actor, now, at);
    AfterAppend(s, w, RepeatingRun(first, at), e1);
    var before := After(s, left, e1);
    var resumed := before.revision.value;
    assert resumed.targets == [Done(kind), Waiting(kind)];
    ArrivesAtWaiting(s, before.revision.tag, resumed, resumed, at, 0, 1, kind, []);
    DocumentIsPut(s, before, second, kind);
    AfterAppend(s, w, RepeatingRun(first, at) + e1, Asks(second));
    CodeIsTargetCode(kind);
    assert resumed.targets[0] == Done(kind);
  }

  // ----- a forced save from an older reading

  /** A target stored as verified is pending again after a save computed from the version before the attempt. */
  lemma OverwriteUnverifies(s: Setup, r: Revision, documents: map<DocId, Json>, kind: Kind, first: AttemptId,
                            actor: string, now: Instant, at: Instant)
    requires L.Sound(r) && Going(r, r.revisionNumber, [Waiting(kind)]) && Writable(s, kind, at)
    ensures var w := Initial(r, documents);
      var run := [Begin(first), Target(first, at)] + WholeAttempt(first);
      var save := ElsewhereOverwrite(0, OrderOf(L.Fail, r, actor, now).(reason := Some(INCOMPLETE)));
      && Inv(s, w)
      && IsVerified(After(s, w, run).revision.value, 0)
      && !IsVerified(After(s, w, run + [save]).revision.value, 0)
  {
    hide After, Arrive, SnapshotTargetCode, Writable, WholeAttempt, Inv, INCOMPLETE;
    FreshRevisionHolds(s, r, documents);
    var w := Initial(r, documents);
    var e0 := [Begin(first), Target(first, at)];
    TakenUp(s, w, first, at);
    var w0 := After(s, w, e0);
    SoleTargetVerifies(s, w0, first, r, kind, at);
    AfterAppend(s, w, e0, WholeAttempt(first));
    var before := After(s, w, e0 + WholeAttempt(first));
    var save := ElsewhereOverwrite(0, OrderOf(L.Fail, r, actor, now).(reason := Some(INCOMPLETE)));
    AfterOneMore(s, w, e0 + WholeAttempt(first), save);
    IncompleteIsCode();
    FailIsAccepted(r, actor, now);
    EveryRunKeepsInv(s, w, e0 + WholeAttempt(first));
    StepUnverifiesExactly(s, before, save, 0);
  }

  lemma FailIsAccepted(r: Revision, actor: string, now: Instant)
    requires r.state == L.Publishing
    ensures L.Apply(r, OrderOf(L.Fail, r, actor, now).(reason := Some(INCOMPLETE))).Accepted?
  {
    IncompleteIsCode();
  }
}
