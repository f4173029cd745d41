/**
 * Publishing what a revision declared: every pending target is written, read back and matched,
 * and each stage of the revision is persisted by tag.
 *
 * One revision and its stored content. Any number of publish and resume attempts interleave at
 * their awaits; anybody else may write or remove the same documents, apply a lifecycle command to
 * the stored revision, or replace it by a forced save computed from an older version
 * (ConfigurationWriter). The content is fixed because a stored draft is never replaced
 * (DraftAuthoring).
 */
module GovernancePublisher {
  import opened Common
  import opened Json
  import opened CanonicalForm
  import L = Lifecycle

  type Revision = L.Revision
  type AttemptId = nat

  // ----- what a target writes

  datatype Kind = Assignment | Entitlement | ModelRegistry | FallbackPolicy | Budget

  function KindName(kind: Kind): string {
    match kind
    case Assignment => "assignment"
    case Entitlement => "entitlement"
    case ModelRegistry => "modelRegistry"
    case FallbackPolicy => "fallbackPolicy"
    case Budget => "budget"
  }

  datatype DocId = SnapshotId(kind: Kind) | MembershipId(tenant: Text, subject: Text)

  datatype Membership = Membership(tenant: Text, subject: Text, evidence: Json)

  datatype Content = Content(memberships: seq<Membership>, snapshots: map<Kind, Json>)

  /** A snapshot that is null counts as absent. */
  predicate HasSnapshot(content: Content, kind: Kind) { kind in content.snapshots && content.snapshots[kind] != Null }

  /**
   * The scope, the draft's content, the validators, which judge a document against a clock, and the upgrade
   * that readers apply to a stored document before judging it.
   */
  datatype Setup = Setup(scope: Text, content: Content, accepts: (Json, Instant) -> bool, hydrate: Json -> Json)

  function SnapshotDocument(scope: Text, kind: Kind, snapshot: Json): Json {
    Obj([
      Field(Units("id"), Str(Units("governance-snapshot|") + scope + Units("|") + Units(KindName(kind)))),
      Field(Units("documentType"), Str(Units("governance-snapshot"))),
      Field(Units("scopeGroupId"), Str(scope)),
      Field(Units("kind"), Str(Units(KindName(kind)))),
      Field(Units("snapshot"), snapshot)])
  }

  function MembershipDocument(scope: Text, m: Membership): Json {
    Obj([
      Field(Units("id"), Str(Units("principal-membership|") + scope + Units("|") + m.tenant + Units("|") + m.subject)),
      Field(Units("documentType"), Str(Units("principal-membership"))),
      Field(Units("scopeGroupId"), Str(scope)),
      Field(Units("tenantId"), Str(m.tenant)),
      Field(Units("subjectId"), Str(m.subject)),
      Field(Units("memberships"), m.evidence)])
  }

  const MEMBERSHIP_TARGET := "principal-membership"
  const SNAPSHOT_TARGET_PREFIX := "governance-snapshot-"

  const CONTENT_ABSENT := "publish-content-absent"
  const CONTENT_INVALID := "publish-content-invalid"
  const WRITE_REFUSED := "publish-write-refused"
  const READ_BACK_ABSENT := "publish-read-back-absent"
  const READ_BACK_DIFFERS := "publish-read-back-differs"
  const TARGET_UNKNOWN := "publish-target-unknown"

  function KindOf(code: string): Option<Kind> {
    if code == SNAPSHOT_TARGET_PREFIX + KindName(Assignment) then Some(Assignment)
    else if code == SNAPSHOT_TARGET_PREFIX + KindName(Entitlement) then Some(Entitlement)
    else if code == SNAPSHOT_TARGET_PREFIX + KindName(ModelRegistry) then Some(ModelRegistry)
    else if code == SNAPSHOT_TARGET_PREFIX + KindName(FallbackPolicy) then Some(FallbackPolicy)
    else if code == SNAPSHOT_TARGET_PREFIX + KindName(Budget) then Some(Budget)
    else None
  }

  datatype Job = Job(id: DocId, document: Json)

  /** Documents to write and verify in order, then how the target ends if all of them verify. */
  datatype Plan = Plan(jobs: seq<Job>, ending: Option<string>)

  function MembershipPlan(s: Setup, memberships: seq<Membership>, at: Instant): Plan {
    if memberships == [] then Plan([], None)
    else
      var document := MembershipDocument(s.scope, memberships[0]);
      if !s.accepts(document, at) then Plan([], Some(CONTENT_INVALID))
      else
        var rest := MembershipPlan(s, memberships[1..], at);
        Plan([Job(MembershipId(memberships[0].tenant, memberships[0].subject), document)] + rest.jobs, rest.ending)
  }

  function PlanOf(s: Setup, code: string, at: Instant): Plan {
    if code == MEMBERSHIP_TARGET then
      if s.content.memberships == [] then Plan([], Some(CONTENT_ABSENT))
      else MembershipPlan(s, s.content.memberships, at)
    else match KindOf(code)
      case None => Plan([], Some(TARGET_UNKNOWN))
      case Some(kind) =>
        if !HasSnapshot(s.content, kind) then Plan([], Some(CONTENT_ABSENT))
        else
          var document := SnapshotDocument(s.scope, kind, s.content.snapshots[kind]);
          if !s.accepts(document, at) then Plan([], Some(CONTENT_INVALID))
          else Plan([Job(SnapshotId(kind), document)], None)
  }

  /** The one document of a snapshot target, and the one document of a principal. */
  function SnapshotJob(s: Setup, kind: Kind): Job
    requires HasSnapshot(s.content, kind)
  {
    Job(SnapshotId(kind), SnapshotDocument(s.scope, kind, s.content.snapshots[kind]))
  }

  function MembershipJob(s: Setup, m: Membership): Job {
    Job(MembershipId(m.tenant, m.subject), MembershipDocument(s.scope, m))
  }

  /** The target a document belongs to: each document is written for one target code only. */
  function CodeOf(id: DocId): string {
    match id
    case SnapshotId(kind) => SNAPSHOT_TARGET_PREFIX + KindName(kind)
    case MembershipId(_, _) => MEMBERSHIP_TARGET
  }

  lemma {:induction false} MembershipPlanIsMemberships(s: Setup, memberships: seq<Membership>, at: Instant)
    ensures forall job :: job in MembershipPlan(s, memberships, at).jobs ==> job.id.MembershipId?
  {
    hide MembershipDocument;
    if memberships != [] { MembershipPlanIsMemberships(s, memberships[1..], at); }
  }

  /** Every document in a target's plan is one of that target's code, so targets of distinct codes share none. */
  lemma PlanWritesOwnCode(s: Setup, code: string, at: Instant, job: Job)
    requires job in PlanOf(s, code, at).jobs
    ensures CodeOf(job.id) == code
  {
    hide SnapshotDocument, MembershipPlan;
    if code == MEMBERSHIP_TARGET { MembershipPlanIsMemberships(s, s.content.memberships, at); }
  }

  predicate Matches(read: Json, written: Json) {
    read.Obj? && written.Obj? && StableForm(read) == StableForm(written)
  }

  // ----- the stores and the attempts in flight

  datatype Stored<T> = Stored(value: T, tag: nat)

  datatype Entry =
    | Wrote(writer: Option<AttemptId>, id: DocId, document: Json)
    | Removed(id: DocId)
    | Matched(attempt: AttemptId, id: DocId, read: Json)

  /** Within one job: ask for the stored version, put against it, read back. */
  datatype Stage = Ask | Send(expected: Option<nat>) | Check

  datatype Attempted = Attempted(code: string, outcome: L.Outcome, reason: Option<string>)

  datatype Phase =
    | Held(revision: Revision, tag: nat)
    | Attempting(tag: nat, start: Revision, current: Revision, at: Instant, index: nat, finished: seq<Job>,
                 plan: Plan, stage: Stage, attempted: seq<Attempted>)
    | Stopped
    | Threw

  datatype World = World(
    revision: Stored<Revision>,
    versions: seq<Revision>,
    documents: map<DocId, Stored<Json>>,
    nextTag: nat,
    log: seq<Entry>,
    attempts: map<AttemptId, Phase>)

  /** `Begin` reads the stored revision, for a new attempt or again for one that holds a reading. */
  datatype Event =
    | Begin(id: AttemptId)
    | Command(id: AttemptId, order: L.Order)
    | Target(id: AttemptId, at: Instant)
    | Advance(id: AttemptId)
    | ElsewhereCommand(order: L.Order)
    | ElsewhereOverwrite(reading: nat, order: L.Order)
    | ElsewhereDocument(docId: DocId, document: Option<Json>)

  function Initial(revision: Revision, documents: map<DocId, Json>): World {
    World(Stored(revision, 0), [revision], map d | d in documents :: Stored(documents[d], 0), 1, [], map[])
  }

  function Enter(w: World, id: AttemptId, phase: Phase): World { w.(attempts := w.attempts[id := phase]) }

  /** The stored revision is replaced, under a new tag. */
  function Replace(w: World, revision: Revision): World {
    w.(revision := Stored(revision, w.nextTag), versions := w.versions + [revision], nextTag := w.nextTag + 1)
  }

  function PutRevision(w: World, id: AttemptId, revision: Revision, tag: nat): World {
    if w.revision.tag != tag then Enter(w, id, Threw)
    else Enter(Replace(w, revision), id, Held(revision, w.nextTag))
  }

  /** The version a document has: a tag where it is stored. */
  predicate IsVersion(documents: map<DocId, Stored<Json>>, id: DocId, version: Option<nat>) {
    if id in documents then version == Some(documents[id].tag) else version == None
  }

  function TagOf(documents: map<DocId, Stored<Json>>, id: DocId): Option<nat> {
    if id in documents then Some(documents[id].tag) else None
  }

  /** Index of the first pending target from here on, or the end. */
  function Seek(targets: seq<L.Target>, from: nat): (index: nat)
    requires from <= |targets|
    ensures from <= index <= |targets|
    ensures index < |targets| ==> targets[index].outcome == L.Pending
    ensures forall k :: from <= k < index ==> targets[k].outcome != L.Pending
    decreases |targets| - from
  {
    if from == |targets| || targets[from].outcome == L.Pending then from else Seek(targets, from + 1)
  }

  function Arrive(s: Setup, tag: nat, start: Revision, current: Revision, at: Instant, from: nat,
                  attempted: seq<Attempted>): Phase
    requires from <= |start.targets|
  {
    var index := Seek(start.targets, from);
    var plan := if index < |start.targets| then PlanOf(s, start.targets[index].code, at) else Plan([], None);
    Attempting(tag, start, current, at, index, [], plan, Ask, attempted)
  }

  /** The target in hand ends: its outcome is recorded and the next pending one is taken up. */
  function Finish(s: Setup, p: Phase, reason: Option<string>): Phase
    requires p.Attempting? && p.index < |p.start.targets|
  {
    var code := p.start.targets[p.index].code;
    var outcome := if reason.Some? then L.TargetFailed else L.Verified;
    match L.RecordOutcome(p.current, code, outcome, p.at, reason)
    case Accepted(revision) =>
      Arrive(s, p.tag, p.start, revision, p.at, p.index + 1, p.attempted + [Attempted(code, outcome, reason)])
    case _ => Threw
  }

  lemma FinishIgnoresStage(s: Setup, p: Phase, stage: Stage, reason: Option<string>)
    requires p.Attempting? && p.index < |p.start.targets|
    ensures Finish(s, p.(stage := stage), reason) == Finish(s, p, reason)
  {}

  /** The first document still to be done, put against the version asked for, or read back. */
  function RunStage(s: Setup, w: World, id: AttemptId, p: Phase): World
    requires p.Attempting? && p.index < |p.start.targets| && p.plan.jobs != []
  {
    var job := p.plan.jobs[0];
    match p.stage
    case Ask => Enter(w, id, p.(stage := Send(TagOf(w.documents, job.id))))
    case Send(expected) =>
      if TagOf(w.documents, job.id) != expected then Enter(w, id, Finish(s, p, Some(WRITE_REFUSED)))
      else
        Enter(w.(documents := w.documents[job.id := Stored(job.document, w.nextTag)],
                 nextTag := w.nextTag + 1,
                 log := w.log + [Wrote(Some(id), job.id, job.document)]),
              id, p.(stage := Check))
    case Check =>
      if job.id !in w.documents then Enter(w, id, Finish(s, p, Some(READ_BACK_ABSENT)))
      else
        var read := s.hydrate(w.documents[job.id].value);
        if !s.accepts(read, p.at) then Enter(w, id, Threw)
        else if !Matches(read, job.document) then Enter(w, id, Finish(s, p, Some(READ_BACK_DIFFERS)))
        else
          Enter(w.(log := w.log + [Matched(id, job.id, read)]), id,
                p.(finished := p.finished + [job], plan := p.plan.(jobs := p.plan.jobs[1..]), stage := Ask))
  }

  function Progress(s: Setup, w: World, id: AttemptId, p: Phase): World
    requires p.Attempting?
  {
    if p.index >= |p.start.targets| then PutRevision(w, id, p.current, p.tag)
    else if p.plan.jobs == [] then Enter(w, id, Finish(s, p, p.plan.ending))
    else RunStage(s, w, id, p)
  }

  function Happen(s: Setup, w: World, e: Event): World {
    match e
    case Begin(id) =>
      if id in w.attempts && !w.attempts[id].Held? then w else Enter(w, id, Held(w.revision.value, w.revision.tag))
    case Command(id, order) =>
      if id in w.attempts && w.attempts[id].Held? then
        var applied := L.Apply(w.attempts[id].revision, order);
        if applied.Accepted? then PutRevision(w, id, applied.revision, w.attempts[id].tag) else Enter(w, id, Stopped)
      else w
    case Target(id, at) =>
      if id in w.attempts && w.attempts[id].Held? then
        var held := w.attempts[id].revision;
        Enter(w, id, Arrive(s, w.attempts[id].tag, held, held, at, 0, []))
      else w
    case Advance(id) =>
      if id in w.attempts && w.attempts[id].Attempting? then Progress(s, w, id, w.attempts[id]) else w
    case ElsewhereCommand(order) =>
      var applied := L.Apply(w.revision.value, order);
      if applied.Accepted? then Replace(w, applied.revision) else w
    case ElsewhereOverwrite(reading, order) =>
      if reading < |w.versions| then
        var applied := L.Apply(w.versions[reading], order);
        if applied.Accepted? then Replace(w, applied.revision) else w
      else w
    case ElsewhereDocument(id, document) =>
      match document
      case None => w.(documents := w.documents - {id}, log := w.log + [Removed(id)])
      case Some(d) =>
        w.(documents := w.documents[id := Stored(d, w.nextTag)], nextTag := w.nextTag + 1,
           log := w.log + [Wrote(None, id, d)])
  }

  function After(s: Setup, w: World, trace: seq<Event>): World
    decreases |trace|
  {
    if trace == [] then w else Happen(s, After(s, w, trace[..|trace| - 1]), trace[|trace| - 1])
  }

  // ----- what every run keeps

  ghost predicate JobVerified(log: seq<Entry>, a: AttemptId, job: Job) {
    exists p, q :: 0 <= p < q < |log| && IsOwnPut(log[p], a, job) && IsMatch(log[q], a, job)
  }

  predicate IsOwnPut(e: Entry, a: AttemptId, job: Job) { e == Wrote(Some(a), job.id, job.document) }

  predicate IsMatch(e: Entry, a: AttemptId, job: Job) {
    e.Matched? && e.attempt == a && e.id == job.id && Matches(e.read, job.document)
  }

  /**
   * One attempt put every document of the target and read each of them back: the document of every principal,
   * of which there are some, or the snapshot of the kind this code is for, each accepted at this instant.
   */
  ghost predicate ProvenBy(s: Setup, log: seq<Entry>, code: string, a: AttemptId, at: Instant) {
    if code == MEMBERSHIP_TARGET then
      && s.content.memberships != []
      && forall m :: m in s.content.memberships ==> AcceptedAndVerified(s, log, MembershipJob(s, m), a, at)
    else
      exists kind :: code == CodeOf(SnapshotId(kind)) && HasSnapshot(s.content, kind)
        && AcceptedAndVerified(s, log, SnapshotJob(s, kind), a, at)
  }

  ghost predicate AcceptedAndVerified(s: Setup, log: seq<Entry>, job: Job, a: AttemptId, at: Instant) {
    s.accepts(job.document, at) && JobVerified(log, a, job)
  }

  /** A plan that was carried out to its end, and does not end in a failure, proves its target. */
  lemma PlanProves(s: Setup, log: seq<Entry>, code: string, a: AttemptId, at: Instant)
    requires PlanOf(s, code, at).ending.None?
    requires forall job :: job in PlanOf(s, code, at).jobs ==> JobVerified(log, a, job)
    ensures ProvenBy(s, log, code, a, at)
  {
    hide JobVerified, SnapshotDocument, MembershipDocument, MembershipPlan;
    var plan := PlanOf(s, code, at);
    if code == MEMBERSHIP_TARGET {
      MembershipPlanCoversAll(s, s.content.memberships, at);
      forall m | m in s.content.memberships ensures AcceptedAndVerified(s, log, MembershipJob(s, m), a, at) {
        var i :| 0 <= i < |s.content.memberships| && s.content.memberships[i] == m;
        assert plan.jobs[i] == MembershipJob(s, m) && plan.jobs[i] in plan.jobs;
      }
    } else {
      var kind := KindOf(code).value;
      assert plan.jobs[0] in plan.jobs && SnapshotJob(s, kind) == plan.jobs[0];
      assert code == CodeOf(SnapshotId(kind));
    }
  }

  ghost predicate Proven(s: Setup, log: seq<Entry>, code: string) {
    exists a, at :: ProvenBy(s, log, code, a, at)
  }

  ghost predicate Backed(s: Setup, log: seq<Entry>, targets: seq<L.Target>) {
    forall i :: 0 <= i < |targets| && targets[i].outcome == L.Verified ==> Proven(s, log, targets[i].code)
  }

  predicate ReasonsGiven(targets: seq<L.Target>) {
    forall i :: 0 <= i < |targets| && targets[i].outcome == L.TargetFailed ==>
      targets[i].reason.Some? && IsReasonCode(targets[i].reason.value)
  }

  /** No attempt ever records a target as merely written. */
  predicate NoWritten(targets: seq<L.Target>) {
    forall i :: 0 <= i < |targets| ==> targets[i].outcome != L.Written
  }

  /** A revision reached through the reducer, whose verified targets are all proven by the log. */
  ghost predicate Credible(s: Setup, log: seq<Entry>, r: Revision) {
    L.Sound(r) && ReasonsGiven(r.targets) && NoWritten(r.targets) && Backed(s, log, r.targets)
  }

  predicate SameCodes(a: seq<L.Target>, b: seq<L.Target>) {
    |a| == |b| && forall i :: 0 <= i < |a| ==> a[i].code == b[i].code
  }

  /** Every version ever stored is credible and declares the same targets; the last one is the stored one. */
  ghost predicate VersionsHold(s: Setup, w: World) {
    && w.versions != [] && w.versions[|w.versions| - 1] == w.revision.value
    && forall v :: v in w.versions ==> Credible(s, w.log, v) && SameCodes(v.targets, w.revision.value.targets)
  }

  predicate IsFirst(targets: seq<L.Target>, k: nat)
    requires k < |targets|
  {
    forall j :: 0 <= j < k ==> targets[j].code != targets[k].code
  }

  /** How far an attempt has come: targets from here on are untouched, earlier ones are decided. */
  ghost predicate Progressed(start: seq<L.Target>, current: seq<L.Target>, index: nat) {
    && |start| == |current| && index <= |start|
    && (forall k :: 0 <= k < |start| ==> current[k].code == start[k].code)
    && (forall k :: index <= k < |start| ==> current[k] == start[k])
    && (forall k :: 0 <= k < index ==>
         (current[k].outcome == L.Pending <==> start[k].outcome == L.Pending && !IsFirst(start, k)))
  }

  function PendingCodes(targets: seq<L.Target>): seq<string> {
    if targets == [] then []
    else
      var last := targets[|targets| - 1];
      PendingCodes(targets[..|targets| - 1]) + (if last.outcome == L.Pending then [last.code] else [])
  }

  function CodesOf(attempted: seq<Attempted>): seq<string> {
    seq(|attempted|, i requires 0 <= i < |attempted| => attempted[i].code)
  }

  /** The target in hand: what is done and what is left make up its plan. */
  ghost predicate InHand(s: Setup, log: seq<Entry>, id: AttemptId, p: Phase)
    requires p.Attempting? && p.index < |p.start.targets|
  {
    && p.start.targets[p.index].outcome == L.Pending
    && PlanOf(s, p.start.targets[p.index].code, p.at) == Plan(p.finished + p.plan.jobs, p.plan.ending)
    && (forall job :: job in p.finished ==> JobVerified(log, id, job))
    && (p.stage.Check? ==> p.plan.jobs != [] && exists k :: 0 <= k < |log| && IsOwnPut(log[k], id, p.plan.jobs[0]))
  }

  ghost predicate PhaseHolds(s: Setup, w: World, id: AttemptId, p: Phase) {
    match p
    case Held(revision, tag) =>
      && tag < w.nextTag
      && revision in w.versions
      && (w.revision.tag == tag ==> w.revision.value == revision)
    case Attempting(tag, start, current, at, index, _, _, _, attempted) =>
      && tag < w.nextTag
      && start in w.versions
      && (w.revision.tag == tag ==> w.revision.value == start)
      && L.Continues(start, current)
      && Credible(s, w.log, current)
      && Progressed(start.targets, current.targets, index)
      && CodesOf(attempted) == PendingCodes(start.targets[..index])
      && (index < |start.targets| ==> InHand(s, w.log, id, p))
    case _ => true
  }

  ghost predicate Inv(s: Setup, w: World) {
    && w.revision.tag < w.nextTag
    && VersionsHold(s, w)
    && forall id :: id in w.attempts ==> PhaseHolds(s, w, id, w.attempts[id])
  }

  lemma JobStaysVerified(log: seq<Entry>, later: seq<Entry>, a: AttemptId, job: Job)
    requires log <= later && JobVerified(log, a, job)
    ensures JobVerified(later, a, job)
  {
    hide IsOwnPut, IsMatch;
    var p, q :| 0 <= p < q < |log| && IsOwnPut(log[p], a, job) && IsMatch(log[q], a, job);
    assert later[p] == log[p] && later[q] == log[q];
  }

  lemma StaysBacked(s: Setup, log: seq<Entry>, later: seq<Entry>, targets: seq<L.Target>)
    requires log <= later && Backed(s, log, targets)
    ensures Backed(s, later, targets)
  {
    hide ProvenBy;
    forall i | 0 <= i < |targets| && targets[i].outcome == L.Verified ensures Proven(s, later, targets[i].code) {
      var a, at :| ProvenBy(s, log, targets[i].code, a, at);
      StaysProven(s, log, later, targets[i].code, a, at);
    }
  }

  lemma StaysProven(s: Setup, log: seq<Entry>, later: seq<Entry>, code: string, a: AttemptId, at: Instant)
    requires log <= later && ProvenBy(s, log, code, a, at)
    ensures ProvenBy(s, later, code, a, at)
  {
    hide JobVerified, MembershipJob, SnapshotJob, CodeOf;
    if code == MEMBERSHIP_TARGET {
      forall m | m in s.content.memberships ensures AcceptedAndVerified(s, later, MembershipJob(s, m), a, at) {
        JobStaysVerified(log, later, a, MembershipJob(s, m));
      }
    } else {
      var kind :| code == CodeOf(SnapshotId(kind)) && HasSnapshot(s.content, kind)
        && AcceptedAndVerified(s, log, SnapshotJob(s, kind), a, at);
      JobStaysVerified(log, later, a, SnapshotJob(s, kind));
    }
  }

  lemma StaysCredible(s: Setup, log: seq<Entry>, later: seq<Entry>, r: Revision)
    requires log <= later && Credible(s, log, r)
    ensures Credible(s, later, r)
  {
    hide L.Sound, Backed;
    StaysBacked(s, log, later, r.targets);
  }

  lemma VersionIsCredible(s: Setup, w: World, r: Revision)
    requires VersionsHold(s, w) && r in w.versions
    ensures Credible(s, w.log, r) && SameCodes(r.targets, w.revision.value.targets)
  {}

  lemma VersionsSurvive(s: Setup, w: World, after: World)
    requires VersionsHold(s, w) && w.log <= after.log
    requires after.versions == w.versions && after.revision == w.revision
    ensures VersionsHold(s, after)
  {
    hide Credible, SameCodes;
    forall v | v in after.versions ensures Credible(s, after.log, v) { StaysCredible(s, w.log, after.log, v); }
  }

  lemma ReplaceKeepsVersions(s: Setup, w: World, revision: Revision)
    requires VersionsHold(s, w) && Credible(s, w.log, revision)
    requires SameCodes(revision.targets, w.revision.value.targets)
    ensures VersionsHold(s, Replace(w, revision))
  {
    hide Credible;
  }

  /** A revision computed from any version declares the targets of the stored one. */
  lemma ContinuesKeepsCodes(s: Setup, w: World, from: Revision, r: Revision)
    requires VersionsHold(s, w) && from in w.versions && L.Continues(from, r)
    ensures SameCodes(r.targets, w.revision.value.targets)
  {
    hide Credible;
    VersionIsCredible(s, w, from);
  }

  /** A step elsewhere leaves an attempt's phase justified: the log grew, and any new revision has a new tag. */
  lemma PhaseSurvives(s: Setup, w: World, after: World, id: AttemptId, p: Phase)
    requires PhaseHolds(s, w, id, p) && w.log <= after.log && w.nextTag <= after.nextTag
    requires w.versions <= after.versions
    requires after.revision == w.revision || w.nextTag <= after.revision.tag
    ensures PhaseHolds(s, after, id, p)
  {
    hide JobVerified, PlanOf, Progressed, L.Continues, PendingCodes, Credible, IsOwnPut;
    assert forall r :: r in w.versions ==> r in after.versions;
    match p
    case Attempting(tag, start, current, at, index, finished, plan, stage, _) =>
      StaysCredible(s, w.log, after.log, current);
      if index < |start.targets| {
        forall job | job in finished ensures JobVerified(after.log, id, job) {
          JobStaysVerified(w.log, after.log, id, job);
        }
        if stage.Check? {
          var k :| 0 <= k < |w.log| && IsOwnPut(w.log[k], id, plan.jobs[0]);
          assert after.log[k] == w.log[k];
        }
      }
    case _ =>
  }

  lemma StepKeepsInv(s: Setup, w: World, after: World, id: AttemptId, phase: Phase)
    requires Inv(s, w) && w.log <= after.log && w.nextTag <= after.nextTag && w.versions <= after.versions
    requires after.revision == w.revision || w.nextTag <= after.revision.tag < after.nextTag
    requires VersionsHold(s, after)
    requires after.attempts == w.attempts[id := phase] && PhaseHolds(s, after, id, phase)
    ensures Inv(s, after)
  {
    hide PhaseHolds, VersionsHold;
    forall other | other in after.attempts ensures PhaseHolds(s, after, other, after.attempts[other]) {
      if other != id { PhaseSurvives(s, w, after, other, w.attempts[other]); }
    }
  }

  lemma EnterKeepsInv(s: Setup, w: World, after: World, id: AttemptId, phase: Phase)
    requires Inv(s, w) && w.log <= after.log && w.nextTag <= after.nextTag
    requires after.revision == w.revision && after.versions == w.versions
    requires after.attempts == w.attempts[id := phase] && PhaseHolds(s, after, id, phase)
    ensures Inv(s, after)
  {
    hide PhaseHolds, VersionsHold;
    VersionsSurvive(s, w, after);
    StepKeepsInv(s, w, after, id, phase);
  }

  lemma PutRevisionKeepsInv(s: Setup, w: World, id: AttemptId, revision: Revision, tag: nat)
    requires Inv(s, w) && Credible(s, w.log, revision) && SameCodes(revision.targets, w.revision.value.targets)
    ensures Inv(s, PutRevision(w, id, revision, tag))
  {
    hide Credible, VersionsHold, SameCodes;
    var after := PutRevision(w, id, revision, tag);
    if w.revision.tag == tag {
      ReplaceKeepsVersions(s, w, revision);
      VersionsSurvive(s, Replace(w, revision), after);
      assert after.versions[|w.versions|] == revision;
    } else {
      VersionsSurvive(s, w, after);
    }
    StepKeepsInv(s, w, after, id, after.attempts[id]);
  }

  lemma ApplyKeepsCredible(s: Setup, log: seq<Entry>, r: Revision, order: L.Order)
    requires Credible(s, log, r) && L.Apply(r, order).Accepted?
    ensures Credible(s, log, L.Apply(r, order).revision)
  {
    hide Proven, L.Sound, IsReasonCode;
    var next := L.Apply(r, order).revision;
    L.ApplyKeepsSound(r, order);
    assert next.targets == r.targets || next.targets == L.ResetForRetry(r.targets);
  }

  lemma {:induction false} PendingCodesSkip(targets: seq<L.Target>, from: nat, end: nat)
    requires from <= end <= |targets|
    requires forall k :: from <= k < end ==> targets[k].outcome != L.Pending
    ensures PendingCodes(targets[..end]) == PendingCodes(targets[..from])
    decreases end
  {
    if from < end {
      assert targets[..end][..end - 1] == targets[..end - 1];
      PendingCodesSkip(targets, from, end - 1);
    }
  }

  lemma ArriveHolds(s: Setup, w: World, id: AttemptId, tag: nat, start: Revision, current: Revision, at: Instant,
                    from: nat, attempted: seq<Attempted>)
    requires tag < w.nextTag && start in w.versions && (w.revision.tag == tag ==> w.revision.value == start)
    requires L.Continues(start, current) && Credible(s, w.log, current)
    requires Progressed(start.targets, current.targets, from)
    requires CodesOf(attempted) == PendingCodes(start.targets[..from])
    ensures PhaseHolds(s, w, id, Arrive(s, tag, start, current, at, from, attempted))
  {
    hide Credible, L.Continues, PlanOf, PendingCodes, CodesOf;
    PendingCodesSkip(start.targets, from, Seek(start.targets, from));
    var p := Arrive(s, tag, start, current, at, from, attempted);
    assert p.finished + p.plan.jobs == p.plan.jobs;
  }

  lemma RecordProgresses(start: Revision, current: Revision, index: nat, outcome: L.Outcome, at: Instant,
                         reason: Option<string>)
    requires Progressed(start.targets, current.targets, index) && index < |start.targets|
    requires outcome != L.Pending && start.targets[index].outcome == L.Pending
    requires L.RecordOutcome(current, start.targets[index].code, outcome, at, reason).Accepted?
    ensures Progressed(start.targets,
      L.RecordOutcome(current, start.targets[index].code, outcome, at, reason).revision.targets, index + 1)
  {
    var code := start.targets[index].code;
    var f := L.FindTarget(current.targets, code);
    assert f <= index;
    if f < index { assert start.targets[f].code == code; }
    assert f < index <==> !IsFirst(start.targets, index) by {
      if !IsFirst(start.targets, index) {
        var j :| 0 <= j < index && start.targets[j].code == code;
        assert current.targets[j].code == code;
      }
    }
    assert IsFirst(start.targets, f);
  }

  lemma RecordKeepsCredible(s: Setup, log: seq<Entry>, current: Revision, code: string, outcome: L.Outcome, at: Instant,
                            reason: Option<string>)
    requires Credible(s, log, current) && L.RecordOutcome(current, code, outcome, at, reason).Accepted?
    requires outcome == L.TargetFailed || (outcome == L.Verified && Proven(s, log, code))
    ensures Credible(s, log, L.RecordOutcome(current, code, outcome, at, reason).revision)
    ensures L.Continues(current, L.RecordOutcome(current, code, outcome, at, reason).revision)
  {
    hide Proven, L.Sound, IsReasonCode;
    L.RecordKeepsSound(current, code, outcome, at, reason);
    L.TakeContinues(current, L.TargetOutcome(code, outcome, at, reason));
  }

  lemma FinishHolds(s: Setup, w: World, id: AttemptId, p: Phase, reason: Option<string>)
    requires p.Attempting? && p.index < |p.start.targets| && PhaseHolds(s, w, id, p)
    requires reason.None? ==> p.plan == Plan([], None)
    ensures PhaseHolds(s, w, id, Finish(s, p, reason))
  {
    hide Credible, PlanOf, Progressed, L.RecordOutcome, JobVerified, L.Continues, ProvenBy;
    var code := p.start.targets[p.index].code;
    var outcome := if reason.Some? then L.TargetFailed else L.Verified;
    var recorded := L.RecordOutcome(p.current, code, outcome, p.at, reason);
    if recorded.Accepted? {
      if reason.None? {
        assert p.finished + [] == p.finished;
        PlanProves(s, w.log, code, id, p.at);
      }
      RecordKeepsCredible(s, w.log, p.current, code, outcome, p.at, reason);
      RecordProgresses(p.start, p.current, p.index, outcome, p.at, reason);
      ContinuesChains(p.start, p.current, recorded.revision);
      assert p.start.targets[..p.index + 1][..p.index] == p.start.targets[..p.index];
      assert CodesOf(p.attempted + [Attempted(code, outcome, reason)]) == CodesOf(p.attempted) + [code];
      assert p.index + 1 <= |p.start.targets|;
      ArriveHolds(s, w, id, p.tag, p.start, recorded.revision, p.at, p.index + 1,
                  p.attempted + [Attempted(code, outcome, reason)]);
    }
  }

  lemma ContinuesChains(a: Revision, b: Revision, c: Revision)
    requires L.Continues(a, b) && L.Continues(b, c)
    ensures L.Continues(a, c)
  {}

  lemma RunStageKeepsInv(s: Setup, w: World, id: AttemptId)
    requires Inv(s, w) && id in w.attempts && w.attempts[id].Attempting?
    requires w.attempts[id].index < |w.attempts[id].start.targets| && w.attempts[id].plan.jobs != []
    ensures Inv(s, RunStage(s, w, id, w.attempts[id]))
  {
    hide Inv, Credible, PlanOf, Progressed, JobVerified, L.Continues, Finish, Matches, PendingCodes, CodesOf;
    var p := w.attempts[id];
    var job := p.plan.jobs[0];
    var after := RunStage(s, w, id, p);
    InvPhase(s, w, id);
    match p.stage
    case Ask => EnterKeepsInv(s, w, after, id, after.attempts[id]);
    case Send(expected) =>
      if TagOf(w.documents, job.id) != expected { FinishHolds(s, w, id, p, Some(WRITE_REFUSED)); }
      else {
        PhaseSurvives(s, w, after, id, p);
        assert IsOwnPut(after.log[|w.log|], id, job);
      }
      EnterKeepsInv(s, w, after, id, after.attempts[id]);
    case Check =>
      if job.id !in w.documents { FinishHolds(s, w, id, p, Some(READ_BACK_ABSENT)); }
      else if s.accepts(s.hydrate(w.documents[job.id].value), p.at) {
        if !Matches(s.hydrate(w.documents[job.id].value), job.document) { FinishHolds(s, w, id, p, Some(READ_BACK_DIFFERS)); }
        else { MatchHolds(s, w, id, p); }
      }
      EnterKeepsInv(s, w, after, id, after.attempts[id]);
  }

  lemma MatchHolds(s: Setup, w: World, id: AttemptId, p: Phase)
    requires p.Attempting? && p.index < |p.start.targets| && PhaseHolds(s, w, id, p)
    requires p.stage.Check? && p.plan.jobs != [] && p.plan.jobs[0].id in w.documents
    requires Matches(s.hydrate(w.documents[p.plan.jobs[0].id].value), p.plan.jobs[0].document)
    requires s.accepts(s.hydrate(w.documents[p.plan.jobs[0].id].value), p.at)
    ensures var after := RunStage(s, w, id, p); PhaseHolds(s, after, id, after.attempts[id])
  {
    hide Credible, PlanOf, Progressed, L.Continues, Matches, PendingCodes, CodesOf, JobVerified;
    var after := RunStage(s, w, id, p);
    var job := p.plan.jobs[0];
    PhaseSurvives(s, w, after, id, p);
    assert JobVerified(after.log, id, job) by {
      MatchProves(w.log, id, job, s.hydrate(w.documents[job.id].value));
    }
    assert p.finished + p.plan.jobs == (p.finished + [job]) + p.plan.jobs[1..];
  }

  lemma MatchProves(log: seq<Entry>, a: AttemptId, job: Job, read: Json)
    requires exists k :: 0 <= k < |log| && IsOwnPut(log[k], a, job)
    requires Matches(read, job.document)
    ensures JobVerified(log + [Matched(a, job.id, read)], a, job)
  {
    hide Matches;
    var k :| 0 <= k < |log| && IsOwnPut(log[k], a, job);
    var later := log + [Matched(a, job.id, read)];
    assert IsOwnPut(later[k], a, job) && IsMatch(later[|log|], a, job);
  }

  lemma InvPhase(s: Setup, w: World, id: AttemptId)
    requires Inv(s, w) && id in w.attempts
    ensures PhaseHolds(s, w, id, w.attempts[id]) && VersionsHold(s, w)
    ensures w.revision.tag < w.nextTag
  {}

  lemma HappenKeepsInv(s: Setup, w: World, e: Event)
    requires Inv(s, w)
    ensures Inv(s, Happen(s, w, e))
  {
    hide Inv, Credible, PlanOf, JobVerified, L.Continues, L.Apply, RunStage, Arrive, Finish, InHand, Progressed;
    hide VersionsHold, SameCodes;
    match e
    case Begin(id) =>
      if id !in w.attempts || w.attempts[id].Held? { BeginKeepsInv(s, w, id); }
    case Command(id, order) =>
      if id in w.attempts && w.attempts[id].Held? {
        InvPhase(s, w, id);
        var applied := L.Apply(w.attempts[id].revision, order);
        if applied.Accepted? {
          VersionTakes(s, w, w.attempts[id].revision, order);
          PutRevisionKeepsInv(s, w, id, applied.revision, w.attempts[id].tag);
        } else { EnterKeepsInv(s, w, Happen(s, w, e), id, Stopped); }
      }
    case Target(id, at) =>
      if id in w.attempts && w.attempts[id].Held? {
        InvPhase(s, w, id);
        TargetHolds(s, w, id, at);
        EnterKeepsInv(s, w, Happen(s, w, e), id, Happen(s, w, e).attempts[id]);
      }
    case Advance(id) =>
      if id in w.attempts && w.attempts[id].Attempting? {
        var p := w.attempts[id];
        InvPhase(s, w, id);
        if p.index >= |p.start.targets| {
          ContinuesKeepsCodes(s, w, p.start, p.current);
          PutRevisionKeepsInv(s, w, id, p.current, p.tag);
        } else if p.plan.jobs == [] {
          FinishHolds(s, w, id, p, p.plan.ending);
          EnterKeepsInv(s, w, Happen(s, w, e), id, Finish(s, p, p.plan.ending));
        } else { RunStageKeepsInv(s, w, id); }
      }
    case ElsewhereCommand(order) =>
      StoredIsVersion(s, w);
      if L.Apply(w.revision.value, order).Accepted? { ReplacementKeepsInv(s, w, w.revision.value, order); }
    case ElsewhereOverwrite(reading, order) =>
      if reading < |w.versions| && L.Apply(w.versions[reading], order).Accepted? {
        ReplacementKeepsInv(s, w, w.versions[reading], order);
      }
    case ElsewhereDocument(_, _) => ElsewhereKeepsInv(s, w, e);
  }

  /** A command accepted on any version gives a credible revision of the same targets. */
  lemma VersionTakes(s: Setup, w: World, r: Revision, order: L.Order)
    requires VersionsHold(s, w) && r in w.versions && L.Apply(r, order).Accepted?
    ensures Credible(s, w.log, L.Apply(r, order).revision)
    ensures SameCodes(L.Apply(r, order).revision.targets, w.revision.value.targets)
  {
    hide Credible, VersionsHold, SameCodes, L.Apply;
    VersionIsCredible(s, w, r);
    ApplyKeepsCredible(s, w.log, r, order);
    L.TakeContinues(r, L.Ordered(order));
    ContinuesKeepsCodes(s, w, r, L.Apply(r, order).revision);
  }

  lemma StoredIsVersion(s: Setup, w: World)
    requires Inv(s, w)
    ensures VersionsHold(s, w) && w.revision.value in w.versions
  {
    hide Credible;
    assert w.versions[|w.versions| - 1] in w.versions;
  }

  lemma BeginKeepsInv(s: Setup, w: World, id: AttemptId)
    requires Inv(s, w) && (id !in w.attempts || w.attempts[id].Held?)
    ensures Inv(s, Happen(s, w, Begin(id)))
  {
    hide Credible;
    StoredIsVersion(s, w);
    EnterKeepsInv(s, w, Happen(s, w, Begin(id)), id, Held(w.revision.value, w.revision.tag));
  }

  lemma TargetHolds(s: Setup, w: World, id: AttemptId, at: Instant)
    requires VersionsHold(s, w)
    requires id in w.attempts && w.attempts[id].Held? && PhaseHolds(s, w, id, w.attempts[id])
    ensures var held := w.attempts[id].revision;
      PhaseHolds(s, w, id, Arrive(s, w.attempts[id].tag, held, held, at, 0, []))
  {
    hide Credible, Arrive;
    var held := w.attempts[id].revision;
    VersionIsCredible(s, w, held);
    ArriveHolds(s, w, id, w.attempts[id].tag, held, held, at, 0, []);
  }

  lemma ReplacementKeepsInv(s: Setup, w: World, r: Revision, order: L.Order)
    requires Inv(s, w) && r in w.versions && L.Apply(r, order).Accepted?
    ensures Inv(s, Replace(w, L.Apply(r, order).revision))
  {
    hide PhaseHolds, VersionsHold, L.Apply, Credible, SameCodes;
    var after := Replace(w, L.Apply(r, order).revision);
    VersionTakes(s, w, r, order);
    ReplaceKeepsVersions(s, w, L.Apply(r, order).revision);
    forall id | id in after.attempts ensures PhaseHolds(s, after, id, after.attempts[id]) {
      PhaseSurvives(s, w, after, id, w.attempts[id]);
    }
  }

  lemma ElsewhereKeepsInv(s: Setup, w: World, e: Event)
    requires Inv(s, w) && e.ElsewhereDocument?
    ensures Inv(s, Happen(s, w, e))
  {
    hide PhaseHolds, VersionsHold;
    var after := Happen(s, w, e);
    VersionsSurvive(s, w, after);
    forall id | id in after.attempts ensures PhaseHolds(s, after, id, after.attempts[id]) {
      PhaseSurvives(s, w, after, id, w.attempts[id]);
    }
  }

  /** However the run goes on, foreign overwrites included, the invariant is kept. */
  lemma {:induction false} EveryRunKeepsInv(s: Setup, w: World, trace: seq<Event>)
    requires Inv(s, w)
    ensures Inv(s, After(s, w, trace))
    decreases |trace|
  {
    hide Inv, Happen;
    if trace != [] {
      EveryRunKeepsInv(s, w, trace[..|trace| - 1]);
      HappenKeepsInv(s, After(s, w, trace[..|trace| - 1]), trace[|trace| - 1]);
    }
  }

  lemma FreshRevisionHolds(s: Setup, revision: Revision, documents: map<DocId, Json>)
    requires L.Sound(revision) && forall i :: 0 <= i < |revision.targets| ==> revision.targets[i].outcome == L.Pending
    ensures Inv(s, Initial(revision, documents)) && DocumentsHold(s, documents, Initial(revision, documents))
  {
    hide L.Sound;
  }

  // ----- what the run guarantees

  /** An active revision has every target verified, each by puts followed by matching reads of its own documents. */
  lemma ActiveMeansEveryTargetProven(s: Setup, w: World, trace: seq<Event>)
    requires Inv(s, w)
    ensures var r := After(s, w, trace).revision.value;
      r.state == L.Active ==>
        forall i :: 0 <= i < |r.targets| ==>
          r.targets[i].outcome == L.Verified && Proven(s, After(s, w, trace).log, r.targets[i].code)
  {
    hide Proven;
    EveryRunKeepsInv(s, w, trace);
  }

  lemma AfterOneMore(s: Setup, w: World, trace: seq<Event>, e: Event)
    ensures After(s, w, trace + [e]) == Happen(s, After(s, w, trace), e)
  {
    assert (trace + [e])[..|trace|] == trace;
  }

  lemma PutContinues(w: World, id: AttemptId, revision: Revision, tag: nat)
    requires w.revision.tag == tag ==> L.Continues(w.revision.value, revision)
    ensures L.Continues(w.revision.value, PutRevision(w, id, revision, tag).revision.value)
  {}

  /** Every step but a forced overwrite continues the stored revision. */
  lemma HappenContinues(s: Setup, w: World, e: Event)
    requires Inv(s, w) && !e.ElsewhereOverwrite?
    ensures L.Continues(w.revision.value, Happen(s, w, e).revision.value)
  {
    hide Inv, VersionsHold, L.Apply, PlanOf, Arrive, Finish, InHand, Progressed, Matches;
    match e
    case Command(id, order) =>
      if id in w.attempts && w.attempts[id].Held? {
        InvPhase(s, w, id);
        L.TakeContinues(w.attempts[id].revision, L.Ordered(order));
        var applied := L.Apply(w.attempts[id].revision, order);
        if applied.Accepted? { PutContinues(w, id, applied.revision, w.attempts[id].tag); }
      }
    case Advance(id) =>
      if id in w.attempts && w.attempts[id].Attempting? {
        InvPhase(s, w, id);
        PutContinues(w, id, w.attempts[id].current, w.attempts[id].tag);
      }
    case ElsewhereCommand(order) => L.TakeContinues(w.revision.value, L.Ordered(order));
    case _ =>
  }

  predicate NoOverwrites(events: seq<Event>) {
    forall k :: 0 <= k < |events| ==> !events[k].ElsewhereOverwrite?
  }

  /** Without forced overwrites the history only grows, and a target once stored as verified stays so. */
  lemma {:induction false} StoredRevisionOnlyContinues(s: Setup, w: World, trace: seq<Event>, more: seq<Event>)
    requires Inv(s, w) && NoOverwrites(more)
    ensures L.Continues(After(s, w, trace).revision.value, After(s, w, trace + more).revision.value)
    decreases |more|
  {
    hide Inv, Happen;
    if more == [] {
      assert trace + more == trace;
    } else {
      var init, last := more[..|more| - 1], more[|more| - 1];
      StoredRevisionOnlyContinues(s, w, trace, init);
      assert trace + more == (trace + init) + [last];
      AfterOneMore(s, w, trace + init, last);
      EveryRunKeepsInv(s, w, trace + init);
      HappenContinues(s, After(s, w, trace + init), last);
      ContinuesChains(After(s, w, trace).revision.value, After(s, w, trace + init).revision.value,
                      After(s, w, trace + more).revision.value);
    }
  }

  predicate IsVerified(r: Revision, i: nat) { i < |r.targets| && r.targets[i].outcome == L.Verified }

  /** A forced save, accepted, and computed from a version in which this target was not verified yet. */
  predicate Unverifies(w: World, e: Event, i: nat) {
    && e.ElsewhereOverwrite? && e.reading < |w.versions|
    && L.Apply(w.versions[e.reading], e.order).Accepted?
    && !IsVerified(w.versions[e.reading], i)
  }

  /** One step takes the verification of a target away exactly when it is such an overwrite. */
  lemma StepUnverifiesExactly(s: Setup, w: World, e: Event, i: nat)
    requires Inv(s, w) && IsVerified(w.revision.value, i)
    ensures IsVerified(Happen(s, w, e).revision.value, i) <==> !Unverifies(w, e, i)
  {
    hide Inv, L.Apply, VersionsHold, RunStage, Arrive, Finish;
    if e.ElsewhereOverwrite? {
      if e.reading < |w.versions| && L.Apply(w.versions[e.reading], e.order).Accepted? {
        StoredIsVersion(s, w);
        VersionIsCredible(s, w, w.versions[e.reading]);
        ApplyKeepsVerified(w.versions[e.reading], e.order);
      }
    } else {
      HappenContinues(s, w, e);
    }
  }

  lemma ApplyKeepsVerified(r: Revision, order: L.Order)
    requires L.Apply(r, order).Accepted?
    ensures forall i :: IsVerified(L.Apply(r, order).revision, i) <==> IsVerified(r, i)
  {
    hide IsReasonCode;
  }

  /** Over a whole run, a verification that is gone was taken by a forced save from an older reading. */
  lemma {:induction false} VerifiedIsLostOnlyToOverwrites(s: Setup, w: World, trace: seq<Event>, more: seq<Event>, i: nat)
    requires Inv(s, w) && IsVerified(After(s, w, trace).revision.value, i)
    ensures IsVerified(After(s, w, trace + more).revision.value, i) ||
      exists k :: 0 <= k < |more| && Unverifies(After(s, w, trace + more[..k]), more[k], i)
    decreases |more|
  {
    hide Inv, Happen, Unverifies, IsVerified;
    if more == [] {
      assert trace + more == trace;
    } else {
      var init, last := more[..|more| - 1], more[|more| - 1];
      VerifiedIsLostOnlyToOverwrites(s, w, trace, init, i);
      assert trace + more == (trace + init) + [last];
      AfterOneMore(s, w, trace + init, last);
      EveryRunKeepsInv(s, w, trace + init);
      if IsVerified(After(s, w, trace + init).revision.value, i) {
        StepUnverifiesExactly(s, After(s, w, trace + init), last, i);
        assert more[..|init|] == init;
      } else {
        var k :| 0 <= k < |init| && Unverifies(After(s, w, trace + init[..k]), init[k], i);
        assert more[..k] == init[..k] && more[k] == init[k];
      }
    }
  }

  /**
   * An attempt that reached the end of its targets attempted each initially pending one once, in
   * order; and it leaves none pending exactly when no pending target repeats an earlier code.
   */
  lemma FinishedAttemptDecides(s: Setup, w: World, trace: seq<Event>, id: AttemptId)
    requires Inv(s, w)
    requires id in After(s, w, trace).attempts && After(s, w, trace).attempts[id].Attempting?
    requires After(s, w, trace).attempts[id].index >= |After(s, w, trace).attempts[id].start.targets|
    ensures var p := After(s, w, trace).attempts[id];
      && |p.start.targets| == |p.current.targets|
      && CodesOf(p.attempted) == PendingCodes(p.start.targets)
      && ((forall k :: 0 <= k < |p.current.targets| ==> p.current.targets[k].outcome != L.Pending) <==>
          (forall k :: 0 <= k < |p.start.targets| && p.start.targets[k].outcome == L.Pending ==>
             IsFirst(p.start.targets, k)))
  {
    hide Credible, L.Continues, PendingCodes, CodesOf, IsFirst;
    EveryRunKeepsInv(s, w, trace);
    var p := After(s, w, trace).attempts[id];
    assert PhaseHolds(s, After(s, w, trace), id, p);
    assert p.start.targets[..p.index] == p.start.targets;
  }

  /**
   * An attempt puts only documents of targets that were pending in the version it started from. Whether that
   * protects the documents of verified targets is decided in VerifiedDocuments.
   */
  lemma PutsOnlyPendingTargets(s: Setup, w: World, trace: seq<Event>, id: AttemptId, put: Entry)
    requires Inv(s, w) && put.Wrote?
    requires Happen(s, After(s, w, trace), Advance(id)).log == After(s, w, trace).log + [put]
    ensures var before := After(s, w, trace);
      && id in before.attempts && before.attempts[id].Attempting?
      && var p := before.attempts[id];
      && p.index < |p.start.targets| && p.start.targets[p.index].outcome == L.Pending
      && p.start.targets[p.index].code == CodeOf(put.id)
      && IsOwnDocument(s, put.id, put.document) && s.accepts(put.document, p.at)
      && (before.revision.tag == p.tag ==> before.revision.value == p.start)
  {
    hide Inv, Credible, After, L.Apply, PlanOf, Progressed, JobVerified, L.Continues, Finish, Matches, PendingCodes, CodesOf;
    EveryRunKeepsInv(s, w, trace);
    var before := After(s, w, trace);
    assert before.log + [put] != before.log by { assert |before.log + [put]| == |before.log| + 1; }
    InvPhase(s, before, id);
    var p := before.attempts[id];
    assert (before.log + [put])[|before.log|] == put;
    var plan := PlanOf(s, p.start.targets[p.index].code, p.at);
    assert plan.jobs[|p.finished|] == p.plan.jobs[0];
    PlanWritesOwnCode(s, p.start.targets[p.index].code, p.at, p.plan.jobs[0]);
    PlanWritesOwnDocuments(s, p.start.targets[p.index].code, p.at, p.plan.jobs[0]);
  }

  // ----- the documents themselves

  /** What is told of a document after one more entry, given what was told before it. */
  function Retold(e: Entry, id: DocId, before: Option<Json>): Option<Json> {
    match e
    case Wrote(_, written, d) => if written == id then Some(d) else before
    case Removed(removed) => if removed == id then None else before
    case Matched(_, _, _) => before
  }

  function Told(documents: map<DocId, Json>, log: seq<Entry>, id: DocId): Option<Json> {
    if log == [] then if id in documents then Some(documents[id]) else None
    else Retold(log[|log| - 1], id, Told(documents, log[..|log| - 1], id))
  }

  function DocumentOf(w: World, id: DocId): Option<Json> {
    if id in w.documents then Some(w.documents[id].value) else None
  }

  predicate IsOwnSnapshot(s: Setup, kind: Kind, document: Json) {
    HasSnapshot(s.content, kind) && document == SnapshotDocument(s.scope, kind, s.content.snapshots[kind])
  }

  /** A document of the published content: the snapshot of its kind, or that of a principal of this name. */
  predicate IsOwnDocument(s: Setup, id: DocId, document: Json) {
    match id
    case SnapshotId(kind) => IsOwnSnapshot(s, kind, document)
    case MembershipId(_, _) =>
      exists i :: 0 <= i < |s.content.memberships| && MembershipJob(s, s.content.memberships[i]) == Job(id, document)
  }

  /** A plan holds documents of the content only, each accepted at its instant. */
  lemma PlanWritesOwnDocuments(s: Setup, code: string, at: Instant, job: Job)
    requires job in PlanOf(s, code, at).jobs
    ensures IsOwnDocument(s, job.id, job.document) && s.accepts(job.document, at)
  {
    hide SnapshotDocument, MembershipDocument, MembershipPlan;
    if code == MEMBERSHIP_TARGET {
      MembershipPlanCoversAll(s, s.content.memberships, at);
      var jobs := PlanOf(s, code, at).jobs;
      var i :| 0 <= i < |jobs| && jobs[i] == job;
      assert MembershipJob(s, s.content.memberships[i]) == job;
    }
  }

  predicate OwnPutsAreOwn(s: Setup, log: seq<Entry>) {
    forall p :: 0 <= p < |log| ==> OwnIfPut(s, log[p])
  }

  predicate OwnIfPut(s: Setup, e: Entry) {
    e.Wrote? && e.writer.Some? && e.id.SnapshotId? ==> IsOwnSnapshot(s, e.id.kind, e.document)
  }

  ghost predicate DocumentsHold(s: Setup, documents: map<DocId, Json>, w: World) {
    && (forall id :: DocumentOf(w, id) == Told(documents, w.log, id))
    && OwnPutsAreOwn(s, w.log)
  }

  /**
   * The membership target writes its principals' documents in order up to the first one the
   * validator rejects, and can end verified only when it writes all of them.
   */
  lemma {:induction false} MembershipPlanCoversAll(s: Setup, memberships: seq<Membership>, at: Instant)
    ensures var plan := MembershipPlan(s, memberships, at);
      && |plan.jobs| <= |memberships|
      && (forall i :: 0 <= i < |plan.jobs| ==>
           plan.jobs[i] == MembershipJob(s, memberships[i]) && s.accepts(plan.jobs[i].document, at))
      && (plan.ending.None? <==> |plan.jobs| == |memberships|)
      && (plan.ending.Some? ==>
           plan.ending == Some(CONTENT_INVALID)
           && !s.accepts(MembershipDocument(s.scope, memberships[|plan.jobs|]), at))
  {
    hide MembershipDocument;
    if memberships != [] { MembershipPlanCoversAll(s, memberships[1..], at); }
  }

  lemma PlanIsOwn(s: Setup, code: string, at: Instant, job: Job)
    requires job in PlanOf(s, code, at).jobs && job.id.SnapshotId?
    ensures IsOwnSnapshot(s, job.id.kind, job.document)
  {
    hide SnapshotDocument, MembershipPlan;
    MembershipPlanIsMemberships(s, s.content.memberships, at);
  }

  lemma EntryKeepsDocuments(s: Setup, documents: map<DocId, Json>, w: World, after: World, e: Entry)
    requires DocumentsHold(s, documents, w) && OwnIfPut(s, e)
    requires after.log == w.log + [e]
    requires forall id :: DocumentOf(after, id) == Retold(e, id, DocumentOf(w, id))
    ensures DocumentsHold(s, documents, after)
  {
    hide IsOwnSnapshot, DocumentOf, OwnIfPut;
    assert after.log[..|after.log| - 1] == w.log;
    forall p | 0 <= p < |after.log| ensures OwnIfPut(s, after.log[p]) {
      if p < |w.log| { assert after.log[p] == w.log[p]; }
    }
  }

  lemma RunStageKeepsDocuments(s: Setup, documents: map<DocId, Json>, w: World, id: AttemptId)
    requires Inv(s, w) && DocumentsHold(s, documents, w)
    requires id in w.attempts && w.attempts[id].Attempting?
    requires w.attempts[id].index < |w.attempts[id].start.targets| && w.attempts[id].plan.jobs != []
    ensures DocumentsHold(s, documents, RunStage(s, w, id, w.attempts[id]))
  {
    hide Inv, Credible, PlanOf, Progressed, JobVerified, L.Continues, Finish, Matches, PendingCodes, CodesOf, IsOwnSnapshot;
    var p := w.attempts[id];
    var job := p.plan.jobs[0];
    InvPhase(s, w, id);
    var plan := PlanOf(s, p.start.targets[p.index].code, p.at);
    assert plan.jobs[|p.finished|] == job;
    if job.id.SnapshotId? { PlanIsOwn(s, p.start.targets[p.index].code, p.at, job); }
    var after := RunStage(s, w, id, p);
    if after.log != w.log { EntryKeepsDocuments(s, documents, w, after, after.log[|w.log|]); }
  }

  lemma {:induction false} EveryRunKeepsDocuments(s: Setup, documents: map<DocId, Json>, w: World, trace: seq<Event>)
    requires Inv(s, w) && DocumentsHold(s, documents, w)
    ensures DocumentsHold(s, documents, After(s, w, trace))
    decreases |trace|
  {
    hide Inv, L.Apply, PlanOf, Finish, Arrive, IsOwnSnapshot, RunStage, DocumentsHold;
    if trace != [] {
      var before, e := After(s, w, trace[..|trace| - 1]), trace[|trace| - 1];
      EveryRunKeepsDocuments(s, documents, w, trace[..|trace| - 1]);
      EveryRunKeepsInv(s, w, trace[..|trace| - 1]);
      HappenKeepsDocuments(s, documents, before, e);
    }
  }

  lemma HappenKeepsDocuments(s: Setup, documents: map<DocId, Json>, w: World, e: Event)
    requires Inv(s, w) && DocumentsHold(s, documents, w)
    ensures DocumentsHold(s, documents, Happen(s, w, e))
  {
    hide Inv, L.Apply, PlanOf, Finish, Arrive, IsOwnSnapshot, RunStage;
    if e.Advance? && e.id in w.attempts && w.attempts[e.id].Attempting? {
      var p := w.attempts[e.id];
      if p.index < |p.start.targets| && p.plan.jobs != [] { RunStageKeepsDocuments(s, documents, w, e.id); }
    }
    if e.ElsewhereDocument? {
      var after := Happen(s, w, e);
      EntryKeepsDocuments(s, documents, w, after, after.log[|w.log|]);
    }
  }

  predicate IsForeign(e: Entry, id: DocId) {
    (e.Wrote? && e.writer.None? && e.id == id) || (e.Removed? && e.id == id)
  }

  /** Nobody else touched the document after an attempt had put it. */
  ghost predicate Undisturbed(log: seq<Entry>, id: DocId) {
    forall p, q :: 0 <= p < q < |log| && log[p].Wrote? && log[p].writer.Some? && log[p].id == id ==> !IsForeign(log[q], id)
  }

  lemma {:induction false} ToldAfterOwnPut(s: Setup, documents: map<DocId, Json>, log: seq<Entry>, kind: Kind, p: nat)
    requires p < |log| && log[p].Wrote? && log[p].writer.Some? && log[p].id == SnapshotId(kind)
    requires OwnPutsAreOwn(s, log)
    requires forall q :: p < q < |log| ==> !IsForeign(log[q], SnapshotId(kind))
    ensures HasSnapshot(s.content, kind)
    ensures Told(documents, log, SnapshotId(kind)) == Some(SnapshotDocument(s.scope, kind, s.content.snapshots[kind]))
    decreases |log|
  {
    hide SnapshotDocument;
    var last := log[|log| - 1];
    assert OwnIfPut(s, log[p]) && OwnIfPut(s, last);
    if p < |log| - 1 {
      var init := log[..|log| - 1];
      assert forall q :: 0 <= q < |init| ==> init[q] == log[q];
      ToldAfterOwnPut(s, documents, init, kind, p);
      assert !IsForeign(last, SnapshotId(kind));
    }
  }

  /**
   * With no other writer on the snapshot documents after the attempts put them, every verified snapshot
   * target of the stored revision holds exactly the revision's own content, all at once.
   */
  lemma UndisturbedSetMatchesTogether(s: Setup, documents: map<DocId, Json>, w: World, trace: seq<Event>, i: nat)
    requires Inv(s, w) && DocumentsHold(s, documents, w)
    requires i < |After(s, w, trace).revision.value.targets|
    requires var after := After(s, w, trace); var target := after.revision.value.targets[i];
      && target.outcome == L.Verified && target.code != MEMBERSHIP_TARGET
      && forall kind :: Undisturbed(after.log, SnapshotId(kind))
    ensures var after := After(s, w, trace); HoldsOwnSnapshot(s, after, after.revision.value.targets[i].code)
  {
    hide Told, Happen, PhaseHolds, L.Sound, Proven, Undisturbed, HoldsOwnSnapshot;
    var after := After(s, w, trace);
    EveryRunKeepsInv(s, w, trace);
    EveryRunKeepsDocuments(s, documents, w, trace);
    ProvenSnapshotIsHeld(s, documents, after, after.revision.value.targets[i].code);
  }

  /** The code is for a kind the content has a snapshot of, and the store holds the document of this snapshot. */
  ghost predicate HoldsOwnSnapshot(s: Setup, w: World, code: string) {
    exists kind :: code == CodeOf(SnapshotId(kind)) && HasSnapshot(s.content, kind)
      && DocumentOf(w, SnapshotId(kind)) == Some(SnapshotJob(s, kind).document)
  }

  lemma ProvenSnapshotIsHeld(s: Setup, documents: map<DocId, Json>, w: World, code: string)
    requires DocumentsHold(s, documents, w) && Proven(s, w.log, code) && code != MEMBERSHIP_TARGET
    requires forall kind :: Undisturbed(w.log, SnapshotId(kind))
    ensures HoldsOwnSnapshot(s, w, code)
  {
    hide SnapshotJob, DocumentsHold, CodeOf, JobVerified, Undisturbed;
    var a, at :| ProvenBy(s, w.log, code, a, at);
    var kind :| code == CodeOf(SnapshotId(kind)) && HasSnapshot(s.content, kind)
      && AcceptedAndVerified(s, w.log, SnapshotJob(s, kind), a, at);
    VerifiedSnapshotIsHeld(s, documents, w, kind, a);
  }

  lemma VerifiedSnapshotIsHeld(s: Setup, documents: map<DocId, Json>, w: World, kind: Kind, a: AttemptId)
    requires DocumentsHold(s, documents, w) && Undisturbed(w.log, SnapshotId(kind))
    requires HasSnapshot(s.content, kind) && JobVerified(w.log, a, SnapshotJob(s, kind))
    ensures DocumentOf(w, SnapshotId(kind)) == Some(SnapshotJob(s, kind).document)
  {
    hide SnapshotDocument, Told, IsMatch;
    var job := SnapshotJob(s, kind);
    var p, q :| 0 <= p < q < |w.log| && IsOwnPut(w.log[p], a, job) && IsMatch(w.log[q], a, job);
    ToldAfterOwnPut(s, documents, w.log, kind, p);
  }

  // ----- what a matching read-back says

  lemma SnapshotDocumentIsWellFormed(scope: Text, kind: Kind, snapshot: Json)
    requires WellFormed(snapshot)
    ensures WellFormed(SnapshotDocument(scope, kind, snapshot)) && SnapshotDocument(scope, kind, snapshot).Obj?
    ensures var fields := SnapshotDocument(scope, kind, snapshot).fields;
      |fields| == 5 && DistinctKeys(fields) && fields[4].value == snapshot && fields[4].key == Units("snapshot")
  {
    hide KindName;
    var fields := SnapshotDocument(scope, kind, snapshot).fields;
    assert |Units("id")| == 2 && |Units("kind")| == 4 && |Units("snapshot")| == 8;
    assert |Units("documentType")| == 12 && |Units("scopeGroupId")| == 12;
    assert Units("documentType")[0] == 100 && Units("scopeGroupId")[0] == 115;
    assert fields[0].key == Units("id") && fields[1].key == Units("documentType");
    assert fields[2].key == Units("scopeGroupId") && fields[3].key == Units("kind");
    forall i | 0 <= i < |fields| ensures WellFormedField(fields[i]) {}
  }

  /** The names a snapshot document's stable form keeps, at every depth. */
  function SnapshotNames(scope: Text, kind: Kind): seq<Text> {
    Keys(SortByKey(SnapshotDocument(scope, kind, Null).fields))
  }

  lemma SnapshotNamesAre(scope: Text, kind: Kind, snapshot: Json)
    ensures Keys(SortByKey(SnapshotDocument(scope, kind, snapshot).fields)) == SnapshotNames(scope, kind)
    ensures DistinctTexts(SnapshotNames(scope, kind))
    ensures forall k :: k in SnapshotNames(scope, kind) <==>
      k in [Units("id"), Units("documentType"), Units("scopeGroupId"), Units("kind"), Units("snapshot")]
  {
    hide SortByKey, KindName, Keys;
    var fields, bare := SnapshotDocument(scope, kind, snapshot).fields, SnapshotDocument(scope, kind, Null).fields;
    KeysAlike(fields, bare);
    SortedKeysDependOnKeys(fields, bare);
    SnapshotDocumentIsWellFormed(scope, kind, Null);
    KeysAreDistinct(bare);
    forall k ensures k in SnapshotNames(scope, kind) <==> HasKey(bare, k) { SortedKeysAreTheKeys(bare, k); }
    assert bare[0].key == Units("id") && bare[1].key == Units("documentType") && bare[2].key == Units("scopeGroupId");
    assert bare[3].key == Units("kind") && bare[4].key == Units("snapshot");
  }

  lemma KeysAlike(a: seq<Field>, b: seq<Field>)
    requires |a| == |b| && forall i :: 0 <= i < |a| ==> a[i].key == b[i].key
    ensures Keys(a) == Keys(b)
  {}

  /** A read-back matches exactly when the two contents agree on what the envelope's own names leave of them. */
  lemma ReadBackDecides(scope: Text, kind: Kind, read: Json, written: Json)
    requires WellFormed(read) && WellFormed(written)
    ensures Matches(SnapshotDocument(scope, kind, read), SnapshotDocument(scope, kind, written)) <==>
      Project(read, SnapshotNames(scope, kind)) == Project(written, SnapshotNames(scope, kind))
  {
    hide WellFormed, StableForm, Project, SortByKey;
    SnapshotDocumentIsWellFormed(scope, kind, read);
    SnapshotDocumentIsWellFormed(scope, kind, written);
    SnapshotNamesAre(scope, kind, read);
    var a, b := SnapshotDocument(scope, kind, read), SnapshotDocument(scope, kind, written);
    assert a == Obj(a.fields) && b == Obj(b.fields);
    StableFormWithOneProperty(a.fields, b.fields, 4);
  }

  /** No property of the content is named like one of the envelope. */
  ghost predicate OutsideEnvelope(content: Json) {
    && content.Obj?
    && forall k :: k in [Units("id"), Units("documentType"), Units("scopeGroupId"), Units("kind"), Units("snapshot")] ==>
         !HasKey(content.fields, k)
  }

  /**
   * So content none of whose properties is named like the envelope is not compared at all: whatever
   * such snapshot is read back, it matches. Every snapshot the validators accept is of that kind.
   */
  lemma ReadBackIgnoresContent(scope: Text, kind: Kind, read: Json, written: Json)
    requires WellFormed(read) && WellFormed(written)
    requires OutsideEnvelope(read) && OutsideEnvelope(written)
    ensures Matches(SnapshotDocument(scope, kind, read), SnapshotDocument(scope, kind, written))
  {
    hide WellFormed, Matches, SortByKey, SnapshotDocument, FindKey;
    ReadBackDecides(scope, kind, read, written);
    SnapshotNamesAre(scope, kind, read);
    var names := SnapshotNames(scope, kind);
    ShownDecides(read.fields, written.fields, names, names);
  }

  lemma MembershipDocumentIsWellFormed(scope: Text, m: Membership)
    requires WellFormed(m.evidence)
    ensures WellFormed(MembershipDocument(scope, m)) && MembershipDocument(scope, m).Obj?
    ensures var fields := MembershipDocument(scope, m).fields;
      |fields| == 6 && DistinctKeys(fields) && fields[5].value == m.evidence && fields[5].key == Units("memberships")
  {
    var fields := MembershipDocument(scope, m).fields;
    assert |Units("id")| == 2 && |Units("tenantId")| == 8 && |Units("subjectId")| == 9 && |Units("memberships")| == 11;
    assert |Units("documentType")| == 12 && |Units("scopeGroupId")| == 12;
    assert Units("documentType")[0] == 100 && Units("scopeGroupId")[0] == 115;
    assert fields[0].key == Units("id") && fields[1].key == Units("documentType");
    assert fields[2].key == Units("scopeGroupId") && fields[3].key == Units("tenantId") && fields[4].key == Units("subjectId");
    forall i | 0 <= i < |fields| ensures WellFormedField(fields[i]) {}
  }

  /** The names a membership document's stable form keeps, at every depth. */
  function MembershipNames(scope: Text, tenant: Text, subject: Text): seq<Text> {
    Keys(SortByKey(MembershipDocument(scope, Membership(tenant, subject, Null)).fields))
  }

  lemma MembershipNamesAre(scope: Text, m: Membership)
    ensures Keys(SortByKey(MembershipDocument(scope, m).fields)) == MembershipNames(scope, m.tenant, m.subject)
    ensures DistinctTexts(MembershipNames(scope, m.tenant, m.subject))
    ensures forall k :: k in MembershipNames(scope, m.tenant, m.subject) <==>
      k in [Units("id"), Units("documentType"), Units("scopeGroupId"), Units("tenantId"), Units("subjectId"),
            Units("memberships")]
  {
    hide SortByKey, Keys;
    var fields := MembershipDocument(scope, m).fields;
    var bare := MembershipDocument(scope, Membership(m.tenant, m.subject, Null)).fields;
    KeysAlike(fields, bare);
    SortedKeysDependOnKeys(fields, bare);
    MembershipDocumentIsWellFormed(scope, Membership(m.tenant, m.subject, Null));
    KeysAreDistinct(bare);
    forall k ensures k in MembershipNames(scope, m.tenant, m.subject) <==> HasKey(bare, k) {
      SortedKeysAreTheKeys(bare, k);
    }
    assert bare[0].key == Units("id") && bare[1].key == Units("documentType") && bare[2].key == Units("scopeGroupId");
    assert bare[3].key == Units("tenantId") && bare[4].key == Units("subjectId") && bare[5].key == Units("memberships");
  }

  /** The same of a principal's membership document, whose id fixes the tenant and the subject. */
  lemma MembershipReadBackDecides(scope: Text, tenant: Text, subject: Text, read: Json, written: Json)
    requires WellFormed(read) && WellFormed(written)
    ensures Matches(MembershipDocument(scope, Membership(tenant, subject, read)),
                    MembershipDocument(scope, Membership(tenant, subject, written))) <==>
      Project(read, MembershipNames(scope, tenant, subject)) == Project(written, MembershipNames(scope, tenant, subject))
  {
    hide WellFormed, StableForm, Project, SortByKey;
    var r, w := Membership(tenant, subject, read), Membership(tenant, subject, written);
    MembershipDocumentIsWellFormed(scope, r);
    MembershipDocumentIsWellFormed(scope, w);
    MembershipNamesAre(scope, r);
    var a, b := MembershipDocument(scope, r), MembershipDocument(scope, w);
    assert a == Obj(a.fields) && b == Obj(b.fields);
    StableFormWithOneProperty(a.fields, b.fields, 5);
  }

  predicate Carries(fields: seq<Field>, key: Text, value: Json) {
    FindKey(fields, key) < |fields| && fields[FindKey(fields, key)].value == value
  }

  /** Evidence about this principal: it names the tenant and the subject, and nothing else the envelope names. */
  ghost predicate IsEvidenceOf(evidence: Json, tenant: Text, subject: Text) {
    && evidence.Obj?
    && Carries(evidence.fields, Units("tenantId"), Str(tenant))
    && Carries(evidence.fields, Units("subjectId"), Str(subject))
    && forall k :: k in [Units("id"), Units("documentType"), Units("scopeGroupId"), Units("memberships")] ==>
         !HasKey(evidence.fields, k)
  }

  /**
   * So of a principal's evidence only the tenant and the subject are compared, which the id fixes: groups,
   * status and expiry are not. Every evidence the validators accept is of that kind.
   */
  lemma MembershipReadBackIgnoresEvidence(scope: Text, tenant: Text, subject: Text, read: Json, written: Json)
    requires WellFormed(read) && WellFormed(written)
    requires IsEvidenceOf(read, tenant, subject) && IsEvidenceOf(written, tenant, subject)
    ensures Matches(MembershipDocument(scope, Membership(tenant, subject, read)),
                    MembershipDocument(scope, Membership(tenant, subject, written)))
  {
    hide WellFormed, Matches, SortByKey, MembershipDocument, FindKey;
    MembershipReadBackDecides(scope, tenant, subject, read, written);
    MembershipNamesAre(scope, Membership(tenant, subject, read));
    var names := MembershipNames(scope, tenant, subject);
    ShownDecides(read.fields, written.fields, names, names);
  }

  // ----- the publisher itself

  predicate OnlyOthers(events: seq<Event>, id: AttemptId) {
    forall i :: 0 <= i < |events| ==> IsOther(events[i], id)
  }

  predicate IsOther(e: Event, id: AttemptId) {
    match e
    case Begin(other) => other != id
    case Command(other, _) => other != id
    case Target(other, _) => other != id
    case Advance(other) => other != id
    case _ => true
  }

  lemma OtherKeepsPhase(s: Setup, w: World, e: Event, id: AttemptId)
    requires IsOther(e, id)
    ensures id in Happen(s, w, e).attempts <==> id in w.attempts
    ensures id in w.attempts ==> Happen(s, w, e).attempts[id] == w.attempts[id]
  {
    hide L.Apply, PlanOf, Finish, Arrive, Matches;
  }

  lemma {:induction false} OthersKeepPhase(s: Setup, w: World, trace: seq<Event>, events: seq<Event>, id: AttemptId)
    requires OnlyOthers(events, id)
    ensures id in After(s, w, trace + events).attempts <==> id in After(s, w, trace).attempts
    ensures id in After(s, w, trace).attempts ==>
      After(s, w, trace + events).attempts[id] == After(s, w, trace).attempts[id]
    decreases |events|
  {
    hide Happen;
    if events == [] {
      assert trace + events == trace;
    } else {
      var init, last := events[..|events| - 1], events[|events| - 1];
      OthersKeepPhase(s, w, trace, init, id);
      assert trace + events == (trace + init) + [last];
      AfterOneMore(s, w, trace + init, last);
      assert IsOther(last, id);
      OtherKeepsPhase(s, After(s, w, trace + init), last, id);
    }
  }

  function OrderIn(e: Event, id: AttemptId): seq<L.Order> { if e.Command? && e.id == id then [e.order] else [] }

  /** The commands one attempt ordered, in order. */
  function OrdersOf(trace: seq<Event>, id: AttemptId): seq<L.Order> {
    if trace == [] then [] else OrdersOf(trace[..|trace| - 1], id) + OrderIn(trace[|trace| - 1], id)
  }

  lemma OrdersOfOneMore(trace: seq<Event>, e: Event)
    ensures forall id :: OrdersOf(trace + [e], id) == OrdersOf(trace, id) + OrderIn(e, id)
  {
    assert (trace + [e])[..|trace|] == trace;
  }

  lemma {:induction false} OthersOrderNothing(trace: seq<Event>, events: seq<Event>, id: AttemptId)
    requires OnlyOthers(events, id)
    ensures OrdersOf(trace + events, id) == OrdersOf(trace, id)
    decreases |events|
  {
    if events == [] {
      assert trace + events == trace;
    } else {
      var init, last := events[..|events| - 1], events[|events| - 1];
      OthersOrderNothing(trace, init, id);
      assert trace + events == (trace + init) + [last];
      OrdersOfOneMore(trace + init, last);
      assert IsOther(last, id);
    }
  }

  /** The revision and the documents it publishes, and every event so far as ghost history. */
  class PublicationStore {
    var revision: Stored<Revision>
    var documents: map<DocId, Stored<Json>>
    var nextTag: nat
    ghost const setup: Setup
    ghost const origin: World
    ghost var trace: seq<Event>

    ghost predicate Valid()
      reads this
    {
      && revision == Now().revision && documents == Now().documents && nextTag == Now().nextTag
    }

    ghost function Now(): World
      reads this
    {
      After(setup, origin, trace)
    }

    constructor (ghost setup: Setup, revision: Revision)
      ensures Valid() && trace == [] && this.setup == setup && origin == Initial(revision, map[])
    {
      this.setup, origin, trace := setup, Initial(revision, map[]), [];
      this.revision, documents, nextTag := Stored(revision, 0), map[], 1;
    }

    /** Everything others do while this attempt awaits. */
    method OthersAct(ghost id: AttemptId)
      requires Valid()
      modifies this
      ensures Valid()
      ensures old(trace) <= trace && OnlyOthers(trace[|old(trace)|..], id)
    {}

    /** A put against a version, or a create; `false` is the thrown conflict. */
    method PutDocument(id: DocId, document: Json, ifMatch: Option<nat>) returns (landed: bool)
      modifies this`documents, this`nextTag
      ensures landed <==> IsVersion(old(documents), id, ifMatch)
      ensures documents == if landed then old(documents)[id := Stored(document, old(nextTag))] else old(documents)
      ensures nextTag == if landed then old(nextTag) + 1 else old(nextTag)
    {
      landed := TagOf(documents, id) == ifMatch;
      if landed {
        documents := documents[id := Stored(document, nextTag)];
        nextTag := nextTag + 1;
      }
    }

    method PutRevision(candidate: Revision, ifMatch: nat) returns (tag: Option<nat>)
      modifies this`revision, this`nextTag
      ensures tag == if old(revision).tag == ifMatch then Some(old(nextTag)) else None
      ensures revision == if tag.Some? then Stored(candidate, old(nextTag)) else old(revision)
      ensures nextTag == if tag.Some? then old(nextTag) + 1 else old(nextTag)
    {
      tag := if revision.tag == ifMatch then Some(nextTag) else None;
      if tag.Some? {
        revision := Stored(candidate, nextTag);
        nextTag := nextTag + 1;
      }
    }
  }

  datatype Result = VerifiedResult | FailedResult(reason: string) | ThrewResult

  class Publisher {
    const store: PublicationStore
    const scope: Text
    const accepts: (Json, Instant) -> bool
    const hydrate: Json -> Json

    constructor (store: PublicationStore, scope: Text, accepts: (Json, Instant) -> bool, hydrate: Json -> Json)
      ensures this.store == store && this.scope == scope && this.accepts == accepts && this.hydrate == hydrate
    {
      this.store, this.scope, this.accepts, this.hydrate := store, scope, accepts, hydrate;
    }

    ghost predicate InPhase(id: AttemptId, phase: Phase)
      reads store
    {
      store.Valid() && id in store.Now().attempts && store.Now().attempts[id] == phase
    }

    /** Publishes this content: the attempt's plans are drawn from it. */
    ghost predicate Publishes(content: Content) {
      store.setup == Setup(scope, content, accepts, hydrate)
    }

    ghost method Record(e: Event)
      requires var w := Happen(store.setup, store.Now(), e);
        store.revision == w.revision && store.documents == w.documents && store.nextTag == w.nextTag
      modifies store`trace
      ensures store.trace == old(store.trace) + [e] && store.Valid()
      ensures store.Now() == Happen(store.setup, old(store.Now()), e)
      ensures forall id :: OrdersOf(store.trace, id) == OrdersOf(old(store.trace), id) + OrderIn(e, id)
    {
      AfterOneMore(store.setup, store.origin, store.trace, e);
      OrdersOfOneMore(store.trace, e);
      store.trace := store.trace + [e];
    }

    method Await(ghost id: AttemptId, ghost phase: Phase)
      requires InPhase(id, phase)
      modifies store
      ensures InPhase(id, phase) && old(store.trace) <= store.trace
      ensures OrdersOf(store.trace, id) == OrdersOf(old(store.trace), id)
    {
      hide OrdersOf;
      ghost var before := store.trace;
      store.OthersAct(id);
      OthersOrderNothing(before, store.trace[|before|..], id);
      OthersKeepPhase(store.setup, store.origin, before, store.trace[|before|..], id);
      assert store.trace == before + store.trace[|before|..];
    }

    /** The phase after a job: the next one is in hand, or the target's outcome is recorded. */
    ghost function AfterJob(s: Setup, p: Phase, result: Result): Phase
      requires p.Attempting? && p.index < |p.start.targets| && p.plan.jobs != []
    {
      match result
      case VerifiedResult =>
        p.(finished := p.finished + [p.plan.jobs[0]], plan := p.plan.(jobs := p.plan.jobs[1..]), stage := Ask)
      case FailedResult(reason) => Finish(s, p, Some(reason))
      case ThrewResult => Threw
    }

    /** The version asked for, and the put against it. */
    method Write(ghost id: AttemptId, ghost p: Phase, docId: DocId, document: Json) returns (landed: bool)
      requires InPhase(id, p)
      requires p.Attempting? && p.index < |p.start.targets| && p.stage == Ask
      requires p.plan.jobs != [] && p.plan.jobs[0] == Job(docId, document)
      modifies store
      ensures old(store.trace) <= store.trace
      ensures OrdersOf(store.trace, id) == OrdersOf(old(store.trace), id)
      ensures InPhase(id, if landed then p.(stage := Check) else Finish(store.setup, p, Some(WRITE_REFUSED)))
    {
      hide OrdersOf, Finish, Matches, After, L.Apply, PlanOf, Arrive, OnlyOthers;
      Await(id, p);
      var version := TagOf(store.documents, docId);
      Record(Advance(id));

      Await(id, p.(stage := Send(version)));
      landed := store.PutDocument(docId, document, version);
      Record(Advance(id));
      FinishIgnoresStage(store.setup, p, Send(version), Some(WRITE_REFUSED));
    }

    method WriteAndVerify(ghost id: AttemptId, ghost p: Phase, content: Content, docId: DocId, document: Json, at: Instant)
      returns (result: Result)
      requires Publishes(content) && InPhase(id, p)
      requires p.Attempting? && p.index < |p.start.targets| && p.stage == Ask && p.at == at
      requires p.plan.jobs != [] && p.plan.jobs[0] == Job(docId, document)
      modifies store
      ensures old(store.trace) <= store.trace
      ensures OrdersOf(store.trace, id) == OrdersOf(old(store.trace), id)
      ensures InPhase(id, AfterJob(store.setup, p, result))
    {
      hide OrdersOf, Finish, Matches, After, L.Apply, PlanOf, Arrive, OnlyOthers;
      var landed := Write(id, p, docId, document);
      if !landed { return FailedResult(WRITE_REFUSED); }

      Await(id, p.(stage := Check));
      Record(Advance(id));
      FinishIgnoresStage(store.setup, p, Check, Some(READ_BACK_ABSENT));
      FinishIgnoresStage(store.setup, p, Check, Some(READ_BACK_DIFFERS));
      if docId !in store.documents { return FailedResult(READ_BACK_ABSENT); }
      var read := hydrate(store.documents[docId].value);
      if !accepts(read, at) { return ThrewResult; }
      if !Matches(read, document) { return FailedResult(READ_BACK_DIFFERS); }
      result := VerifiedResult;
    }

    method PublishSnapshot(ghost id: AttemptId, ghost p: Phase, content: Content, kind: Kind, at: Instant)
      returns (result: Result)
      requires Publishes(content) && InPhase(id, p)
      requires p.Attempting? && p.index < |p.start.targets| && p.stage == Ask && p.at == at && p.finished == []
      requires p.plan == PlanOf(store.setup, p.start.targets[p.index].code, at)
      requires p.start.targets[p.index].code != MEMBERSHIP_TARGET && KindOf(p.start.targets[p.index].code) == Some(kind)
      modifies store
      ensures old(store.trace) <= store.trace
      ensures OrdersOf(store.trace, id) == OrdersOf(old(store.trace), id)
      ensures InPhase(id, AfterTarget(store.setup, p, result))
    {
      hide OrdersOf, Finish, Matches, After, KindOf, SnapshotDocument;
      if !HasSnapshot(content, kind) {
        Decide(id, p);
        return FailedResult(CONTENT_ABSENT);
      }
      var document := SnapshotDocument(scope, kind, content.snapshots[kind]);
      if !accepts(document, at) {
        Decide(id, p);
        return FailedResult(CONTENT_INVALID);
      }
      result := WriteAndVerify(id, p, content, SnapshotId(kind), document, at);
      if result.VerifiedResult? {
        FinishIgnoresJobs(store.setup, p, AfterJob(store.setup, p, result), None);
        Decide(id, AfterJob(store.setup, p, result));
      }
    }

    /** The phase after a target: its outcome is recorded and the next one is in hand, or the attempt threw. */
    ghost function AfterTarget(s: Setup, p: Phase, result: Result): Phase
      requires p.Attempting? && p.index < |p.start.targets|
    {
      match result
      case VerifiedResult => Finish(s, p, None)
      case FailedResult(reason) => Finish(s, p, Some(reason))
      case ThrewResult => Threw
    }

    /** A plan with nothing left to write decides its target. */
    ghost method Decide(id: AttemptId, p: Phase)
      requires InPhase(id, p) && p.Attempting? && p.index < |p.start.targets| && p.plan.jobs == []
      modifies store`trace
      ensures old(store.trace) <= store.trace && InPhase(id, Finish(store.setup, p, p.plan.ending))
      ensures OrdersOf(store.trace, id) == OrdersOf(old(store.trace), id)
    {
      hide OrdersOf, Finish, After;
      Record(Advance(id));
    }

    method PublishMemberships(ghost id: AttemptId, ghost p: Phase, content: Content, at: Instant) returns (result: Result)
      requires Publishes(content) && InPhase(id, p)
      requires p.Attempting? && p.index < |p.start.targets| && p.stage == Ask && p.at == at && p.finished == []
      requires p.plan == PlanOf(store.setup, p.start.targets[p.index].code, at)
      requires p.start.targets[p.index].code == MEMBERSHIP_TARGET
      modifies store
      ensures old(store.trace) <= store.trace
      ensures OrdersOf(store.trace, id) == OrdersOf(old(store.trace), id)
      ensures InPhase(id, AfterTarget(store.setup, p, result))
    {
      hide OrdersOf, Finish, Matches, After, MembershipDocument, KindOf;
      var memberships := content.memberships;
      if memberships == [] {
        Decide(id, p);
        return FailedResult(CONTENT_ABSENT);
      }
      ghost var q := p;
      for k := 0 to |memberships|
        invariant old(store.trace) <= store.trace && OrdersOf(store.trace, id) == OrdersOf(old(store.trace), id)
        invariant q.Attempting? && q.stage == Ask && SameTarget(p, q)
        invariant q.plan == MembershipPlan(store.setup, memberships[k..], at)
        invariant InPhase(id, q)
      {
        var document := MembershipDocument(scope, memberships[k]);
        assert memberships[k..][1..] == memberships[k + 1..];
        if !accepts(document, at) {
          FinishIgnoresJobs(store.setup, p, q, Some(CONTENT_INVALID));
          Decide(id, q);
          return FailedResult(CONTENT_INVALID);
        }
        var job := MembershipId(memberships[k].tenant, memberships[k].subject);
        result := WriteAndVerify(id, q, content, job, document, at);
        if !result.VerifiedResult? {
          if result.FailedResult? { FinishIgnoresJobs(store.setup, p, q, Some(result.reason)); }
          return;
        }
        q := AfterJob(store.setup, q, result);
      }
      FinishIgnoresJobs(store.setup, p, q, None);
      Decide(id, q);
      result := VerifiedResult;
    }

    /**
     * `publish`: every initially pending target once, in order. `None` is a thrown error; otherwise
     * the attempt has reached the end of its targets with this revision and these attempts.
     */
    method Publish(ghost id: AttemptId, start: Revision, ghost tag: nat, content: Content, at: Instant)
      returns (published: Option<(Revision, seq<Attempted>)>)
      requires Publishes(content) && InPhase(id, Held(start, tag))
      modifies store
      ensures store.Valid() && old(store.trace) <= store.trace
      ensures OrdersOf(store.trace, id) == OrdersOf(old(store.trace), id)
      ensures match published
        case None => InPhase(id, Threw)
        case Some((current, attempted)) =>
          && InPhase(id, Arrive(store.setup, tag, start, current, at, |start.targets|, attempted))
          && current.state == start.state
    {
      hide OrdersOf, Finish, Matches, After, KindOf, L.RecordOutcome, PlanOf, Arrive;
      Record(Target(id, at));
      var current := start;
      var attempted: seq<Attempted> := [];
      for i := 0 to |start.targets|
        invariant old(store.trace) <= store.trace && OrdersOf(store.trace, id) == OrdersOf(old(store.trace), id)
        invariant InPhase(id, Arrive(store.setup, tag, start, current, at, i, attempted))
        invariant current.state == start.state
      {
        var code := start.targets[i].code;
        ghost var p := Arrive(store.setup, tag, start, current, at, i, attempted);
        if start.targets[i].outcome != L.Pending {
          ArriveSkips(store.setup, tag, start, current, at, i, attempted);
        } else {
          ArrivesAtPending(store.setup, tag, start, current, at, i, attempted);
          var result := PublishTarget(id, p, content, code, at);
          if result.ThrewResult? { return None; }
          var reason := if result.FailedResult? then Some(result.reason) else None;
          var outcome := if result.FailedResult? then L.TargetFailed else L.Verified;
          FinishIs(store.setup, p, reason);
          var applied := L.RecordOutcome(current, code, outcome, at, reason);
          if !applied.Accepted? { return None; }
          RecordKeepsState(current, code, outcome, at, reason);
          current := applied.revision;
          attempted := attempted + [Attempted(code, outcome, reason)];
        }
      }
      published := Some((current, attempted));
    }

    method PublishTarget(ghost id: AttemptId, ghost p: Phase, content: Content, code: string, at: Instant)
      returns (result: Result)
      requires Publishes(content) && InPhase(id, p)
      requires p.Attempting? && p.index < |p.start.targets| && p.stage == Ask && p.at == at && p.finished == []
      requires p.start.targets[p.index].code == code && p.plan == PlanOf(store.setup, code, at)
      modifies store
      ensures old(store.trace) <= store.trace
      ensures OrdersOf(store.trace, id) == OrdersOf(old(store.trace), id)
      ensures InPhase(id, AfterTarget(store.setup, p, result))
    {
      hide OrdersOf, Finish, After, KindOf;
      if code == MEMBERSHIP_TARGET {
        result := PublishMemberships(id, p, content, at);
      } else {
        var kind := KindOf(code);
        if kind.Some? {
          result := PublishSnapshot(id, p, content, kind.value, at);
        } else {
          Decide(id, p);
          result := FailedResult(TARGET_UNKNOWN);
        }
      }
    }
  }

  /** Two phases of one attempt over one target. */
  ghost predicate SameTarget(p: Phase, q: Phase) {
    && p.Attempting? && q.Attempting?
    && q.tag == p.tag && q.start == p.start && q.current == p.current && q.at == p.at && q.index == p.index
    && q.attempted == p.attempted
  }

  lemma FinishIgnoresJobs(s: Setup, p: Phase, q: Phase, reason: Option<string>)
    requires SameTarget(p, q) && p.index < |p.start.targets|
    ensures Finish(s, q, reason) == Finish(s, p, reason)
  {}

  lemma RecordKeepsState(r: Revision, code: string, outcome: L.Outcome, at: Instant, reason: Option<string>)
    requires L.RecordOutcome(r, code, outcome, at, reason).Accepted?
    ensures L.RecordOutcome(r, code, outcome, at, reason).revision.state == r.state
  {}

  lemma FinishIs(s: Setup, p: Phase, reason: Option<string>)
    requires p.Attempting? && p.index < |p.start.targets|
    ensures var code := p.start.targets[p.index].code;
      var outcome := if reason.Some? then L.TargetFailed else L.Verified;
      var recorded := L.RecordOutcome(p.current, code, outcome, p.at, reason);
      Finish(s, p, reason) ==
        if recorded.Accepted? then
          Arrive(s, p.tag, p.start, recorded.revision, p.at, p.index + 1, p.attempted + [Attempted(code, outcome, reason)])
        else Threw
  {}

  lemma ArriveSkips(s: Setup, tag: nat, start: Revision, current: Revision, at: Instant, i: nat, attempted: seq<Attempted>)
    requires i < |start.targets| && start.targets[i].outcome != L.Pending
    ensures Arrive(s, tag, start, current, at, i, attempted) == Arrive(s, tag, start, current, at, i + 1, attempted)
  {}

  lemma ArrivesAtPending(s: Setup, tag: nat, start: Revision, current: Revision, at: Instant, i: nat,
                         attempted: seq<Attempted>)
    requires i < |start.targets| && start.targets[i].outcome == L.Pending
    ensures Arrive(s, tag, start, current, at, i, attempted) ==
      Attempting(tag, start, current, at, i, [], PlanOf(s, start.targets[i].code, at), Ask, attempted)
  {}
}
