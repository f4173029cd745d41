/**
 * Authoring a change: a draft is stored before the revision that publishes it.
 *
 * Any number of `propose` calls interleave at their awaits, any of them may stop forever between
 * its two writes, and other components may create or rewrite revisions. Nobody else writes drafts.
 */
module DraftAuthoring {
  import opened Common
  import opened Numerals
  import Lifecycle

  type CallId = nat
  type Revision = Lifecycle.Revision

  /** What a revision proposes; the content itself is opaque here. */
  type Content = string

  datatype Draft = Draft(revisionId: string, content: Content, authoredBy: string, authoredAt: Instant)

  datatype Proposal = Proposal(content: Content, publishable: bool, authoredBy: string, at: Instant, targets: seq<string>)

  function HighestOf(revisions: seq<Revision>): int {
    if revisions == [] then 0
    else
      var rest := HighestOf(revisions[..|revisions| - 1]);
      var number := revisions[|revisions| - 1].revisionNumber;
      if number > rest then number else rest
  }

  function NextRevisionNumber(revisions: seq<Revision>): (number: nat)
    ensures number >= 1
    ensures forall r :: r in revisions ==> r.revisionNumber < number
    ensures number == 1 || exists r :: r in revisions && r.revisionNumber == number - 1
  {
    HighestBounds(revisions);
    HighestOf(revisions) + 1
  }

  lemma {:induction false} HighestBounds(revisions: seq<Revision>)
    ensures HighestOf(revisions) >= 0
    ensures forall r :: r in revisions ==> r.revisionNumber <= HighestOf(revisions)
    ensures HighestOf(revisions) == 0 || exists r :: r in revisions && r.revisionNumber == HighestOf(revisions)
  {
    if revisions != [] {
      var init, last := revisions[..|revisions| - 1], revisions[|revisions| - 1];
      assert revisions == init + [last];
      HighestBounds(init);
      if last.revisionNumber > HighestOf(init) {
        assert last in revisions;
      } else if HighestOf(init) != 0 {
        var r :| r in init && r.revisionNumber == HighestOf(init);
        assert r in revisions;
      }
    }
  }

  const Prefix := "revision-"

  function RevisionId(number: nat): string { Prefix + PadLeft(Digits(number), 4) }

  function NumberOf(revisionId: string): Option<nat> {
    if |revisionId| > |Prefix| && Prefix <= revisionId && AllDigits(revisionId[|Prefix|..])
    then Some(Value(revisionId[|Prefix|..])) else None
  }

  /**
   * A revision id is its prefix and its number in decimal, with zeros in front up to four digits and no further; it
   * decodes back to that number, so two numbers never share an id.
   */
  lemma RevisionIdDecodes(number: nat)
    ensures NumberOf(RevisionId(number)) == Some(number)
    ensures var id := RevisionId(number);
      "revision-" <= id && |id| >= 13 && AllDigits(id[9..]) && Value(id[9..]) == number && (|id| > 13 ==> id[9] != '0')
  {
    PaddingReadsBack(number, 4);
    assert |Prefix| == 9 && Prefix == "revision-";
    assert RevisionId(number)[|Prefix|..] == PadLeft(Digits(number), 4);
    if number > 0 { NoLeadingZero(number); }
    if |Digits(number)| > 4 { assert number > 0; }
  }

  lemma RevisionIdsAreUnique(a: nat, b: nat)
    ensures RevisionId(a) == RevisionId(b) ==> a == b
  {
    RevisionIdDecodes(a);
    RevisionIdDecodes(b);
  }

  // ----- the store and the calls in flight

  datatype Phase =
    | Querying(proposal: Proposal)
    | Drafting(proposal: Proposal, number: nat)
    | Revising(proposal: Proposal, number: nat)
    | Proposed(proposal: Proposal, revision: Revision)
    | Unavailable
    | Threw(proposal: Proposal)

  datatype StoredDraft = StoredDraft(draft: Draft, author: CallId)

  /** Revisions are kept by id; `created` remembers which call created one. */
  datatype World = World(
    revisions: seq<Revision>,
    drafts: map<string, StoredDraft>,
    created: map<string, CallId>,
    calls: map<CallId, Phase>)

  const Empty: World := World([], map[], map[], map[])

  datatype Event =
    | Begin(id: CallId, proposal: Proposal)
    | Advance(id: CallId)
    | Elsewhere(revision: Revision)

  function Find(revisions: seq<Revision>, revisionId: string): (index: nat)
    ensures index <= |revisions|
    ensures index < |revisions| ==> revisions[index].revisionId == revisionId
    ensures forall i :: 0 <= i < index ==> revisions[i].revisionId != revisionId
  {
    if revisions == [] || revisions[0].revisionId == revisionId then 0
    else
      assert forall i :: 0 < i < |revisions| ==> revisions[i] == revisions[1..][i - 1];
      1 + Find(revisions[1..], revisionId)
  }

  predicate Holds(w: World, revisionId: string) {
    Find(w.revisions, revisionId) < |w.revisions|
  }

  function DraftOf(p: Proposal, number: nat): Draft {
    Draft(RevisionId(number), p.content, p.authoredBy, p.at)
  }

  function RevisionOf(p: Proposal, scopeGroupId: string, number: nat): Revision {
    Lifecycle.NewRevision(RevisionId(number), scopeGroupId, number, p.authoredBy, p.at, p.targets)
  }

  const Scope := "scope"

  function Enter(w: World, id: CallId, phase: Phase): World { w.(calls := w.calls[id := phase]) }

  function Progress(w: World, id: CallId, phase: Phase): World {
    match phase
    case Querying(p) => Enter(w, id, Drafting(p, NextRevisionNumber(w.revisions)))
    case Drafting(p, number) =>
      if RevisionId(number) in w.drafts then Enter(w, id, Threw(p))
      else
        Enter(w.(drafts := w.drafts[RevisionId(number) := StoredDraft(DraftOf(p, number), id)]), id, Revising(p, number))
    case Revising(p, number) =>
      if Holds(w, RevisionId(number)) then Enter(w, id, Threw(p))
      else
        var revision := RevisionOf(p, Scope, number);
        Enter(w.(revisions := w.revisions + [revision], created := w.created[RevisionId(number) := id]),
              id, Proposed(p, revision))
    case _ => w
  }

  function Happen(w: World, e: Event): World {
    match e
    case Begin(id, p) =>
      if id in w.calls then w else Enter(w, id, if p.publishable then Querying(p) else Unavailable)
    case Advance(id) => if id in w.calls then Progress(w, id, w.calls[id]) else w
    case Elsewhere(revision) =>
      var index := Find(w.revisions, revision.revisionId);
      w.(revisions := if index < |w.revisions| then w.revisions[index := revision] else w.revisions + [revision])
  }

  function After(trace: seq<Event>): World {
    if trace == [] then Empty else Happen(After(trace[..|trace| - 1]), trace[|trace| - 1])
  }

  // ----- what every run keeps

  /** Whoever created a revision has finished, with that revision. */
  predicate CreatedHolds(w: World, revisionId: string)
    requires revisionId in w.created
  {
    var id := w.created[revisionId];
    id in w.calls && w.calls[id].Proposed? && w.calls[id].revision.revisionId == revisionId
  }

  predicate PhaseHolds(w: World, id: CallId, phase: Phase) {
    match phase
    case Drafting(_, number) => number >= 1
    case Revising(p, number) =>
      && number >= 1
      && RevisionId(number) in w.drafts
      && w.drafts[RevisionId(number)] == StoredDraft(DraftOf(p, number), id)
    case Proposed(p, revision) =>
      && revision.revisionNumber >= 1
      && revision == RevisionOf(p, Scope, revision.revisionNumber)
      && revision.revisionId in w.created
      && w.created[revision.revisionId] == id
      && revision.revisionId in w.drafts
      && w.drafts[revision.revisionId] == StoredDraft(DraftOf(p, revision.revisionNumber), id)
    case _ => true
  }

  predicate Inv(w: World) {
    && (forall r :: r in w.created ==> Holds(w, r))
    && (forall r :: r in w.created ==> CreatedHolds(w, r))
    && (forall id :: id in w.calls ==> PhaseHolds(w, id, w.calls[id]))
    && (forall i, j :: 0 <= i < j < |w.revisions| ==> w.revisions[i].revisionId != w.revisions[j].revisionId)
  }

  lemma {:induction false} HighestOfCounted(revisions: seq<Revision>)
    requires forall i :: 0 <= i < |revisions| ==> revisions[i].revisionNumber == i + 1
    ensures HighestOf(revisions) == |revisions|
  {
    if revisions != [] { HighestOfCounted(revisions[..|revisions| - 1]); }
  }

  lemma FindFinds(revisions: seq<Revision>, i: nat)
    requires i < |revisions|
    ensures Find(revisions, revisions[i].revisionId) < |revisions|
  {}

  /** Only this call's phase changed, and drafts were only added. */
  lemma EnterKeepsInv(w: World, drafts: map<string, StoredDraft>, id: CallId, phase: Phase)
    requires Inv(w) && (id in w.calls ==> !w.calls[id].Proposed?)
    requires forall r :: r in w.drafts ==> r in drafts && drafts[r] == w.drafts[r]
    requires PhaseHolds(Enter(w.(drafts := drafts), id, phase), id, phase)
    ensures Inv(Enter(w.(drafts := drafts), id, phase))
  {
    hide RevisionId, RevisionOf, DraftOf;
    var after := Enter(w.(drafts := drafts), id, phase);
    forall r | r in after.created ensures CreatedHolds(after, r) { assert CreatedHolds(w, r); }
    forall r | r in after.created ensures Holds(after, r) { assert Holds(w, r); }
    forall other | other in after.calls ensures PhaseHolds(after, other, after.calls[other]) {
      if other != id { assert PhaseHolds(w, other, w.calls[other]); }
    }
  }

  lemma ProgressKeepsInv(w: World, id: CallId)
    requires Inv(w) && id in w.calls
    ensures Inv(Progress(w, id, w.calls[id]))
  {
    hide RevisionId, RevisionOf, DraftOf, Inv, Find;
    assert PhaseHolds(w, id, w.calls[id]) by { InvPhase(w, id); }
    match w.calls[id]
    case Querying(p) => EnterKeepsInv(w, w.drafts, id, Drafting(p, NextRevisionNumber(w.revisions)));
    case Drafting(p, number) =>
      if RevisionId(number) in w.drafts { EnterKeepsInv(w, w.drafts, id, Threw(p)); }
      else {
        var drafts := w.drafts[RevisionId(number) := StoredDraft(DraftOf(p, number), id)];
        EnterKeepsInv(w, drafts, id, Revising(p, number));
      }
    case Revising(p, number) =>
      if Holds(w, RevisionId(number)) { EnterKeepsInv(w, w.drafts, id, Threw(p)); }
      else { RevisingKeepsInv(w, id); }
    case _ =>
  }

  lemma InvPhase(w: World, id: CallId)
    requires Inv(w) && id in w.calls
    ensures PhaseHolds(w, id, w.calls[id])
  {}

  lemma RevisingKeepsInv(w: World, id: CallId)
    requires Inv(w) && id in w.calls && w.calls[id].Revising? && !Holds(w, RevisionId(w.calls[id].number))
    ensures Inv(Progress(w, id, w.calls[id]))
  {
    hide RevisionId, DraftOf, RevisionOf, Inv, Find;
    var Revising(p, number) := w.calls[id];
    InvPhase(w, id);
    RevisionOfFields(p, number);
    CreationKeepsInv(w, id, RevisionOf(p, Scope, number), Proposed(p, RevisionOf(p, Scope, number)));
  }

  /** A revision is created under an id nothing holds, and its creator is finished. */
  lemma CreationKeepsInv(w: World, id: CallId, revision: Revision, phase: Phase)
    requires Inv(w) && id in w.calls && !w.calls[id].Proposed?
    requires !Holds(w, revision.revisionId)
    requires phase.Proposed? && phase.revision == revision
    requires var after := w.(revisions := w.revisions + [revision], created := w.created[revision.revisionId := id]);
      PhaseHolds(Enter(after, id, phase), id, phase)
    ensures var after := w.(revisions := w.revisions + [revision], created := w.created[revision.revisionId := id]);
      Inv(Enter(after, id, phase))
  {
    hide RevisionId, DraftOf, RevisionOf, HighestOf, After;
    var name := revision.revisionId;
    var after := Enter(w.(revisions := w.revisions + [revision], created := w.created[name := id]), id, phase);
    assert name !in w.created;
    CreatedStillHeld(w, revision, id, after);
    hide Holds, Find, PhaseHolds;
    CreatorsStayDone(w, after, name, id);
    forall other | other in after.calls ensures PhaseHolds(after, other, after.calls[other]) {
      if other != id { PhaseSurvivesCreation(w, after, name, id, other, w.calls[other]); }
    }
  }

  lemma CreatorsStayDone(w: World, after: World, name: string, id: CallId)
    requires Inv(w) && id in w.calls && !w.calls[id].Proposed?
    requires after.created == w.created[name := id] && after.calls.Keys == w.calls.Keys
    requires forall other :: other in w.calls && other != id ==> after.calls[other] == w.calls[other]
    requires after.calls[id].Proposed? && after.calls[id].revision.revisionId == name
    ensures forall r :: r in after.created ==> CreatedHolds(after, r)
  {
    hide Holds, Find, PhaseHolds;
    forall r | r in after.created ensures CreatedHolds(after, r) {
      if r != name { assert CreatedHolds(w, r); }
    }
  }

  lemma PhaseSurvivesCreation(w: World, after: World, name: string, id: CallId, other: CallId, phase: Phase)
    requires PhaseHolds(w, other, phase) && name !in w.created
    requires after.drafts == w.drafts && after.created == w.created[name := id]
    ensures PhaseHolds(after, other, phase)
  {
    hide RevisionId, DraftOf, RevisionOf;
  }

  lemma CreatedStillHeld(w: World, revision: Revision, id: CallId, after: World)
    requires Inv(w) && !Holds(w, revision.revisionId)
    requires after.revisions == w.revisions + [revision]
    requires after.created == w.created[revision.revisionId := id]
    ensures forall r :: r in after.created ==> Holds(after, r)
    ensures forall i, j :: 0 <= i < j < |after.revisions| ==> after.revisions[i].revisionId != after.revisions[j].revisionId
  {
    hide PhaseHolds, CreatedHolds;
    forall r | r in after.created ensures Holds(after, r) {
      if r == revision.revisionId { FindFinds(after.revisions, |w.revisions|); } else { HoldsSurvives(w, after, r); }
    }
  }

  lemma RevisionOfFields(p: Proposal, number: nat)
    ensures RevisionOf(p, Scope, number).revisionId == RevisionId(number)
    ensures RevisionOf(p, Scope, number).revisionNumber == number
  {}

  lemma HoldsSurvives(w: World, after: World, revisionId: string)
    requires Holds(w, revisionId)
    requires |w.revisions| <= |after.revisions|
    requires forall i :: 0 <= i < |w.revisions| ==> after.revisions[i].revisionId == w.revisions[i].revisionId
    ensures Holds(after, revisionId)
  {
    var i := Find(w.revisions, revisionId);
    FindFinds(after.revisions, i);
  }

  lemma ElsewhereKeepsInv(w: World, revision: Revision)
    requires Inv(w)
    ensures Inv(Happen(w, Elsewhere(revision)))
  {
    hide RevisionId, RevisionOf, DraftOf;
    var after := Happen(w, Elsewhere(revision));
    forall r | r in after.created ensures Holds(after, r) { HoldsSurvives(w, after, r); }
    forall r | r in after.created ensures CreatedHolds(after, r) { assert CreatedHolds(w, r); }
    forall id | id in after.calls ensures PhaseHolds(after, id, after.calls[id]) { assert PhaseHolds(w, id, w.calls[id]); }
  }

  lemma HappenKeepsInv(w: World, e: Event)
    requires Inv(w)
    ensures Inv(Happen(w, e))
  {
    hide RevisionId, Inv, Find;
    match e
    case Begin(id, p) =>
      if id !in w.calls { EnterKeepsInv(w, w.drafts, id, if p.publishable then Querying(p) else Unavailable); }
    case Advance(id) => if id in w.calls { ProgressKeepsInv(w, id); }
    case Elsewhere(revision) => ElsewhereKeepsInv(w, revision);
  }

  lemma {:induction false} EveryRunKeepsInv(trace: seq<Event>)
    ensures Inv(After(trace))
  {
    if trace != [] {
      EveryRunKeepsInv(trace[..|trace| - 1]);
      HappenKeepsInv(After(trace[..|trace| - 1]), trace[|trace| - 1]);
    }
  }

  // ----- what the run guarantees

  /** The draft of a proposal: its content, under its author and its instant. */
  predicate IsDraftOf(p: Proposal, revisionId: string, draft: Draft) {
    && draft.revisionId == revisionId
    && draft.content == p.content && draft.authoredBy == p.authoredBy && draft.authoredAt == p.at
  }

  /** The revision of a proposal: a fresh draft over exactly the targets proposed, by its author at its instant. */
  predicate IsRevisionOf(p: Proposal, revisionId: string, number: nat, r: Revision) {
    && r.revisionId == revisionId && r.revisionNumber == number && r.scopeGroupId == Scope
    && r.state == Lifecycle.Draft && r.authoredBy == p.authoredBy && r.authoredAt == p.at
    && multiset(Lifecycle.TargetCodes(r.targets)) == multiset(p.targets)
    && (forall i :: 0 <= i < |r.targets| ==> r.targets[i].outcome == Lifecycle.Pending && r.targets[i].reason == None)
    && r.approvedBy == None && r.approvedAt == None && r.publishedBy == None && r.publishStartedAt == None
    && r.publishCompletedAt == None && r.failure == None && r.supersededInFavourOf == None
    && |r.history| == 1 && r.history[0].action == Lifecycle.Create
    && r.history[0].actor == p.authoredBy && r.history[0].at == p.at
    && r.history[0].from == Lifecycle.Nowhere && r.history[0].to == Lifecycle.At(Lifecycle.Draft)
  }

  lemma RevisionDeclares(p: Proposal, number: nat)
    ensures IsRevisionOf(p, RevisionId(number), number, RevisionOf(p, Scope, number))
    ensures IsDraftOf(p, RevisionId(number), DraftOf(p, number))
  {
    hide RevisionId, Lifecycle.SortedCodes;
    Lifecycle.SortedCodesAreTheDeclared(p.targets);
    assert Lifecycle.TargetCodes(RevisionOf(p, Scope, number).targets) == Lifecycle.SortedCodes(p.targets);
  }

  /** A step creates a revision only by storing it: the one its call then answers with. */
  lemma CreationIsStored(trace: seq<Event>, e: Event, revisionId: string)
    requires revisionId in After(trace + [e]).created && revisionId !in After(trace).created
    ensures var w, after := After(trace), After(trace + [e]); var id := after.created[revisionId];
      && e == Advance(id) && IsProposed(after, id) && after.calls[id].revision.revisionId == revisionId
      && after.revisions == w.revisions + [after.calls[id].revision]
  {
    hide RevisionId, RevisionOf, DraftOf, Find, After;
    AfterOneMore(trace, e);
    if e.Advance? && e.id in After(trace).calls && After(trace).calls[e.id].Revising? {
      RevisionOfFields(After(trace).calls[e.id].proposal, After(trace).calls[e.id].number);
    }
  }

  /**
   * Every revision a proposal created declares that proposal's targets, by its author at its instant, and has its
   * draft, written by the same call with the content it was given; and its id decodes to its number.
   */
  lemma CreatedRevisionHasItsDraft(trace: seq<Event>, revisionId: string)
    requires revisionId in After(trace).created
    ensures var w := After(trace); var id := w.created[revisionId];
      && Holds(w, revisionId)
      && id in w.calls && w.calls[id].Proposed?
      && revisionId in w.drafts
      && w.calls[id].revision.revisionNumber >= 1
      && var proposal, number := w.calls[id].proposal, w.calls[id].revision.revisionNumber;
      && IsRevisionOf(proposal, revisionId, number, w.calls[id].revision)
      && w.drafts[revisionId].author == id && IsDraftOf(proposal, revisionId, w.drafts[revisionId].draft)
      && NumberOf(revisionId) == Some(w.calls[id].revision.revisionNumber)
  {
    hide RevisionId, NumberOf, DraftOf, Find, IsRevisionOf, IsDraftOf, RevisionOf;
    EveryRunKeepsInv(trace);
    var w := After(trace);
    assert CreatedHolds(w, revisionId);
    var id := w.created[revisionId];
    InvPhase(w, id);
    RevisionOfFields(w.calls[id].proposal, w.calls[id].revision.revisionNumber);
    RevisionDeclares(w.calls[id].proposal, w.calls[id].revision.revisionNumber);
    RevisionIdDecodes(w.calls[id].revision.revisionNumber);
  }

  /** No call creates two revisions, and no two calls create one. */
  lemma OneRevisionPerProposal(trace: seq<Event>, a: string, b: string)
    requires a in After(trace).created && b in After(trace).created
    ensures After(trace).created[a] == After(trace).created[b] <==> a == b
  {
    hide RevisionId, PhaseHolds, Find;
    EveryRunKeepsInv(trace);
    assert CreatedHolds(After(trace), a) && CreatedHolds(After(trace), b);
  }

  /** What a publish applies: the stored draft's content, or nothing when there is no draft. */
  function ProposedContent(w: World, revisionId: string): Option<Content> {
    if revisionId in w.drafts then Some(w.drafts[revisionId].draft.content) else None
  }

  lemma AfterOneMore(trace: seq<Event>, e: Event)
    ensures After(trace + [e]) == Happen(After(trace), e)
  {
    assert (trace + [e])[..|trace|] == trace;
  }

  /**
   * A draft, once stored, is never replaced: every publish and every retry of a revision, however
   * much later and whatever happens between, applies the same content.
   */
  lemma {:induction false} DraftsAreNeverReplaced(trace: seq<Event>, more: seq<Event>, revisionId: string)
    requires revisionId in After(trace).drafts
    ensures revisionId in After(trace + more).drafts
    ensures After(trace + more).drafts[revisionId] == After(trace).drafts[revisionId]
    ensures ProposedContent(After(trace + more), revisionId) == ProposedContent(After(trace), revisionId)
  {
    hide RevisionId, DraftOf, RevisionOf, Find;
    if more == [] {
      assert trace + more == trace;
    } else {
      var init, last := more[..|more| - 1], more[|more| - 1];
      DraftsAreNeverReplaced(trace, init, revisionId);
      assert trace + more == (trace + init) + [last];
      AfterOneMore(trace + init, last);
    }
  }

  // ----- the cost of a torn write

  /** A call takes its three steps with nothing in between. */
  function ThreeSteps(w: World, id: CallId): World {
    Happen(Happen(Happen(w, Advance(id)), Advance(id)), Advance(id))
  }

  predicate IsProposed(w: World, id: CallId) { id in w.calls && w.calls[id].Proposed? }

  /** The next number is free: no draft and no revision has its id. */
  predicate NextIsFree(w: World) {
    var next := RevisionId(NextRevisionNumber(w.revisions));
    next !in w.drafts && !Holds(w, next)
  }

  /** Undisturbed, a proposal that is about to look succeeds exactly when the next number is free. */
  lemma UndisturbedProposalSucceedsExactly(w: World, id: CallId)
    requires id in w.calls && w.calls[id].Querying?
    ensures IsProposed(ThreeSteps(w, id), id) <==> NextIsFree(w)
  {
    hide RevisionId, RevisionOf, DraftOf, NextRevisionNumber, Find;
  }

  /** Elsewhere a stored revision is rewritten, under its own id and number: approved, published, settled, saved. */
  predicate IsRewrite(w: World, revision: Revision) {
    var index := Find(w.revisions, revision.revisionId);
    index < |w.revisions| && revision.revisionNumber == w.revisions[index].revisionNumber
  }

  predicate OnlyRewrites(trace: seq<Event>) {
    forall i :: 0 <= i < |trace| && trace[i].Elsewhere? ==> IsRewrite(After(trace[..i]), trace[i].revision)
  }

  lemma RewritesOfPrefix(trace: seq<Event>, more: seq<Event>)
    requires OnlyRewrites(trace + more)
    ensures OnlyRewrites(trace)
    ensures more != [] && more[0].Elsewhere? ==> IsRewrite(After(trace), more[0].revision)
  {
    hide After, IsRewrite;
    forall i | 0 <= i < |trace| && trace[i].Elsewhere? ensures IsRewrite(After(trace[..i]), trace[i].revision) {
      assert (trace + more)[..i] == trace[..i] && (trace + more)[i] == trace[i];
    }
    if more != [] { assert (trace + more)[..|trace|] == trace && (trace + more)[|trace|] == more[0]; }
  }

  /** The draft's revision is stored, or its author is about to store it. */
  predicate DraftIsFollowed(w: World, revisionId: string)
    requires revisionId in w.drafts
  {
    var author := w.drafts[revisionId].author;
    || Holds(w, revisionId)
    || (author in w.calls && w.calls[author].Revising? && RevisionId(w.calls[author].number) == revisionId)
  }

  /** Where proposals alone create revisions, numbers are handed out one by one, each draft first. */
  predicate Counted(w: World) {
    && (forall i :: 0 <= i < |w.revisions| ==> w.revisions[i].revisionNumber == i + 1)
    && (forall i :: 0 <= i < |w.revisions| ==> w.revisions[i].revisionId == RevisionId(i + 1))
    && (forall i :: 0 <= i < |w.revisions| ==> w.revisions[i].revisionId in w.drafts)
    && (forall id :: id in w.calls && w.calls[id].Drafting? ==> w.calls[id].number <= |w.revisions| + 1)
    && (forall id :: id in w.calls && w.calls[id].Revising? ==> w.calls[id].number == |w.revisions| + 1)
    && (forall r :: r in w.drafts ==> DraftIsFollowed(w, r))
  }

  lemma CountedHolds(w: World, number: nat)
    requires Counted(w) && number >= 1
    ensures Holds(w, RevisionId(number)) <==> number <= |w.revisions|
  {
    hide RevisionId, DraftIsFollowed;
    if number <= |w.revisions| { FindFinds(w.revisions, number - 1); }
    if Holds(w, RevisionId(number)) {
      var i := Find(w.revisions, RevisionId(number));
      RevisionIdsAreUnique(i + 1, number);
    }
  }

  lemma FollowedStays(w: World, after: World, r: string, id: CallId)
    requires r in w.drafts && r in after.drafts && after.drafts[r] == w.drafts[r] && DraftIsFollowed(w, r)
    requires |w.revisions| <= |after.revisions|
    requires forall i :: 0 <= i < |w.revisions| ==> after.revisions[i].revisionId == w.revisions[i].revisionId
    requires forall other :: other in w.calls && other != id ==> other in after.calls && after.calls[other] == w.calls[other]
    requires id in w.calls && w.calls[id].Revising? && RevisionId(w.calls[id].number) == r ==>
      Holds(after, r) || (id in after.calls && after.calls[id] == w.calls[id])
    ensures DraftIsFollowed(after, r)
  {
    hide RevisionId, Find;
    if Holds(w, r) { HoldsSurvives(w, after, r); }
  }

  lemma ProgressKeepsCounted(w: World, id: CallId)
    requires Inv(w) && Counted(w) && id in w.calls
    ensures Counted(Progress(w, id, w.calls[id]))
  {
    hide RevisionId, DraftOf, RevisionOf, Find, DraftIsFollowed;
    InvPhase(w, id);
    var after := Progress(w, id, w.calls[id]);
    match w.calls[id] {
      case Querying(p) => HighestOfCounted(w.revisions);
      case Drafting(p, number) =>
        if number <= |w.revisions| {
          assert w.revisions[number - 1].revisionId == RevisionId(number - 1 + 1);
        }
      case Revising(p, number) =>
        CountedHolds(w, number);
        RevisionOfFields(p, number);
        forall other | other in w.calls && w.calls[other].Revising? ensures other == id {
          InvPhase(w, other);
        }
      case _ =>
    }
    forall r | r in after.drafts ensures DraftIsFollowed(after, r) { ProgressKeepsFollowed(w, id, r); }
  }

  lemma ProgressKeepsFollowed(w: World, id: CallId, r: string)
    requires Inv(w) && Counted(w) && id in w.calls && r in Progress(w, id, w.calls[id]).drafts
    ensures DraftIsFollowed(Progress(w, id, w.calls[id]), r)
  {
    hide RevisionId, DraftOf, RevisionOf, Find, Inv;
    var after := Progress(w, id, w.calls[id]);
    if r in w.drafts {
      if w.calls[id].Revising? {
        var number := w.calls[id].number;
        CountedHolds(w, number);
        RevisionOfFields(w.calls[id].proposal, number);
        FindFinds(after.revisions, |w.revisions|);
      }
      FollowedStays(w, after, r, id);
    }
  }

  lemma RewriteKeepsCounted(w: World, revision: Revision)
    requires Inv(w) && Counted(w) && IsRewrite(w, revision)
    ensures Counted(Happen(w, Elsewhere(revision)))
  {
    hide RevisionId, Find, Inv;
    var after := Happen(w, Elsewhere(revision));
    forall r | r in after.drafts ensures DraftIsFollowed(after, r) {
      assert DraftIsFollowed(w, r);
      if Holds(w, r) { HoldsSurvives(w, after, r); }
    }
  }

  lemma {:induction false} CountedRuns(trace: seq<Event>)
    requires OnlyRewrites(trace)
    ensures Counted(After(trace))
  {
    hide RevisionId, Find, IsRewrite, Progress, OnlyRewrites;
    if trace != [] {
      var init, last := trace[..|trace| - 1], trace[|trace| - 1];
      assert trace == init + [last];
      RewritesOfPrefix(init, [last]);
      CountedRuns(init);
      EveryRunKeepsInv(init);
      var w := After(init);
      match last
      case Begin(id, p) => BeginKeepsCounted(w, id, p);
      case Advance(id) => if id in w.calls { ProgressKeepsCounted(w, id); }
      case Elsewhere(revision) => RewriteKeepsCounted(w, revision);
    }
  }

  lemma BeginKeepsCounted(w: World, id: CallId, p: Proposal)
    requires Counted(w)
    ensures Counted(Happen(w, Begin(id, p)))
  {
    hide RevisionId, Find, DraftIsFollowed;
    var after := Happen(w, Begin(id, p));
    forall r | r in after.drafts ensures DraftIsFollowed(after, r) {
      assert DraftIsFollowed(w, r);
      if after != w { FollowedStays(w, after, r, id); }
    }
  }

  /** A call stopped between its two writes: the draft is stored and the revision is not. */
  predicate HasOrphan(w: World) { exists id :: id in w.calls && w.calls[id].Revising? }

  /**
   * Where proposals alone create revisions, however stored ones are approved, published and saved meanwhile: an
   * undisturbed proposal succeeds exactly when no call stands between its two writes.
   */
  lemma OrphanIsTheOnlyObstacle(trace: seq<Event>, id: CallId)
    requires OnlyRewrites(trace) && id in After(trace).calls && After(trace).calls[id].Querying?
    ensures IsProposed(ThreeSteps(After(trace), id), id) <==> !HasOrphan(After(trace))
  {
    hide RevisionId, RevisionOf, DraftOf, Find, ThreeSteps, OnlyRewrites, IsProposed;
    var w := After(trace);
    EveryRunKeepsInv(trace);
    CountedRuns(trace);
    HighestOfCounted(w.revisions);
    var next := NextRevisionNumber(w.revisions);
    CountedHolds(w, next);
    UndisturbedProposalSucceedsExactly(w, id);
    if HasOrphan(w) {
      var owner :| owner in w.calls && w.calls[owner].Revising?;
      InvPhase(w, owner);
    }
    if RevisionId(next) in w.drafts { UnfollowedMeansOrphan(w, RevisionId(next)); }
  }

  lemma UnfollowedMeansOrphan(w: World, r: string)
    requires Counted(w) && r in w.drafts && !Holds(w, r)
    ensures HasOrphan(w)
  {
    hide RevisionId, Find;
    assert DraftIsFollowed(w, r);
  }

  predicate SameRevisions(a: seq<Revision>, b: seq<Revision>) {
    |a| == |b| && forall i :: 0 <= i < |a| ==>
      a[i].revisionId == b[i].revisionId && a[i].revisionNumber == b[i].revisionNumber
  }

  /**
   * A call that stops between its two writes stops the numbering for everybody: while its revision
   * is missing and no revision is created elsewhere, no proposal by anyone creates one again.
   */
  lemma {:induction false} OrphanBlocksEveryProposal(trace: seq<Event>, more: seq<Event>, owner: CallId)
    requires OnlyRewrites(trace + more)
    requires owner in After(trace).calls && After(trace).calls[owner].Revising?
    requires forall i :: 0 <= i < |more| ==> more[i] != Advance(owner)
    ensures After(trace + more).created == After(trace).created
    ensures SameRevisions(After(trace + more).revisions, After(trace).revisions)
    ensures owner in After(trace + more).calls && After(trace + more).calls[owner] == After(trace).calls[owner]
  {
    hide RevisionId, DraftOf, RevisionOf, Find, OnlyRewrites, IsRewrite, After, Happen;
    if more == [] {
      assert trace + more == trace;
    } else {
      var init, last := more[..|more| - 1], more[|more| - 1];
      assert trace + more == (trace + init) + [last];
      RewritesOfPrefix(trace + init, [last]);
      OrphanBlocksEveryProposal(trace, init, owner);
      AfterOneMore(trace + init, last);
      OrphanBlocksStep(trace + init, last, owner);
    }
  }

  lemma OrphanBlocksStep(trace: seq<Event>, e: Event, owner: CallId)
    requires OnlyRewrites(trace) && (e.Elsewhere? ==> IsRewrite(After(trace), e.revision)) && e != Advance(owner)
    requires owner in After(trace).calls && After(trace).calls[owner].Revising?
    ensures Happen(After(trace), e).created == After(trace).created
    ensures SameRevisions(Happen(After(trace), e).revisions, After(trace).revisions)
    ensures owner in Happen(After(trace), e).calls
    ensures Happen(After(trace), e).calls[owner] == After(trace).calls[owner]
  {
    hide RevisionId, DraftOf, RevisionOf, Find, OnlyRewrites, After, DraftIsFollowed;
    var w := After(trace);
    EveryRunKeepsInv(trace);
    CountedRuns(trace);
    InvPhase(w, owner);
    if e.Advance? && e.id in w.calls { InvPhase(w, e.id); }
  }

  /** A revision created elsewhere with the blocked number, or a higher one, lets proposals succeed again. */
  lemma CreatedElsewhereUnblocks(trace: seq<Event>, revision: Revision, id: CallId)
    requires OnlyRewrites(trace) && id in After(trace).calls && After(trace).calls[id].Querying?
    requires revision.revisionNumber > |After(trace).revisions|
    requires revision.revisionId == RevisionId(revision.revisionNumber)
    ensures IsProposed(ThreeSteps(After(trace + [Elsewhere(revision)]), id), id)
  {
    hide RevisionId, RevisionOf, DraftOf, ThreeSteps, OnlyRewrites, IsProposed, Find, HighestOf, Inv, DraftIsFollowed;
    hide After;
    var w := After(trace);
    EveryRunKeepsInv(trace);
    CountedRuns(trace);
    AfterOneMore(trace, Elsewhere(revision));
    var after := Happen(w, Elsewhere(revision));
    CountedHolds(w, revision.revisionNumber);
    assert after.revisions == w.revisions + [revision];
    HighestOfCounted(w.revisions);
    NextAfter(w.revisions, revision);
    NumbersAboveAreFree(w, revision);
    UndisturbedProposalSucceedsExactly(after, id);
  }

  lemma NextAfter(revisions: seq<Revision>, revision: Revision)
    requires revision.revisionNumber > HighestOf(revisions)
    ensures NextRevisionNumber(revisions + [revision]) == revision.revisionNumber + 1
  {
    assert (revisions + [revision])[..|revisions|] == revisions;
  }

  lemma NumbersAboveAreFree(w: World, revision: Revision)
    requires Inv(w) && Counted(w) && revision.revisionNumber > |w.revisions|
    requires revision.revisionId == RevisionId(revision.revisionNumber)
    ensures var next := RevisionId(revision.revisionNumber + 1);
      next !in w.drafts && !Holds(w.(revisions := w.revisions + [revision]), next)
  {
    hide RevisionId, RevisionOf, DraftOf, Inv;
    var number := revision.revisionNumber + 1;
    var after := w.(revisions := w.revisions + [revision]);
    CountedHolds(w, number);
    RevisionIdsAreUnique(revision.revisionNumber, number);
    if RevisionId(number) in w.drafts {
      assert DraftIsFollowed(w, RevisionId(number));
      RevisionIdsAreUnique(|w.revisions| + 1, number);
    }
    NotHeldAnywhere(w, RevisionId(number));
  }

  lemma NotHeldAnywhere(w: World, revisionId: string)
    requires !Holds(w, revisionId)
    ensures forall i :: 0 <= i < |w.revisions| ==> w.revisions[i].revisionId != revisionId
  {
    forall i | 0 <= i < |w.revisions| ensures w.revisions[i].revisionId != revisionId { FindFinds(w.revisions, i); }
  }

  // ----- the author itself

  predicate OnlyOthers(events: seq<Event>, id: CallId) {
    forall i :: 0 <= i < |events| ==>
      match events[i]
      case Begin(other, _) => other != id
      case Advance(other) => other != id
      case Elsewhere(_) => true
  }

  lemma {:induction false} OthersKeepPhase(trace: seq<Event>, events: seq<Event>, id: CallId)
    requires OnlyOthers(events, id)
    ensures id in After(trace + events).calls <==> id in After(trace).calls
    ensures id in After(trace).calls ==> After(trace + events).calls[id] == After(trace).calls[id]
  {
    hide RevisionId, DraftOf, RevisionOf, Find;
    if events == [] {
      assert trace + events == trace;
    } else {
      var init, last := events[..|events| - 1], events[|events| - 1];
      OthersKeepPhase(trace, init, id);
      assert trace + events == (trace + init) + [last];
      AfterOneMore(trace + init, last);
    }
  }

  /** The two containers a proposal writes, and every event so far as ghost history. */
  class ProposalStore {
    var revisions: seq<Revision>
    var drafts: map<string, Draft>
    ghost var trace: seq<Event>

    ghost predicate Valid()
      reads this
    {
      && revisions == After(trace).revisions
      && drafts.Keys == After(trace).drafts.Keys
      && forall r :: r in drafts ==> drafts[r] == After(trace).drafts[r].draft
    }

    constructor ()
      ensures Valid() && trace == []
    {
      revisions, drafts, trace := [], map[], [];
    }

    /** Everything other callers do while this one awaits. */
    method OthersAct(ghost id: CallId)
      requires Valid()
      modifies this
      ensures Valid()
      ensures old(trace) <= trace && OnlyOthers(trace[|old(trace)|..], id)
    {}

    /** A create; `false` is the thrown ConcurrencyConflictError. */
    method CreateDraft(draft: Draft) returns (created: bool)
      modifies this`drafts
      ensures created <==> draft.revisionId !in old(drafts)
      ensures drafts == if created then old(drafts)[draft.revisionId := draft] else old(drafts)
    {
      created := draft.revisionId !in drafts;
      if created { drafts := drafts[draft.revisionId := draft]; }
    }

    method CreateRevision(revision: Revision) returns (created: bool)
      modifies this`revisions
      ensures created <==> Find(old(revisions), revision.revisionId) == |old(revisions)|
      ensures revisions == if created then old(revisions) + [revision] else old(revisions)
    {
      created := Find(revisions, revision.revisionId) == |revisions|;
      if created { revisions := revisions + [revision]; }
    }
  }

  class DraftAuthor {
    const store: ProposalStore

    constructor (store: ProposalStore)
      ensures this.store == store
    {
      this.store := store;
    }

    ghost predicate InPhase(id: CallId, phase: Phase)
      reads store
    {
      store.Valid() && id in After(store.trace).calls && After(store.trace).calls[id] == phase
    }

    ghost method Record(e: Event)
      requires var w := Happen(After(store.trace), e);
        && store.revisions == w.revisions
        && store.drafts.Keys == w.drafts.Keys
        && forall r :: r in store.drafts ==> store.drafts[r] == w.drafts[r].draft
      modifies store`trace
      ensures store.trace == old(store.trace) + [e] && store.Valid()
      ensures After(store.trace) == Happen(old(After(store.trace)), e)
    {
      AfterOneMore(store.trace, e);
      store.trace := store.trace + [e];
    }

    method Await(ghost id: CallId, ghost phase: Phase)
      requires InPhase(id, phase)
      modifies store
      ensures InPhase(id, phase) && old(store.trace) <= store.trace
    {
      ghost var before := store.trace;
      store.OthersAct(id);
      OthersKeepPhase(before, store.trace[|before|..], id);
      assert store.trace == before + store.trace[|before|..];
    }

    method WriteDraft(ghost id: CallId, p: Proposal, number: nat) returns (created: bool)
      requires InPhase(id, Drafting(p, number))
      modifies store
      ensures old(store.trace) <= store.trace
      ensures InPhase(id, if created then Revising(p, number) else Threw(p))
    {
      hide RevisionId, RevisionOf, Find, After, OnlyOthers;
      Await(id, Drafting(p, number));
      created := store.CreateDraft(DraftOf(p, number));
      Record(Advance(id));
    }

    method WriteRevision(ghost id: CallId, p: Proposal, number: nat) returns (created: bool)
      requires InPhase(id, Revising(p, number))
      modifies store
      ensures old(store.trace) <= store.trace
      ensures InPhase(id, if created then Proposed(p, RevisionOf(p, Scope, number)) else Threw(p))
    {
      hide RevisionId, RevisionOf, DraftOf, Find, After, OnlyOthers;
      RevisionOfFields(p, number);
      Await(id, Revising(p, number));
      created := store.CreateRevision(RevisionOf(p, Scope, number));
      Record(Advance(id));
    }

    /**
     * `propose`: the draft first, then the revision, with every other caller free to act at each
     * await. `None` is a thrown error; the phase says which write it lost, if any.
     */
    method Propose(ghost id: CallId, p: Proposal) returns (revision: Option<Revision>)
      requires store.Valid() && id !in After(store.trace).calls
      modifies store
      ensures store.Valid() && old(store.trace) <= store.trace
      ensures match revision
        case Some(created) => p.publishable && InPhase(id, Proposed(p, created))
        case None => InPhase(id, if p.publishable then Threw(p) else Unavailable)
    {
      hide RevisionId, RevisionOf, DraftOf, Find, After, OnlyOthers;
      Record(Begin(id, p));
      if !p.publishable { return None; }

      Await(id, Querying(p));
      var number := NextRevisionNumber(store.revisions);
      Record(Advance(id));

      var drafted := WriteDraft(id, p, number);
      if !drafted { return None; }
      var created := WriteRevision(id, p, number);
      if !created { return None; }
      return Some(RevisionOf(p, Scope, number));
    }
  }
}
