/** What each proposal answers in a run: which number it took, what it wrote, and which write it lost if it threw. */
module ProposalAnswers {
  import opened Common
  import opened DraftAuthoring

  /** The call began with this proposal. */
  ghost predicate BegunWith(trace: seq<Event>, id: CallId, p: Proposal) { Begin(id, p) in trace }

  /** One above the highest number stored, or the first. */
  ghost predicate IsNext(revisions: seq<Revision>, number: nat) {
    && (forall r :: r in revisions ==> r.revisionNumber < number)
    && (number == 1 || exists r :: r in revisions && r.revisionNumber == number - 1)
  }

  /** At this step the call read the revisions, and this number was the next one. */
  ghost predicate NumberedAt(trace: seq<Event>, j: nat, id: CallId, number: nat) {
    j < |trace| && trace[j] == Advance(id) && IsNext(After(trace[..j]).revisions, number)
  }

  ghost predicate Numbered(trace: seq<Event>, id: CallId, number: nat) { exists j: nat :: NumberedAt(trace, j, id, number) }

  predicate HasRevision(w: World, revisionId: string) { exists r :: r in w.revisions && r.revisionId == revisionId }

  /** At this step the call stored its draft, under an id no draft had. */
  predicate DraftedAt(trace: seq<Event>, j: nat, id: CallId, p: Proposal, number: nat) {
    && j < |trace| && trace[j] == Advance(id) && RevisionId(number) !in After(trace[..j]).drafts
    && RevisionId(number) in After(trace[..j + 1]).drafts
    && IsDraftOf(p, RevisionId(number), After(trace[..j + 1]).drafts[RevisionId(number)].draft)
  }

  /** At this step the call stored this revision, under an id no revision had. */
  ghost predicate CreatedAt(trace: seq<Event>, j: nat, id: CallId, p: Proposal, number: nat, revision: Revision) {
    && j < |trace| && trace[j] == Advance(id) && !HasRevision(After(trace[..j]), RevisionId(number))
    && After(trace[..j + 1]).revisions == After(trace[..j]).revisions + [revision]
    && IsRevisionOf(p, RevisionId(number), number, revision)
  }

  /** At this step the call found its id taken, by a draft or by a revision. */
  predicate TakenAt(trace: seq<Event>, j: nat, id: CallId, number: nat) {
    && j < |trace| && trace[j] == Advance(id)
    && (RevisionId(number) in After(trace[..j]).drafts || HasRevision(After(trace[..j]), RevisionId(number)))
  }

  ghost predicate Drafted(trace: seq<Event>, id: CallId, p: Proposal, number: nat) {
    exists j: nat :: DraftedAt(trace, j, id, p, number)
  }

  ghost predicate Tells(trace: seq<Event>, id: CallId, phase: Phase) {
    match phase
    case Querying(p) => BegunWith(trace, id, p) && p.publishable
    case Drafting(p, number) => BegunWith(trace, id, p) && p.publishable && Numbered(trace, id, number)
    case Revising(p, number) =>
      BegunWith(trace, id, p) && p.publishable && Numbered(trace, id, number) && Drafted(trace, id, p, number)
    case Proposed(p, revision) =>
      && BegunWith(trace, id, p) && p.publishable && revision.revisionNumber >= 1
      && Numbered(trace, id, revision.revisionNumber) && Drafted(trace, id, p, revision.revisionNumber)
      && exists j: nat :: CreatedAt(trace, j, id, p, revision.revisionNumber, revision)
    case Threw(p) =>
      && BegunWith(trace, id, p) && p.publishable
      && exists number: nat, j: nat :: Numbered(trace, id, number) && TakenAt(trace, j, id, number)
    case Unavailable => exists p :: BegunWith(trace, id, p) && !p.publishable
  }

  lemma HistoryStays(trace: seq<Event>, e: Event)
    ensures forall id, p :: BegunWith(trace, id, p) ==> BegunWith(trace + [e], id, p)
    ensures forall j: nat, id, n :: NumberedAt(trace, j, id, n) ==> NumberedAt(trace + [e], j, id, n)
    ensures forall j: nat, id, p, n :: DraftedAt(trace, j, id, p, n) ==> DraftedAt(trace + [e], j, id, p, n)
    ensures forall j: nat, id, n :: TakenAt(trace, j, id, n) ==> TakenAt(trace + [e], j, id, n)
    ensures forall j: nat, id, p, n, r :: CreatedAt(trace, j, id, p, n, r) ==> CreatedAt(trace + [e], j, id, p, n, r)
  {
    hide After, RevisionId, IsNext, HasRevision, IsDraftOf, IsRevisionOf;
    assert forall i :: 0 <= i <= |trace| ==> (trace + [e])[..i] == trace[..i];
  }

  lemma TellsStays(trace: seq<Event>, e: Event, id: CallId, phase: Phase)
    requires Tells(trace, id, phase)
    ensures Tells(trace + [e], id, phase)
  {
    hide BegunWith, NumberedAt, DraftedAt, TakenAt, CreatedAt;
    HistoryStays(trace, e);
  }

  lemma HoldsIsHasRevision(w: World, revisionId: string)
    ensures Holds(w, revisionId) <==> HasRevision(w, revisionId)
  {
    var i := Find(w.revisions, revisionId);
    if i < |w.revisions| { assert w.revisions[i] in w.revisions; }
  }

  lemma OwnStepTells(trace: seq<Event>, id: CallId, w: World, after: World)
    requires w == After(trace) && after == Happen(w, Advance(id)) && Inv(w) && id in w.calls && id in after.calls
    requires Tells(trace + [Advance(id)], id, w.calls[id])
    ensures Tells(trace + [Advance(id)], id, after.calls[id])
  {
    hide After, RevisionId, Find, BegunWith, HasRevision, Holds, IsDraftOf, IsRevisionOf, RevisionOf, DraftOf, Inv;
    var longer := trace + [Advance(id)];
    assert longer[..|trace|] == trace && longer[..|trace| + 1] == longer;
    AfterOneMore(trace, Advance(id));
    InvPhase(w, id);
    match w.calls[id]
    case Querying(p) => assert NumberedAt(longer, |trace|, id, NextRevisionNumber(w.revisions));
    case Drafting(p, number) =>
      RevisionDeclares(p, number);
      if RevisionId(number) in w.drafts { assert TakenAt(longer, |trace|, id, number); }
      else { assert DraftedAt(longer, |trace|, id, p, number); }
    case Revising(p, number) =>
      RevisionDeclares(p, number);
      RevisionOfFields(p, number);
      HoldsIsHasRevision(w, RevisionId(number));
      if Holds(w, RevisionId(number)) { assert TakenAt(longer, |trace|, id, number); }
      else { assert CreatedAt(longer, |trace|, id, p, number, RevisionOf(p, Scope, number)); }
    case _ =>
  }

  lemma BeginTells(trace: seq<Event>, id: CallId, p: Proposal)
    requires id !in After(trace).calls
    ensures Tells(trace + [Begin(id, p)], id, Happen(After(trace), Begin(id, p)).calls[id])
  {
    hide After;
    var longer := trace + [Begin(id, p)];
    assert longer[|trace|] == Begin(id, p);
    assert BegunWith(longer, id, p);
  }

  /**
   * In every run a proposal is where its own steps left it: it took the number after the highest it read; answered
   * with a revision, it stored its draft and then this revision, each under an id free at that moment; it threw only
   * where a draft or a revision had its id; and it is unavailable only where its content cannot be published.
   */
  lemma {:induction false} EveryProposalAnswersRightly(trace: seq<Event>, id: CallId)
    requires id in After(trace).calls
    ensures Tells(trace, id, After(trace).calls[id])
    decreases |trace|
  {
    hide Tells, Progress, Find;
    var init, last := trace[..|trace| - 1], trace[|trace| - 1];
    assert trace == init + [last];
    var w := After(init);
    if id in w.calls {
      EveryProposalAnswersRightly(init, id);
      TellsStays(init, last, id, w.calls[id]);
      EveryRunKeepsInv(init);
      if last == Advance(id) { OwnStepTells(init, id, w, After(trace)); }
      else if last.Advance? && last.id in w.calls { OtherProgress(w, last.id, id); }
    } else if last.Begin? && last.id == id {
      BeginTells(init, id, last.proposal);
    } else if last.Advance? && last.id in w.calls {
      OtherProgress(w, last.id, id);
    }
  }

  lemma OtherProgress(w: World, other: CallId, id: CallId)
    requires other in w.calls && other != id
    ensures var after := Progress(w, other, w.calls[other]);
      (id in after.calls <==> id in w.calls) && (id in w.calls ==> after.calls[id] == w.calls[id])
  {
    hide RevisionId, RevisionOf, DraftOf, Find;
  }
}
