/**
 * The notification ledger and its dispatcher: a record is created once per key, every change is a
 * read followed by a put against the version read, and sends happen outside the store.
 *
 * Any number of sweeps, dispatchers and administrators interleave at their awaits. Nothing is
 * deleted.
 */
module NotificationLedger {
  import opened Common
  import opened NotificationDelivery

  type Key = string
  type OpId = nat
  type CallId = nat

  datatype Stored = Stored(notification: Notification, tag: nat)

  datatype Answer = Returned | Rejected(reasonCode: Option<string>)

  /** The bounded reason recorded for a send that was rejected. */
  function ReasonFrom(a: Answer): Option<string> {
    match a
    case Returned => None
    case Rejected(stated) =>
      Some(if stated.Some? && IsReasonCode(stated.value) then stated.value else "channel-unreachable")
  }

  function AttemptFor(a: Answer, channelCode: string, at: Instant): Attempt {
    Attempt(at, channelCode, a.Returned?, ReasonFrom(a))
  }

  /** An attempt says where and when its send went, that it is delivered if it returned, and else why not. */
  predicate Reflects(attempt: Attempt, sending: Sending) {
    && attempt.at == sending.at && attempt.channelCode == sending.channelCode
    && match sending.answer
       case Returned => attempt.delivered && attempt.reasonCode == None
       case Rejected(stated) =>
         && !attempt.delivered
         && (stated.Some? && IsReasonCode(stated.value) ==> attempt.reasonCode == stated)
         && (stated.None? || !IsReasonCode(stated.value) ==> attempt.reasonCode == Some("channel-unreachable"))
  }

  lemma AttemptReflects(attempt: Attempt, sending: Sending)
    ensures Reflects(attempt, sending) <==> attempt == AttemptFor(sending.answer, sending.channelCode, sending.at)
  {
    hide IsReasonCode;
  }

  datatype Phase =
    | Asked(key: Key, change: Change)
    | Holding(key: Key, change: Change, read: Notification, tag: nat)
    | Done(key: Key, change: Change, result: Result)

  datatype Commit = Commit(op: OpId, key: Key, change: Change)

  /** One send: the dispatch that made it, what it sent where, and what the channel answered. */
  datatype Sending = Sending(caller: CallId, key: Key, channelCode: string, at: Instant, answer: Answer)

  datatype Creation = Creation(call: CallId, planned: Planned)

  /** `creations`, `commits` and `sends` remember what happened, in order. */
  datatype World = World(
    ledger: map<Key, Stored>,
    nextTag: nat,
    ops: map<OpId, Phase>,
    creations: seq<Creation>,
    commits: seq<Commit>,
    sends: map<OpId, Sending>)

  const Empty: World := World(map[], 0, map[], [], [], map[])

  datatype Event =
    | Raise(call: CallId, planned: Planned)
    | Send(op: OpId, sending: Sending)
    | Ask(op: OpId, key: Key, actor: string, at: Instant)
    | Advance(op: OpId)

  function Create(w: World, call: CallId, p: Planned): World {
    if p.key in w.ledger then w
    else
      w.(ledger := w.ledger[p.key := Stored(Raised(p), w.nextTag)], nextTag := w.nextTag + 1,
         creations := w.creations + [Creation(call, p)])
  }

  function Enter(w: World, op: OpId, phase: Phase): World { w.(ops := w.ops[op := phase]) }

  function Progress(w: World, op: OpId, phase: Phase): World {
    match phase
    case Asked(key, change) =>
      if key !in w.ledger then Enter(w, op, Done(key, change, Refused(Absent)))
      else Enter(w, op, Holding(key, change, w.ledger[key].notification, w.ledger[key].tag))
    case Holding(key, change, read, tag) =>
      var result := Applied(read, change);
      if !result.Ok? then Enter(w, op, Done(key, change, result))
      else if key !in w.ledger || w.ledger[key].tag != tag then Enter(w, op, Done(key, change, Refused(ChangedSinceRead)))
      else
        Enter(w.(ledger := w.ledger[key := Stored(result.notification, w.nextTag)], nextTag := w.nextTag + 1,
                 commits := w.commits + [Commit(op, key, change)]),
              op, Done(key, change, result))
    case Done(_, _, _) => w
  }

  function Happen(w: World, e: Event): World {
    match e
    case Raise(call, planned) => Create(w, call, planned)
    case Send(op, sending) =>
      if op in w.ops then w
      else
        Enter(w.(sends := w.sends[op := sending]), op,
              Asked(sending.key, Delivery(AttemptFor(sending.answer, sending.channelCode, sending.at))))
    case Ask(op, key, actor, at) =>
      if op in w.ops then w else Enter(w, op, Asked(key, Acknowledgement(actor, at)))
    case Advance(op) => if op in w.ops then Progress(w, op, w.ops[op]) else w
  }

  function After(trace: seq<Event>): World {
    if trace == [] then Empty else Happen(After(trace[..|trace| - 1]), trace[|trace| - 1])
  }

  // ----- what every run keeps

  /** The changes committed on one key, in commit order. */
  function ChangesOn(commits: seq<Commit>, key: Key): seq<Change> {
    if commits == [] then []
    else
      var last := commits[|commits| - 1];
      ChangesOn(commits[..|commits| - 1], key) + (if last.key == key then [last.change] else [])
  }

  ghost predicate CreatedBy(w: World, key: Key, p: Planned) {
    exists i :: 0 <= i < |w.creations| && w.creations[i].planned == p && p.key == key
  }

  /** The stored record is the fold, over the record as raised, of the changes committed on it. */
  ghost predicate RecordHolds(w: World, key: Key)
    requires key in w.ledger
  {
    && w.ledger[key].tag < w.nextTag
    && exists p :: CreatedBy(w, key, p)
         && Fold(Raised(p), ChangesOn(w.commits, key)) == Some(w.ledger[key].notification)
  }

  ghost predicate Committed(commits: seq<Commit>, op: OpId, key: Key, change: Change) {
    exists i :: 0 <= i < |commits| && commits[i] == Commit(op, key, change)
  }

  predicate CommitFinished(w: World, c: Commit) {
    && c.op in w.ops && w.ops[c.op].Done? && w.ops[c.op].result.Ok?
    && w.ops[c.op].key == c.key && w.ops[c.op].change == c.change
  }

  /** A delivery is the recording of the send that was made under the same number, and nothing else is. */
  predicate SendHolds(w: World, op: OpId, phase: Phase) {
    phase.change.Delivery? ==>
      && op in w.sends && w.sends[op].key == phase.key
      && phase.change.attempt == AttemptFor(w.sends[op].answer, w.sends[op].channelCode, w.sends[op].at)
  }

  ghost predicate OpHolds(w: World, op: OpId, phase: Phase) {
    && SendHolds(w, op, phase)
    && match phase
       case Asked(_, _) => true
       case Holding(key, _, read, tag) =>
         tag < w.nextTag && (key in w.ledger && w.ledger[key].tag == tag ==> w.ledger[key].notification == read)
       case Done(key, change, result) => result.Ok? ==> Committed(w.commits, op, key, change)
  }

  ghost predicate Inv(w: World) {
    && (forall key :: key in w.ledger ==> RecordHolds(w, key))
    && (forall op :: op in w.ops ==> OpHolds(w, op, w.ops[op]))
    && (forall i :: 0 <= i < |w.commits| ==> CommitFinished(w, w.commits[i]))
    && (forall i, j :: 0 <= i < j < |w.commits| ==> w.commits[i].op != w.commits[j].op)
    && (forall i, j :: 0 <= i < j < |w.creations| ==> w.creations[i].planned.key != w.creations[j].planned.key)
    && (forall i :: 0 <= i < |w.creations| ==> w.creations[i].planned.key in w.ledger)
    && (forall op :: op in w.sends ==> op in w.ops)
    && (forall i :: 0 <= i < |w.commits| ==> w.commits[i].key in w.ledger)
  }

  lemma {:induction false} NoChangesElsewhere(commits: seq<Commit>, key: Key)
    requires forall i :: 0 <= i < |commits| ==> commits[i].key != key
    ensures ChangesOn(commits, key) == []
  {
    if commits != [] { NoChangesElsewhere(commits[..|commits| - 1], key); }
  }

  lemma CreateKeepsInv(w: World, call: CallId, p: Planned)
    requires Inv(w)
    ensures Inv(Create(w, call, p))
  {
    hide SendHolds, Fold, ChangesOn, Committed, Raised;
    var after := Create(w, call, p);
    if p.key !in w.ledger {
      forall key | key in after.ledger ensures RecordHolds(after, key) {
        if key == p.key {
          NoChangesElsewhere(w.commits, key);
          FoldOfNothing(p);
          assert after.creations[|w.creations|].planned == p;
          assert CreatedBy(after, key, p);
        } else {
          assert RecordHolds(w, key);
          RecordSurvives(w, after, key);
        }
      }
      forall op | op in after.ops ensures OpHolds(after, op, after.ops[op]) {
        assert OpHolds(w, op, w.ops[op]);
        SendsSurvive(w, after, op, w.ops[op]);
      }
    }
  }

  lemma FoldOfNothing(p: Planned)
    ensures Fold(Raised(p), []) == Some(Raised(p))
  {}

  lemma SendsSurvive(w: World, after: World, op: OpId, phase: Phase)
    requires SendHolds(w, op, phase) && forall s :: s in w.sends ==> s in after.sends && after.sends[s] == w.sends[s]
    ensures SendHolds(after, op, phase)
  {}

  lemma RecordSurvives(w: World, after: World, key: Key)
    requires key in w.ledger && RecordHolds(w, key) && w.creations <= after.creations
    requires key in after.ledger && after.ledger[key] == w.ledger[key] && w.nextTag <= after.nextTag
    requires ChangesOn(after.commits, key) == ChangesOn(w.commits, key)
    ensures RecordHolds(after, key)
  {
    hide Fold, ChangesOn;
    var p :| CreatedBy(w, key, p) && Fold(Raised(p), ChangesOn(w.commits, key)) == Some(w.ledger[key].notification);
    var i :| 0 <= i < |w.creations| && w.creations[i].planned == p && p.key == key;
    assert after.creations[i] == w.creations[i];
    assert CreatedBy(after, key, p);
  }

  /** Only one operation's phase changes, and nothing is committed. */
  lemma EnterKeepsInv(w: World, after: World, op: OpId, phase: Phase)
    requires Inv(w) && after == w.(ops := w.ops[op := phase], sends := after.sends)
    requires forall s :: s in w.sends ==> s in after.sends && after.sends[s] == w.sends[s]
    requires forall s :: s in after.sends ==> s in after.ops
    requires op in w.ops ==> !(w.ops[op].Done?)
    requires OpHolds(after, op, phase) && !(phase.Done? && phase.result.Ok?)
    ensures Inv(after)
  {
    hide SendHolds, Fold, ChangesOn, CreatedBy;
    forall key | key in after.ledger ensures RecordHolds(after, key) {
      assert RecordHolds(w, key);
      RecordSurvives(w, after, key);
    }
    forall other | other in after.ops ensures OpHolds(after, other, after.ops[other]) {
      if other != op {
        assert OpHolds(w, other, w.ops[other]);
        SendsSurvive(w, after, other, w.ops[other]);
      }
    }
    forall i | 0 <= i < |after.commits| ensures CommitFinished(after, after.commits[i]) {
      assert CommitFinished(w, w.commits[i]);
    }
  }

  lemma CommitKeepsRecord(w: World, after: World, key: Key, c: Commit, result: Result)
    requires Inv(w) && c.key == key && key in w.ledger
    requires result == Applied(w.ledger[key].notification, c.change) && result.Ok?
    requires after.ledger == w.ledger[key := Stored(result.notification, w.nextTag)] && after.nextTag == w.nextTag + 1
    requires after.commits == w.commits + [c] && after.creations == w.creations
    ensures forall k :: k in after.ledger ==> RecordHolds(after, k)
  {
    hide Applied, OpHolds, Raised, CommitFinished;
    assert after.commits[..|w.commits|] == w.commits;
    forall k | k in after.ledger ensures RecordHolds(after, k) {
      assert RecordHolds(w, k);
      if k == key {
        var p :| CreatedBy(w, key, p) && Fold(Raised(p), ChangesOn(w.commits, key)) == Some(w.ledger[key].notification);
        var changes := ChangesOn(after.commits, key);
        assert changes == ChangesOn(w.commits, key) + [c.change];
        assert changes[..|changes| - 1] == ChangesOn(w.commits, key);
        assert CreatedBy(after, key, p);
      } else {
        RecordSurvives(w, after, k);
      }
    }
  }

  lemma CommitKeepsInv(w: World, op: OpId)
    requires Inv(w) && op in w.ops && w.ops[op].Holding?
    requires w.ops[op].key in w.ledger && w.ledger[w.ops[op].key].tag == w.ops[op].tag
    requires Applied(w.ops[op].read, w.ops[op].change).Ok?
    ensures Inv(Progress(w, op, w.ops[op]))
  {
    hide SendHolds, Applied, RecordHolds;
    var Holding(key, change, read, tag) := w.ops[op];
    var after := Progress(w, op, w.ops[op]);
    var c := Commit(op, key, change);
    assert OpHolds(w, op, w.ops[op]);
    CommitKeepsRecord(w, after, key, c, Applied(read, change));
    assert after.commits[|w.commits|] == c;
    forall i | 0 <= i < |w.commits| ensures w.commits[i].op != op { assert CommitFinished(w, w.commits[i]); }
    forall i | 0 <= i < |after.commits| ensures CommitFinished(after, after.commits[i]) {
      if i < |w.commits| { assert after.commits[i] == w.commits[i] && CommitFinished(w, w.commits[i]); }
    }
    forall other | other in after.ops ensures OpHolds(after, other, after.ops[other]) {
      assert OpHolds(w, other, w.ops[other]);
      CommittedSurvives(w, after, c);
      SendsSurvive(w, after, other, w.ops[other]);
      if other == op { DeliveryCarries(w, after, op, w.ops[op], after.ops[op]); }
    }
  }

  lemma DeliveryCarries(w: World, after: World, op: OpId, before: Phase, phase: Phase)
    requires SendHolds(w, op, before) && after.sends == w.sends && phase.key == before.key && phase.change == before.change
    ensures SendHolds(after, op, phase)
  {}

  lemma CommittedSurvives(w: World, after: World, c: Commit)
    requires after.commits == w.commits + [c]
    ensures Committed(after.commits, c.op, c.key, c.change)
    ensures forall op, key, change :: Committed(w.commits, op, key, change) ==> Committed(after.commits, op, key, change)
  {
    assert after.commits[|w.commits|] == c;
    forall op, key, change | Committed(w.commits, op, key, change) ensures Committed(after.commits, op, key, change) {
      var i :| 0 <= i < |w.commits| && w.commits[i] == Commit(op, key, change);
      assert after.commits[i] == w.commits[i];
    }
  }

  lemma HappenKeepsInv(w: World, e: Event)
    requires Inv(w)
    ensures Inv(Happen(w, e))
  {
    hide Inv, Applied, RecordHolds, Committed, Create;
    var after := Happen(w, e);
    assert forall op :: op in w.ops ==> OpHolds(w, op, w.ops[op]) by { InvOps(w); }
    assert forall s :: s in w.sends ==> s in w.ops by { InvOps(w); }
    match e
    case Raise(call, planned) => CreateKeepsInv(w, call, planned);
    case Send(op, _) => if op !in w.ops { EnterKeepsInv(w, after, op, after.ops[op]); }
    case Ask(op, _, _, _) => if op !in w.ops { EnterKeepsInv(w, after, op, after.ops[op]); }
    case Advance(op) =>
      if op in w.ops { ProgressKeepsInv(w, op); }
  }

  lemma ProgressKeepsInv(w: World, op: OpId)
    requires Inv(w) && op in w.ops
    ensures Inv(Progress(w, op, w.ops[op]))
  {
    hide Inv, Applied, Committed, Fold, ChangesOn, CreatedBy, SendHolds;
    var after := Progress(w, op, w.ops[op]);
    InvOps(w);
    assert OpHolds(w, op, w.ops[op]);
    match w.ops[op]
    case Asked(key, change) =>
      DeliveryCarries(w, after, op, w.ops[op], after.ops[op]);
      EnterKeepsInv(w, after, op, after.ops[op]);
    case Holding(key, change, read, tag) =>
      if Applied(read, change).Ok? && key in w.ledger && w.ledger[key].tag == tag { CommitKeepsInv(w, op); }
      else {
        DeliveryCarries(w, after, op, w.ops[op], after.ops[op]);
        EnterKeepsInv(w, after, op, after.ops[op]);
      }
    case Done(_, _, _) =>
  }

  lemma InvOps(w: World)
    requires Inv(w)
    ensures forall op :: op in w.ops ==> OpHolds(w, op, w.ops[op])
    ensures forall s :: s in w.sends ==> s in w.ops
    ensures forall key :: key in w.ledger ==> RecordHolds(w, key)
  {}

  lemma {:induction false} EveryRunKeepsInv(trace: seq<Event>)
    ensures Inv(After(trace))
  {
    hide Happen;
    if trace != [] {
      EveryRunKeepsInv(trace[..|trace| - 1]);
      HappenKeepsInv(After(trace[..|trace| - 1]), trace[|trace| - 1]);
    }
  }

  // ----- what the run guarantees

  /**
   * A stored record is the fold, in commit order, of the changes committed on it over the record
   * as it was raised; so it satisfies everything such a fold does.
   */
  lemma RecordIsFoldOfCommits(trace: seq<Event>, key: Key)
    requires key in After(trace).ledger
    ensures var w := After(trace); var n := w.ledger[key].notification;
      && (exists p :: CreatedBy(w, key, p) && Fold(Raised(p), ChangesOn(w.commits, key)) == Some(n))
      && Sound(n) && n.key == key
      && n.attempts == AttemptsIn(ChangesOn(w.commits, key))
  {
    hide Sound, Fold, Applied;
    EveryRunKeepsInv(trace);
    var w := After(trace);
    assert RecordHolds(w, key);
    var p :| CreatedBy(w, key, p) && Fold(Raised(p), ChangesOn(w.commits, key)) == Some(w.ledger[key].notification);
    EveryFoldIsSound(p, ChangesOn(w.commits, key));
  }

  ghost predicate CommitsOnce(w: World, op: OpId) {
    && (exists i :: 0 <= i < |w.commits| && w.commits[i].op == op)
    && (forall i, j :: 0 <= i < j < |w.commits| ==> w.commits[i].op != op || w.commits[j].op != op)
  }

  /** An operation that answered ok made exactly one commit, of its own change on its own key; any other, none. */
  lemma OkMeansOneCommit(trace: seq<Event>, op: OpId)
    requires op in After(trace).ops && After(trace).ops[op].Done?
    ensures var w := After(trace);
      && (w.ops[op].result.Ok? <==> CommitsOnce(w, op))
      && (!w.ops[op].result.Ok? ==> forall i :: 0 <= i < |w.commits| ==> w.commits[i].op != op)
      && forall i :: 0 <= i < |w.commits| && w.commits[i].op == op ==>
           w.commits[i] == Commit(op, w.ops[op].key, w.ops[op].change)
  {
    hide RecordHolds, SendHolds, Happen;
    EveryRunKeepsInv(trace);
    var w := After(trace);
    assert OpHolds(w, op, w.ops[op]);
    if w.ops[op].result.Ok? {
      var i :| 0 <= i < |w.commits| && w.commits[i] == Commit(op, w.ops[op].key, w.ops[op].change);
    }
    forall i | 0 <= i < |w.commits| && w.commits[i].op == op
      ensures w.ops[op].result.Ok? && w.commits[i] == Commit(op, w.ops[op].key, w.ops[op].change)
    {
      assert CommitFinished(w, w.commits[i]);
    }
  }

  /** A commit is one atomic transition of the record that is stored at that moment; anything else changes no record. */
  lemma EveryStepIsAtomic(trace: seq<Event>, op: OpId)
    ensures var before, after := After(trace), Happen(After(trace), Advance(op));
      if after.commits == before.commits then after.ledger == before.ledger
      else
        && op in before.ops && before.ops[op].key in before.ledger
        && var key := before.ops[op].key;
        && after.commits == before.commits + [Commit(op, key, before.ops[op].change)]
        && Applied(before.ledger[key].notification, before.ops[op].change).Ok?
        && after.ledger == before.ledger[key := Stored(
             Applied(before.ledger[key].notification, before.ops[op].change).notification, before.nextTag)]
  {
    hide Applied, Inv, SendHolds, Committed;
    EveryRunKeepsInv(trace);
    var w := After(trace);
    if op in w.ops {
      InvOps(w);
      assert OpHolds(w, op, w.ops[op]);
    }
  }

  /** Each key is created once, by one call, and is in the ledger exactly then. */
  lemma CreatedOnce(trace: seq<Event>, key: Key)
    ensures var w := After(trace);
      && (key in w.ledger <==> exists p :: CreatedBy(w, key, p))
      && forall i, j :: 0 <= i < j < |w.creations| ==>
           !(w.creations[i].planned.key == key && w.creations[j].planned.key == key)
  {
    hide OpHolds, CommitFinished, Fold, ChangesOn, Happen;
    EveryRunKeepsInv(trace);
    if key in After(trace).ledger { assert RecordHolds(After(trace), key); }
  }

  function DeliveriesOn(commits: seq<Commit>, key: Key): seq<OpId> {
    if commits == [] then []
    else
      var last := commits[|commits| - 1];
      DeliveriesOn(commits[..|commits| - 1], key) + (if last.key == key && last.change.Delivery? then [last.op] else [])
  }

  /** The attempt recorded at some position is of the send made under this number. */
  predicate FromSend(w: World, key: Key, attempt: Attempt, op: OpId) {
    op in w.sends && w.sends[op].key == key && Reflects(attempt, w.sends[op])
  }

  lemma NoAttempts()
    ensures AttemptsIn([]) == []
  {}

  lemma AttemptsOfOneMore(commits: seq<Commit>, key: Key)
    requires commits != []
    ensures var last := commits[|commits| - 1];
      AttemptsIn(ChangesOn(commits, key)) ==
        AttemptsIn(ChangesOn(commits[..|commits| - 1], key))
          + (if last.key == key && last.change.Delivery? then [last.change.attempt] else [])
  {
    var init, last := commits[..|commits| - 1], commits[|commits| - 1];
    var changes := ChangesOn(commits, key);
    if last.key == key {
      assert changes[..|changes| - 1] == ChangesOn(init, key);
    } else {
      assert changes == ChangesOn(init, key);
    }
  }

  lemma {:induction false} DeliveriesAlign(w: World, key: Key, commits: seq<Commit>)
    requires commits <= w.commits
    requires forall i :: 0 <= i < |w.commits| ==> CommitFinished(w, w.commits[i])
    requires forall op :: op in w.ops ==> SendHolds(w, op, w.ops[op])
    requires forall i, j :: 0 <= i < j < |w.commits| ==> w.commits[i].op != w.commits[j].op
    ensures var ops, attempts := DeliveriesOn(commits, key), AttemptsIn(ChangesOn(commits, key));
      && |ops| == |attempts|
      && (forall i :: 0 <= i < |ops| ==> FromSend(w, key, attempts[i], ops[i]))
      && (forall i :: 0 <= i < |ops| ==> exists k :: 0 <= k < |commits| && commits[k].op == ops[i])
      && (forall i, j :: 0 <= i < j < |ops| ==> ops[i] != ops[j])
    decreases |commits|
  {
    hide ChangesOn, AttemptsIn, Reflects, AttemptFor;
    if commits == [] {
      NoChangesElsewhere(commits, key);
      NoAttempts();
    } else {
      var init, last := commits[..|commits| - 1], commits[|commits| - 1];
      DeliveriesAlign(w, key, init);
      assert CommitFinished(w, w.commits[|commits| - 1]);
      if last.key == key && last.change.Delivery? { AttemptReflects(last.change.attempt, w.sends[last.op]); }
      AttemptsOfOneMore(commits, key);
      var ops := DeliveriesOn(commits, key);
      forall i | 0 <= i < |ops| ensures exists k :: 0 <= k < |commits| && commits[k].op == ops[i] {
        if i < |DeliveriesOn(init, key)| {
          var k :| 0 <= k < |init| && init[k].op == ops[i];
          assert commits[k].op == ops[i];
        } else {
          assert commits[|commits| - 1].op == ops[i];
        }
      }
      forall i | 0 <= i < |DeliveriesOn(init, key)| ensures DeliveriesOn(init, key)[i] != last.op {
        var k :| 0 <= k < |init| && init[k].op == DeliveriesOn(init, key)[i];
        assert w.commits[k].op == init[k].op && w.commits[|commits| - 1] == last;
      }
    }
  }

  /**
   * Every recorded attempt is of its own send, to that key, and says what the channel answered: a
   * recorded delivery is of a send that returned.
   */
  lemma EveryAttemptHasItsSend(trace: seq<Event>, key: Key)
    requires key in After(trace).ledger
    ensures var w := After(trace); var attempts := w.ledger[key].notification.attempts;
      var ops := DeliveriesOn(w.commits, key);
      && |ops| == |attempts|
      && (forall i, j :: 0 <= i < j < |ops| ==> ops[i] != ops[j])
      && (forall i :: 0 <= i < |ops| ==> FromSend(w, key, attempts[i], ops[i]))
      && (forall i :: 0 <= i < |ops| && attempts[i].delivered ==> w.sends[ops[i]].answer.Returned?)
  {
    hide RecordHolds, SendHolds, Happen, DeliveriesOn, ChangesOn, AttemptsIn, CommitFinished, Sound, Committed;
    EveryRunKeepsInv(trace);
    RecordIsFoldOfCommits(trace, key);
    var w := After(trace);
    forall op | op in w.ops ensures SendHolds(w, op, w.ops[op]) { assert OpHolds(w, op, w.ops[op]); }
    DeliveriesAlign(w, key, w.commits);
  }

  lemma AfterOneMore(trace: seq<Event>, e: Event)
    ensures After(trace + [e]) == Happen(After(trace), e)
  {
    assert (trace + [e])[..|trace|] == trace;
  }

  /** What only ever grows. */
  ghost predicate Grows(w: World, after: World) {
    && w.commits <= after.commits
    && w.creations <= after.creations
    && (forall key :: key in w.ledger ==> key in after.ledger)
    && (forall op :: op in w.ops ==> op in after.ops && (w.ops[op].Done? ==> after.ops[op] == w.ops[op]))
    && (forall op :: op in w.sends ==> op in after.sends && after.sends[op] == w.sends[op])
  }

  lemma HappenGrows(w: World, e: Event)
    requires forall op :: op in w.sends ==> op in w.ops
    ensures Grows(w, Happen(w, e))
  {
    hide Applied;
  }

  lemma {:induction false} RunGrows(trace: seq<Event>, more: seq<Event>)
    ensures Grows(After(trace), After(trace + more))
  {
    hide Happen;
    if more == [] {
      assert trace + more == trace;
    } else {
      var init, last := more[..|more| - 1], more[|more| - 1];
      RunGrows(trace, init);
      assert trace + more == (trace + init) + [last];
      AfterOneMore(trace + init, last);
      OpsOfSends(trace + init);
      HappenGrows(After(trace + init), last);
    }
  }

  lemma {:induction false} LaterAttempts(commits: seq<Commit>, later: seq<Commit>, key: Key)
    requires commits <= later
    ensures AttemptsIn(ChangesOn(commits, key)) <= AttemptsIn(ChangesOn(later, key))
    decreases |later|
  {
    hide ChangesOn, AttemptsIn;
    if |commits| < |later| {
      LaterAttempts(commits, later[..|later| - 1], key);
      AttemptsOfOneMore(later, key);
    } else {
      assert commits == later;
    }
  }

  /** A recorded attempt is never lost or rewritten, whatever is delivered or acknowledged later. */
  lemma AttemptsAreNeverLost(trace: seq<Event>, more: seq<Event>, key: Key)
    requires key in After(trace).ledger
    ensures key in After(trace + more).ledger
    ensures After(trace).ledger[key].notification.attempts <= After(trace + more).ledger[key].notification.attempts
  {
    hide ChangesOn, AttemptsIn, Happen, Sound;
    RunGrows(trace, more);
    RecordIsFoldOfCommits(trace, key);
    RecordIsFoldOfCommits(trace + more, key);
    LaterAttempts(After(trace).commits, After(trace + more).commits, key);
  }

  // ----- what one call did

  function OfCall(e: Event, call: CallId): seq<Event> {
    match e
    case Raise(caller, _) => if caller == call then [e] else []
    case Send(_, sending) => if sending.caller == call then [e] else []
    case _ => []
  }

  /** The creates and sends one call made, in order. */
  function CallEvents(trace: seq<Event>, call: CallId): seq<Event> {
    if trace == [] then [] else CallEvents(trace[..|trace| - 1], call) + OfCall(trace[|trace| - 1], call)
  }

  lemma OneMoreCallEvent(trace: seq<Event>, e: Event)
    ensures forall call :: CallEvents(trace + [e], call) == CallEvents(trace, call) + OfCall(e, call)
  {
    assert (trace + [e])[..|trace|] == trace;
  }

  // ----- the ledger itself

  predicate OnlyOthers(events: seq<Event>, op: OpId) {
    forall i :: 0 <= i < |events| ==> IsOther(events[i], op)
  }

  predicate IsOther(e: Event, op: OpId) {
    match e
    case Raise(_, _) => true
    case Send(other, _) => other != op
    case Ask(other, _, _, _) => other != op
    case Advance(other) => other != op
  }

  lemma OtherKeepsPhase(w: World, e: Event, op: OpId)
    requires IsOther(e, op)
    ensures op in Happen(w, e).ops <==> op in w.ops
    ensures op in w.ops ==> Happen(w, e).ops[op] == w.ops[op]
  {
    hide Applied;
  }

  lemma {:induction false} OthersKeepPhase(trace: seq<Event>, events: seq<Event>, op: OpId)
    requires OnlyOthers(events, op)
    ensures op in After(trace + events).ops <==> op in After(trace).ops
    ensures op in After(trace).ops ==> After(trace + events).ops[op] == After(trace).ops[op]
  {
    hide Happen;
    if events == [] {
      assert trace + events == trace;
    } else {
      var init, last := events[..|events| - 1], events[|events| - 1];
      OthersKeepPhase(trace, init, op);
      assert trace + events == (trace + init) + [last];
      AfterOneMore(trace + init, last);
      assert IsOther(last, op);
      OtherKeepsPhase(After(trace + init), last, op);
    }
  }

  predicate IsDue(n: Notification, now: Instant) {
    n.deliveryState == Pending && n.nextAttemptAt.Some? && n.nextAttemptAt.value <= now
  }

  /** A number above every one of a set. */
  ghost function Above(s: set<nat>): (n: nat)
    ensures forall m :: m in s ==> m < n
  {
    if s == {} then 0
    else
      var m :| m in s;
      var rest := Above(s - {m});
      assert forall k :: k in s ==> k == m || k in s - {m};
      if m < rest then rest else m + 1
  }

  class NotificationStore {
    var records: map<Key, Stored>
    var nextTag: nat
    ghost var trace: seq<Event>

    ghost predicate Valid()
      reads this
    {
      records == After(trace).ledger && nextTag == After(trace).nextTag
    }

    constructor ()
      ensures Valid() && trace == []
    {
      records, nextTag, trace := map[], 0, [];
    }

    /** Everything others do while this operation of this call awaits. */
    method OthersAct(ghost op: OpId, ghost call: CallId)
      requires Valid()
      modifies this
      ensures Valid()
      ensures old(trace) <= trace && OnlyOthers(trace[|old(trace)|..], op)
      ensures CallEvents(trace, call) == CallEvents(old(trace), call)
    {}

    /** Everything that happens while a call without an operation of its own awaits. */
    method AnyoneActs(ghost call: CallId)
      requires Valid()
      modifies this
      ensures Valid() && old(trace) <= trace
      ensures CallEvents(trace, call) == CallEvents(old(trace), call)
    {}

    method Put(notification: Notification, ifMatch: Option<nat>) returns (landed: bool)
      modifies this`records, this`nextTag
      ensures landed <==>
        (if notification.key in old(records) then Some(old(records)[notification.key].tag) else None) == ifMatch
      ensures records ==
        if landed then old(records)[notification.key := Stored(notification, old(nextTag))] else old(records)
      ensures nextTag == if landed then old(nextTag) + 1 else old(nextTag)
    {
      landed := (if notification.key in records then Some(records[notification.key].tag) else None) == ifMatch;
      if landed {
        records := records[notification.key := Stored(notification, nextTag)];
        nextTag := nextTag + 1;
      }
    }

    ghost method Record(e: Event)
      requires records == Happen(After(trace), e).ledger && nextTag == Happen(After(trace), e).nextTag
      modifies this`trace
      ensures trace == old(trace) + [e] && Valid()
      ensures After(trace) == Happen(old(After(trace)), e)
      ensures forall call :: CallEvents(trace, call) == CallEvents(old(trace), call) + OfCall(e, call)
    {
      AfterOneMore(trace, e);
      OneMoreCallEvent(trace, e);
      trace := trace + [e];
    }
  }

  class Ledger {
    const store: NotificationStore

    constructor (store: NotificationStore)
      ensures this.store == store
    {
      this.store := store;
    }

    ghost predicate InPhase(op: OpId, phase: Phase)
      reads store
    {
      store.Valid() && op in After(store.trace).ops && After(store.trace).ops[op] == phase
    }

    method Await(ghost op: OpId, ghost call: CallId, ghost phase: Phase)
      requires InPhase(op, phase)
      modifies store
      ensures InPhase(op, phase) && old(store.trace) <= store.trace
      ensures CallEvents(store.trace, call) == CallEvents(old(store.trace), call)
    {
      ghost var before := store.trace;
      store.OthersAct(op, call);
      OthersKeepPhase(before, store.trace[|before|..], op);
      assert store.trace == before + store.trace[|before|..];
    }

    /** One create, the last event of the trace: it lands exactly when nobody held the key just before. */
    method RaiseOne(ghost call: CallId, planned: Planned) returns (landed: bool)
      requires store.Valid()
      modifies store
      ensures store.Valid() && old(store.trace) < store.trace
      ensures CallEvents(store.trace, call) == CallEvents(old(store.trace), call) + [Event.Raise(call, planned)]
      ensures RaisedAt(store.trace, |store.trace| - 1, call, planned, landed)
    {
      hide Create, After, OnlyOthers, CallEvents;
      store.AnyoneActs(call);
      ghost var before := store.trace;
      landed := store.Put(Raised(planned), None);
      CreateIsPut(After(store.trace), call, planned);
      store.Record(Event.Raise(call, planned));
      assert store.trace[..|before|] == before;
    }

    /**
     * `raise`: a create per planned notification, each at a moment of its own. The answer splits the input in
     * order into the keys this call created and the keys that were there already.
     */
    method Raise(ghost call: CallId, planned: seq<Planned>)
      returns (raised: seq<Key>, alreadyRaised: seq<Key>, ghost created: seq<bool>, ghost at: seq<nat>)
      requires store.Valid()
      modifies store
      ensures store.Valid() && old(store.trace) <= store.trace
      ensures RaisedInOrder(store.trace, |old(store.trace)|, call, planned, created, at)
      ensures ListsWhere(planned, created, true, raised) && ListsWhere(planned, created, false, alreadyRaised)
      ensures |raised| + |alreadyRaised| == |planned|
      ensures CallEvents(store.trace, call) == CallEvents(old(store.trace), call) + RaisesOf(call, planned)
    {
      hide Create, After, OnlyOthers, CallEvents, RaisedAt, RaisedInOrder, ListsWhere;
      raised, alreadyRaised, created, at := [], [], [], [];
      NothingRaised(store.trace, call);
      NothingListed();
      for i := 0 to |planned|
        invariant store.Valid() && old(store.trace) <= store.trace
        invariant |created| == i
        invariant RaisedInOrder(store.trace, |old(store.trace)|, call, planned[..i], created, at)
        invariant ListsWhere(planned[..i], created, true, raised) && ListsWhere(planned[..i], created, false, alreadyRaised)
        invariant |raised| + |alreadyRaised| == i
        invariant CallEvents(store.trace, call) == CallEvents(old(store.trace), call) + RaisesOf(call, planned[..i])
      {
        ghost var before := store.trace;
        var landed := RaiseOne(call, planned[i]);
        OneMoreRaised(before, store.trace, |old(store.trace)|, call, planned[..i], created, at, planned[i], landed);
        OneMoreListed(planned[..i], created, true, raised, planned[i], landed);
        OneMoreListed(planned[..i], created, false, alreadyRaised, planned[i], landed);
        assert planned[..i + 1] == planned[..i] + [planned[i]];
        if landed { raised := raised + [planned[i].key]; } else { alreadyRaised := alreadyRaised + [planned[i].key]; }
        created, at := created + [landed], at + [|store.trace| - 1];
      }
      assert planned[..|planned|] == planned;
    }

    /** The read, the change and the conditional put of an operation already asked for. */
    method Apply(ghost op: OpId, ghost call: CallId, key: Key, change: Change) returns (result: Result)
      requires InPhase(op, Asked(key, change))
      modifies store
      ensures old(store.trace) <= store.trace
      ensures CallEvents(store.trace, call) == CallEvents(old(store.trace), call)
      ensures InPhase(op, Done(key, change, result))
    {
      hide Applied, After, OnlyOthers, CallEvents;
      Await(op, call, Asked(key, change));
      store.Record(Advance(op));
      if key !in store.records { return Refused(Absent); }
      var held := store.records[key];

      KeyOfRecord(store.trace, key);
      result := Applied(held.notification, change);
      Await(op, call, Holding(key, change, held.notification, held.tag));
      if !result.Ok? {
        store.Record(Advance(op));
        return;
      }
      AppliedKeepsIdentity(held.notification, change);
      var landed := store.Put(result.notification, Some(held.tag));
      store.Record(Advance(op));
      if !landed { return Refused(ChangedSinceRead); }
    }

    method Acknowledge(ghost op: OpId, ghost call: CallId, key: Key, actor: string, at: Instant) returns (result: Result)
      requires store.Valid() && op !in After(store.trace).ops
      modifies store
      ensures old(store.trace) <= store.trace
      ensures CallEvents(store.trace, call) == CallEvents(old(store.trace), call)
      ensures InPhase(op, Done(key, Acknowledgement(actor, at), result))
    {
      hide CallEvents;
      store.Record(Ask(op, key, actor, at));
      result := Apply(op, call, key, Acknowledgement(actor, at));
    }

    /** Every record due at this instant, once, in whatever order the query returns them. */
    method DueForDelivery(now: Instant) returns (due: seq<Notification>)
      requires store.Valid()
      ensures AreDue(store.records, due, now)
    {
      hide After, IsDue;
      due := [];
      var left := store.records.Keys;
      while left != {}
        invariant left <= store.records.Keys
        invariant forall i :: 0 <= i < |due| ==>
          due[i].key in store.records && store.records[due[i].key].notification == due[i] && IsDue(due[i], now)
        invariant forall i :: 0 <= i < |due| ==> due[i].key !in left
        invariant forall i, j :: 0 <= i < j < |due| ==> due[i].key != due[j].key
        invariant forall key :: key in store.records.Keys - left && IsDue(store.records[key].notification, now) ==>
          store.records[key].notification in due
        decreases |left|
      {
        var key :| key in left;
        left := left - {key};
        KeyOfRecord(store.trace, key);
        if IsDue(store.records[key].notification, now) { due := due + [store.records[key].notification]; }
      }
    }
  }

  /** Exactly the records due at this instant, each once. */
  ghost predicate AreDue(records: map<Key, Stored>, due: seq<Notification>, now: Instant) {
    && (forall i :: 0 <= i < |due| ==>
         due[i].key in records && records[due[i].key].notification == due[i] && IsDue(due[i], now))
    && (forall i, j :: 0 <= i < j < |due| ==> due[i].key != due[j].key)
    && (forall key :: key in records && IsDue(records[key].notification, now) ==> records[key].notification in due)
  }

  /** The create at this moment, and whether nobody held the key then. */
  ghost predicate RaisedAt(trace: seq<Event>, at: nat, call: CallId, planned: Planned, created: bool) {
    && at < |trace| && trace[at] == Event.Raise(call, planned)
    && (created <==> planned.key !in After(trace[..at]).ledger)
  }

  lemma RaisedStays(trace: seq<Event>, later: seq<Event>, at: nat, call: CallId, planned: Planned, created: bool)
    requires trace <= later && RaisedAt(trace, at, call, planned, created)
    ensures RaisedAt(later, at, call, planned, created)
  {
    assert later[..at] == trace[..at];
  }

  /** One create per planned notification, at increasing moments, each told apart by whether it landed. */
  ghost predicate RaisedInOrder(trace: seq<Event>, from: nat, call: CallId, planned: seq<Planned>, created: seq<bool>,
                                at: seq<nat>)
  {
    && |created| == |at| == |planned|
    && (forall i :: 0 <= i < |at| ==> from <= at[i] < |trace|)
    && (forall i, j :: 0 <= i < j < |at| ==> at[i] < at[j])
    && (forall i :: 0 <= i < |planned| ==> RaisedAt(trace, at[i], call, planned[i], created[i]))
  }

  lemma NothingRaised(trace: seq<Event>, call: CallId)
    ensures RaisedInOrder(trace, |trace|, call, [], [], []) && RaisesOf(call, []) == []
  {}

  lemma OneMoreRaised(trace: seq<Event>, later: seq<Event>, from: nat, call: CallId, planned: seq<Planned>,
                      created: seq<bool>, at: seq<nat>, p: Planned, landed: bool)
    requires trace < later && from <= |trace| && RaisedInOrder(trace, from, call, planned, created, at)
    requires RaisedAt(later, |later| - 1, call, p, landed)
    ensures RaisedInOrder(later, from, call, planned + [p], created + [landed], at + [|later| - 1])
    ensures RaisesOf(call, planned + [p]) == RaisesOf(call, planned) + [Event.Raise(call, p)]
  {
    hide RaisedAt;
    forall i | 0 <= i < |planned| ensures RaisedAt(later, at[i], call, planned[i], created[i]) {
      RaisedStays(trace, later, at[i], call, planned[i], created[i]);
    }
  }

  function RaisesOf(call: CallId, planned: seq<Planned>): seq<Event> {
    seq(|planned|, i requires 0 <= i < |planned| => Event.Raise(call, planned[i]))
  }

  /** The positions, in order, of the notifications whose create landed, or whose did not. */
  predicate Selects(positions: seq<nat>, created: seq<bool>, wanted: bool) {
    && (forall j, k :: 0 <= j < k < |positions| ==> positions[j] < positions[k])
    && (forall j :: 0 <= j < |positions| ==> positions[j] < |created| && created[positions[j]] == wanted)
    && (forall i :: 0 <= i < |created| && created[i] == wanted ==> i in positions)
  }

  /** The keys are those of these notifications, in their order. */
  ghost predicate ListsWhere(planned: seq<Planned>, created: seq<bool>, wanted: bool, keys: seq<Key>) {
    exists positions :: Selects(positions, created, wanted) && IsKeysAt(planned, positions, keys)
  }

  predicate IsKeysAt(planned: seq<Planned>, positions: seq<nat>, keys: seq<Key>) {
    |positions| == |keys| && forall j :: 0 <= j < |keys| ==> positions[j] < |planned| && keys[j] == planned[positions[j]].key
  }

  lemma NothingListed()
    ensures ListsWhere([], [], true, []) && ListsWhere([], [], false, [])
  {
    assert Selects([], [], true) && Selects([], [], false) && IsKeysAt([], [], []);
  }

  lemma OneMoreSelected(positions: seq<nat>, created: seq<bool>, wanted: bool, last: nat)
    requires Selects(positions, created, wanted) && last == |created|
    ensures Selects(positions + [last], created + [wanted], wanted)
    ensures Selects(positions, created + [!wanted], wanted)
  {
    var more := positions + [last];
    forall i | 0 <= i < |created + [wanted]| && (created + [wanted])[i] == wanted ensures i in more {
      if i < last { assert i in positions; } else { assert more[|positions|] == i; }
    }
    assert forall i :: 0 <= i < last ==> (created + [!wanted])[i] == created[i];
  }

  lemma OneMoreKey(planned: seq<Planned>, positions: seq<nat>, keys: seq<Key>, p: Planned, last: nat)
    requires IsKeysAt(planned, positions, keys) && last == |planned|
    ensures IsKeysAt(planned + [p], positions + [last], keys + [p.key]) && IsKeysAt(planned + [p], positions, keys)
  {}

  lemma OneMoreListed(planned: seq<Planned>, created: seq<bool>, wanted: bool, keys: seq<Key>, p: Planned, landed: bool)
    requires |planned| == |created| && ListsWhere(planned, created, wanted, keys)
    ensures ListsWhere(planned + [p], created + [landed], wanted, if landed == wanted then keys + [p.key] else keys)
  {
    hide Selects, IsKeysAt;
    var positions :| Selects(positions, created, wanted) && IsKeysAt(planned, positions, keys);
    OneMoreSelected(positions, created, wanted, |created|);
    OneMoreKey(planned, positions, keys, p, |created|);
  }

  lemma CreateIsPut(w: World, call: CallId, p: Planned)
    ensures var after := Create(w, call, p);
      if p.key in w.ledger then after == w
      else
        && after.ledger == w.ledger[p.key := Stored(Raised(p), w.nextTag)] && after.nextTag == w.nextTag + 1
        && after.creations == w.creations + [Creation(call, p)]
  {}

  lemma KeyOfRecord(trace: seq<Event>, key: Key)
    requires key in After(trace).ledger
    ensures After(trace).ledger[key].notification.key == key
  {
    RecordIsFoldOfCommits(trace, key);
  }

  datatype Tally = Tally(considered: nat, delivered: nat, failed: nat, reasonCode: Option<string>)

  /** The sends that returned. */
  ghost function ReturnedAmong(answers: seq<Answer>): set<nat> {
    set i: nat | i < |answers| && answers[i].Returned?
  }

  /** One batch: what was due, the number each record's send was made under, and what the channel answered. */
  datatype Batch = Batch(due: seq<Notification>, ops: seq<OpId>, answers: seq<Answer>)

  function SendingOf(call: CallId, record: Notification, channelCode: string, now: Instant, answer: Answer): Sending {
    Sending(call, record.key, channelCode, now, answer)
  }

  /** A send per record so far, in the order of the records. */
  function SendsOf(b: Batch, call: CallId, channelCode: string, now: Instant): seq<Event>
    requires |b.ops| == |b.answers| <= |b.due|
  {
    seq(|b.ops|, i requires 0 <= i < |b.ops| => Send(b.ops[i], SendingOf(call, b.due[i], channelCode, now, b.answers[i])))
  }

  /** Each send so far under its own number, and its answer recorded, or refused, under that number. */
  ghost predicate SentAndRecorded(w: World, b: Batch, call: CallId, channelCode: string, now: Instant) {
    && |b.ops| == |b.answers| <= |b.due|
    && (forall i, j :: 0 <= i < j < |b.ops| ==> b.ops[i] != b.ops[j])
    && forall i :: 0 <= i < |b.ops| ==> IsRecorded(w, b.ops[i], SendingOf(call, b.due[i], channelCode, now, b.answers[i]))
  }

  predicate IsRecorded(w: World, op: OpId, sending: Sending) {
    && op in w.sends && w.sends[op] == sending
    && op in w.ops && w.ops[op].Done? && w.ops[op].key == sending.key
    && w.ops[op].change.Delivery? && Reflects(w.ops[op].change.attempt, sending)
  }

  lemma RecordedStays(w: World, after: World, b: Batch, call: CallId, channelCode: string, now: Instant)
    requires Grows(w, after) && SentAndRecorded(w, b, call, channelCode, now)
    ensures SentAndRecorded(after, b, call, channelCode, now)
  {}

  class Dispatcher {
    const ledger: Ledger
    const store: NotificationStore

    constructor (ledger: Ledger)
      ensures this.ledger == ledger && store == ledger.store
    {
      this.ledger, store := ledger, ledger.store;
    }

    ghost predicate Valid()
      reads ledger.store
    {
      store == ledger.store && store.Valid()
    }

    /** One send and the recording of its answer, under a number nothing used before. */
    method SendAndRecord(ghost call: CallId, record: Notification, channelCode: string, now: Instant)
      returns (answer: Answer, result: Result, ghost op: OpId)
      requires Valid()
      modifies store
      ensures Valid() && old(store.trace) <= store.trace
      ensures op !in old(After(store.trace).ops)
      ensures CallEvents(store.trace, call) ==
        CallEvents(old(store.trace), call) + [Send(op, SendingOf(call, record, channelCode, now, answer))]
      ensures IsRecorded(After(store.trace), op, SendingOf(call, record, channelCode, now, answer))
      ensures ledger.InPhase(op, Done(record.key, Delivery(AttemptFor(answer, channelCode, now)), result))
    {
      hide Applied, After, CallEvents;
      op := Above(After(store.trace).ops.Keys);
      store.OthersAct(op, call);
      ghost var others := store.trace[|old(store.trace)|..];
      OthersKeepPhase(old(store.trace), others, op);
      assert store.trace == old(store.trace) + others;
      answer := *;
      store.Record(Send(op, SendingOf(call, record, channelCode, now, answer)));
      ghost var sent := store.trace;
      result := ledger.Apply(op, call, record.key, Delivery(AttemptFor(answer, channelCode, now)));
      RunGrows(sent, store.trace[|sent|..]);
      assert store.trace == sent + store.trace[|sent|..];
    }

    /**
     * `dispatch`: the records due when the query is answered; each is sent once, under a number of its own, and its
     * answer handed to the ledger; and the tally counts the sends that returned and those that did not, whatever
     * the ledger answers.
     */
    method Dispatch(ghost call: CallId, now: Instant, channelCode: Option<string>)
      returns (tally: Tally, ghost b: Batch, ghost readAt: nat)
      requires Valid()
      modifies store
      ensures Valid() && old(store.trace) <= store.trace
      ensures |old(store.trace)| <= readAt <= |store.trace|
      ensures AreDue(After(store.trace[..readAt]).ledger, b.due, now) && tally.considered == |b.due|
      ensures channelCode.None? ==>
        && CallEvents(store.trace, call) == CallEvents(old(store.trace), call)
        && tally.delivered == tally.failed == 0
        && tally.reasonCode == if b.due == [] then None else Some("channel-not-chosen")
      ensures channelCode.Some? ==>
        && SentAndRecorded(After(store.trace), b, call, channelCode.value, now) && |b.ops| == |b.due|
        && CallEvents(store.trace, call) ==
             CallEvents(old(store.trace), call) + SendsOf(b, call, channelCode.value, now)
        && tally.delivered == |ReturnedAmong(b.answers)| && tally.delivered + tally.failed == tally.considered
        && tally.reasonCode.None?
    {
      hide After, CallEvents, AreDue, SentAndRecorded, SendsOf;
      store.AnyoneActs(call);
      readAt := |store.trace|;
      ghost var queried := store.trace;
      var found := ledger.DueForDelivery(now);
      assert store.trace[..readAt] == store.trace;
      b := Batch(found, [], []);
      if channelCode.None? || found == [] {
        tally := Tally(|found|, 0, 0, if found == [] then None else Some("channel-not-chosen"));
        if channelCode.Some? { NothingSent(After(store.trace), b, call, channelCode.value, now); }
        return;
      }
      tally, b := SendBatch(call, found, channelCode.value, now);
      assert store.trace[..readAt] == queried;
    }

    /** The loop over the records of one batch. */
    method SendBatch(ghost call: CallId, found: seq<Notification>, channelCode: string, now: Instant)
      returns (tally: Tally, ghost b: Batch)
      requires Valid()
      modifies store
      ensures Valid() && old(store.trace) <= store.trace
      ensures b.due == found && |b.ops| == |b.answers| == |found|
      ensures SentAndRecorded(After(store.trace), b, call, channelCode, now)
      ensures CallEvents(store.trace, call) == CallEvents(old(store.trace), call) + SendsOf(b, call, channelCode, now)
      ensures tally.considered == |found| && tally.reasonCode.None?
      ensures tally.delivered == |ReturnedAmong(b.answers)| && tally.delivered + tally.failed == tally.considered
    {
      hide After, CallEvents, IsRecorded, SendingOf, SendsOf, SentAndRecorded, ReturnedAmong, Grows;
      b := Batch(found, [], []);
      NothingSent(After(store.trace), b, call, channelCode, now);
      var delivered, failed := 0, 0;
      for i := 0 to |found|
        invariant Valid() && old(store.trace) <= store.trace
        invariant b.due == found && |b.ops| == |b.answers| == i
        invariant SentAndRecorded(After(store.trace), b, call, channelCode, now)
        invariant CallEvents(store.trace, call) == CallEvents(old(store.trace), call) + SendsOf(b, call, channelCode, now)
        invariant delivered == |ReturnedAmong(b.answers)| && delivered + failed == i
      {
        ghost var before := store.trace;
        var answer, result, op := SendAndRecord(call, found[i], channelCode, now);
        assert store.trace == before + store.trace[|before|..];
        RunGrows(before, store.trace[|before|..]);
        OneMoreSend(After(before), After(store.trace), b, call, channelCode, now, op, answer);
        if answer.Returned? { delivered := delivered + 1; } else { failed := failed + 1; }
        b := Batch(found, b.ops + [op], b.answers + [answer]);
      }
      tally := Tally(|found|, delivered, failed, None);
    }
  }

  lemma NothingSent(w: World, b: Batch, call: CallId, channelCode: string, now: Instant)
    requires b.ops == [] && b.answers == []
    ensures SentAndRecorded(w, b, call, channelCode, now) && SendsOf(b, call, channelCode, now) == []
    ensures ReturnedAmong(b.answers) == {}
  {}

  lemma OneMoreSend(w: World, after: World, b: Batch, call: CallId, channelCode: string, now: Instant,
                    op: OpId, answer: Answer)
    requires Grows(w, after) && SentAndRecorded(w, b, call, channelCode, now) && |b.ops| < |b.due| && op !in w.ops
    requires IsRecorded(after, op, SendingOf(call, b.due[|b.ops|], channelCode, now, answer))
    ensures var more := Batch(b.due, b.ops + [op], b.answers + [answer]);
      && SentAndRecorded(after, more, call, channelCode, now)
      && SendsOf(more, call, channelCode, now) == SendsOf(b, call, channelCode, now)
           + [Send(op, SendingOf(call, b.due[|b.ops|], channelCode, now, answer))]
      && |ReturnedAmong(more.answers)| == |ReturnedAmong(b.answers)| + (if answer.Returned? then 1 else 0)
  {
    hide SendingOf;
    RecordedStays(w, after, b, call, channelCode, now);
    assert ReturnedAmong(b.answers + [answer]) ==
      ReturnedAmong(b.answers) + (if answer.Returned? then {|b.answers|} else {});
  }

  /** Two dispatches that both found a record due send it, and the second one's put comes after the first one's. */
  function OverlappingSends(call: CallId, p: Planned, one: Sending, two: Sending): seq<Event> {
    [Event.Raise(call, p), Send(1, one), Send(2, two), Advance(1), Advance(2), Advance(1), Advance(2)]
  }

  /**
   * So a send that returned, and that the tally counts as delivered, can be refused by the ledger: the notification
   * went out twice and one delivery is on record. `OkMeansOneCommit` says when it is recorded.
   */
  lemma UnrecordedDeliveryHappens(call: CallId, p: Planned, first: CallId, second: CallId, channelCode: string,
                                  now: Instant)
    requires p.raisedAt <= now
    ensures var one := SendingOf(first, Raised(p), channelCode, now, Returned);
      var two := SendingOf(second, Raised(p), channelCode, now, Returned);
      var trace := OverlappingSends(call, p, one, two);
      var w := After(trace);
      && AreDue(After(trace[..1]).ledger, [Raised(p)], now)
      && IsRecorded(w, 1, one) && w.ops[1].result.Ok?
      && IsRecorded(w, 2, two) && w.ops[2].result == Refused(ChangedSinceRead)
      && p.key in w.ledger && w.ledger[p.key].notification.attempts == [AttemptFor(Returned, channelCode, now)]
      && forall i :: 0 <= i < |w.commits| ==> w.commits[i].op != 2
  {
    hide After, Happen;
    var one := SendingOf(first, Raised(p), channelCode, now, Returned);
    var two := SendingOf(second, Raised(p), channelCode, now, Returned);
    var t := OverlappingSends(call, p, one, two);
    BothAreSent(call, p, one, two);
    StepOf(t, 3);
    StepOf(t, 4);
    StepOf(t, 5);
    StepOf(t, 6);
    assert t[..7] == t;
    SecondPutIsLate(After(t[..3]), p, AttemptFor(Returned, channelCode, now));
  }

  /** Both read the record as raised; the first put lands, and the second names a version that is gone. */
  lemma SecondPutIsLate(w: World, p: Planned, attempt: Attempt)
    requires w.ledger == map[p.key := Stored(Raised(p), 0)] && w.commits == [] && w.nextTag == 1 && attempt.delivered
    requires w.ops == map[1 := Asked(p.key, Delivery(attempt)), 2 := Asked(p.key, Delivery(attempt))]
    ensures var after := Happen(Happen(Happen(Happen(w, Advance(1)), Advance(2)), Advance(1)), Advance(2));
      && after.sends == w.sends && after.commits == [Commit(1, p.key, Delivery(attempt))]
      && 1 in after.ops && after.ops[1].Done? && after.ops[1].result.Ok?
      && after.ops[1].key == p.key && after.ops[1].change == Delivery(attempt)
      && 2 in after.ops && after.ops[2] == Done(p.key, Delivery(attempt), Refused(ChangedSinceRead))
      && p.key in after.ledger && after.ledger[p.key].notification.attempts == [attempt]
  {}

  lemma BothAreSent(call: CallId, p: Planned, one: Sending, two: Sending)
    requires one.key == two.key == p.key
    ensures var t := OverlappingSends(call, p, one, two);
      && After(t[..1]).ledger == map[p.key := Stored(Raised(p), 0)]
      && var w := After(t[..3]);
      && w.ledger == map[p.key := Stored(Raised(p), 0)] && w.commits == [] && w.nextTag == 1
      && w.sends == map[1 := one, 2 := two]
      && w.ops == map[
           1 := Asked(p.key, Delivery(AttemptFor(one.answer, one.channelCode, one.at))),
           2 := Asked(p.key, Delivery(AttemptFor(two.answer, two.channelCode, two.at)))]
  {
    hide After;
    var t := OverlappingSends(call, p, one, two);
    assert t[..0] == [] && After([]) == Empty by { NothingHappened(); }
    StepOf(t, 0);
    StepOf(t, 1);
    StepOf(t, 2);
  }

  lemma NothingHappened()
    ensures After([]) == Empty
  {}

  lemma StepOf(trace: seq<Event>, i: nat)
    requires i < |trace|
    ensures After(trace[..i + 1]) == Happen(After(trace[..i]), trace[i])
  {
    hide Happen;
    AfterOneMore(trace[..i], trace[i]);
    assert trace[..i + 1] == trace[..i] + [trace[i]];
  }

  lemma OpsOfSends(trace: seq<Event>)
    ensures forall op :: op in After(trace).sends ==> op in After(trace).ops
  {
    hide SendHolds, Committed, RecordHolds;
    EveryRunKeepsInv(trace);
  }
}
