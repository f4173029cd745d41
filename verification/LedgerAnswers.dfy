/** What each operation on the notification ledger answers, by what was stored when it read and when it put. */
module LedgerAnswers {
  import opened Common
  import opened NotificationDelivery
  import opened NotificationLedger

  /** At this step the operation found this stored under its key. */
  predicate FoundAt(trace: seq<Event>, j: nat, op: OpId, key: Key, held: Option<Stored>) {
    && j < |trace| && trace[j] == Advance(op)
    && var ledger := After(trace[..j]).ledger;
    && match held
       case None => key !in ledger
       case Some(stored) => key in ledger && ledger[key] == stored
  }

  /** The operation read this record. */
  ghost predicate Read(trace: seq<Event>, op: OpId, key: Key, read: Stored) {
    exists j: nat :: FoundAt(trace, j, op, key, Some(read))
  }

  /** The operation found the key held under another version than the one it had read, or not at all. */
  ghost predicate FoundChanged(trace: seq<Event>, op: OpId, key: Key, read: Stored) {
    exists k: nat, held :: FoundAt(trace, k, op, key, held) && (held == None || held.value.tag != read.tag)
  }

  /** What the operation answers, of the record it read. */
  ghost predicate Answers(trace: seq<Event>, op: OpId, key: Key, change: Change, result: Result) {
    match result
    case Ok(n) => exists read :: Read(trace, op, key, read) && Applied(read.notification, change) == Ok(n)
    case Refused(Absent) => exists j: nat :: FoundAt(trace, j, op, key, None)
    case Refused(ChangedSinceRead) =>
      exists read :: Read(trace, op, key, read) && Applied(read.notification, change).Ok? && FoundChanged(trace, op, key, read)
    case Refused(refusal) => exists read :: Read(trace, op, key, read) && Applied(read.notification, change) == Refused(refusal)
  }

  ghost predicate Tells(trace: seq<Event>, op: OpId, phase: Phase) {
    match phase
    case Asked(_, _) => true
    case Holding(key, _, read, tag) => Read(trace, op, key, Stored(read, tag))
    case Done(key, change, result) => Answers(trace, op, key, change, result)
  }

  lemma FoundStays(trace: seq<Event>, e: Event)
    ensures forall j: nat, op, key, held :: FoundAt(trace, j, op, key, held) ==> FoundAt(trace + [e], j, op, key, held)
  {
    hide After;
    assert forall i :: 0 <= i <= |trace| ==> (trace + [e])[..i] == trace[..i];
  }

  lemma TellsStays(trace: seq<Event>, e: Event, op: OpId, phase: Phase)
    requires Tells(trace, op, phase)
    ensures Tells(trace + [e], op, phase)
  {
    hide After, Applied, FoundAt;
    FoundStays(trace, e);
  }

  /** A change is never refused as absent or as changed since it was read: those are answers of the store. */
  lemma RefusedByRecord(n: Notification, change: Change)
    requires Applied(n, change).Refused?
    ensures Applied(n, change).refusal !in {Absent, ChangedSinceRead}
  {}

  lemma OwnStepTells(trace: seq<Event>, op: OpId)
    requires op in After(trace).ops && Tells(trace + [Advance(op)], op, After(trace).ops[op])
    ensures var after := Happen(After(trace), Advance(op)); Tells(trace + [Advance(op)], op, after.ops[op])
  {
    hide After, Applied;
    var w, longer := After(trace), trace + [Advance(op)];
    assert longer[..|trace|] == trace;
    match w.ops[op]
    case Asked(key, _) =>
      var held := if key in w.ledger then Some(w.ledger[key]) else None;
      assert FoundAt(longer, |trace|, op, key, held);
      assert key in w.ledger ==> w.ledger[key] == Stored(w.ledger[key].notification, w.ledger[key].tag);
    case Holding(key, change, read, tag) =>
      var held := if key in w.ledger then Some(w.ledger[key]) else None;
      assert FoundAt(longer, |trace|, op, key, held);
      if Applied(read, change).Refused? { RefusedByRecord(read, change); }
    case Done(_, _, _) =>
  }

  /**
   * In every run each finished operation answers what the record it read allowed: absent exactly where nothing was
   * stored, its change applied or refused by that record, and changed since read only where its put found another
   * version. `ChangesAreAcceptedExactly` says which a record allows.
   */
  lemma {:induction false} EveryOperationAnswersRightly(trace: seq<Event>, op: OpId)
    requires op in After(trace).ops
    ensures Tells(trace, op, After(trace).ops[op])
    decreases |trace|
  {
    hide Tells, Progress, Create;
    var init, last := trace[..|trace| - 1], trace[|trace| - 1];
    assert trace == init + [last];
    var w := After(init);
    if op in w.ops {
      EveryOperationAnswersRightly(init, op);
      TellsStays(init, last, op, w.ops[op]);
    }
    if IsOther(last, op) {
      OtherKeepsPhase(w, last, op);
    } else if last.Advance? && op in w.ops {
      OwnStepTells(init, op);
    } else if op !in w.ops {
      AskedTells(trace, op, After(trace).ops[op]);
    }
  }

  lemma AskedTells(trace: seq<Event>, op: OpId, phase: Phase)
    requires phase.Asked?
    ensures Tells(trace, op, phase)
  {}

  /** Every stored record is due exactly when an attempt is still to be made and its wait is over. */
  lemma DueExactly(trace: seq<Event>, key: Key, now: Instant)
    requires key in After(trace).ledger
    ensures var n := After(trace).ledger[key].notification;
      var last := if n.attempts == [] then n.raisedAt else n.attempts[|n.attempts| - 1].at;
      IsDue(n, now) <==> !SomeDelivered(n) && |n.attempts| < 5 && last + WaitAfter(|n.attempts|) <= now
  {
    hide After, Sound;
    RecordIsFoldOfCommits(trace, key);
    NextAttemptIs(After(trace).ledger[key].notification);
  }
}
