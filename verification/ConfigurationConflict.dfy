/**
 * Comparing the version a caller had read with the stored one: which history entries and which target outcomes an
 * overwrite would discard, and that the comparison lists all of them and nothing else.
 */
module ConfigurationConflict {
  import opened Common
  import opened Lifecycle

  datatype Reason = HistoryDiverged | NoChangeSinceRead | ChangedSinceRead

  datatype TargetChange = TargetChange(code: string, from: Option<Outcome>, to: Outcome, reason: Option<string>)

  datatype Comparison = Comparison(
    conflicted: bool,
    reason: Reason,
    loadedRevisionNumber: int,
    currentRevisionNumber: int,
    currentState: State,
    discarded: seq<Entry>,
    discardedTargets: seq<TargetChange>)

  datatype OverwriteRecord = OverwriteRecord(
    actor: string,
    at: Instant,
    discardedCommands: seq<Action>,
    discardedActors: seq<string>,
    discardedTargetCodes: seq<string>,
    overwrittenRevisionNumber: int)

  /** What the reader held for this code; a repeated code answers with its last target. */
  function HeldTarget(targets: seq<Target>, code: string): Option<Target> {
    if targets == [] then None
    else if targets[|targets| - 1].code == code then Some(targets[|targets| - 1])
    else HeldTarget(targets[..|targets| - 1], code)
  }

  predicate TargetMoved(before: seq<Target>, target: Target) {
    match HeldTarget(before, target.code)
    case None => true
    case Some(held) => held.outcome != target.outcome || held.reason != target.reason
  }

  function MovedTargets(before: seq<Target>, after: seq<Target>): seq<TargetChange> {
    if after == [] then []
    else
      var target := after[0];
      var held := HeldTarget(before, target.code);
      (if TargetMoved(before, target)
       then [TargetChange(target.code, if held.Some? then Some(held.value.outcome) else None,
                          target.outcome, target.reason)]
       else []) + MovedTargets(before, after[1..])
  }

  /** Some entry that was read is missing from the stored history, or was rewritten. */
  predicate Diverged(loaded: seq<Entry>, current: seq<Entry>) {
    exists i :: 0 <= i < |loaded| && (i >= |current| || loaded[i] != current[i])
  }

  /** `None` is the thrown TypeError of two readings of different revisions. */
  function Compare(loaded: Revision, current: Revision): Option<Comparison> {
    if loaded.revisionId != current.revisionId || loaded.scopeGroupId != current.scopeGroupId then None
    else if Diverged(loaded.history, current.history) then
      Some(Comparison(true, HistoryDiverged, loaded.revisionNumber, current.revisionNumber, current.state, [], []))
    else
      // An undiverged history is at least as long as the reading it extends.
      var discarded := if |loaded.history| <= |current.history| then current.history[|loaded.history|..] else [];
      var moved := MovedTargets(loaded.targets, current.targets);
      if discarded == [] && moved == [] then
        Some(Comparison(false, NoChangeSinceRead, loaded.revisionNumber, current.revisionNumber, current.state, [], []))
      else
        Some(Comparison(true, ChangedSinceRead, loaded.revisionNumber, current.revisionNumber, current.state,
                        discarded, moved))
  }

  function Commands(entries: seq<Entry>): seq<Action> {
    seq(|entries|, i requires 0 <= i < |entries| => entries[i].action)
  }

  /** The distinct actors, in order of first appearance. */
  function Actors(entries: seq<Entry>): (actors: seq<string>)
    ensures forall a :: a in actors <==> exists e :: e in entries && e.actor == a
    ensures forall i, j :: 0 <= i < j < |actors| ==> actors[i] != actors[j]
  {
    if entries == [] then []
    else
      var init := entries[..|entries| - 1];
      var last := entries[|entries| - 1];
      assert entries == init + [last];
      var rest := Actors(init);
      if last.actor in rest then rest else rest + [last.actor]
  }

  function Codes(changes: seq<TargetChange>): seq<string> {
    seq(|changes|, i requires 0 <= i < |changes| => changes[i].code)
  }

  /** `None` is the thrown TypeError: a record needs a conflict to describe. */
  function Describe(comparison: Comparison, actor: string, at: Instant): Option<OverwriteRecord> {
    if !comparison.conflicted then None
    else Some(OverwriteRecord(actor, at, Commands(comparison.discarded), Actors(comparison.discarded),
                              Codes(comparison.discardedTargets), comparison.currentRevisionNumber))
  }

  // ----- what the comparison means

  lemma DivergedMeansNotAPrefix(loaded: seq<Entry>, current: seq<Entry>)
    ensures Diverged(loaded, current) <==> !(loaded <= current)
  {
    if |current| < |loaded| {
      var firstMissing := loaded[|current|];
    }
  }

  lemma {:induction false} NothingMovedMeansSameOutcomes(before: seq<Target>, after: seq<Target>)
    ensures MovedTargets(before, after) == [] <==> forall t :: t in after ==> !TargetMoved(before, t)
  {
    if after != [] {
      NothingMovedMeansSameOutcomes(before, after[1..]);
      assert forall t :: t in after <==> t == after[0] || t in after[1..];
    }
  }

  predicate IsLastOf(targets: seq<Target>, i: nat, code: string) {
    i < |targets| && targets[i].code == code && forall j :: i < j < |targets| ==> targets[j].code != code
  }

  /** The reader held this target as it is now: the last one it held of this code has this outcome and reason. */
  ghost predicate HeldAsIs(before: seq<Target>, target: Target) {
    exists i: nat :: IsLastOf(before, i, target.code)
      && before[i].outcome == target.outcome && before[i].reason == target.reason
  }

  /** A change shows the target as it is, beside the outcome the reader held, if it held one of this code. */
  ghost predicate Shows(before: seq<Target>, target: Target, change: TargetChange) {
    && change.code == target.code && change.to == target.outcome && change.reason == target.reason
    && match change.from
       case None => forall i :: 0 <= i < |before| ==> before[i].code != target.code
       case Some(outcome) => exists i: nat :: IsLastOf(before, i, target.code) && before[i].outcome == outcome
  }

  /** The changes show every target that is not held as it is, and no other. */
  ghost predicate ShowsMoved(before: seq<Target>, after: seq<Target>, changes: seq<TargetChange>) {
    && (forall t :: t in after && !HeldAsIs(before, t) ==> exists c :: c in changes && Shows(before, t, c))
    && (forall c :: c in changes ==> exists t :: t in after && !HeldAsIs(before, t) && Shows(before, t, c))
  }

  /**
   * What a comparison of two readings of one revision says. The reading and the discarded entries together
   * are the stored history: no entry is left out of the warning and none is invented.
   */
  ghost predicate Compares(read: Revision, stored: Revision, c: Comparison) {
    && read.revisionId == stored.revisionId && read.scopeGroupId == stored.scopeGroupId
    && c.loadedRevisionNumber == read.revisionNumber && c.currentRevisionNumber == stored.revisionNumber
    && c.currentState == stored.state
    && (c.reason == HistoryDiverged <==> !(read.history <= stored.history))
    && (c.reason == HistoryDiverged ==> c.discarded == [] && c.discardedTargets == [])
    && (c.reason != HistoryDiverged ==>
         read.history + c.discarded == stored.history && ShowsMoved(read.targets, stored.targets, c.discardedTargets))
    && (c.reason == NoChangeSinceRead <==>
         stored.history == read.history && forall t :: t in stored.targets ==> HeldAsIs(read.targets, t))
    && (c.conflicted <==> c.reason != NoChangeSinceRead)
  }

  lemma {:induction false} HeldTargetIsLast(targets: seq<Target>, code: string)
    ensures match HeldTarget(targets, code)
      case None => forall i :: 0 <= i < |targets| ==> targets[i].code != code
      case Some(held) => exists i: nat :: IsLastOf(targets, i, code) && targets[i] == held
  {
    if targets != [] {
      var init := targets[..|targets| - 1];
      if targets[|targets| - 1].code == code {
        assert IsLastOf(targets, |targets| - 1, code);
      } else {
        HeldTargetIsLast(init, code);
        if HeldTarget(init, code).Some? {
          var i: nat :| IsLastOf(init, i, code) && init[i] == HeldTarget(init, code).value;
          assert IsLastOf(targets, i, code) && targets[i] == init[i];
        }
      }
    }
  }

  lemma MovedExactly(before: seq<Target>, target: Target)
    ensures TargetMoved(before, target) <==> !HeldAsIs(before, target)
  {
    hide HeldTarget;
    HeldTargetIsLast(before, target.code);
    var held := HeldTarget(before, target.code);
    if held.Some? {
      var i: nat :| IsLastOf(before, i, target.code) && before[i] == held.value;
      forall j: nat | IsLastOf(before, j, target.code) ensures j == i {}
    }
  }

  lemma {:induction false} MovedTargetsShown(before: seq<Target>, after: seq<Target>)
    ensures ShowsMoved(before, after, MovedTargets(before, after))
  {
    hide HeldAsIs, Shows, HeldTarget;
    if after != [] {
      var changes, rest := MovedTargets(before, after), MovedTargets(before, after[1..]);
      MovedTargetsShown(before, after[1..]);
      MovedExactly(before, after[0]);
      if TargetMoved(before, after[0]) { ChangeShows(before, after[0], changes[0]); }
      forall t | t in after && !HeldAsIs(before, t) ensures exists c :: c in changes && Shows(before, t, c) {
        if t == after[0] { assert changes[0] in changes; }
        else {
          assert t in after[1..];
          var c :| c in rest && Shows(before, t, c);
        }
      }
    }
  }

  lemma ChangeShows(before: seq<Target>, target: Target, change: TargetChange)
    requires var held := HeldTarget(before, target.code);
      change == TargetChange(target.code, if held.Some? then Some(held.value.outcome) else None, target.outcome, target.reason)
    ensures Shows(before, target, change)
  {
    hide HeldTarget;
    HeldTargetIsLast(before, target.code);
  }

  /** Two readings can be compared exactly when they are of one revision, and this is what the comparison says. */
  lemma CompareIsExact(read: Revision, stored: Revision)
    ensures Compare(read, stored).Some? <==>
      read.revisionId == stored.revisionId && read.scopeGroupId == stored.scopeGroupId
    ensures Compare(read, stored).Some? ==> Compares(read, stored, Compare(read, stored).value)
  {
    hide HeldAsIs, ShowsMoved, MovedTargets, TargetMoved, Diverged;
    DivergedMeansNotAPrefix(read.history, stored.history);
    NothingMovedMeansSameOutcomes(read.targets, stored.targets);
    MovedTargetsShown(read.targets, stored.targets);
    forall t | t in stored.targets ensures TargetMoved(read.targets, t) <==> !HeldAsIs(read.targets, t) {
      MovedExactly(read.targets, t);
    }
  }

  /** What an overwrite leaves on record of the entries and targets it discards. */
  ghost predicate Records(record: OverwriteRecord, c: Comparison, actor: string, at: Instant) {
    && record.actor == actor && record.at == at
    && |record.discardedCommands| == |c.discarded|
    && (forall i :: 0 <= i < |c.discarded| ==> record.discardedCommands[i] == c.discarded[i].action)
    && (forall a :: a in record.discardedActors <==> exists e :: e in c.discarded && e.actor == a)
    && |record.discardedTargetCodes| == |c.discardedTargets|
    && (forall i :: 0 <= i < |c.discardedTargets| ==> record.discardedTargetCodes[i] == c.discardedTargets[i].code)
    && record.overwrittenRevisionNumber == c.currentRevisionNumber
  }

  lemma DescribeIsExact(c: Comparison, actor: string, at: Instant)
    ensures Describe(c, actor, at).Some? <==> c.conflicted
    ensures c.conflicted ==> Records(Describe(c, actor, at).value, c, actor, at)
  {}

  /** Comparing a reading with itself never reports a conflict, when its target codes are distinct. */
  lemma {:induction false} HeldTargetFinds(targets: seq<Target>, i: nat)
    requires i < |targets|
    requires forall j, k :: 0 <= j < k < |targets| ==> targets[j].code != targets[k].code
    ensures HeldTarget(targets, targets[i].code) == Some(targets[i])
  {
    if i < |targets| - 1 {
      assert targets[..|targets| - 1][i] == targets[i];
      HeldTargetFinds(targets[..|targets| - 1], i);
    }
  }

  lemma SelfComparisonIsQuiet(r: Revision)
    requires forall j, k :: 0 <= j < k < |r.targets| ==> r.targets[j].code != r.targets[k].code
    ensures Compare(r, r).Some? && !Compare(r, r).value.conflicted
  {
    DivergedMeansNotAPrefix(r.history, r.history);
    forall t | t in r.targets ensures !TargetMoved(r.targets, t) {
      var i :| 0 <= i < |r.targets| && r.targets[i] == t;
      HeldTargetFinds(r.targets, i);
    }
    NothingMovedMeansSameOutcomes(r.targets, r.targets);
  }
}
