/** One notification record: attempts to deliver it, acknowledging it, and what every record keeps. */
module NotificationDelivery {
  import opened Common

  const MAX_ATTEMPTS := 5
  const FIRST_BACKOFF_MS := 60_000

  datatype DeliveryState = Pending | Delivered | Exhausted

  datatype Attempt = Attempt(at: Instant, channelCode: string, delivered: bool, reasonCode: Option<string>)

  /** The lifecycle `state` of a record is its delivery state until somebody acknowledges it. */
  datatype Notification = Notification(
    key: string,
    kind: string,
    raisedAt: Instant,
    deliveryState: DeliveryState,
    reasonCode: Option<string>,
    attempts: seq<Attempt>,
    nextAttemptAt: Option<Instant>,
    acknowledgedBy: Option<string>,
    acknowledgedAt: Option<Instant>)

  datatype Planned = Planned(key: string, kind: string, raisedAt: Instant)

  function Raised(p: Planned): Notification {
    Notification(p.key, p.kind, p.raisedAt, Pending, None, [], Some(p.raisedAt), None, None)
  }

  datatype Change =
    | Delivery(attempt: Attempt)
    | Acknowledgement(actor: string, at: Instant)

  datatype Refusal =
    | AlreadyAcknowledged
    | AlreadyDelivered
    | AttemptsExhausted
    | NothingToAcknowledge
    | Absent
    | ChangedSinceRead

  datatype Result = Ok(notification: Notification) | Refused(refusal: Refusal)

  function Doubled(times: nat): nat { if times == 0 then 1 else 2 * Doubled(times - 1) }

  function RecordAttempt(n: Notification, attempt: Attempt): Result {
    if n.acknowledgedBy.Some? then Refused(AlreadyAcknowledged)
    else if n.deliveryState == Delivered then Refused(AlreadyDelivered)
    else if n.deliveryState == Exhausted then Refused(AttemptsExhausted)
    else
      var attempts := n.attempts + [attempt];
      if attempt.delivered then
        Ok(n.(attempts := attempts, deliveryState := Delivered, reasonCode := None, nextAttemptAt := None))
      else if |attempts| >= MAX_ATTEMPTS then
        Ok(n.(attempts := attempts, deliveryState := Exhausted,
              reasonCode := Some("delivery-attempts-exhausted"), nextAttemptAt := None))
      else
        Ok(n.(attempts := attempts, deliveryState := Pending, reasonCode := attempt.reasonCode,
              nextAttemptAt := Some(attempt.at + FIRST_BACKOFF_MS * Doubled(|attempts| - 1))))
  }

  function Acknowledge(n: Notification, actor: string, at: Instant): Result {
    if n.acknowledgedBy.Some? then Refused(AlreadyAcknowledged)
    else if n.deliveryState == Pending then Refused(NothingToAcknowledge)
    else Ok(n.(acknowledgedBy := Some(actor), acknowledgedAt := Some(at)))
  }

  function Applied(n: Notification, change: Change): Result {
    match change
    case Delivery(attempt) => RecordAttempt(n, attempt)
    case Acknowledgement(actor, at) => Acknowledge(n, actor, at)
  }

  /** The record after some changes, each of which was accepted; `None` if one was not. */
  function Fold(n: Notification, changes: seq<Change>): Option<Notification> {
    if changes == [] then Some(n)
    else
      match Fold(n, changes[..|changes| - 1])
      case None => None
      case Some(before) =>
        var result := Applied(before, changes[|changes| - 1]);
        if result.Ok? then Some(result.notification) else None
  }

  function AttemptsIn(changes: seq<Change>): seq<Attempt> {
    if changes == [] then []
    else
      var last := changes[|changes| - 1];
      AttemptsIn(changes[..|changes| - 1]) + (if last.Delivery? then [last.attempt] else [])
  }

  /** What every record reached by accepted changes satisfies. */
  predicate Sound(n: Notification) {
    && |n.attempts| <= MAX_ATTEMPTS
    && (forall i :: 0 <= i < |n.attempts| && n.attempts[i].delivered ==> i == |n.attempts| - 1)
    && (n.deliveryState == Delivered <==> n.attempts != [] && n.attempts[|n.attempts| - 1].delivered)
    && (n.deliveryState == Exhausted <==> |n.attempts| == MAX_ATTEMPTS && !n.attempts[MAX_ATTEMPTS - 1].delivered)
    && (n.acknowledgedBy.Some? ==> n.deliveryState != Pending)
    && n.nextAttemptAt == NextAttempt(n)
    && n.reasonCode == ReasonNow(n)
  }

  /** Why a record is as it is: the last failure's reason while pending, none once delivered. */
  function ReasonNow(n: Notification): Option<string> {
    match n.deliveryState
    case Delivered => None
    case Exhausted => Some("delivery-attempts-exhausted")
    case Pending => if n.attempts == [] then None else n.attempts[|n.attempts| - 1].reasonCode
  }

  /** While pending: due at once, then a minute after a failure, each wait twice the one before. */
  function NextAttempt(n: Notification): Option<Instant> {
    if n.deliveryState != Pending then None
    else if n.attempts == [] then Some(n.raisedAt)
    else Some(n.attempts[|n.attempts| - 1].at + FIRST_BACKOFF_MS * Doubled(|n.attempts| - 1))
  }

  lemma AppliedKeepsSound(n: Notification, change: Change)
    requires Sound(n) && Applied(n, change).Ok?
    ensures Sound(Applied(n, change).notification)
    ensures Applied(n, change).notification.attempts == n.attempts + (if change.Delivery? then [change.attempt] else [])
  {
    hide Doubled;
  }

  /**
   * However the accepted changes of a record came about: its attempts are exactly those of the
   * changes, in order; at most five, only the last delivered; it is delivered or given up on
   * accordingly; and acknowledging never happened while delivery was still pending.
   */
  lemma {:induction false} EveryFoldIsSound(p: Planned, changes: seq<Change>)
    requires Fold(Raised(p), changes).Some?
    ensures var n := Fold(Raised(p), changes).value;
      Sound(n) && n.attempts == AttemptsIn(changes) && n.key == p.key && n.kind == p.kind && n.raisedAt == p.raisedAt
  {
    hide Sound, Applied;
    if changes == [] {
      RaisedIsSound(p);
    } else {
      var init, last := changes[..|changes| - 1], changes[|changes| - 1];
      EveryFoldIsSound(p, init);
      AppliedKeepsSound(Fold(Raised(p), init).value, last);
      AppliedKeepsIdentity(Fold(Raised(p), init).value, last);
    }
  }

  lemma RaisedIsSound(p: Planned)
    ensures Sound(Raised(p))
  {}

  lemma AppliedKeepsIdentity(n: Notification, change: Change)
    requires Applied(n, change).Ok?
    ensures var after := Applied(n, change).notification;
      after.key == n.key && after.kind == n.kind && after.raisedAt == n.raisedAt
  {}

  /** An acknowledgement is the last change a record ever accepts, and it is by its own actor at its own instant. */
  lemma {:induction false} AcknowledgementIsLast(p: Planned, changes: seq<Change>)
    requires Fold(Raised(p), changes).Some?
    ensures forall i :: 0 <= i < |changes| - 1 ==> changes[i].Delivery?
    ensures var n := Fold(Raised(p), changes).value;
      if changes != [] && changes[|changes| - 1].Acknowledgement?
      then n.acknowledgedBy == Some(changes[|changes| - 1].actor) && n.acknowledgedAt == Some(changes[|changes| - 1].at)
      else n.acknowledgedBy == None && n.acknowledgedAt == None
    decreases |changes|
  {
    hide Doubled;
    if changes != [] {
      var init := changes[..|changes| - 1];
      AcknowledgementIsLast(p, init);
      assert Fold(Raised(p), init).value.acknowledgedBy.None?;
      assert forall i :: 0 <= i < |init| ==> init[i] == changes[i];
      assert init != [] ==> changes[|changes| - 2] == init[|init| - 1];
    }
  }

  predicate SomeDelivered(n: Notification) { exists i :: 0 <= i < |n.attempts| && n.attempts[i].delivered }

  /**
   * What a record accepts, by its attempts and its acknowledgement alone: attempts until it is acknowledged, until
   * one was delivered, or until there were five; an acknowledgement, once, when no attempt is left to be made.
   */
  lemma ChangesAreAcceptedExactly(n: Notification, change: Change)
    requires Sound(n)
    ensures var result := Applied(n, change); var over := SomeDelivered(n) || |n.attempts| == 5;
      && (result == Refused(AlreadyAcknowledged) <==> n.acknowledgedBy.Some?)
      && (n.acknowledgedBy.None? && change.Delivery? ==>
           && (result == Refused(AlreadyDelivered) <==> SomeDelivered(n))
           && (result == Refused(AttemptsExhausted) <==> !SomeDelivered(n) && |n.attempts| == 5)
           && (result.Ok? <==> !over))
      && (n.acknowledgedBy.None? && change.Acknowledgement? ==>
           && (result == Refused(NothingToAcknowledge) <==> !over)
           && (result.Ok? <==> over))
  {
    hide Doubled;
    if n.deliveryState == Delivered { assert n.attempts[|n.attempts| - 1].delivered; }
  }

  /** The milliseconds to wait after so many attempts: none, then one, two, four and eight minutes. */
  function WaitAfter(attempts: nat): nat {
    match attempts
    case 0 => 0
    case 1 => 60_000
    case 2 => 120_000
    case 3 => 240_000
    case _ => 480_000
  }

  /**
   * A record is waiting for an attempt exactly while none was delivered and there were fewer than five; the next one
   * is due at once, then one, two, four and eight minutes after the last.
   */
  lemma NextAttemptIs(n: Notification)
    requires Sound(n)
    ensures n.deliveryState == Pending <==> !SomeDelivered(n) && |n.attempts| < 5
    ensures n.nextAttemptAt.Some? <==> n.deliveryState == Pending
    ensures var last := if n.attempts == [] then n.raisedAt else n.attempts[|n.attempts| - 1].at;
      n.nextAttemptAt.Some? ==> n.nextAttemptAt.value == last + WaitAfter(|n.attempts|)
  {
    assert Doubled(1) == 2 * Doubled(0) && Doubled(2) == 2 * Doubled(1) && Doubled(3) == 2 * Doubled(2);
    if n.deliveryState == Delivered { assert n.attempts[|n.attempts| - 1].delivered; }
  }
}
