/** Telling a learner that a reschedule was confirmed: the attempt record counts the tries. */
module RescheduleNotify {
  import opened Prelude

  const MAX_NOTIFICATION_ATTEMPTS := 5
  const NOTIFICATION_RETRY_MS := 5 * 60_000

  datatype Notification = Pending | Deferred | Delivered | Ambiguous | Abandoned

  datatype AttemptRecord = AttemptRecord(
    userId: int,
    confirmed: bool,
    scheduledTimeLabel: Option<string>,
    notification: Notification,
    attempts: nat,
    nextAt: Option<int>)

  datatype Key = Key(externalId: string, nonce: string)

  /** How an outbound message went; a rate-limited message was not sent. */
  datatype Outcome = WasSent | MayBeSent | NotSent

  predicate IsDue(r: AttemptRecord, now: int) {
    && r.notification.Deferred? && r.attempts < MAX_NOTIFICATION_ATTEMPTS
    && (r.nextAt.None? || r.nextAt.value <= now)
  }

  /** What a report writes to a record, besides raising its count. */
  datatype Mark = Mark(status: Notification, nextAt: Option<int>)

  /** The mark goes by the outcome and by the attempts the reporter found. */
  function MarkFor(outcome: Outcome, found: nat, now: int): Mark {
    match outcome
    case WasSent => Mark(Delivered, None)
    case MayBeSent => Mark(Ambiguous, None)
    case NotSent =>
      if found >= MAX_NOTIFICATION_ATTEMPTS then Mark(Abandoned, None)
      else Mark(Deferred, Some(now + NOTIFICATION_RETRY_MS))
  }

  function Marked(r: AttemptRecord, mark: Mark, count: nat): AttemptRecord {
    r.(notification := mark.status, attempts := count, nextAt := mark.nextAt)
  }

  class MemoryRescheduleAttemptStore {
    var byKey: map<Key, AttemptRecord>

    constructor ()
      ensures byKey == map[]
    {
      byKey := map[];
    }

    method BeginAttempt(key: Key, userId: int)
      modifies this
      ensures byKey == old(byKey)[key := AttemptRecord(userId, false, None, Pending, 0, None)]
    {
      byKey := byKey[key := AttemptRecord(userId, false, None, Pending, 0, None)];
    }

    /** False when there is no attempt to confirm. */
    method ConfirmAttempt(key: Key, timeLabel: string) returns (found: bool)
      modifies this
      ensures found <==> key in old(byKey)
      ensures byKey
        == if found
           then old(byKey)[key := old(byKey)[key].(confirmed := true, scheduledTimeLabel := Some(timeLabel))]
           else old(byKey)
    {
      if key !in byKey {
        return false;
      }
      byKey := byKey[key := byKey[key].(confirmed := true, scheduledTimeLabel := Some(timeLabel))];
      return true;
    }

    /** The record as it is now; the caller may act on it later. */
    method FindAttempt(key: Key) returns (found: Option<AttemptRecord>)
      ensures found == if key in byKey then Some(byKey[key]) else None
    {
      return if key in byKey then Some(byKey[key]) else None;
    }

    method MarkSent(key: Key, status: Notification)
      modifies this
      ensures byKey
        == if key in old(byKey)
           then old(byKey)[key := Marked(old(byKey)[key], Mark(status, None), old(byKey)[key].attempts + 1)]
           else old(byKey)
    {
      if key in byKey {
        var r := byKey[key];
        byKey := byKey[key := r.(notification := status, attempts := r.attempts + 1, nextAt := None)];
      }
    }

    /** The second half of a report: the mark the found record calls for, on the record as it is now. */
    method ApplyNotificationOutcome(key: Key, found: Option<AttemptRecord>, outcome: Outcome, now: int)
      modifies this
      ensures found.None? || !found.value.confirmed || key !in old(byKey) ==> byKey == old(byKey)
      ensures found.Some? && found.value.confirmed && key in old(byKey) ==>
        var r, mark := old(byKey)[key], MarkFor(outcome, found.value.attempts, now);
        byKey == old(byKey)[key := Marked(r, mark, if mark.status.Abandoned? then r.attempts else r.attempts + 1)]
    {
      if found.None? || !found.value.confirmed {
        return;
      }
      if outcome.WasSent? {
        MarkSent(key, Delivered);
      } else if outcome.MayBeSent? {
        MarkSent(key, Ambiguous);
      } else if key in byKey {
        var r := byKey[key];
        byKey := byKey[key :=
          if found.value.attempts >= MAX_NOTIFICATION_ATTEMPTS then r.(notification := Abandoned, nextAt := None)
          else r.(notification := Deferred, attempts := r.attempts + 1, nextAt := Some(now + NOTIFICATION_RETRY_MS))];
      }
    }
  }
}
