/** Publishing the outbox: rows under a lease, and the three guarded statements of a publisher. */
module Outbox {
  import opened Core
  import opened Finance
  import opened Domain
  import opened Delays

  const MAX_ATTEMPTS: nat := 2147483647

  /** A lease ends at an instant of the storage, in microseconds. */
  datatype Lease = Lease(token: nat, until: nat)

  datatype Row = Row(event: Event, attempts: nat, nextAttemptAt: nat, publishedAt: Option<nat>, lease: Option<Lease>)

  /** What a publisher knows of the event that it claimed. */
  datatype PendingEvent = PendingEvent(id: Uuid, payload: Event, attempts: nat, token: nat)

  predicate Eligible(row: Row, now: nat) {
    row.publishedAt.None? && row.nextAttemptAt <= now && (row.lease.None? || row.lease.value.until <= now)
  }

  function ClaimedRow(row: Row, token: nat, lease: int64, now: nat): Row
    requires lease >= 0
  {
    row.(lease := Some(Lease(token, now + lease / MICROSECOND)),
         attempts := if row.attempts + 1 <= MAX_ATTEMPTS then row.attempts + 1 else MAX_ATTEMPTS)
  }

  /** The guard of both statements that end a claim. */
  predicate Owned(row: Row, token: nat, now: nat) {
    row.publishedAt.None? && row.lease.Some? && row.lease.value.token == token && row.lease.value.until > now
  }

  function PublishedRow(row: Row, now: nat): Row {
    row.(publishedAt := Some(now), lease := None)
  }

  function RetriedRow(row: Row, delay: int64, now: nat): Row
    requires delay >= 0
  {
    row.(nextAttemptAt := now + delay / MICROSECOND, lease := None)
  }

  // ---- What each statement does to a row, column by column -----------------------------------------

  /** The row may be claimed: it is not published, it is due, and no lease of it still runs. */
  predicate Waits(row: Row, now: nat) {
    row.publishedAt == None && row.nextAttemptAt <= now && (row.lease.Some? ==> row.lease.value.until <= now)
  }

  /** A claim counts one attempt, as far as the column can count, and leases the row for the whole microseconds. */
  predicate Leased(before: Row, after: Row, token: nat, lease: int64, now: nat) {
    && after.event == before.event && after.publishedAt == before.publishedAt && after.nextAttemptAt == before.nextAttemptAt
    && after.attempts == Min(before.attempts + 1, 2147483647)
    && after.lease.Some? && after.lease.value.token == token && after.lease.value.until as int == now + lease / 1000
  }

  /** The attempt that a token stands for may still end the claim. */
  predicate LeasedTo(row: Row, token: nat, now: nat) {
    row.publishedAt == None && row.lease.Some? && row.lease.value.token == token && now < row.lease.value.until
  }

  predicate Confirmed(before: Row, after: Row, now: nat) {
    && after.event == before.event && after.attempts == before.attempts && after.nextAttemptAt == before.nextAttemptAt
    && after.publishedAt == Some(now) && after.lease == None
  }

  /** The event is sent again after the whole microseconds of the delay, and no earlier. */
  predicate SentLater(before: Row, after: Row, delay: int, now: nat) {
    && after.event == before.event && after.attempts == before.attempts && after.publishedAt == before.publishedAt
    && after.nextAttemptAt as int == now + delay / 1000 && after.lease == None
  }

  /** Only this row changes. */
  predicate OnlyRow(before: map<Uuid, Row>, after: map<Uuid, Row>, id: Uuid) {
    id in before && id in after && after == before[id := after[id]]
  }

  /** No other eligible row was due before. */
  predicate First(rows: map<Uuid, Row>, id: Uuid, now: nat) {
    && id in rows && Eligible(rows[id], now)
    && forall other :: other in rows && Eligible(rows[other], now) ==> rows[id].nextAttemptAt <= rows[other].nextAttemptAt
  }

  predicate NothingWaits(rows: map<Uuid, Row>, now: nat) {
    forall id :: id in rows ==> !Waits(rows[id], now)
  }

  /** The row may be claimed, and no other one that may was due before it. */
  predicate DueFirst(rows: map<Uuid, Row>, id: Uuid, now: nat) {
    && id in rows && Waits(rows[id], now)
    && forall other :: other in rows && Waits(rows[other], now) ==> rows[id].nextAttemptAt <= rows[other].nextAttemptAt
  }

  lemma NoneWaits(rows: map<Uuid, Row>, now: nat)
    ensures (forall id :: id in rows ==> !Eligible(rows[id], now)) ==> NothingWaits(rows, now)
  {
  }

  lemma FirstWaits(rows: map<Uuid, Row>, id: Uuid, now: nat)
    requires First(rows, id, now)
    ensures DueFirst(rows, id, now)
  {
    forall other | other in rows && Waits(rows[other], now) ensures rows[id].nextAttemptAt <= rows[other].nextAttemptAt {
      assert Eligible(rows[other], now);
    }
  }

  lemma ClaimedIsLeased(row: Row, token: nat, lease: int64, now: nat)
    requires lease >= 0
    ensures Leased(row, ClaimedRow(row, token, lease, now), token, lease, now)
  {
  }

  class OutboxPublisherRepository {
    var rows: map<Uuid, Row>

    constructor ()
      ensures rows == map[]
    {
      rows := map[];
    }

    /** Reserves the eligible row that was due first, under a new token. */
    method Claim(token: nat, lease: int64, now: nat) returns (claimed: Option<PendingEvent>)
      requires lease >= 0
      modifies this
      ensures claimed.None? ==> rows == old(rows) && NothingWaits(rows, now)
      ensures claimed.Some? ==>
                var id := claimed.value.id;
                && OnlyRow(old(rows), rows, id) && Leased(old(rows)[id], rows[id], token, lease, now)
                && DueFirst(old(rows), id, now)
                && claimed.value == PendingEvent(id, rows[id].event, rows[id].attempts, token)
    {
      NoneWaits(rows, now);
      if exists id :: id in rows && Eligible(rows[id], now) {
        ghost var some :| some in rows && Eligible(rows[some], now);
        ghost var eligible := set id | id in rows && Eligible(rows[id], now);
        ghost var times := map id | id in rows :: rows[id].nextAttemptAt;
        ghost var first := SomeIsLeast(times, eligible, some);
        forall id | id in rows && Eligible(rows[id], now) ensures rows[first].nextAttemptAt <= rows[id].nextAttemptAt {
          assert id in eligible && times[first] <= times[id];
        }
        assert First(rows, first, now);
        var id :| id in rows && First(rows, id, now);
        FirstWaits(rows, id, now);
        ClaimedIsLeased(rows[id], token, lease, now);
        rows := rows[id := ClaimedRow(rows[id], token, lease, now)];
        return Some(PendingEvent(id, rows[id].event, rows[id].attempts, token));
      }
      return None;
    }

    method MarkPublished(event: PendingEvent, now: nat) returns (err: Option<Error>)
      modifies this
      ensures var owned := event.id in old(rows) && LeasedTo(old(rows)[event.id], event.token, now);
              && err == (if owned then None else Some(ErrOutboxLeaseLost))
              && if owned then
                   OnlyRow(old(rows), rows, event.id) && Confirmed(old(rows)[event.id], rows[event.id], now)
                 else rows == old(rows)
    {
      if event.id !in rows || !Owned(rows[event.id], event.token, now) {
        return Some(ErrOutboxLeaseLost);
      }
      rows := rows[event.id := PublishedRow(rows[event.id], now)];
      return None;
    }

    method Retry(event: PendingEvent, delay: int64, now: nat) returns (err: Option<Error>)
      requires delay >= 0
      modifies this
      ensures var owned := event.id in old(rows) && LeasedTo(old(rows)[event.id], event.token, now);
              && err == (if owned then None else Some(ErrOutboxLeaseLost))
              && if owned then
                   OnlyRow(old(rows), rows, event.id) && SentLater(old(rows)[event.id], rows[event.id], delay, now)
                 else rows == old(rows)
    {
      if event.id !in rows || !Owned(rows[event.id], event.token, now) {
        return Some(ErrOutboxLeaseLost);
      }
      rows := rows[event.id := RetriedRow(rows[event.id], delay, now)];
      return None;
    }
  }

  /** How a send ends: accepted, refused, or cut short by a cancellation. */
  datatype Send = Accepted | Refused | Cancelled

  /** Durations that the storage can tell from nothing, with a limit that is not below the first delay. */
  predicate Usable(policy: OutboxPolicy) {
    policy.leaseDuration >= 1000 && policy.initialDelay >= 1000 && policy.maxDelay >= policy.initialDelay
  }

  /**
   * One attempt: claims, sends, and confirms or reschedules. A cancelled send leaves the row under
   * its lease, which then runs out. The error of the send itself is that of its outcome.
   */
  method PublishNext(repository: OutboxPublisherRepository, policy: OutboxPolicy, token: nat, send: Send,
                     claimedAt: nat, endedAt: nat)
    returns (event: Option<PendingEvent>, err: Option<Error>)
    requires claimedAt <= endedAt
    modifies repository
    ensures !Usable(policy) ==> event.None? && err == Some(ErrInvalidOutboxPolicy)
    ensures event.None? ==> repository.rows == old(repository.rows)
    ensures Usable(policy) && event.None? ==> err.None? && NothingWaits(repository.rows, claimedAt)
    ensures event.Some? ==>
              var id := event.value.id;
              var before, after := old(repository.rows), repository.rows;
              var intime := endedAt as int < claimedAt + policy.leaseDuration / 1000;
              && OnlyRow(before, after, id) && DueFirst(before, id, claimedAt)
              && event.value.payload == before[id].event
              && event.value.attempts == after[id].attempts == Min(before[id].attempts + 1, 2147483647)
              && (err == if send.Cancelled? || intime then None else Some(ErrOutboxLeaseLost))
              && if send.Cancelled? || !intime then Leased(before[id], after[id], token, policy.leaseDuration, claimedAt)
                 else exists claimed ::
                   && Leased(before[id], claimed, token, policy.leaseDuration, claimedAt)
                   && if send.Accepted? then Confirmed(claimed, after[id], endedAt)
                      else SentLater(claimed, after[id],
                                     Min(policy.initialDelay * Pow2(after[id].attempts - 1), policy.maxDelay), endedAt)
  {
    if !ValidOutboxPolicy(policy) {
      return None, Some(ErrInvalidOutboxPolicy);
    }
    event := repository.Claim(token, policy.leaseDuration, claimedAt);
    err := None;
    ghost var leased := repository.rows;
    if event.Some? && !send.Cancelled? {
      BackoffIsMonotone(policy.initialDelay, policy.maxDelay, 1, event.value.attempts);
      if send.Refused? {
        var delay := OutboxDelay(policy, event.value.attempts);
        err := repository.Retry(event.value, delay, endedAt);
      } else {
        err := repository.MarkPublished(event.value, endedAt);
      }
      assert Leased(old(repository.rows)[event.value.id], leased[event.value.id], token, policy.leaseDuration, claimedAt);
    }
  }
}
