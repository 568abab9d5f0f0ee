/** When a waiting operation is looked at again: what a claim leaves, and the time until the next one. */
module Retries {
  import opened Core
  import opened Finance
  import opened Domain
  import opened Delays
  import opened Engine
  import opened Invariant
  import opened Decisions
  import opened Steps
  import opened UseCases
  import opened Runs
  import opened Idempotency
  import opened Effects

  /** The delay in whole microseconds after so many attempts: the first delay, doubled by each, up to the limit. */
  function PauseAfter(policy: ReferencePolicy, attempts: nat): int {
    Min(policy.initialDelay * Pow2(attempts), policy.maxDelay) / 1000
  }

  /** An attempt is counted and the next one put off by the pause; once they are used up, nothing is. */
  predicate PutOff(before: Db, after: Db, id: Uuid, policy: ReferencePolicy, at: Instant) {
    && id in before.schedules
    && (var attempts := before.schedules[id].attempts;
        if attempts >= policy.maxAttempts then after.schedules == before.schedules
        else
          && id in after.schedules && after.schedules == before.schedules[id := after.schedules[id]]
          && after.schedules[id].attempts == attempts + 1
          && after.schedules[id].dueAt as int == at as int + PauseAfter(policy, attempts))
  }

  lemma RescheduledPutsOff(db: Db, id: Uuid, policy: ReferencePolicy, at: Instant)
    requires ValidReferencePolicy(policy) && id in db.schedules
    ensures PutOff(db, Rescheduled(db, id, policy, at), id, policy, at)
    ensures Rescheduled(db, id, policy, at) == db.(schedules := Rescheduled(db, id, policy, at).schedules)
  {
  }

  /** The event that announced the wait, whose tracing the claim goes on with. */
  predicate TracedBy(outbox: seq<Event>, id: Uuid, trace: Trace) {
    exists j :: 0 <= j < |outbox| && outbox[j].content.TransactionPendingReference? && outbox[j].content.wager.id == id
                && outbox[j].trace == trace
  }

  lemma {:induction false} FirstPendingTraces(outbox: seq<Event>, id: Uuid)
    ensures FirstPending(outbox, id).Some? ==> TracedBy(outbox, id, FirstPending(outbox, id).value)
  {
    if outbox != [] {
      var init := outbox[..|outbox| - 1];
      FirstPendingTraces(init, id);
      if FirstPending(init, id).Some? {
        var j :| 0 <= j < |init| && init[j].content.TransactionPendingReference? && init[j].content.wager.id == id
                 && init[j].trace == FirstPending(init, id).value;
        assert outbox[j] == init[j];
      } else {
        assert outbox[|outbox| - 1] in outbox;
      }
    }
  }

  /** A committed claim, in full: the row, its movement and events under the tracing of its wait, and the next attempt. */
  lemma ClaimLeaves(db: Db, id: Uuid, policy: ReferencePolicy, stamp: Stamp) returns (trace: Trace)
    requires Inv(db) && Retryable(db, id, policy, stamp) && RetryOne(db, id, policy, stamp).Ok?
    ensures TracedBy(db.outbox, id, trace)
    ensures var after := RetryOne(db, id, policy, stamp).value;
            && id in db.wagers && id in after.wagers && SameBusiness(db.wagers[id], after.wagers[id])
            && StepLeaves(db, after, after.wagers[id], stamp.ticket, stamp.at, trace)
            && PutOff(db, after, id, policy, stamp.at) && after.inbox == db.inbox
  {
    hide WalletsOk, IndexOk, LinksOk, ReversalsOk, LedgerOk, AllBooked, BalancesOk, StreamOk, InboxOk, IdsOk, Unused, RowOk,
         Validate, DecideIn, Enacted, Rescheduled, SnapshotOk, StepLeaves, PutOff, After;
    var w := db.wagers[id];
    PendingIsReady(db, id);
    PendingHasTrace(db.wagers, db.outbox, id);
    FirstPendingTraces(db.outbox, id);
    trace := FirstPending(db.outbox, id).value;
    RescheduledPutsOff(db, id, policy, stamp.at);
    var d := DecideRetry(db, w, policy, stamp.at);
    hide Ready, EventsOk;
    EnactedLeaves(db, Rescheduled(db, id, policy, stamp.at).schedules, w, d, stamp, trace);
    EnactedStores(Rescheduled(db, id, policy, stamp.at), w, db.wallets[w.wallet], d, stamp, trace);
    PutOffStays(db, Rescheduled(db, id, policy, stamp.at), RetryOne(db, id, policy, stamp).value, id, policy, stamp.at);
  }

  lemma PutOffStays(before: Db, between: Db, after: Db, id: Uuid, policy: ReferencePolicy, at: Instant)
    requires PutOff(before, between, id, policy, at) && after.schedules == between.schedules
    ensures PutOff(before, after, id, policy, at)
  {
  }

  // ---- The time between two claims ------------------------------------------------------------------

  /** No step of the run claims the operation. */
  predicate LeavesAlone(steps: seq<Step>, id: Uuid) {
    forall k :: 0 <= k < |steps| ==> !(steps[k].RetryStep? && steps[k].id == id)
  }

  lemma {:induction false} ScheduleRests(db: Db, steps: seq<Step>, id: Uuid)
    requires Inv(db) && Runnable(db, steps) && LeavesAlone(steps, id) && id in db.wagers && id in db.schedules
    ensures var after := Run(db, steps);
            id in after.wagers && id in after.schedules && after.schedules[id] == db.schedules[id]
    decreases |steps|
  {
    hide Inv, Admissible, Next;
    if steps != [] {
      NextKeepsInv(db, steps[0]);
      OthersLeaveRow(db, steps[0], id);
      assert forall k :: 0 <= k < |steps[1..]| ==> steps[1..][k] == steps[k + 1];
      ScheduleRests(Next(db, steps[0]), steps[1..], id);
    }
  }

  /**
   * After a claim that leaves its operation waiting, whatever else runs, the next claim of it comes
   * after the pause: doubled by every attempt that was made, up to the limit of the policy.
   */
  lemma NextClaimWaits(db: Db, id: Uuid, policy: ReferencePolicy, stamp: Stamp, steps: seq<Step>,
                       policy': ReferencePolicy, stamp': Stamp)
    requires Inv(db) && Admissible(db, RetryStep(id, policy, stamp)) && RetryOne(db, id, policy, stamp).Ok?
    requires Waiting(RetryOne(db, id, policy, stamp).value, id)
    requires Runnable(RetryOne(db, id, policy, stamp).value, steps) && LeavesAlone(steps, id)
    requires Admissible(Run(RetryOne(db, id, policy, stamp).value, steps), RetryStep(id, policy', stamp'))
    ensures id in db.schedules
    ensures stamp'.at as int >= stamp.at as int + PauseAfter(policy, db.schedules[id].attempts)
  {
    hide Inv, Unused, StepLeaves, RetryOne, Runnable, Run, FirstPending, PauseAfter, DecideIn, Enacted;
    var after := RetryOne(db, id, policy, stamp).value;
    assert Retryable(db, id, policy, stamp);
    var trace := ClaimLeaves(db, id, policy, stamp);
    RowIsNamed(db, id);
    ClaimAdvances(db, id, policy, stamp);
    NextKeepsInv(db, RetryStep(id, policy, stamp));
    ScheduleRests(after, steps, id);
  }

  /** A waiting operation is claimable from the end of its pause on, and no earlier. */
  lemma ClaimableExactly(db: Db, id: Uuid, at: Instant)
    requires Inv(db) && Waiting(db, id)
    ensures id in db.schedules && (Claimable(db, id, at) <==> db.schedules[id].dueAt <= at)
  {
    hide WalletsOk, RowsOk, IndexOk, LinksOk, ReversalsOk, LedgerOk, AllBooked, BalancesOk, StreamOk, EventsOk, InboxOk,
         IdsOk, FirstPending;
    if db.schedules[id].dueAt <= at {
      hide Inv;
      PendingIsClaimable(db, id, at);
    }
  }
}
