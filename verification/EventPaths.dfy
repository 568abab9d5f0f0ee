/** The events of an operation follow the path of its status: over runs, each exactly once and in order. */
module EventPaths {
  import opened Core
  import opened Finance
  import opened Domain
  import opened Delays
  import opened Engine
  import opened Invariant
  import opened Decisions
  import opened Preservation
  import opened Steps
  import opened UseCases
  import opened Opening
  import opened Runs
  import opened Idempotency
  import EventStream

  /** The operation waits, or waited until a claim: a new operation has no attempt, and every claim counts one. */
  predicate HasWaited(db: Db, id: Uuid) {
    Waiting(db, id) || AttemptsOf(db, id) > 0
  }

  ghost predicate WaitsAnnounced(db: Db) {
    forall id :: id in db.wagers ==> Count(db.outbox, id, PendingTag) == if HasWaited(db, id) then 1 else 0
  }

  /** The event of a wait comes before the event of the outcome. */
  ghost predicate InOrderOfStatus(outbox: seq<Event>) {
    forall j, k :: 0 <= k <= j < |outbox| && outbox[j].content.TransactionPendingReference? ==>
      !EventStream.Concludes(outbox[k], outbox[j].content.wager.id)
  }

  ghost predicate OnPath(db: Db) {
    WaitsAnnounced(db) && InOrderOfStatus(db.outbox)
  }

  // ---- One step ---------------------------------------------------------------------------------------

  lemma OrderExtended(outbox: seq<Event>, events: seq<Event>)
    requires InOrderOfStatus(outbox)
    requires forall j, k :: 0 <= j < |events| && 0 <= k < |outbox| && events[j].content.TransactionPendingReference? ==>
               !EventStream.Concludes(outbox[k], events[j].content.wager.id)
    requires forall j, k :: 0 <= j < |events| && 0 <= k < |events| && events[j].content.TransactionPendingReference? ==>
               !EventStream.Concludes(events[k], events[j].content.wager.id)
    ensures InOrderOfStatus(outbox + events)
  {
    var all := outbox + events;
    forall j, k | 0 <= k <= j < |all| && all[j].content.TransactionPendingReference?
      ensures !EventStream.Concludes(all[k], all[j].content.wager.id)
    {
      if |outbox| <= k {
        assert all[j] == events[j - |outbox|] && all[k] == events[k - |outbox|];
      } else if |outbox| <= j {
        assert all[j] == events[j - |outbox|];
      }
    }
  }

  /** An operation is concluded after it is stored. */
  lemma ConcludedIsStored(wagers: map<Uuid, Wager>, outbox: seq<Event>, id: Uuid, k: nat)
    requires forall j :: 0 <= j < |outbox| ==> SnapshotOk(wagers, outbox[j])
    requires k < |outbox| && EventStream.Concludes(outbox[k], id)
    ensures id in wagers && IsTerminal(wagers[id])
  {
    assert SnapshotOk(wagers, outbox[k]);
  }

  lemma StepIsInOrder(wagers: map<Uuid, Wager>, outbox: seq<Event>, w: Wager, wallet: WalletRow, d: Decision, stamp: Stamp,
                      trace: Trace)
    requires EventsOk(wagers, outbox) && InOrderOfStatus(outbox) && !d.Abort?
    requires if w.id in wagers then wagers[w.id] == w && w.status.PendingReference? else w.status.Pending?
    ensures InOrderOfStatus(outbox + EventsOf(w, After(w, wallet, d, stamp.at), wallet, d, stamp, trace))
  {
    hide InOrderOfStatus, SnapshotOk;
    var f := After(w, wallet, d, stamp.at);
    OutcomeIdentity(w, wallet, d, stamp.at);
    var events := EventsOf(w, f, wallet, d, stamp, trace);
    hide After;
    forall j, k | 0 <= j < |events| && 0 <= k < |outbox| && events[j].content.TransactionPendingReference?
      ensures !EventStream.Concludes(outbox[k], events[j].content.wager.id)
    {
      if EventStream.Concludes(outbox[k], events[j].content.wager.id) {
        ConcludedIsStored(wagers, outbox, w.id, k);
      }
    }
    OrderExtended(outbox, events);
  }

  /** The attempts of a new row are none, those of a claimed one are at least one, and no other changes. */
  predicate Rescheduling(db: Db, schedules: map<Uuid, Schedule>, id: Uuid) {
    && (forall other :: other in db.wagers && other != id ==>
          AttemptsOf(db.(schedules := schedules), other) == AttemptsOf(db, other))
    && (if id in db.wagers then AttemptsOf(db.(schedules := schedules), id) > 0
        else AttemptsOf(db.(schedules := schedules), id) == 0)
  }

  /** The waiting events of the step's own operation. */
  lemma OwnWait(wagers: map<Uuid, Wager>, outbox: seq<Event>, w: Wager, wallet: WalletRow, d: Decision, stamp: Stamp,
                trace: Trace)
    requires EventsOk(wagers, outbox) && !d.Abort?
    requires if w.id in wagers then wagers[w.id] == w && w.status.PendingReference? else w.status.Pending?
    ensures var events := EventsOf(w, After(w, wallet, d, stamp.at), wallet, d, stamp, trace);
            Count(outbox + events, w.id, PendingTag) == if w.id in wagers || d.Wait? then 1 else 0
  {
    var f := After(w, wallet, d, stamp.at);
    OutcomeIdentity(w, wallet, d, stamp.at);
    EventsCounted(w, wallet, d, stamp, trace, PendingTag);
    CountConcat(outbox, EventsOf(w, f, wallet, d, stamp, trace), w.id, PendingTag);
    if w.id in wagers {
      assert EventsMatch(w, outbox);
    } else {
      NoEventsYet(wagers, outbox, w.id, PendingTag);
    }
  }

  lemma OthersWait(outbox: seq<Event>, w: Wager, wallet: WalletRow, d: Decision, stamp: Stamp, trace: Trace, id: Uuid)
    requires !d.Abort? && (w.status.Pending? || w.status.PendingReference?) && id != w.id
    ensures var events := EventsOf(w, After(w, wallet, d, stamp.at), wallet, d, stamp, trace);
            Count(outbox + events, id, PendingTag) == Count(outbox, id, PendingTag)
  {
    var f := After(w, wallet, d, stamp.at);
    OutcomeIdentity(w, wallet, d, stamp.at);
    EventsCounted(w, wallet, d, stamp, trace, PendingTag);
    var events := EventsOf(w, f, wallet, d, stamp, trace);
    CountConcat(outbox, events, id, PendingTag);
    OthersUncounted(events, w.id, id, PendingTag);
  }

  lemma StepIsOpen(db: Db, w: Wager, d: Decision, stamp: Stamp, trace: Trace)
    requires Inv(db) && Enactable(db, w, d, stamp, trace)
    ensures w.wallet in db.wallets && !d.Abort? && w.referenceId.None? && EventsOk(db.wagers, db.outbox)
    ensures if w.id in db.wagers then db.wagers[w.id] == w && w.status.PendingReference? else w.status.Pending?
  {
    hide WalletsOk, RowsOk, IndexOk, LinksOk, ReversalsOk, LedgerOk, AllBooked, BalancesOk, StreamOk, EventsOk, InboxOk,
         IdsOk, Validate, Decided, DecisionOk, Timely, Unused, PayloadOfWager, Fits;
    StepFacts(db, w, d, stamp, trace);
    DecisionSummary(db, w, d, stamp.at);
  }

  lemma EnactedStaysOnPath(db: Db, schedules: map<Uuid, Schedule>, w: Wager, d: Decision, stamp: Stamp, trace: Trace)
    requires Inv(db) && Enactable(db, w, d, stamp, trace) && OnPath(db) && Rescheduling(db, schedules, w.id)
    ensures w.wallet in db.wallets
    ensures OnPath(Enacted(db.(schedules := schedules), w, db.wallets[w.wallet], d, stamp, trace))
  {
    hide Inv, Enactable, EventsOk, InOrderOfStatus, EventsOf, After, Enacted;
    StepIsOpen(db, w, d, stamp, trace);
    var wallet := db.wallets[w.wallet];
    var after := Enacted(db.(schedules := schedules), w, wallet, d, stamp, trace);
    OutcomeShape(w, wallet, d, stamp.at);
    EnactedStores(db.(schedules := schedules), w, wallet, d, stamp, trace);
    StepIsInOrder(db.wagers, db.outbox, w, wallet, d, stamp, trace);
    OwnWait(db.wagers, db.outbox, w, wallet, d, stamp, trace);
    EnactedPublishes(db.(schedules := schedules), w, wallet, d, stamp, trace);
    forall id | id in after.wagers ensures Count(after.outbox, id, PendingTag) == if HasWaited(after, id) then 1 else 0 {
      if id != w.id {
        OthersWait(db.outbox, w, wallet, d, stamp, trace, id);
      }
    }
  }

  lemma EnactedPublishes(db: Db, w: Wager, wallet: WalletRow, d: Decision, stamp: Stamp, trace: Trace)
    ensures var after := Enacted(db, w, wallet, d, stamp, trace);
            after.schedules == db.schedules
            && after.outbox == db.outbox + EventsOf(w, After(w, wallet, d, stamp.at), wallet, d, stamp, trace)
  {
    hide EventsOf, After;
  }

  lemma SubmitStaysOnPath(db: Db, w: Wager, q: Request, stamp: Stamp, trace: Trace)
    requires Inv(db) && Submittable(db, w, q, stamp, trace) && OnPath(db)
    ensures OnPath(Submit(db, w, stamp, trace).db)
  {
    hide WalletsOk, RowsOk, IndexOk, LinksOk, ReversalsOk, LedgerOk, AllBooked, BalancesOk, StreamOk, EventsOk, InboxOk,
         IdsOk, Unused, Admitted, Submit, DecideIn, Enacted, Ready, After, IdentityTaken, OnPath;
    if GoesThrough(db, w) {
      SubmissionIsReady(db, w, q, stamp, trace);
      SubmitUnfolds(db, w, stamp, trace);
      if !DecideIn(db, w, stamp.at).Abort? {
        EnactedStaysOnPath(db, Enrolled(db, w, stamp.at).schedules, w, DecideIn(db, w, stamp.at), stamp, trace);
      }
    } else {
      StoppedChangesNothing(db, w, stamp, trace);
    }
  }

  lemma ReceiveStaysOnPath(db: Db, body: Body, w: Wager, stamp: Stamp)
    requires Inv(db) && Submittable(db, w, body.request, stamp, body.request.trace) && OnPath(db)
    ensures OnPath(Receive(db, body, w, stamp).db)
  {
    hide Inv, Submittable, Submit, FindExisting, Count;
    if body.messageId !in db.inbox {
      ReceiveUnfolds(db, body, w, stamp);
      SubmitStaysOnPath(db, w, body.request, stamp, body.request.trace);
    }
  }

  lemma ClaimReschedules(db: Db, id: Uuid, policy: ReferencePolicy, at: Instant)
    requires ValidReferencePolicy(policy) && id in db.wagers
    ensures Rescheduling(db, Rescheduled(db, id, policy, at).schedules, id)
    ensures Rescheduled(db, id, policy, at) == db.(schedules := Rescheduled(db, id, policy, at).schedules)
  {
    hide Backoff;
  }

  lemma RetryStaysOnPath(db: Db, id: Uuid, policy: ReferencePolicy, stamp: Stamp)
    requires Inv(db) && Retryable(db, id, policy, stamp) && OnPath(db)
    ensures RetryOne(db, id, policy, stamp).Ok? ==> OnPath(RetryOne(db, id, policy, stamp).value)
  {
    hide WalletsOk, IndexOk, LinksOk, ReversalsOk, LedgerOk, AllBooked, BalancesOk, StreamOk, InboxOk, IdsOk, Unused, RowOk,
         Validate, DecideIn, Enacted, Rescheduled, SnapshotOk, OnPath, Rescheduling;
    var w := db.wagers[id];
    PendingIsReady(db, id);
    PendingHasTrace(db.wagers, db.outbox, id);
    var d := DecideRetry(db, w, policy, stamp.at);
    ClaimReschedules(db, id, policy, stamp.at);
    if !d.Abort? {
      hide Ready, EventsOk;
      EnactedStaysOnPath(db, Rescheduled(db, id, policy, stamp.at).schedules, w, d, stamp, FirstPending(db.outbox, id).value);
    }
  }

  lemma OpenedStaysOnPath(db: Db, wallet: WalletRow, stamp: Stamp, trace: Trace)
    requires OnPath(db) && EventsOk(db.wagers, db.outbox) && Named(wallet.id) !in db.wagers
    ensures OnPath(Opened(db, wallet, stamp, trace))
  {
    hide EventsOk, SnapshotOk;
    if wallet.balance.amount != 0 {
      var w, after := OpeningOf(wallet, stamp.at), Opened(db, wallet, stamp, trace);
      var a, b := OpeningEvents(wallet, stamp, trace)[0], OpeningEvents(wallet, stamp, trace)[1];
      assert OpeningEvents(wallet, stamp, trace) == [a, b];
      forall id | id in after.wagers ensures Count(after.outbox, id, PendingTag) == if HasWaited(after, id) then 1 else 0 {
        CountConcat(db.outbox, [a, b], id, PendingTag);
        CountOfTwo(a, b, id, PendingTag);
        if id == w.id {
          OpeningHasNoEvents(db, id);
        }
      }
      OrderExtended(db.outbox, [a, b]);
    }
  }

  lemma OpeningHasNoEvents(db: Db, id: Uuid)
    requires EventsOk(db.wagers, db.outbox) && id !in db.wagers
    ensures Count(db.outbox, id, PendingTag) == 0
  {
    NoEventsYet(db.wagers, db.outbox, id, PendingTag);
  }

  lemma OpenStaysOnPath(db: Db, player: Uuid, initial: Money, stamp: Stamp, trace: Trace)
    requires Inv(db) && Unused(db, stamp.ticket) && OnPath(db)
    ensures Open(db, player, initial, stamp, trace).Ok? ==> OnPath(Open(db, player, initial, stamp, trace).value)
  {
    hide WalletsOk, RowsOk, IndexOk, LinksOk, ReversalsOk, LedgerOk, AllBooked, BalancesOk, StreamOk, EventsOk, InboxOk,
         IdsOk, Opened, OnPath, Unused;
    if Open(db, player, initial, stamp, trace).Ok? {
      FreshWalletIsNew(db, stamp);
      OpenedStaysOnPath(db, NewWallet(player, initial, Fresh(stamp, ROW_SLOT), stamp.at).value, stamp, trace);
    }
  }

  lemma NextStaysOnPath(db: Db, step: Step)
    requires Inv(db) && Admissible(db, step) && OnPath(db)
    ensures OnPath(Next(db, step))
  {
    hide Inv, Submittable, Unused, Retryable, OnTime, Admit, Submit, Receive, RetryOne, Open, OnPath;
    match step
    case OpenStep(player, initial, trace, stamp) => OpenStaysOnPath(db, player, initial, stamp, trace);
    case SubmitStep(authorized, q, created, stamp) =>
      if AdmittedWager(authorized, q, created, stamp).Ok? {
        AdmittedIsSubmittable(db, authorized, q, created, stamp);
        SubmitStaysOnPath(db, AdmittedWager(authorized, q, created, stamp).value, q, stamp, q.trace);
      }
    case ReceiveStep(authorized, body, created, stamp) =>
      if AdmittedWager(authorized, body.request, created, stamp).Ok? {
        AdmittedIsSubmittable(db, authorized, body.request, created, stamp);
        ReceiveStaysOnPath(db, body, AdmittedWager(authorized, body.request, created, stamp).value, stamp);
      }
    case RetryStep(id, policy, stamp) => RetryStaysOnPath(db, id, policy, stamp);
  }

  // ---- Every run --------------------------------------------------------------------------------------

  lemma {:induction false} RunStaysOnPath(db: Db, steps: seq<Step>)
    requires Inv(db) && OnPath(db) && Runnable(db, steps)
    ensures Inv(Run(db, steps)) && OnPath(Run(db, steps))
    decreases |steps|
  {
    hide Inv, OnPath, Admissible, Next;
    if steps != [] {
      NextKeepsInv(db, steps[0]);
      NextStaysOnPath(db, steps[0]);
      RunStaysOnPath(Next(db, steps[0]), steps[1..]);
    }
  }

  /** The events of one operation: which it has, each how often, in which order, and with which snapshot. */
  ghost predicate EventsAlongPath(db: Db, id: Uuid)
    requires id in db.wagers
  {
    var w := db.wagers[id];
    && Count(db.outbox, id, PendingTag) == (if HasWaited(db, id) then 1 else 0)
    && Count(db.outbox, id, ProcessedTag) == (if w.status.Processed? then 1 else 0)
    && Count(db.outbox, id, RejectedTag) == (if w.status.Rejected? then 1 else 0)
    && Count(db.outbox, id, ChangeTag) == (if Financial(w) then 1 else 0)
    && forall k :: 0 <= k < |db.outbox| && EventStream.Concludes(db.outbox[k], id) ==>
         && db.outbox[k].content.wager == w
         && forall j :: 0 <= j < |db.outbox| && Concerns(db.outbox[j].content, id, PendingTag) ==> j < k
  }

  /**
   * After any run, an operation has a waiting event exactly if it waited, once and before its
   * outcome, the one outcome event of its final status with the stored row as snapshot, and a
   * balance change exactly if it moved money.
   */
  lemma EventsFollowPaths(steps: seq<Step>, id: Uuid)
    requires Runnable(EMPTY_DB, steps) && id in Run(EMPTY_DB, steps).wagers
    ensures EventsAlongPath(Run(EMPTY_DB, steps), id)
  {
    hide Inv, OnPath, Runnable, Run, EventsAlongPath;
    EmptyIsConsistent();
    EmptyIsOnPath();
    RunStaysOnPath(EMPTY_DB, steps);
    PathOfEvents(Run(EMPTY_DB, steps), id);
  }

  lemma EmptyIsOnPath()
    ensures OnPath(EMPTY_DB)
  {
  }

  lemma PathOfEvents(db: Db, id: Uuid)
    requires Inv(db) && OnPath(db) && id in db.wagers
    ensures EventsAlongPath(db, id)
  {
    hide WalletsOk, IndexOk, LinksOk, ReversalsOk, LedgerOk, AllBooked, BalancesOk, StreamOk, EventsOk, InboxOk, IdsOk, RowOk;
    EventStream.EventsFollowStatus(db, id);
  }
}
