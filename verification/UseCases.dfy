/** The invariant over the use cases: submitting, receiving, retrying and opening. */
module UseCases {
  import opened Core
  import opened Finance
  import opened Domain
  import opened Delays
  import opened Engine
  import opened Invariant
  import opened Decisions
  import opened Preservation
  import opened Steps

  // ---- Admission ------------------------------------------------------------------------

  /** A wager that the checks before storage let through for a request. */
  ghost predicate Admitted(w: Wager, q: Request) {
    && ValidWager(w) && !w.kind.Opening? && w.status.Pending? && w.referenceId.None? && w.id.Random?
    && w.createdAt == w.updatedAt
    && w.digest == Sha256(PayloadOf(q)) && PayloadOf(q) == PayloadOfWager(w)
    && w.provider == q.provider && w.key == q.key && w.externalId == q.externalId && w.wallet == q.wallet
    && w.player == q.player && w.round == q.round && w.game == q.game && w.kind == q.kind && w.money == q.money
    && w.reference == q.reference
    && |w.provider| <= 100 && |w.externalId| <= 255 && |w.key| <= 255 && |w.round| <= 255 && |w.game| <= 255
    && (w.reference.Some? ==> |w.reference.value| <= 255)
  }

  lemma AdmissionFacts(authorized: string, q: Request, id: Uuid, now: Instant)
    requires id.Random? && Admit(authorized, q, id, now).Ok?
    ensures var w := Admit(authorized, q, id, now).value;
            Admitted(w, q) && w.id == id && w.createdAt == now && q.provider == authorized
  {
    hide MoneyText;
  }

  /** The digest leaves out the key and the tracing, and nothing else that a provider sends. */
  lemma DigestIdentifiesOperation(a: Request, b: Request)
    ensures PayloadOf(a) == PayloadOf(b) <==> a == b.(key := a.key, trace := a.trace)
  {
    if PayloadOf(a) == PayloadOf(b) {
      MoneyTextIsInjective(a.money, b.money);
    }
    hide MoneyText;
  }

  // ---- Rows ----------------------------------------------------------------------------

  ghost predicate RowsValid(db: Db) {
    forall id :: id in db.wagers ==> ValidWager(db.wagers[id])
  }

  lemma InvRowsValid(db: Db)
    requires Inv(db)
    ensures RowsValid(db)
  {
    hide WalletsOk, IndexOk, LinksOk, ReversalsOk, LedgerOk, AllBooked, BalancesOk, StreamOk, EventsOk, InboxOk, IdsOk,
         Validate;
  }

  lemma RowIsNamed(db: Db, id: Uuid)
    requires Inv(db) && id in db.wagers
    ensures db.wagers[id].id == id
  {
    hide WalletsOk, IndexOk, LinksOk, ReversalsOk, LedgerOk, AllBooked, BalancesOk, StreamOk, EventsOk, InboxOk, IdsOk,
         RowOk;
  }

  // ---- Submitting -----------------------------------------------------------------------

  /** The circumstances of a submission: a fresh ticket, a clock that has not gone back, a tracing. */
  ghost predicate Submittable(db: Db, w: Wager, q: Request, stamp: Stamp, trace: Trace) {
    && Admitted(w, q) && w.id == Fresh(stamp, ROW_SLOT) && Timely(db, w, stamp.at)
    && Unused(db, stamp.ticket) && !Blank(trace.correlation)
  }

  /** A submission gets as far as a decision. */
  predicate GoesThrough(db: Db, w: Wager) {
    && FindExisting(db, w).None? && w.wallet in db.wallets
    && db.wallets[w.wallet].player == w.player && db.wallets[w.wallet].balance.currency == w.money.currency
  }

  lemma NothingExists(db: Db, w: Wager)
    requires IndexOk(db.wagers, db.byKey, db.byExternal) && FindExisting(db, w).None? && w.id !in db.wagers
    ensures !IdentityTaken(db, w)
  {
  }

  lemma FreshIsNotStored(db: Db, w: Wager, q: Request, stamp: Stamp, trace: Trace)
    requires Submittable(db, w, q, stamp, trace)
    ensures w.id !in db.wagers
  {
    hide Admitted;
  }

  /** What goes through is ready for the step, and is not refused by the storage. */
  lemma SubmissionIsReady(db: Db, w: Wager, q: Request, stamp: Stamp, trace: Trace)
    requires IndexOk(db.wagers, db.byKey, db.byExternal)
    requires Submittable(db, w, q, stamp, trace) && GoesThrough(db, w)
    ensures Ready(db, w) && !IdentityTaken(db, w) && w.id !in db.wagers
  {
    hide Validate, PayloadOfWager, PayloadOf;
    NothingExists(db, w);
  }

  lemma SubmitUnfolds(db: Db, w: Wager, stamp: Stamp, trace: Trace)
    requires GoesThrough(db, w) && !IdentityTaken(db, w)
    ensures var d := DecideIn(db, w, stamp.at);
            var wallet := db.wallets[w.wallet];
            Submit(db, w, stamp, trace)
            == if d.Abort? then Reply(Err(d.error), db)
               else Reply(Ok(AnswerOf(After(w, wallet, d, stamp.at), false)),
                          Enacted(Enrolled(db, w, stamp.at), w, wallet, d, stamp, trace))
  {
    hide DecideIn, Enacted, After;
  }

  lemma StoppedChangesNothing(db: Db, w: Wager, stamp: Stamp, trace: Trace)
    requires !GoesThrough(db, w)
    ensures Submit(db, w, stamp, trace).db == db
  {
    hide DecideIn, Enacted, After;
  }

  /** What a submission answers, stop by stop. */
  lemma SubmitNames(db: Db, w: Wager, stamp: Stamp, trace: Trace)
    ensures var reply := Submit(db, w, stamp, trace);
            && (FindExisting(db, w).Some? ==> reply == Reply(Compare(FindExisting(db, w).value, w), db))
            && (FindExisting(db, w).None? && w.wallet !in db.wallets ==> reply == Reply(Err(ErrWalletNotFound), db))
            && (FindExisting(db, w).None? && w.wallet in db.wallets && !GoesThrough(db, w) ==>
                  reply == Reply(Err(ErrWalletIdentityMismatch), db))
            && (GoesThrough(db, w) && IdentityTaken(db, w) ==> reply == Reply(Err(ErrIdempotencyConflict), db))
  {
    hide FindExisting, Compare, IdentityTaken, DecideIn, Enacted, After;
  }

  lemma SubmitKeepsInv(db: Db, w: Wager, q: Request, stamp: Stamp, trace: Trace)
    requires Inv(db) && Submittable(db, w, q, stamp, trace)
    ensures Inv(Submit(db, w, stamp, trace).db)
  {
    hide WalletsOk, RowsOk, IndexOk, LinksOk, ReversalsOk, LedgerOk, AllBooked, BalancesOk, StreamOk, EventsOk,
         InboxOk, IdsOk, Unused, Admitted, Submit, DecideIn, Enacted, Ready, After, IdentityTaken;
    if GoesThrough(db, w) {
      SubmissionIsReady(db, w, q, stamp, trace);
      SubmitUnfolds(db, w, stamp, trace);
      var d := DecideIn(db, w, stamp.at);
      if !d.Abort? {
        EnactedKeepsInv(db, Enrolled(db, w, stamp.at).schedules, w, d, stamp, trace);
      }
    } else {
      StoppedChangesNothing(db, w, stamp, trace);
    }
  }

  // ---- Receiving ------------------------------------------------------------------------

  lemma DecisionIgnoresInbox(db: Db, inbox: map<string, Receipt>, w: Wager, at: Instant)
    requires w.wallet in db.wallets
    ensures DecideIn(db.(inbox := inbox), w, at) == DecideIn(db, w, at)
  {
    hide Decide;
    assert FindReference(db.(inbox := inbox), w) == FindReference(db, w);
  }

  lemma EnactedIgnoresInbox(db: Db, inbox: map<string, Receipt>, w: Wager, wallet: WalletRow, d: Decision,
                            stamp: Stamp, trace: Trace)
    ensures Enacted(db.(inbox := inbox), w, wallet, d, stamp, trace)
            == Enacted(db, w, wallet, d, stamp, trace).(inbox := inbox)
    ensures Enacted(db, w, wallet, d, stamp, trace).inbox == db.inbox
  {
    hide After, EventsOf, EntryOf, Recorded, Published, Posted;
    var f := After(w, wallet, d, stamp.at);
    var events := EventsOf(w, f, wallet, d, stamp, trace);
    RecordedIgnoresInbox(db, inbox, f);
    PublishedIgnoresInbox(Recorded(db, f), inbox, events);
    if d.Settle? && d.movement.Some? {
      PostedIgnoresInbox(Published(Recorded(db, f), events), inbox, d.movement.value.moved,
                         EntryOf(f, wallet, d.movement.value, stamp));
    }
  }

  lemma PublishedIgnoresInbox(db: Db, inbox: map<string, Receipt>, events: seq<Event>)
    ensures Published(db.(inbox := inbox), events) == Published(db, events).(inbox := inbox)
    ensures Published(db, events).inbox == db.inbox
  {
  }

  lemma PostedIgnoresInbox(db: Db, inbox: map<string, Receipt>, moved: WalletRow, e: Entry)
    ensures Posted(db.(inbox := inbox), moved, e) == Posted(db, moved, e).(inbox := inbox)
    ensures Posted(db, moved, e).inbox == db.inbox
  {
  }

  lemma RecordedIgnoresInbox(db: Db, inbox: map<string, Receipt>, f: Wager)
    ensures Recorded(db.(inbox := inbox), f) == Recorded(db, f).(inbox := inbox) && Recorded(db, f).inbox == db.inbox
  {
  }

  /** No part of a submission looks at the inbox. */
  lemma InboxIsApart(db: Db, inbox: map<string, Receipt>, w: Wager, stamp: Stamp, trace: Trace)
    ensures Submit(db.(inbox := inbox), w, stamp, trace).outcome == Submit(db, w, stamp, trace).outcome
    ensures Submit(db.(inbox := inbox), w, stamp, trace).db == Submit(db, w, stamp, trace).db.(inbox := inbox)
    ensures Submit(db, w, stamp, trace).db.inbox == db.inbox
  {
    hide After, DecideIn, Enacted;
    assert FindExisting(db.(inbox := inbox), w) == FindExisting(db, w);
    if w.wallet in db.wallets {
      DecisionIgnoresInbox(db, inbox, w, stamp.at);
      EnactedIgnoresInbox(Enrolled(db, w, stamp.at), inbox, w, db.wallets[w.wallet], DecideIn(db, w, stamp.at), stamp,
                          trace);
    }
    hide FindExisting;
  }

  lemma ReplayIsAnswered(db: Db, w: Wager, q: Request)
    requires IndexOk(db.wagers, db.byKey, db.byExternal) && w.digest == Sha256(PayloadOf(q))
    requires w.provider == q.provider && w.key == q.key
    requires FindExisting(db, w).Some? && Compare(FindExisting(db, w).value, w).Ok?
    ensures Answered(db.wagers, db.byKey, q)
  {
    hide PayloadOf;
  }

  lemma StoredIsAnswered(db: Db, w: Wager, q: Request, wallet: WalletRow, d: Decision, stamp: Stamp, trace: Trace)
    requires w.digest == Sha256(PayloadOf(q)) && w.provider == q.provider && w.key == q.key
    ensures var after := Enacted(db, w, wallet, d, stamp, trace); Answered(after.wagers, after.byKey, q)
  {
    hide PayloadOf, EventsOf, EntryOf;
  }

  /** After an answer, the operation is stored under the key of its request. */
  lemma AnsweredAfterSubmit(db: Db, w: Wager, q: Request, stamp: Stamp, trace: Trace)
    requires IndexOk(db.wagers, db.byKey, db.byExternal) && Admitted(w, q) && w.id !in db.wagers
    requires Submit(db, w, stamp, trace).outcome.Ok?
    ensures var after := Submit(db, w, stamp, trace).db; Answered(after.wagers, after.byKey, q)
  {
    hide PayloadOf, PayloadOfWager, Validate, DecideIn, Enacted, Answered, IndexOk, After;
    if FindExisting(db, w).Some? {
      ReplayIsAnswered(db, w, q);
    } else {
      StoredIsAnswered(Enrolled(db, w, stamp.at), w, q, db.wallets[w.wallet], DecideIn(db, w, stamp.at), stamp, trace);
    }
  }

  lemma CompletedKeepsInv(db: Db, body: Body)
    requires Inv(db) && Answered(db.wagers, db.byKey, body.request)
    ensures Inv(Received(db, body, true))
  {
    hide WalletsOk, RowsOk, IndexOk, LinksOk, ReversalsOk, LedgerOk, AllBooked, BalancesOk, StreamOk, EventsOk,
         IdsOk, Answered;
  }

  lemma ReceiveUnfolds(db: Db, body: Body, w: Wager, stamp: Stamp)
    requires body.messageId !in db.inbox
    ensures var reply := Submit(db, w, stamp, body.request.trace);
            Receive(db, body, w, stamp)
            == if reply.outcome.Err? then Reply(reply.outcome, db) else Reply(reply.outcome, Received(reply.db, body, true))
  {
    hide Submit;
    InboxIsApart(db, Received(db, body, false).inbox, w, stamp, body.request.trace);
    var inbox := db.inbox[body.messageId := Receipt(body, false)];
    assert inbox[body.messageId := Receipt(body, true)] == db.inbox[body.messageId := Receipt(body, true)];
  }

  lemma ReceiveKeepsInv(db: Db, body: Body, w: Wager, stamp: Stamp)
    requires Inv(db) && Submittable(db, w, body.request, stamp, body.request.trace)
    ensures Inv(Receive(db, body, w, stamp).db)
  {
    hide WalletsOk, LinksOk, ReversalsOk, LedgerOk, AllBooked, BalancesOk, StreamOk, EventsOk,
         InboxOk, IdsOk, Unused, Admitted, Submit, FindExisting, RowsOk, IndexOk, Answered;
    if body.messageId !in db.inbox {
      ReceiveUnfolds(db, body, w, stamp);
      SubmitKeepsInv(db, w, body.request, stamp, body.request.trace);
      if Submit(db, w, stamp, body.request.trace).outcome.Ok? {
        FreshIsNotStored(db, w, body.request, stamp, body.request.trace);
        AnsweredAfterSubmit(db, w, body.request, stamp, body.request.trace);
        CompletedKeepsInv(Submit(db, w, stamp, body.request.trace).db, body);
      }
    }
  }

  // ---- Retrying -------------------------------------------------------------------------

  lemma PendingIsReady(db: Db, id: Uuid)
    requires RowsOk(db.wallets, db.wagers) && id in db.wagers && db.wagers[id].status.PendingReference?
    ensures Ready(db, db.wagers[id])
  {
    hide PayloadOfWager;
  }

  /** A waiting operation still has the tracing of its first submission. */
  lemma {:induction false} PendingHasTrace(wagers: map<Uuid, Wager>, outbox: seq<Event>, id: Uuid)
    requires forall j :: 0 <= j < |outbox| ==> SnapshotOk(wagers, outbox[j])
    ensures FirstPending(outbox, id).Some? <==> Count(outbox, id, PendingTag) > 0
    ensures FirstPending(outbox, id).Some? ==> !Blank(FirstPending(outbox, id).value.correlation)
  {
    if outbox != [] {
      var init := outbox[..|outbox| - 1];
      assert forall j :: 0 <= j < |init| ==> init[j] == outbox[j];
      PendingHasTrace(wagers, init, id);
      assert SnapshotOk(wagers, outbox[|outbox| - 1]);
    }
  }

  /** In a consistent database every waiting operation that is due can be claimed. */
  lemma PendingIsClaimable(db: Db, id: Uuid, at: Instant)
    requires Inv(db) && id in db.wagers && db.wagers[id].status.PendingReference? && db.schedules[id].dueAt <= at
    ensures Claimable(db, id, at)
  {
    hide WalletsOk, IndexOk, LinksOk, ReversalsOk, LedgerOk, AllBooked, BalancesOk, StreamOk, InboxOk, IdsOk,
         Validate, PayloadOfWager, SnapshotOk;
    PendingHasTrace(db.wagers, db.outbox, id);
    assert EventsMatch(db.wagers[id], db.outbox);
  }

  ghost predicate Retryable(db: Db, id: Uuid, policy: ReferencePolicy, stamp: Stamp) {
    && ValidReferencePolicy(policy) && Claimable(db, id, stamp.at) && Timely(db, db.wagers[id], stamp.at)
    && Unused(db, stamp.ticket)
  }

  lemma RetryKeepsInv(db: Db, id: Uuid, policy: ReferencePolicy, stamp: Stamp)
    requires Inv(db) && Retryable(db, id, policy, stamp)
    ensures RetryOne(db, id, policy, stamp).Ok? ==> Inv(RetryOne(db, id, policy, stamp).value)
  {
    hide WalletsOk, IndexOk, LinksOk, ReversalsOk, LedgerOk, AllBooked, BalancesOk, StreamOk,
         InboxOk, IdsOk, Unused, RowOk, Validate, DecideIn, Enacted, Backoff, SnapshotOk;
    var w := db.wagers[id];
    PendingIsReady(db, id);
    PendingHasTrace(db.wagers, db.outbox, id);
    var d := DecideRetry(db, w, policy, stamp.at);
    if !d.Abort? {
      hide Ready, EventsOk;
      EnactedKeepsInv(db, Rescheduled(db, id, policy, stamp.at).schedules, w, d, stamp, FirstPending(db.outbox, id).value);
    }
  }
}
