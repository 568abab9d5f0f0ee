/** Why an operation gets no answer: the error of every failure, by the request and the stored rows alone. */
module Failures {
  import opened Core
  import opened Finance
  import opened Domain
  import opened Engine
  import opened Invariant
  import opened Decisions
  import opened UseCases
  import opened Runs
  import opened Idempotency
  import opened Statuses
  import Admission
  import Answers

  // ---- Causes -----------------------------------------------------------------------------------

  /** A stored operation shares an identity with the request and is not the operation asked for. */
  ghost predicate Conflicts(db: Db, q: Request) {
    exists id :: id in db.wagers && SharesIdentity(db.wagers[id], q.provider, q.key, q.externalId)
                 && !Admission.Asks(q, db.wagers[id])
  }

  /** The operation asked for is stored already. */
  ghost predicate Repeats(db: Db, q: Request) {
    exists id :: id in db.wagers && db.wagers[id].kind != Opening && Admission.Asks(q, db.wagers[id])
  }

  /** The wallet is there, but is not one of this player in this currency. */
  predicate OwnedByAnother(db: Db, q: Request) {
    q.wallet in db.wallets
    && (db.wallets[q.wallet].player != q.player || db.wallets[q.wallet].balance.currency != q.money.currency)
  }

  /** A processed operation that the request may refer to. */
  predicate Fits(q: Request, r: Wager) {
    && r.status == Processed && r.provider == q.provider && Some(r.externalId) == q.reference
    && r.wallet == q.wallet && r.player == q.player && r.money.currency == q.money.currency && r.round == q.round
    && (if q.kind == Rollback then r.kind == Bet || r.kind == Win || r.kind == Refund else r.kind == Bet)
    && (q.kind != Win ==> r.money.amount == q.money.amount)
  }

  /** Nothing about the reference stands in the way of the movement. */
  ghost predicate MayMove(db: Db, q: Request) {
    q.kind == Refund || q.kind == Rollback || (q.kind == Win && q.reference.Some?) ==>
      exists id :: id in db.wagers && Fits(q, db.wagers[id])
                   && (q.kind == Win || forall k :: k in db.wagers ==> !TakesBack(db.wagers[k], id))
  }

  /** The wallet has no version left for the movement of the request. */
  ghost predicate Exhausted(db: Db, q: Request) {
    q.wallet in db.wallets && db.wallets[q.wallet].version == MAX_INT64 && q.kind != Loss && MayMove(db, q)
  }

  /** The failure of an arrival, if it has one, in the order in which the causes are looked for. */
  ghost function Failure(db: Db, authorized: string, q: Request, message: Option<Body>, created: Instant): Option<Error> {
    if message.Some? && Blank(message.value.messageId) then Some(ErrInvalidMessage)
    else if !Admission.Admissible(authorized, q, created) then Some(Admission.Fault(authorized, q))
    else if message.Some? && message.value.messageId in db.inbox && db.inbox[message.value.messageId].body != message.value then
      Some(ErrInboxConflict)
    else if Conflicts(db, q) then Some(ErrIdempotencyConflict)
    else if Repeats(db, q) then None
    else if q.wallet !in db.wallets then Some(ErrWalletNotFound)
    else if OwnedByAnother(db, q) then Some(ErrWalletIdentityMismatch)
    else if Exhausted(db, q) then Some(ErrInvalidWallet)
    else None
  }

  // ---- Repeats and conflicts ---------------------------------------------------------------------

  lemma AskedIsShared(q: Request, e: Wager)
    requires Admission.Asks(q, e) && !e.kind.Opening?
    ensures SharesIdentity(e, q.provider, q.key, q.externalId)
  {
  }

  /** The same content and key are the same fields. */
  lemma ContentIsAsked(db: Db, id: Uuid, w: Wager, q: Request)
    requires Inv(db) && Admitted(w, q) && id in db.wagers && !db.wagers[id].kind.Opening?
    ensures db.wagers[id].key == w.key && db.wagers[id].digest == w.digest <==> Admission.Asks(q, db.wagers[id])
  {
    hide Inv, PayloadOf, PayloadOfWager, Validate;
    var e := db.wagers[id];
    Answers.RowIsKeyed(db, id);
    if e.key == w.key && e.digest == w.digest {
      Answers.SamePayloadAsks(q, e);
    }
    if Admission.Asks(q, e) {
      SameFieldsSamePayload(q, e);
    }
  }

  lemma SameFieldsSamePayload(q: Request, e: Wager)
    requires Admission.Asks(q, e)
    ensures PayloadOf(q) == PayloadOfWager(e)
  {
    hide MoneyText;
  }

  /** Stored operations stand against a submission, or answer it, exactly by the scan of the rows. */
  lemma RepeatsByScan(db: Db, w: Wager, q: Request, stamp: Stamp, trace: Trace)
    requires Inv(db) && Admitted(w, q)
    ensures FindExisting(db, w).Some? <==> Conflicts(db, q) || Repeats(db, q)
    ensures Conflicts(db, q) ==> Submit(db, w, stamp, trace) == Reply(Err(ErrIdempotencyConflict), db)
    ensures Repeats(db, q) ==> !Conflicts(db, q) && Submit(db, w, stamp, trace).outcome.Ok?
  {
    hide Inv, Submit, FindExisting, PayloadOf, PayloadOfWager, Validate;
    LookupIsScan(db, w);
    if FindExisting(db, w).Some? {
      var e := FindExisting(db, w).value;
      RepeatsChangeNothing(db, e.id, w, stamp, trace);
      ContentIsAsked(db, e.id, w, q);
    }
    if Conflicts(db, q) {
      var id :| id in db.wagers && SharesIdentity(db.wagers[id], q.provider, q.key, q.externalId)
                && !Admission.Asks(q, db.wagers[id]);
      RepeatsChangeNothing(db, id, w, stamp, trace);
      ContentIsAsked(db, id, w, q);
    }
    if Repeats(db, q) {
      var id :| id in db.wagers && db.wagers[id].kind != Opening && Admission.Asks(q, db.wagers[id]);
      AskedIsShared(q, db.wagers[id]);
      RepeatsChangeNothing(db, id, w, stamp, trace);
      ContentIsAsked(db, id, w, q);
    }
  }

  // ---- The movement -------------------------------------------------------------------------------

  lemma FittingIsFound(db: Db, w: Wager, q: Request, id: Uuid)
    requires Inv(db) && Admitted(w, q) && FindExisting(db, w).None? && id in db.wagers && Fits(q, db.wagers[id])
    requires w.id !in db.wagers
    ensures w.reference != Some(w.externalId) && FindReference(db, w) == Some(db.wagers[id]) && db.wagers[id].id == id
    ensures NeedsReference(w) ==> Cleared(w, Some(db.wagers[id]), false)
  {
    hide WalletsOk, IndexOk, LinksOk, ReversalsOk, LedgerOk, AllBooked, BalancesOk, StreamOk, EventsOk, InboxOk, IdsOk,
         FindExisting, FindReference, PayloadOf, PayloadOfWager, Validate;
    var r := db.wagers[id];
    assert RowOk(db.wallets, r) && r.id == id;
    LookupIsScan(db, w);
    assert w.reference == Some(w.externalId) ==> SharesIdentity(r, w.provider, w.key, w.externalId);
    NamesProvider(w);
    hide Inv;
    OneReference(db, w, Some(r));
  }

  lemma NamesProvider(w: Wager)
    requires ValidWager(w) && !w.kind.Opening?
    ensures w.provider != ""
  {
    assert !Blank(w.provider);
  }

  lemma FoundFits(db: Db, w: Wager, q: Request, reversed: bool)
    requires Inv(db) && Admitted(w, q) && FindExisting(db, w).None? && w.id !in db.wagers && NeedsReference(w)
    requires Cleared(w, FindReference(db, w), reversed)
    ensures var r := FindReference(db, w).value; r.id in db.wagers && db.wagers[r.id] == r && Fits(q, r)
  {
    hide WalletsOk, LinksOk, ReversalsOk, LedgerOk, AllBooked, BalancesOk, StreamOk, EventsOk, InboxOk, IdsOk,
         FindExisting, PayloadOf, PayloadOfWager, Validate;
    FoundIsStored(db, w);
  }

  /** The reference of a new operation is cleared exactly if a fitting row is stored and not taken back. */
  lemma MovesByScan(db: Db, w: Wager, q: Request)
    requires Inv(db) && Admitted(w, q) && FindExisting(db, w).None? && w.id !in db.wagers
    ensures Cleared(w, FindReference(db, w), HasReversal(db, FindReference(db, w))) <==> MayMove(db, q)
  {
    hide Inv, FindExisting, FindReference, HasReversal, Matches, MayAct, PayloadOf, PayloadOfWager, Validate, Fits;
    var found := FindReference(db, w);
    ReversalsAreScanned(db, found);
    if NeedsReference(w) {
      if Cleared(w, found, HasReversal(db, found)) {
        FoundFits(db, w, q, HasReversal(db, found));
        assert db.wagers[found.value.id] == found.value;
      }
      if MayMove(db, q) {
        var id :| id in db.wagers && Fits(q, db.wagers[id])
                  && (q.kind == Win || forall k :: k in db.wagers ==> !TakesBack(db.wagers[k], id));
        FittingIsFound(db, w, q, id);
      }
    }
  }

  // ---- Every failure --------------------------------------------------------------------------------

  lemma SubmissionFails(db: Db, w: Wager, q: Request, stamp: Stamp, trace: Trace)
    requires Inv(db) && Submittable(db, w, q, stamp, trace) && FindExisting(db, w).None?
    ensures var reply := Submit(db, w, stamp, trace);
            if q.wallet !in db.wallets then reply == Reply(Err(ErrWalletNotFound), db)
            else if OwnedByAnother(db, q) then reply == Reply(Err(ErrWalletIdentityMismatch), db)
            else if Exhausted(db, q) then reply == Reply(Err(ErrInvalidWallet), db)
            else reply.outcome.Ok?
  {
    hide Inv, Unused, Timely, Submit, FindExisting, FindReference, HasReversal, Cleared, MayMove, DecideIn, Enacted, After,
         IdentityTaken, PayloadOf, PayloadOfWager, Validate, Ready;
    SubmitNames(db, w, stamp, trace);
    FreshIsNotStored(db, w, q, stamp, trace);
    MovesByScan(db, w, q);
    if GoesThrough(db, w) {
      SubmissionGoesOn(db, w, q, stamp, trace);
      SubmitUnfolds(db, w, stamp, trace);
      StopsExactly(db, w, stamp.at);
    }
  }

  lemma SubmissionGoesOn(db: Db, w: Wager, q: Request, stamp: Stamp, trace: Trace)
    requires Inv(db) && Submittable(db, w, q, stamp, trace) && GoesThrough(db, w)
    ensures Ready(db, w) && !IdentityTaken(db, w)
  {
    hide WalletsOk, RowsOk, IndexOk, LinksOk, ReversalsOk, LedgerOk, AllBooked, BalancesOk, StreamOk, EventsOk, InboxOk, IdsOk,
         Submittable, GoesThrough, Ready, IdentityTaken;
    SubmissionIsReady(db, w, q, stamp, trace);
  }

  lemma StopsExactly(db: Db, w: Wager, at: Instant)
    requires Inv(db) && Ready(db, w) && w.wallet in db.wallets
    ensures var d, found := DecideIn(db, w, at), FindReference(db, w);
            && (d.Abort? <==> db.wallets[w.wallet].version == MAX_INT64 && !w.kind.Loss?
                              && Cleared(w, found, HasReversal(db, found)))
            && (d.Abort? ==> d.error == ErrInvalidWallet)
  {
    hide Inv, Ready, FindReference, HasReversal, Cleared, Decide, Validate;
    ReadyFor(db, w);
    AbortsExactly(w, db.wallets[w.wallet], FindReference(db, w), HasReversal(db, FindReference(db, w)), at);
  }

  /** A message that is registered is answered from its stored operation, if it is that message. */
  lemma RegisteredRepeats(db: Db, body: Body, w: Wager, stamp: Stamp)
    requires Inv(db) && Admitted(w, body.request) && body.messageId in db.inbox && db.inbox[body.messageId].body == body
    ensures Repeats(db, body.request) && !Conflicts(db, body.request) && Receive(db, body, w, stamp).outcome.Ok?
  {
    hide Inv, FindExisting, Compare, Submit, PayloadOf, PayloadOfWager, Validate, Conflicts, Repeats, SharesIdentity, Admitted;
    RegisteredIsFound(db, body, w);
    ReplayIsSubmission(db, w, stamp, body.request.trace);
    RepeatsByScan(db, w, body.request, stamp, body.request.trace);
  }

  lemma RegisteredIsFound(db: Db, body: Body, w: Wager)
    requires Inv(db) && Admitted(w, body.request) && body.messageId in db.inbox && db.inbox[body.messageId].body == body
    ensures db.inbox[body.messageId].completed && FindExisting(db, w).Some? && Compare(FindExisting(db, w).value, w).Ok?
  {
    hide WalletsOk, RowsOk, IndexOk, LinksOk, ReversalsOk, LedgerOk, AllBooked, BalancesOk, StreamOk, EventsOk, IdsOk,
         Admitted, FindExisting, Compare;
    TreatedIsFound(db, body, w);
  }

  lemma ReceptionFails(db: Db, body: Body, w: Wager, stamp: Stamp)
    requires Inv(db) && Submittable(db, w, body.request, stamp, body.request.trace)
    ensures var reply, inner := Receive(db, body, w, stamp), Submit(db, w, stamp, body.request.trace);
            if body.messageId in db.inbox && db.inbox[body.messageId].body != body then
              reply == Reply(Err(ErrInboxConflict), db)
            else
              && (reply.outcome.Err? <==> inner.outcome.Err?)
              && (reply.outcome.Err? ==> reply == Reply(inner.outcome, db))
  {
    hide Inv, Submit, FindExisting, Compare, Conflicts, Repeats, Unused, Admitted, Timely;
    if body.messageId in db.inbox {
      if db.inbox[body.messageId].body == body {
        RegisteredRepeats(db, body, w, stamp);
        RepeatsByScan(db, w, body.request, stamp, body.request.trace);
      }
    } else {
      ReceiveUnfolds(db, body, w, stamp);
    }
  }

  /** A submission, once admitted, fails exactly for its stated cause, and leaves everything as it was. */
  lemma AdmittedFails(db: Db, w: Wager, q: Request, stamp: Stamp)
    requires Inv(db) && Submittable(db, w, q, stamp, q.trace)
    ensures var reply := Submit(db, w, stamp, q.trace);
            if Conflicts(db, q) then reply == Reply(Err(ErrIdempotencyConflict), db)
            else if Repeats(db, q) then reply.outcome.Ok?
            else if q.wallet !in db.wallets then reply == Reply(Err(ErrWalletNotFound), db)
            else if OwnedByAnother(db, q) then reply == Reply(Err(ErrWalletIdentityMismatch), db)
            else if Exhausted(db, q) then reply == Reply(Err(ErrInvalidWallet), db)
            else reply.outcome.Ok?
  {
    hide Inv, Submit, FindExisting, Conflicts, Repeats, Exhausted, OwnedByAnother, Unused, Admitted, Timely;
    RepeatsByScan(db, w, q, stamp, q.trace);
    if FindExisting(db, w).None? {
      SubmissionFails(db, w, q, stamp, q.trace);
    }
  }

  /** An arrival fails exactly if it has a cause to, with the error of the cause, and then writes nothing. */
  lemma FailsExactly(db: Db, authorized: string, q: Request, message: Option<Body>, created: Instant, stamp: Stamp)
    requires Inv(db) && Admissible(db, ArrivalStep(authorized, q, message, created, stamp))
    requires message.Some? ==> message.value.request == q
    ensures var reply, failure := Arrive(db, authorized, q, message, created, stamp), Failure(db, authorized, q, message, created);
            match failure
            case Some(e) => reply == Reply(Err(e), db)
            case None => reply.outcome.Ok?
  {
    hide Inv, Unused, OnTime, Admit, Submit, Receive, Submittable, Conflicts, Repeats, Exhausted, OwnedByAnother, FindExisting,
         Admission.Admissible, Admission.Fault;
    Admission.AdmittedExactly(authorized, q, Fresh(stamp, ROW_SLOT), created);
    if Admission.Admissible(authorized, q, created) {
      var w := AdmittedWager(authorized, q, created, stamp).value;
      AdmittedIsSubmittable(db, authorized, q, created, stamp);
      AdmittedFails(db, w, q, stamp);
      if message.Some? {
        ReceptionFails(db, message.value, w, stamp);
        if message.value.messageId in db.inbox && db.inbox[message.value.messageId].body == message.value {
          AdmissionFacts(authorized, q, Fresh(stamp, ROW_SLOT), created);
          RegisteredRepeats(db, message.value, w, stamp);
        }
      }
    } else {
      Admission.RefusedExactly(authorized, q, Fresh(stamp, ROW_SLOT), created);
    }
  }
}
