/** The use cases as the program runs them, each in one transaction that is committed or dropped as a whole. */
module Services {
  import opened Core
  import opened Finance
  import opened Domain
  import opened Delays
  import opened Engine
  import opened Invariant
  import opened Decisions
  import opened UseCases
  import opened Schema
  import opened Entities
  import opened Storage
  import opened Writes
  import opened Processing
  import Idempotency
  import Opening
  import Preservation
  import Runs

  class Database {
    var committed: Db

    constructor ()
      ensures committed == EMPTY_DB
    {
      committed := EMPTY_DB;
    }

    /** Replaces the committed data by the view of a transaction, if the deferred checks pass. */
    method Commit(r: Session) returns (err: Option<Error>)
      modifies this
      ensures err == if CommitChecks(r.view) then None else Some(ErrConstraint)
      ensures committed == if CommitChecks(r.view) then r.view else old(committed)
      ensures CommitChecks(old(committed)) ==> CommitChecks(committed)
    {
      if !CommitChecks(r.view) {
        return Some(ErrConstraint);
      }
      committed := r.view;
      return None;
    }
  }

  /** The stored operation that a wager repeats, if any, compared with it. */
  function ReplayOf(db: Db, w: Wager): Result<Option<Answer>> {
    match FindExisting(db, w)
    case None => Ok(None)
    case Some(e) => (match Compare(e, w) case Ok(answer) => Ok(Some(answer)) case Err(error) => Err(error))
  }

  method FindWagerReplay(r: Session, t: WagerTransaction) returns (replay: Result<Option<Answer>>)
    requires RowsValid(r.view)
    ensures replay == ReplayOf(r.view, t.Value())
  {
    hide Validate;
    var existing := r.FindByIdempotencyKey(t.provider, t.key);
    if existing == Err(ErrWagerNotFound) {
      existing := r.FindByExternalId(t.provider, t.externalId);
    }
    match existing {
      case Err(_) => return Ok(None);
      case Ok(e) =>
        if e.digest != t.digest || e.key != t.key {
          return Err(ErrIdempotencyConflict);
        }
        return Ok(Some(AnswerOf(e, true)));
    }
  }

  /** A new row passes every check of its table; only an identity in use refuses it. */
  lemma InsertionPasses(db: Db, w: Wager, q: Request)
    requires Admitted(w, q) && WalletKnown(db.wallets, w)
    ensures InsertWagerError(db, w) == if IdentityTaken(db, w) then Some(ErrWagerConflict) else None
  {
    AdmittedShape(w, q);
    ValidRowPasses(w);
    hide Admitted, RowChecks, Validate, IdentityTaken;
  }

  lemma AdmittedShape(w: Wager, q: Request)
    requires Admitted(w, q)
    ensures ValidWager(w) && !w.kind.Opening? && w.referenceId.None? && w.status.Pending? && w.failure.None?
    ensures Sizes(w) && !Reverses(w)
  {
    NothingFailedYet(w);
    hide Validate, PayloadOf, PayloadOfWager;
  }

  lemma SubmissionStarts(clean: Db, inbox: map<string, Receipt>, w: Wager, q: Request, stamp: Stamp, trace: Trace)
    requires Inv(clean) && Submittable(clean, w, q, stamp, trace) && GoesThrough(clean, w)
    ensures Starting(clean, Enrolled(clean.(inbox := inbox), w, stamp.at), w, stamp, trace) && !IdentityTaken(clean, w)
  {
    hide WalletsOk, RowsOk, LinksOk, ReversalsOk, LedgerOk, AllBooked, BalancesOk, StreamOk, EventsOk, InboxOk, IdsOk,
         IndexOk, Admitted, Ready, Unused, Timely, GoesThrough, IdentityTaken;
    SubmissionIsReady(clean, w, q, stamp, trace);
  }

  lemma SameLookups(db: Db, inbox: map<string, Receipt>, w: Wager)
    ensures FindExisting(db.(inbox := inbox), w) == FindExisting(db, w)
    ensures IdentityTaken(db.(inbox := inbox), w) == IdentityTaken(db, w)
  {
  }

  /** Stores the new row and carries out its step; a row in the way was stored by a concurrent submission. */
  method CreateAndProcess(r: Session, wallet: Wallet, t: WagerTransaction, q: Request, stamp: Stamp, ghost clean: Db)
    returns (outcome: Result<Answer>)
    requires Inv(clean) && Submittable(clean, t.Value(), q, stamp, q.trace) && RowsValid(r.view)
    requires r.view == clean.(inbox := r.view.inbox) && GoesThrough(clean, t.Value())
    requires wallet.Value() == clean.wallets[t.wallet]
    modifies r, wallet, t
    ensures var reply := Submit(clean, old(t.Value()), stamp, q.trace);
            outcome == reply.outcome && (outcome.Ok? ==> r.view == reply.db.(inbox := old(r.view).inbox))
  {
    hide Inv, Submittable, Submit, FindExisting, Compare, Enacted, DecideIn, After, RowsValid, IdentityTaken,
         InsertWagerError, Starting, Admitted, ValidWallet, Recorded;
    ghost var w, inbox := t.Value(), r.view.inbox;
    SubmittableNames(clean, w, q, stamp, q.trace);
    SubmitNames(clean, w, stamp, q.trace);
    SameLookups(clean, inbox, w);
    InsertionPasses(r.view, w, q);
    var err := r.CreateWager(t, stamp.at);
    match err {
      case Some(e) =>
        if e != ErrWagerConflict {
          return Err(e);
        }
        var replay := FindWagerReplay(r, t);
        match replay {
          case Err(conflict) => return Err(conflict);
          case Ok(Some(answer)) => return Ok(answer);
          case Ok(None) => return Err(ErrIdempotencyConflict);
        }
      case None =>
    }
    ghost var base := Enrolled(clean.(inbox := inbox), w, stamp.at);
    SubmissionStarts(clean, inbox, w, q, stamp, q.trace);
    SubmitUnfolds(clean, w, stamp, q.trace);
    EnactedIgnoresInbox(Enrolled(clean, w, stamp.at), inbox, w, clean.wallets[w.wallet], DecideIn(clean, w, stamp.at),
                        stamp, q.trace);
    err := ProcessWager(r, wallet, t, q.trace, stamp, clean, base);
    match err {
      case Some(e) => return Err(e);
      case None => return Ok(AnswerOf(t.Value(), false));
    }
  }

  /** One submission inside a transaction. */
  method Process(r: Session, t: WagerTransaction, q: Request, stamp: Stamp, ghost clean: Db)
    returns (outcome: Result<Answer>)
    requires Inv(clean) && Submittable(clean, t.Value(), q, stamp, q.trace)
    requires r.view == clean.(inbox := r.view.inbox)
    modifies r, t
    ensures var reply := Submit(clean, old(t.Value()), stamp, q.trace);
            outcome == reply.outcome && (outcome.Ok? ==> r.view == reply.db.(inbox := old(r.view).inbox))
  {
    hide Inv, Submittable, Submit, FindExisting, Compare, Enacted, DecideIn, After, RowsValid, IdentityTaken, ValidWallet;
    ghost var w, inbox := t.Value(), r.view.inbox;
    InvRowsValid(clean);
    ValidWallets(clean, t.wallet);
    SubmitNames(clean, w, stamp, q.trace);
    SameLookups(clean, inbox, w);
    RowsAlone(clean, inbox);
    var replay := FindWagerReplay(r, t);
    match replay {
      case Err(e) => return Err(e);
      case Ok(Some(answer)) => return Ok(answer);
      case Ok(None) =>
    }
    var locked := r.FindWalletForUpdate(t.wallet);
    match locked {
      case Err(e) => return Err(e);
      case Ok(wallet) =>
        // Another instance may have committed while this one waited for the wallet.
        replay := FindWagerReplay(r, t);
        match replay {
          case Err(e) => return Err(e);
          case Ok(Some(answer)) => return Ok(answer);
          case Ok(None) =>
        }
        if wallet.player != t.player || wallet.balance.currency != t.money.currency {
          return Err(ErrWalletIdentityMismatch);
        }
        outcome := CreateAndProcess(r, wallet, t, q, stamp, clean);
    }
  }

  lemma RowsAlone(db: Db, inbox: map<string, Receipt>)
    requires RowsValid(db)
    ensures RowsValid(db.(inbox := inbox))
  {
  }

  lemma ValidWallets(db: Db, id: Uuid)
    requires Inv(db)
    ensures id in db.wallets ==> ValidWallet(db.wallets[id]) && db.wallets[id].id == id
  {
    hide RowsOk, IndexOk, LinksOk, ReversalsOk, LedgerOk, AllBooked, BalancesOk, StreamOk, EventsOk, InboxOk, IdsOk;
  }

  lemma SubmittableNames(db: Db, w: Wager, q: Request, stamp: Stamp, trace: Trace)
    requires Submittable(db, w, q, stamp, trace)
    ensures Admitted(w, q) && !w.kind.Opening?
  {
    hide Unused, Timely, Blank, Validate, PayloadOf, PayloadOfWager;
  }

  // ---- One operation, by request or by message --------------------------------------------------

  ghost predicate Executable(db: Db, q: Request, message: Option<Body>, created: Instant, stamp: Stamp) {
    && Inv(db) && Unused(db, stamp.ticket) && Runs.OnTime(db, q, created, stamp.at)
    && (message.Some? ==> message.value.request == q)
  }

  lemma ArrivalIsConsistent(db: Db, authorized: string, q: Request, message: Option<Body>, created: Instant, stamp: Stamp)
    requires Executable(db, q, message, created, stamp)
    ensures CommitChecks(Runs.Arrive(db, authorized, q, message, created, stamp).db)
  {
    hide Inv, Unused, Runs.OnTime, Runs.Execute, Runs.ExecuteMessage, CommitChecks;
    match message
    case None =>
      Runs.NextKeepsInv(db, Runs.SubmitStep(authorized, q, created, stamp));
      ConsistentPasses(Runs.Execute(db, authorized, q, created, stamp).db);
    case Some(body) =>
      Runs.NextKeepsInv(db, Runs.ReceiveStep(authorized, body, created, stamp));
      ConsistentPasses(Runs.ExecuteMessage(db, authorized, body, created, stamp).db);
  }

  /** The answer to an operation that was admitted. */
  lemma ArrivalNames(db: Db, authorized: string, q: Request, message: Option<Body>, created: Instant, stamp: Stamp)
    requires Executable(db, q, message, created, stamp)
    ensures var expected := Runs.Arrive(db, authorized, q, message, created, stamp);
            var admitted := Admit(authorized, q, Fresh(stamp, ROW_SLOT), created);
            if message.Some? && Blank(message.value.messageId) then expected == Reply(Err(ErrInvalidMessage), db)
            else if admitted.Err? then expected == Reply(Err(admitted.error), db)
            else
              && Submittable(db, admitted.value, q, stamp, q.trace)
              && expected == match message
                             case None => Submit(db, admitted.value, stamp, q.trace)
                             case Some(body) => Receive(db, body, admitted.value, stamp)
  {
    hide Inv, Unused, Runs.OnTime, Admit, Submit, Receive, Submittable;
    if Admit(authorized, q, Fresh(stamp, ROW_SLOT), created).Ok? {
      Runs.AdmittedIsSubmittable(db, authorized, q, created, stamp);
    }
  }

  lemma ReceiveNames(db: Db, body: Body, w: Wager, stamp: Stamp)
    ensures var reply, inner := Receive(db, body, w, stamp), Submit(db, w, stamp, body.request.trace);
            if body.messageId !in db.inbox then
              reply == if inner.outcome.Err? then Reply(inner.outcome, db)
                       else Reply(inner.outcome, Received(inner.db, body, true))
            else
              var receipt := db.inbox[body.messageId];
              reply == if receipt.body != body then Reply(Err(ErrInboxConflict), db)
                       else if !receipt.completed then Reply(Err(ErrInboxIncomplete), db)
                       else
                         match ReplayOf(db, w)
                         case Err(e) => Reply(Err(e), db)
                         case Ok(None) => Reply(Err(ErrInboxIncomplete), db)
                         case Ok(Some(answer)) => Reply(Ok(answer), db)
  {
    hide Submit, FindExisting;
    if body.messageId !in db.inbox {
      ReceiveUnfolds(db, body, w, stamp);
    }
  }

  lemma CompletedOver(db: Db, inbox: map<string, Receipt>, body: Body)
    requires inbox == db.inbox[body.messageId := Receipt(body, false)]
    ensures Received(db.(inbox := inbox), body, true) == Received(db, body, true)
  {
    assert inbox[body.messageId := Receipt(body, true)] == db.inbox[body.messageId := Receipt(body, true)];
  }

  /** Treats a message that is not a duplicate, and completes it with its operation. */
  method TreatMessage(r: Session, t: WagerTransaction, body: Body, stamp: Stamp, ghost clean: Db)
    returns (outcome: Result<Answer>)
    requires Inv(clean) && Submittable(clean, t.Value(), body.request, stamp, body.request.trace) && r.view == clean
    modifies r, t
    ensures var reply := Receive(clean, body, old(t.Value()), stamp);
            outcome == reply.outcome && (outcome.Ok? ==> r.view == reply.db)
  {
    hide Inv, Submittable, Submit, Receive, FindExisting, Compare, RowsValid;
    ghost var w := t.Value();
    InvRowsValid(clean);
    ReceiveNames(clean, body, w, stamp);
    var duplicate := r.RegisterMessage(body);
    match duplicate {
      case Err(e) => return Err(e);
      case Ok(true) =>
        var replay := FindWagerReplay(r, t);
        match replay {
          case Err(e) => return Err(e);
          case Ok(None) => return Err(ErrInboxIncomplete);
          case Ok(Some(answer)) => return Ok(answer);
        }
      case Ok(false) =>
        outcome := Process(r, t, body.request, stamp, clean);
        if outcome.Err? {
          return;
        }
        InboxIsApart(clean, clean.inbox, w, stamp, body.request.trace);
        CompletedOver(Submit(clean, w, stamp, body.request.trace).db, r.view.inbox, body);
        var err := r.CompleteMessage(body);
        match err {
          case Some(e) => return Err(e);
          case None =>
        }
    }
  }

  /** One operation: answered and committed as the engine says, with an error only where the engine has one. */
  method ExecuteWager(database: Database, authorized: string, q: Request, message: Option<Body>, created: Instant,
                      stamp: Stamp)
    returns (outcome: Result<Answer>)
    requires Executable(database.committed, q, message, created, stamp)
    modifies database
    ensures Reply(outcome, database.committed)
            == Runs.Arrive(old(database.committed), authorized, q, message, created, stamp)
  {
    hide Executable, Runs.Arrive, Submittable, Submit, Receive, Inv, Admit, Blank, CommitChecks;
    ghost var clean := database.committed;
    ArrivalNames(clean, authorized, q, message, created, stamp);
    ArrivalIsConsistent(clean, authorized, q, message, created, stamp);
    assert Inv(clean) && (message.Some? ==> message.value.request == q) by {
      ExecutableNames(clean, q, message, created, stamp);
    }
    if message.Some? && Blank(message.value.messageId) {
      return Err(ErrInvalidMessage);
    }
    var admitted := Admit(authorized, q, Fresh(stamp, ROW_SLOT), created);
    if admitted.Err? {
      return Err(admitted.error);
    }
    var t := new WagerTransaction(admitted.value);
    var r := new Session(database.committed);
    match message {
      case None => 
        outcome := Process(r, t, q, stamp, clean);
        InboxIsApart(clean, clean.inbox, admitted.value, stamp, q.trace);
      case Some(body) =>
        outcome := TreatMessage(r, t, body, stamp, clean);
    }
    if outcome.Ok? {
      var err := database.Commit(r);
      match err {
        case Some(e) => return Err(e);
        case None =>
      }
    } else {
      FailureChangesNothing(clean, admitted.value, q, message, stamp);
    }
  }

  lemma ExecutableNames(db: Db, q: Request, message: Option<Body>, created: Instant, stamp: Stamp)
    requires Executable(db, q, message, created, stamp)
    ensures Inv(db) && (message.Some? ==> message.value.request == q)
  {
  }

  lemma FailureChangesNothing(db: Db, w: Wager, q: Request, message: Option<Body>, stamp: Stamp)
    ensures Submit(db, w, stamp, q.trace).outcome.Err? ==> Submit(db, w, stamp, q.trace).db == db
    ensures message.Some? && Receive(db, message.value, w, stamp).outcome.Err? ==>
              Receive(db, message.value, w, stamp).db == db
  {
    hide FindExisting, Compare, DecideIn, Enacted, IdentityTaken, After;
  }

  // ---- One claim of a waiting operation ---------------------------------------------------------

  /** Due, and no other row was due before. */
  predicate EarliestDue(db: Db, id: Uuid, at: Instant) {
    Due(db, id, at) && forall other :: other in db.wagers && Due(db, other, at) ==>
                         db.schedules[id].dueAt <= db.schedules[other].dueAt
  }

  /** The operation waits, its attempt is due, and no waiting one was due before it. */
  predicate FirstInLine(db: Db, id: Uuid, at: Instant) {
    && id in db.wagers && db.wagers[id].status == PendingReference && id in db.schedules && db.schedules[id].dueAt <= at
    && forall other :: other in db.wagers && other in db.schedules && db.wagers[other].status == PendingReference ==>
         db.schedules[id].dueAt <= db.schedules[other].dueAt
  }

  /** Every waiting operation has its next attempt in the future. */
  predicate NobodyInLine(db: Db, at: Instant) {
    forall id :: id in db.wagers && db.wagers[id].status == PendingReference ==>
      id in db.schedules && at < db.schedules[id].dueAt
  }

  predicate Usable(policy: ReferencePolicy) {
    1 <= policy.maxAttempts <= 1000 && policy.initialDelay >= 1000 && policy.maxDelay >= policy.initialDelay
  }

  /** In consistent data every waiting row has its wallet and its schedule. */
  lemma LineIsOfDueRows(db: Db, at: Instant)
    requires Inv(db)
    ensures (forall id :: !Due(db, id, at)) ==> NobodyInLine(db, at)
    ensures forall id :: EarliestDue(db, id, at) ==> FirstInLine(db, id, at)
  {
    hide WalletsOk, IndexOk, LinksOk, ReversalsOk, LedgerOk, AllBooked, BalancesOk, StreamOk, EventsOk, InboxOk, IdsOk,
         Validate, PayloadOfWager;
    forall id | id in db.wagers && db.wagers[id].status == PendingReference
      ensures id in db.schedules && (db.schedules[id].dueAt <= at ==> Due(db, id, at))
    {
      assert RowOk(db.wallets, db.wagers[id]);
    }
  }

  method ClaimPendingReference(r: Session, at: Instant) returns (claimed: Option<Uuid>)
    ensures claimed.None? ==> forall id :: !Due(r.view, id, at)
    ensures claimed.Some? ==> EarliestDue(r.view, claimed.value, at)
  {
    if exists id :: id in r.view.wagers && Due(r.view, id, at) {
      ghost var some :| some in r.view.wagers && Due(r.view, some, at);
      ghost var due := (set id | id in r.view.wagers && Due(r.view, id, at));
      ghost var times := map id | id in r.view.schedules :: r.view.schedules[id].dueAt;
      ghost var first := SomeIsLeast(times, due, some);
      forall id | id in r.view.wagers && Due(r.view, id, at)
        ensures r.view.schedules[first].dueAt <= r.view.schedules[id].dueAt
      {
        assert id in due && times[first] <= times[id];
      }
      assert EarliestDue(r.view, first, at);
      var id :| id in r.view.wagers && EarliestDue(r.view, id, at);
      return Some(id);
    }
    return None;
  }

  /** The clock has not gone back behind any waiting operation. */
  ghost predicate RetryTimely(db: Db, at: Instant) {
    forall id :: id in db.wagers && db.wagers[id].status.PendingReference? ==> Timely(db, db.wagers[id], at)
  }

  /** A waiting row, stored again as it is. */
  lemma StoredAgain(db: Db, id: Uuid)
    requires Inv(db) && id in db.wagers && db.wagers[id].status.PendingReference?
    ensures Recorded(db, db.wagers[id]) == db && db.wagers[id].id == id
  {
    hide WalletsOk, LinksOk, ReversalsOk, LedgerOk, AllBooked, BalancesOk, StreamOk, EventsOk, InboxOk, IdsOk, Validate,
         PayloadOfWager;
    assert RowOk(db.wallets, db.wagers[id]);
  }

  /** A claimed row is ready for a step, on the data as rescheduled or not. */
  lemma ClaimStarts(db: Db, schedules: map<Uuid, Schedule>, id: Uuid, at: Instant, stamp: Stamp)
    requires Inv(db) && Due(db, id, at) && at == stamp.at && Timely(db, db.wagers[id], at) && Unused(db, stamp.ticket)
    ensures Claimable(db, id, at)
    ensures Starting(db, db.(schedules := schedules), db.wagers[id], stamp, FirstPending(db.outbox, id).value)
  {
    hide WalletsOk, IndexOk, LinksOk, ReversalsOk, LedgerOk, AllBooked, BalancesOk, StreamOk, InboxOk, IdsOk,
         Validate, PayloadOfWager, SnapshotOk, Unused, Ready, Timely, RowOk;
    PendingIsReady(db, id);
    PendingIsClaimable(db, id, at);
    PendingHasTrace(db.wagers, db.outbox, id);
  }

  /** What one claim decides, and the data that it starts from. */
  lemma RetryNames(db: Db, id: Uuid, policy: ReferencePolicy, stamp: Stamp)
    requires ValidReferencePolicy(policy) && Claimable(db, id, stamp.at) && db.wagers[id].id == id
    ensures var w, attempts := db.wagers[id], AttemptsOf(db, id);
            var row, trace := db.wallets[w.wallet], FirstPending(db.outbox, id).value;
            var d := DecideIn(db, w, stamp.at);
            var retried := RetryOne(db, id, policy, stamp);
            if attempts >= policy.maxAttempts then
              retried == Ok(Enacted(db, w, row, Refuse(ReferenceNotFound, w.referenceId), stamp, trace))
            else if d.Abort? then retried == Err(d.error)
            else
              var given := if d.Wait? && attempts + 1 >= policy.maxAttempts then Refuse(ReferenceNotFound, w.referenceId) else d;
              retried == Ok(Enacted(Rescheduled(db, id, policy, stamp.at), w, row, given, stamp, trace))
  {
    hide DecideIn, Enacted, FirstPending, Backoff;
  }

  lemma WaitLeavesView(base: Db, w: Wager, row: WalletRow, stamp: Stamp, trace: Trace)
    requires w.status.PendingReference?
    ensures Enacted(base, w, row, Wait, stamp, trace) == Recorded(base, w) && After(w, row, Wait, stamp.at) == w
  {
    assert base.outbox + [] == base.outbox;
  }

  lemma GivingUpWorks(clean: Db, base: Db, w: Wager, stamp: Stamp, trace: Trace)
    requires Starting(clean, base, w, stamp, trace)
    ensures Working(clean, base, w, Refuse(ReferenceNotFound, w.referenceId), stamp, trace)
  {
    hide Starting, Working;
    StartingWorks(clean, base, w, Refuse(ReferenceNotFound, w.referenceId), stamp, trace);
  }

  /** What a claim reports of its operation. */
  datatype RetryResult = RetryResult(
    id: Uuid, wallet: Uuid, provider: string, correlation: string, status: Status, attempts: nat)

  /** The report says what is committed, under the tracing of the wait. */
  predicate Reports(result: RetryResult, before: Db, after: Db, id: Uuid) {
    && result.id == id && id in after.wagers && result.wallet == after.wagers[id].wallet
    && result.provider == after.wagers[id].provider && result.status == after.wagers[id].status
    && id in after.schedules && result.attempts == after.schedules[id].attempts
    && FirstPending(before.outbox, id).Some? && result.correlation == FirstPending(before.outbox, id).value.correlation
  }

  /** Claims the earliest waiting operation that is due, and treats it as the engine says. */
  method RetryReferences(database: Database, policy: ReferencePolicy, stamp: Stamp)
    returns (claimed: Option<Uuid>, result: Option<RetryResult>, err: Option<Error>)
    requires Inv(database.committed) && Unused(database.committed, stamp.ticket)
    requires RetryTimely(database.committed, stamp.at)
    modifies database
    ensures !Usable(policy) ==>
              claimed.None? && err == Some(ErrInvalidReferenceRetryPolicy) && database.committed == old(database.committed)
    ensures Usable(policy) && claimed.None? ==>
              err.None? && database.committed == old(database.committed) && NobodyInLine(database.committed, stamp.at)
    ensures Usable(policy) && claimed.Some? ==>
              && FirstInLine(old(database.committed), claimed.value, stamp.at)
              && Claimable(old(database.committed), claimed.value, stamp.at)
              && match RetryOne(old(database.committed), claimed.value, policy, stamp)
                 case Ok(after) =>
                   && err.None? && database.committed == after
                   && result.Some? && Reports(result.value, old(database.committed), after, claimed.value)
                 case Err(e) => err == Some(e) && database.committed == old(database.committed)
    ensures err.Some? || claimed.None? ==> result.None?
  {
    if !ValidReferencePolicy(policy) {
      return None, None, Some(ErrInvalidReferenceRetryPolicy);
    }
    LineIsOfDueRows(database.committed, stamp.at);
    hide FirstInLine, NobodyInLine;
    var r := new Session(database.committed);
    claimed := ClaimPendingReference(r, stamp.at);
    match claimed {
      case None => return None, None, None;
      case Some(id) =>
        result, err := TreatClaim(database, r, id, policy, stamp);
    }
  }

  /** The row of a claim as the transaction sees it, rescheduled or not. */
  lemma ClaimViews(clean: Db, id: Uuid, policy: ReferencePolicy, stamp: Stamp)
    requires Inv(clean) && Unused(clean, stamp.ticket) && Due(clean, id, stamp.at)
    requires Timely(clean, clean.wagers[id], stamp.at) && ValidReferencePolicy(policy)
    ensures var w, base, trace := clean.wagers[id], Rescheduled(clean, id, policy, stamp.at), TraceOf(clean.outbox, id);
            && w.id == id && Recorded(clean, w) == clean && Recorded(base, w) == base
            && Starting(clean, clean, w, stamp, trace) && Starting(clean, base, w, stamp, trace)
            && ValidWallet(clean.wallets[w.wallet])
            && Claimable(clean, id, stamp.at) && FirstPending(clean.outbox, id) == Some(trace)
  {
    hide Inv, Unused, Starting, Recorded, ValidWallet, Timely, Backoff;
    ghost var base := Rescheduled(clean, id, policy, stamp.at);
    assert clean.(schedules := clean.schedules) == clean && clean.(schedules := base.schedules) == base;
    ClaimStarts(clean, base.schedules, id, stamp.at, stamp);
    ClaimStarts(clean, clean.schedules, id, stamp.at, stamp);
    StoredAgain(clean, id);
    StoredAgainLater(clean, base, id);
    ValidWallets(clean, clean.wagers[id].wallet);
  }

  /** One attempt at the reference: counted first, and given up after the last one. */
  method AttemptReference(r: Session, wallet: Wallet, t: WagerTransaction, attempts: nat, policy: ReferencePolicy,
                          trace: Trace, stamp: Stamp, ghost clean: Db)
    returns (err: Option<Error>)
    requires ValidReferencePolicy(policy) && attempts == AttemptsOf(clean, t.id) < policy.maxAttempts
    requires t.id in clean.wagers && clean.wagers[t.id] == t.Value() && t.status.PendingReference? && r.view == clean
    requires var base := Rescheduled(clean, t.id, policy, stamp.at);
             Starting(clean, base, t.Value(), stamp, trace) && Recorded(base, t.Value()) == base
    requires t.wallet in clean.wallets && wallet.Value() == clean.wallets[t.wallet]
    modifies r, wallet, t
    ensures var w, row, base := old(t.Value()), clean.wallets[t.wallet], Rescheduled(clean, t.id, policy, stamp.at);
            var d := DecideIn(clean, w, stamp.at);
            var given := if d.Wait? && attempts + 1 >= policy.maxAttempts then Refuse(ReferenceNotFound, w.referenceId) else d;
            if d.Abort? then err == Some(d.error)
            else err.None? && r.view == Enacted(base, w, row, given, stamp, trace) && t.Value() == After(w, row, given, stamp.at)
  {
    hide Starting, Working, Enacted, DecideIn, Recorded, Backoff;
    ghost var w, row := t.Value(), clean.wallets[t.wallet];
    ghost var base := Rescheduled(clean, t.id, policy, stamp.at);
    var delay := ReferenceDelay(policy, attempts + 1);
    BackoffIsMonotone(policy.initialDelay, policy.maxDelay, 1, attempts + 1);
    err := r.ScheduleReferenceRetry(t.id, attempts + 1, delay, stamp.at);
    if err.Some? {
      return;
    }
    assert r.view == base;
    err := ProcessWager(r, wallet, t, trace, stamp, clean, base);
    if err.Some? {
      return;
    }
    OnlyWaitsWait(w, row, DecideIn(clean, w, stamp.at), stamp.at);
    hide After;
    if t.status.PendingReference? && attempts + 1 >= policy.maxAttempts {
      WaitLeavesView(base, w, row, stamp, trace);
      GivingUpWorks(clean, base, w, stamp, trace);
      err := RejectWager(r, t, trace, ReferenceNotFound, stamp, clean, base, w);
    }
  }

  lemma OnlyWaitsWait(w: Wager, row: WalletRow, d: Decision, at: Instant)
    requires w.status.PendingReference? && !d.Abort?
    ensures After(w, row, d, at).status.PendingReference? <==> d.Wait?
  {
  }

  method TreatClaim(database: Database, r: Session, id: Uuid, policy: ReferencePolicy, stamp: Stamp)
    returns (result: Option<RetryResult>, err: Option<Error>)
    requires Inv(database.committed) && Unused(database.committed, stamp.ticket) && r.view == database.committed
    requires RetryTimely(database.committed, stamp.at) && Due(database.committed, id, stamp.at)
    requires ValidReferencePolicy(policy)
    modifies database, r
    ensures Claimable(old(database.committed), id, stamp.at)
    ensures match RetryOne(old(database.committed), id, policy, stamp)
            case Ok(after) =>
              && err.None? && database.committed == after
              && result.Some? && Reports(result.value, old(database.committed), after, id)
            case Err(e) => err == Some(e) && database.committed == old(database.committed)
    ensures err.Some? ==> result.None?
  {
    hide Inv, Starting, Working, Enacted, DecideIn, After, Recorded, CommitChecks, ValidWallet, Unused, RetryOne, Claimable,
         Timely, Rescheduled, FirstPending, TraceOf;
    ghost var clean := database.committed;
    ghost var w := clean.wagers[id];
    ClaimViews(clean, id, policy, stamp);
    RetryNames(clean, id, policy, stamp);
    RetryIsConsistent(clean, id, policy, stamp);
    var attempts := AttemptsOf(r.view, id);
    var trace := TraceOf(r.view.outbox, id);
    var t := new WagerTransaction(r.view.wagers[id]);
    var locked := r.FindWalletForUpdate(t.wallet);
    match locked {
      case Err(e) => return None, Some(e);
      case Ok(wallet) =>
        result := None;
        var attempt := attempts + 1;
        if attempts >= policy.maxAttempts {
          attempt := attempts;
          // Also honours a limit that was lowered since the last attempt.
          GivingUpWorks(clean, clean, w, stamp, trace);
          err := RejectWager(r, t, trace, ReferenceNotFound, stamp, clean, clean, w);
        } else {
          err := AttemptReference(r, wallet, t, attempts, policy, trace, stamp, clean);
        }
        if err.Some? {
          return;
        }
        err := database.Commit(r);
        if err.None? {
          ClaimReports(clean, database.committed, id, policy, stamp, t.Value());
          result := Some(RetryResult(t.id, t.wallet, t.provider, trace.correlation, t.status, attempt));
        }
    }
  }

  /** The row and the attempts that a claim commits. */
  lemma ClaimReports(db: Db, after: Db, id: Uuid, policy: ReferencePolicy, stamp: Stamp, row: Wager)
    requires ValidReferencePolicy(policy) && Claimable(db, id, stamp.at) && db.wagers[id].id == id
    requires RetryOne(db, id, policy, stamp) == Ok(after)
    requires var w := db.wagers[id];
             row == After(w, db.wallets[w.wallet], DecideRetry(db, w, policy, stamp.at), stamp.at)
    ensures row.id == id && id in after.wagers && after.wagers[id] == row
    ensures id in after.schedules && FirstPending(db.outbox, id).Some?
    ensures after.schedules[id].attempts
            == if AttemptsOf(db, id) >= policy.maxAttempts then AttemptsOf(db, id) else AttemptsOf(db, id) + 1
  {
    hide Backoff, DecideRetry, After, Enacted, FirstPending;
    var w := db.wagers[id];
    var d := DecideRetry(db, w, policy, stamp.at);
    Idempotency.EnactedStores(Rescheduled(db, id, policy, stamp.at), w, db.wallets[w.wallet], d, stamp,
                              FirstPending(db.outbox, id).value);
    Idempotency.OutcomeIdentity(w, db.wallets[w.wallet], d, stamp.at);
  }

  /** The tracing of the event that announced the wait; the storage holds one for every waiting row. */
  function TraceOf(outbox: seq<Event>, id: Uuid): Trace {
    var found := FirstPending(outbox, id);
    if found.Some? then found.value else Trace("", "")
  }

  lemma RetryIsConsistent(db: Db, id: Uuid, policy: ReferencePolicy, stamp: Stamp)
    requires Inv(db) && Unused(db, stamp.ticket) && ValidReferencePolicy(policy) && Claimable(db, id, stamp.at)
    requires Timely(db, db.wagers[id], stamp.at)
    ensures RetryOne(db, id, policy, stamp).Ok? ==> CommitChecks(RetryOne(db, id, policy, stamp).value)
  {
    hide Inv, Unused, RetryOne, CommitChecks, Timely;
    RetryKeepsInv(db, id, policy, stamp);
    if RetryOne(db, id, policy, stamp).Ok? {
      ConsistentPasses(RetryOne(db, id, policy, stamp).value);
    }
  }

  lemma StoredAgainLater(db: Db, base: Db, id: Uuid)
    requires id in db.wagers && Recorded(db, db.wagers[id]) == db && base == db.(schedules := base.schedules)
    ensures Recorded(base, db.wagers[id]) == base
  {
    var w := db.wagers[id];
    assert Recorded(base, w) == Recorded(db, w).(schedules := base.schedules);
  }

  // ---- Opening a wallet -------------------------------------------------------------------------

  ghost predicate RowsKeyed(wagers: map<Uuid, Wager>) {
    forall id :: id in wagers ==> wagers[id].id == id
  }

  /** Both constructors of an opening, and every write of it, succeed. */
  lemma OpeningPasses(clean: Db, view: Db, wallet: WalletRow, stamp: Stamp, trace: Trace)
    requires Inv(clean) && Opening.NewTo(clean, wallet, stamp) && Unused(clean, stamp.ticket) && wallet.balance.amount > 0
    requires !Blank(trace.correlation)
    requires view == clean.(wallets := clean.wallets[wallet.id := wallet],
                            byOwner := clean.byOwner[Owner(wallet) := wallet.id])
    ensures var w, e := OpeningOf(wallet, stamp.at), OpeningEntry(wallet, stamp);
            && ValidWager(w) && w.id == Named(wallet.id) && InsertWagerError(view, w).None?
            && EntryOk(view.wagers[w.id := w], e) && LinksOk(view.wagers[w.id := w])
            && RowsKeyed(view.wagers[w.id := w])
            && w.id !in Booked(view.ledger)
  {
    hide IndexOk, ReversalsOk, AllBooked, BalancesOk, StreamOk, EventsOk, InboxOk, IdsOk, RowOk, WalletsOk, LedgerOk,
         LinksOk, Validate, EntryOk, InOrder;
    var w := OpeningOf(wallet, stamp.at);
    assert stamp.at > 0;
    Opening.NothingAbout(clean, wallet.id);
    Opening.OpeningRow(wallet, stamp.at);
    Preservation.EntriesKept(clean.wagers, clean.ledger, w);
    Preservation.LinksKept(clean.wagers, w);
    Opening.OpeningEntryFits(clean, wallet, stamp);
    ValidRowPasses(w);
    hide RowChecks;
  }

  method OpenWallet(database: Database, player: Uuid, initial: Money, trace: Trace, stamp: Stamp)
    returns (answer: Result<WalletRow>)
    requires Inv(database.committed) && Unused(database.committed, stamp.ticket)
    requires stamp.at > 0 && !Blank(trace.correlation)
    modifies database
    ensures match Open(old(database.committed), player, initial, stamp, trace)
            case Ok(after) =>
              && database.committed == after && answer.Ok? && answer.value.id == Random(stamp.ticket, ROW_SLOT)
              && answer.value.id in after.wallets && after.wallets[answer.value.id] == answer.value
            case Err(e) => database.committed == old(database.committed) && answer == Err(e)
  {
    hide Inv, Unused, CommitChecks, Opened, Opening.NewTo;
    var made := NewWallet(player, initial, Fresh(stamp, ROW_SLOT), stamp.at);
    if made.Err? {
      return Err(made.error);
    }
    ghost var clean := database.committed;
    OpenIsConsistent(clean, player, initial, stamp, trace);
    var wallet := new Wallet(made.value);
    var r := new Session(database.committed);
    var err := r.CreateWallet(wallet);
    match err {
      case Some(e) => return Err(e);
      case None =>
    }
    OpenIsNew(clean, player, initial, stamp);
    err := OpenBooks(r, wallet, trace, stamp, clean);
    match err {
      case Some(e) => return Err(e);
      case None =>
    }
    err := database.Commit(r);
    match err {
      case Some(e) => return Err(e);
      case None => return Ok(made.value);
    }
  }

  lemma OpenIsNew(db: Db, player: Uuid, initial: Money, stamp: Stamp)
    requires NewWallet(player, initial, Fresh(stamp, ROW_SLOT), stamp.at).Ok? && stamp.at > 0
    ensures var wallet := NewWallet(player, initial, Fresh(stamp, ROW_SLOT), stamp.at).value;
            wallet.id !in db.wallets && Owner(wallet) !in db.byOwner ==> Opening.NewTo(db, wallet, stamp)
  {
  }

  lemma OpenIsConsistent(db: Db, player: Uuid, initial: Money, stamp: Stamp, trace: Trace)
    requires Inv(db) && Unused(db, stamp.ticket) && stamp.at > 0
    ensures Open(db, player, initial, stamp, trace).Ok? ==> CommitChecks(Open(db, player, initial, stamp, trace).value)
    ensures Open(db, player, initial, stamp, trace).Ok? ==>
              var wallet := NewWallet(player, initial, Fresh(stamp, ROW_SLOT), stamp.at).value;
              var after := Open(db, player, initial, stamp, trace).value;
              wallet.id in after.wallets && after.wallets[wallet.id] == wallet
  {
    hide Inv, Unused, CommitChecks;
    Opening.OpenKeepsInv(db, player, initial, stamp, trace);
    if Open(db, player, initial, stamp, trace).Ok? {
      ConsistentPasses(Open(db, player, initial, stamp, trace).value);
    }
  }

  /** A wallet opened with money gets its operation, its entry and its two events; an empty one gets nothing. */
  method OpenBooks(r: Session, wallet: Wallet, trace: Trace, stamp: Stamp, ghost clean: Db)
    returns (err: Option<Error>)
    requires Inv(clean) && Opening.NewTo(clean, wallet.Value(), stamp) && Unused(clean, stamp.ticket)
    requires stamp.at > 0 && !Blank(trace.correlation)
    requires r.view == clean.(wallets := clean.wallets[wallet.id := wallet.Value()],
                              byOwner := clean.byOwner[Owner(wallet.Value()) := wallet.id])
    modifies r
    ensures err.None? && r.view == Opened(clean, wallet.Value(), stamp, trace)
  {
    hide Inv, Unused, Validate, InsertWagerError, CreateEntryError, CreateEventError, EventStored, LinksOk, EntryOk,
         RowsKeyed, Booked, Opening.NewTo, Blank, UpdateWagerError, UpdateWalletError, CreateWalletError, WalletUpdated,
         Overwritten, Recorded, Enrolled, NewTransactionProcessed, NewBalanceChanged, NewLedgerEntry, ProcessedMarked;
    if wallet.balance.amount == 0 {
      return None;
    }
    ghost var row := wallet.Value();
    ghost var w, e := OpeningOf(row, stamp.at), OpeningEntry(row, stamp);
    NewToNames(clean, row, stamp);
    NothingDrawn(clean, stamp.ticket);
    OpeningPasses(clean, r.view, row, stamp, trace);
    var t := new WagerTransaction(Wager(Named(wallet.id), "", "", "", NoDigest, wallet.id, wallet.player, "", "",
                                        Kind.Opening, wallet.balance, None, None, Pending, None, None,
                                        wallet.createdAt, wallet.createdAt));
    OpeningMarks(row, t.Value(), stamp.at);
    err := t.MarkProcessed(wallet.balance, stamp.at);
    if err.Some? {
      return;
    }
    err := r.CreateWager(t, stamp.at);
    if err.Some? {
      return;
    }
    OpeningMakes(row, stamp, trace);
    var entry := NewLedgerEntry(wallet.id, t.id, Credit, wallet.balance, Money(0, wallet.balance.currency),
                                wallet.balance, Fresh(stamp, ENTRY_SLOT), stamp.at);
    err := ErrorOf(entry);
    if err.Some? {
      return;
    }
    OpeningPosts(clean, r.view, row, w, e);
    err := r.CreateEntry(entry.value);
    if err.Some? {
      return;
    }
    var processed := NewTransactionProcessed(t.Value(), trace, Fresh(stamp, OUTCOME_SLOT));
    err := ErrorOf(processed);
    if err.Some? {
      return;
    }
    var changed := NewBalanceChanged(t.Value(), entry.value, wallet.version, trace, Fresh(stamp, CHANGE_SLOT));
    err := ErrorOf(changed);
    if err.Some? {
      return;
    }
    EventPasses(r.view, processed.value, OUTCOME_SLOT, stamp.ticket);
    err := r.CreateEvent(processed.value);
    if err.Some? {
      return;
    }
    EventPasses(r.view, changed.value, CHANGE_SLOT, stamp.ticket);
    err := r.CreateEvent(changed.value);
    assert clean.outbox + [processed.value] + [changed.value] == clean.outbox + OpeningEvents(row, stamp, trace);
  }

  lemma NewToNames(db: Db, wallet: WalletRow, stamp: Stamp)
    requires Opening.NewTo(db, wallet, stamp)
    ensures wallet.id.Random? && wallet.version == 1 && wallet.balance.amount >= 0 && ValidWallet(wallet)
    ensures wallet.createdAt == stamp.at && wallet.id !in db.wallets
  {
  }

  lemma NothingDrawn(db: Db, ticket: nat)
    requires Unused(db, ticket)
    ensures forall j, slot :: 0 <= j < |db.outbox| ==> db.outbox[j].id != Random(ticket, slot)
    ensures forall k, slot :: 0 <= k < |db.ledger| ==> db.ledger[k].id != Random(ticket, slot)
  {
  }

  lemma OpeningMarks(wallet: WalletRow, v: Wager, at: Instant)
    requires ValidWallet(wallet) && wallet.balance.amount > 0
    requires v == OpeningOf(wallet, at).(status := Pending, result := None, updatedAt := wallet.createdAt)
    ensures ProcessedMarked(v, wallet.balance, at) == Ok(OpeningOf(wallet, at))
  {
  }

  lemma OpeningMakes(wallet: WalletRow, stamp: Stamp, trace: Trace)
    requires ValidWallet(wallet) && wallet.balance.amount > 0 && stamp.at > 0 && !Blank(trace.correlation)
    requires ValidWager(OpeningOf(wallet, stamp.at)) && wallet.createdAt <= stamp.at
    ensures var w, e := OpeningOf(wallet, stamp.at), OpeningEntry(wallet, stamp);
            && NewLedgerEntry(wallet.id, w.id, Credit, wallet.balance, Money(0, wallet.balance.currency), wallet.balance,
                              Fresh(stamp, ENTRY_SLOT), stamp.at) == Ok(e)
            && NewTransactionProcessed(w, trace, Fresh(stamp, OUTCOME_SLOT)) == Ok(OpeningEvents(wallet, stamp, trace)[0])
            && NewBalanceChanged(w, e, 1, trace, Fresh(stamp, CHANGE_SLOT)) == Ok(OpeningEvents(wallet, stamp, trace)[1])
  {
    hide Validate, Blank;
  }

  lemma OpeningPosts(clean: Db, view: Db, wallet: WalletRow, w: Wager, e: Entry)
    requires EntryOk(view.wagers, e) && LinksOk(view.wagers) && view.ledger == clean.ledger
    requires w.id in view.wagers && view.wagers[w.id] == w && e.transaction == w.id && e.before.amount == 0
    requires RowsKeyed(view.wagers)
    requires e.wallet in view.wallets && w.wallet == e.wallet && w.money == e.money
    requires w.id !in Booked(clean.ledger) && forall k :: 0 <= k < |clean.ledger| ==> clean.ledger[k].id != e.id
    ensures CreateEntryError(view, e).None?
  {
    hide LinksOk, EntryOk, Booked;
    EntryPasses(view.wagers, e);
    Preservation.BookedIsListed(clean.ledger);
    hide EntryFits, EntryChecks;
  }
}
