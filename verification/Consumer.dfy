/** The message consumer: what it deletes, what it makes visible again, and which failures it gives up on. */
module Consumer {
  import opened Core
  import opened Finance
  import opened Domain
  import opened Delays
  import opened Engine
  import opened Invariant
  import opened UseCases
  import opened Runs
  import opened Idempotency
  import opened Services
  import Decisions
  import Admission
  import Failures

  /** A delivery: the body as parsed, if it can be, and what the broker says about it. */
  datatype Delivery = Delivery(body: Option<Body>, provider: string, group: Uuid, attempt: int)

  class Broker {
    var deleted: set<Body>
    var delay: Option<int>

    constructor ()
      ensures deleted == {} && delay.None?
    {
      deleted, delay := {}, None;
    }
  }

  /** Failures that another delivery cannot mend: the message becomes visible at once, towards the dead letters. */
  predicate Permanent(e: Error) {
    match e
    case ErrInvalidMessage | ErrProviderNotAuthorized | ErrIdempotencyConflict | ErrWalletIdentityMismatch
         | ErrInboxConflict | ErrInvalidMoney | ErrMoneyOverflow | ErrInvalidWagerKind | ErrInvalidWagerTransaction
         | ErrInvalidWagerMoney | ErrReferenceRequired | ErrExternalOpening | ErrInvalidWagerReference => true
    case _ => false
  }

  /** What a delivery comes to: the provider and the group have to be those of the message. */
  function Treatment(db: Db, d: Delivery, created: Instant, stamp: Stamp): Reply {
    if d.body.None? then Reply(Err(ErrInvalidMessage), db)
    else if d.provider == "" || d.provider != d.body.value.request.provider then Reply(Err(ErrProviderNotAuthorized), db)
    else if d.group != d.body.value.request.wallet then Reply(Err(ErrInvalidMessage), db)
    else ExecuteMessage(db, d.provider, d.body.value, created, stamp)
  }

  /** Nothing that is done later can make the delivery succeed: the cause is in it, or in rows that stay. */
  ghost predicate Hopeless(db: Db, d: Delivery, created: Instant) {
    match d.body
    case None => true
    case Some(body) =>
      var q := body.request;
      || d.provider == "" || d.provider != q.provider || d.group != q.wallet
      || Blank(body.messageId) || !Admission.Admissible(d.provider, q, created)
      || (body.messageId in db.inbox && db.inbox[body.messageId].body != body)
      || Failures.Conflicts(db, q) || (!Failures.Repeats(db, q) && Failures.OwnedByAnother(db, q))
  }

  /** A new operation whose wallet is not there, or has no version left for it. */
  ghost predicate Mendable(db: Db, d: Delivery, created: Instant) {
    && !Hopeless(db, d, created) && !Failures.Repeats(db, d.body.value.request)
    && (d.body.value.request.wallet !in db.wallets || Failures.Exhausted(db, d.body.value.request))
  }

  /** The seconds until another delivery that is worth it: doubled at each receipt, a minute at most. */
  function Pause(attempt: int): int {
    if attempt < 1 then 1 else Min(Pow2(attempt - 1), 60)
  }

  /** Treats one delivery. A success is deleted after its commit, unless the broker cannot be reached then. */
  method Handle(database: Database, broker: Broker, d: Delivery, created: Instant, stamp: Stamp, reachable: bool)
    returns (outcome: Result<Answer>)
    requires d.body.Some? ==> Executable(database.committed, d.body.value.request, d.body, created, stamp)
    requires Inv(database.committed)
    modifies database, broker
    ensures Reply(outcome, database.committed) == Treatment(old(database.committed), d, created, stamp)
    ensures broker.deleted
            == old(broker.deleted) + (if outcome.Ok? && reachable && d.body.Some? then {d.body.value} else {})
    ensures outcome.Err? <==> Hopeless(old(database.committed), d, created) || Mendable(old(database.committed), d, created)
    ensures outcome.Err? ==> database.committed == old(database.committed)
    ensures broker.delay == if Hopeless(old(database.committed), d, created) then Some(0)
                            else if outcome.Err? then Some(Pause(d.attempt))
                            else old(broker.delay)
    ensures outcome.Ok? ==> d.body.Some? && Treated(database.committed, d.body.value)
  {
    hide Inv, Executable, ExecuteMessage, Treated, Hopeless, Mendable, Permanent;
    DeliveryFails(database.committed, d, created, stamp);
    match d.body {
      case None => outcome := Err(ErrInvalidMessage);
      case Some(body) =>
        if d.provider == "" || d.provider != body.request.provider {
          outcome := Err(ErrProviderNotAuthorized);
        } else if d.group != body.request.wallet {
          outcome := Err(ErrInvalidMessage);
        } else {
          ExecutableIsAdmissible(database.committed, d.provider, body, created, stamp);
          MessageOutcome(database.committed, d.provider, body, created, stamp);
          outcome := ExecuteWager(database, d.provider, body.request, d.body, created, stamp);
          if outcome.Ok? && reachable {
            broker.deleted := broker.deleted + {body};
          }
        }
    }
    match outcome {
      case Err(e) =>
        var delay := MessageRetryDelay(d.attempt);
        if Permanent(e) {
          delay := 0;
        }
        broker.delay := Some(delay);
      case Ok(_) =>
    }
  }

  /** A delivery fails exactly for a stated cause, writes nothing then, and counts as permanent if it is hopeless. */
  lemma DeliveryFails(db: Db, d: Delivery, created: Instant, stamp: Stamp)
    requires Inv(db) && (d.body.Some? ==> Executable(db, d.body.value.request, d.body, created, stamp))
    ensures var reply := Treatment(db, d, created, stamp);
            && (reply.outcome.Err? <==> Hopeless(db, d, created) || Mendable(db, d, created))
            && (reply.outcome.Err? ==> reply.db == db && (Permanent(reply.outcome.error) <==> Hopeless(db, d, created)))
  {
    hide Inv, Executable, ExecuteMessage, Failures.Conflicts, Failures.Repeats, Failures.Exhausted,
         Admission.Admissible, Admission.Fault;
    if d.body.Some? {
      var body := d.body.value;
      ExecutableIsAdmissible(db, d.provider, body, created, stamp);
      Failures.FailsExactly(db, d.provider, body.request, d.body, created, stamp);
      FaultsArePermanent(d.provider, body.request);
    }
  }

  lemma FaultsArePermanent(authorized: string, q: Request)
    ensures Permanent(Admission.Fault(authorized, q))
  {
  }

  lemma ExecutableIsAdmissible(db: Db, provider: string, body: Body, created: Instant, stamp: Stamp)
    requires Executable(db, body.request, Some(body), created, stamp)
    ensures Inv(db) && Admissible(db, ReceiveStep(provider, body, created, stamp))
  {
    hide Inv, Unused, OnTime;
  }

  // ---- Giving up is right ---------------------------------------------------------------------------------

  /** The checks before storage do not depend on the identity or on the instant. */
  lemma AdmissionFailsAgain(authorized: string, q: Request, id: Uuid, now: Instant, id': Uuid, now': Instant)
    requires id.Random? && id'.Random? && now > 0 && now' > 0
    ensures Admit(authorized, q, id, now).Err? ==> Admit(authorized, q, id', now') == Admit(authorized, q, id, now)
  {
    hide MoneyText;
  }

  /** A stored operation with the content of the wager belongs to its wallet. */
  lemma SameContentBelongs(db: Db, id: Uuid, w: Wager)
    requires Inv(db) && id in db.wagers && !db.wagers[id].kind.Opening? && db.wagers[id].digest == w.digest
    requires w.digest == Sha256(PayloadOfWager(w))
    ensures w.wallet in db.wallets && BelongsTo(w, db.wallets[w.wallet])
  {
    hide WalletsOk, IndexOk, LinksOk, ReversalsOk, LedgerOk, AllBooked, BalancesOk, StreamOk, EventsOk, InboxOk, IdsOk,
         Validate, MoneyText;
    assert RowOk(db.wallets, db.wagers[id]);
  }

  /** A conflict or a mismatch of a submission is one again on any later data. */
  lemma SubmissionFailsAgain(before: Db, after: Db, w: Wager, v: Wager, q: Request, s: Stamp, t: Stamp, trace: Trace)
    requires Inv(before) && Inv(after) && Extends(before, after) && Admitted(w, q) && Admitted(v, q)
    requires w.id !in before.wagers && v.id !in after.wagers
    requires var e := Submit(before, w, s, trace).outcome;
             e == Err(ErrIdempotencyConflict) || e == Err(ErrWalletIdentityMismatch)
    ensures var e := Submit(after, v, t, trace).outcome;
            e == Err(ErrIdempotencyConflict) || e == Err(ErrWalletIdentityMismatch)
  {
    hide Inv, Extends, Submit, FindExisting, Compare, PayloadOf, PayloadOfWager, IdentityTaken, Admitted;
    AdmittedAlike(w, v, q);
    SubmitNames(before, w, s, trace);
    SubmitNames(after, v, t, trace);
    LookupIsScan(before, w);
    LookupIsScan(after, v);
    if FindExisting(before, w).Some? {
      var e := FindExisting(before, w).value;
      StoredStays(before, after, e);
      RepeatsChangeNothing(before, e.id, w, s, trace);
      RepeatsChangeNothing(after, e.id, v, t, trace);
    } else if FindExisting(after, v).Some? {
      var e := FindExisting(after, v).value;
      RepeatsChangeNothing(after, e.id, v, t, trace);
      if e.digest == v.digest {
        SameContentBelongs(after, e.id, v);
        MismatchStays(before, after, w, v, s, trace);
      }
    } else {
      MismatchStays(before, after, w, v, s, trace);
    }
  }

  lemma AdmittedAlike(w: Wager, v: Wager, q: Request)
    requires Admitted(w, q) && Admitted(v, q)
    ensures w.provider == v.provider && w.key == v.key && w.externalId == v.externalId && w.digest == v.digest
    ensures w.wallet == v.wallet && w.player == v.player && w.money == v.money
    ensures w.digest == Sha256(PayloadOfWager(w)) && v.digest == Sha256(PayloadOfWager(v))
    ensures w.status.Pending? && !w.kind.Opening?
  {
    hide PayloadOf, PayloadOfWager, Validate;
  }

  lemma StoredStays(before: Db, after: Db, e: Wager)
    requires Extends(before, after) && e.id in before.wagers && before.wagers[e.id] == e
    ensures e.id in after.wagers && SameBusiness(e, after.wagers[e.id])
  {
  }

  /** A submission that nothing stored stands against was stopped at the wallet, and will be again. */
  lemma MismatchStays(before: Db, after: Db, w: Wager, v: Wager, s: Stamp, trace: Trace)
    requires Inv(before) && Extends(before, after) && FindExisting(before, w).None? && w.id !in before.wagers
    requires w.wallet == v.wallet && w.player == v.player && w.money == v.money && w.status.Pending?
    requires var e := Submit(before, w, s, trace).outcome;
             e == Err(ErrIdempotencyConflict) || e == Err(ErrWalletIdentityMismatch)
    ensures w.wallet in after.wallets && !BelongsTo(v, after.wallets[v.wallet]) && !GoesThrough(after, v)
  {
    hide WalletsOk, RowsOk, LinksOk, ReversalsOk, LedgerOk, AllBooked, BalancesOk, StreamOk, EventsOk, InboxOk, IdsOk,
         IndexOk, FindExisting, Compare, DecideIn, Enacted, Submit, IdentityTaken;
    SubmitNames(before, w, s, trace);
    if GoesThrough(before, w) {
      NothingExists(before, w);
      SubmitUnfolds(before, w, s, trace);
      AbortsAreOfTheWallet(before, w, s.at);
    }
    hide DecideIn;
  }

  /** A step that is stopped is stopped by the wallet, not by the identity of the operation. */
  lemma AbortsAreOfTheWallet(db: Db, w: Wager, at: Instant)
    requires w.wallet in db.wallets && DecideIn(db, w, at).Abort?
    ensures DecideIn(db, w, at).error != ErrIdempotencyConflict && DecideIn(db, w, at).error != ErrWalletIdentityMismatch
  {
    hide ValidateReference, FindReference, HasReversal;
  }

  /** Every failure of a message that counts as permanent is permanent: no later delivery can succeed. */
  lemma PermanentFailuresPersist(before: Db, after: Db, d: Delivery, created: Instant, s: Stamp, later: Instant, t: Stamp)
    requires Inv(before) && Inv(after) && Extends(before, after) && 0 < created && 0 < later
    requires Unused(before, s.ticket) && Unused(after, t.ticket)
    requires Treatment(before, d, created, s).outcome.Err? && Permanent(Treatment(before, d, created, s).outcome.error)
    ensures Treatment(after, d, later, t).outcome.Err? && Permanent(Treatment(after, d, later, t).outcome.error)
  {
    hide Inv, Extends, Unused, Admit, Receive, Submit, Admitted;
    if d.body.Some? && !Blank(d.body.value.messageId) && d.provider != ""
       && d.provider == d.body.value.request.provider && d.group == d.body.value.request.wallet {
      var body, q := d.body.value, d.body.value.request;
      AdmissionFailsAgain(d.provider, q, Fresh(s, ROW_SLOT), created, Fresh(t, ROW_SLOT), later);
      if AdmittedWager(d.provider, q, created, s).Ok? {
        AdmissionIsStable(d.provider, q, Fresh(s, ROW_SLOT), created, Fresh(t, ROW_SLOT), later);
        var w, v := AdmittedWager(d.provider, q, created, s).value, AdmittedWager(d.provider, q, later, t).value;
        AdmissionFacts(d.provider, q, Fresh(s, ROW_SLOT), created);
        AdmissionFacts(d.provider, q, Fresh(t, ROW_SLOT), later);
        NotStored(before, s.ticket, w.id);
        NotStored(after, t.ticket, v.id);
        ReceptionFailsAgain(before, after, body, w, v, s, t);
      }
    }
  }

  lemma NotStored(db: Db, ticket: nat, id: Uuid)
    requires Unused(db, ticket) && id == Random(ticket, ROW_SLOT)
    ensures id !in db.wagers
  {
  }

  lemma ReceptionFailsAgain(before: Db, after: Db, body: Body, w: Wager, v: Wager, s: Stamp, t: Stamp)
    requires Inv(before) && Inv(after) && Extends(before, after)
    requires Admitted(w, body.request) && Admitted(v, body.request) && w.id !in before.wagers && v.id !in after.wagers
    requires Receive(before, body, w, s).outcome.Err? && Permanent(Receive(before, body, w, s).outcome.error)
    ensures Receive(after, body, v, t).outcome.Err? && Permanent(Receive(after, body, v, t).outcome.error)
  {
    hide Inv, Extends, Submit, Receive, Admitted, FindExisting, Compare;
    ReceiveNames(before, body, w, s);
    ReceiveNames(after, body, v, t);
    InboxStays(before, after, body.messageId);
    if body.messageId in before.inbox {
      if before.inbox[body.messageId].body == body {
        TreatedReplays(before, body, w);
      }
    } else {
      OnlyTwoFailures(before, w, body.request, s);
      SubmissionFailsAgain(before, after, w, v, body.request, s, t, body.request.trace);
      if body.messageId in after.inbox && after.inbox[body.messageId].body == body {
        // The message cannot have been treated in between: its operation would be stored.
        TreatedReplays(after, body, v);
        ReplayIsNoFailure(after, body, v, t);
      }
    }
  }

  lemma InboxStays(before: Db, after: Db, m: string)
    requires Extends(before, after)
    ensures m in before.inbox ==> m in after.inbox && after.inbox[m] == before.inbox[m]
  {
  }

  lemma TreatedReplays(db: Db, body: Body, w: Wager)
    requires Inv(db) && Admitted(w, body.request)
    requires body.messageId in db.inbox && db.inbox[body.messageId].body == body
    ensures db.inbox[body.messageId].completed && FindExisting(db, w).Some?
    ensures Compare(FindExisting(db, w).value, w).Ok?
  {
    hide WalletsOk, RowsOk, LinksOk, ReversalsOk, LedgerOk, AllBooked, BalancesOk, StreamOk, EventsOk, IdsOk, Admitted,
         IndexOk, Answered, FindExisting, Compare;
    assert db.inbox[body.messageId].completed;
    hide InboxOk;
    TreatedIsFound(db, body, w);
  }

  lemma ReplayIsNoFailure(db: Db, body: Body, w: Wager, t: Stamp)
    requires FindExisting(db, w).Some? && Compare(FindExisting(db, w).value, w).Ok?
    ensures Submit(db, w, t, body.request.trace).outcome.Ok?
  {
    hide FindExisting, Compare;
  }

  /** The only permanent failures of a submission once admitted. */
  lemma OnlyTwoFailures(db: Db, w: Wager, q: Request, s: Stamp)
    requires Inv(db) && Admitted(w, q) && w.id !in db.wagers
    requires Submit(db, w, s, q.trace).outcome.Err? && Permanent(Submit(db, w, s, q.trace).outcome.error)
    ensures var e := Submit(db, w, s, q.trace).outcome;
            e == Err(ErrIdempotencyConflict) || e == Err(ErrWalletIdentityMismatch)
  {
    hide WalletsOk, RowsOk, LinksOk, ReversalsOk, LedgerOk, AllBooked, BalancesOk, StreamOk, EventsOk, InboxOk, IdsOk,
         IndexOk, FindExisting, DecideIn, Enacted, Submit, IdentityTaken, Validate, PayloadOf, PayloadOfWager;
    SubmitNames(db, w, s, q.trace);
    if GoesThrough(db, w) && !IdentityTaken(db, w) {
      SubmitUnfolds(db, w, s, q.trace);
      if DecideIn(db, w, s.at).Abort? {
        AbortIsOfVersion(db, w, q, s.at);
      }
    }
  }

  lemma AbortIsOfVersion(db: Db, w: Wager, q: Request, at: Instant)
    requires Inv(db) && Admitted(w, q) && w.id !in db.wagers && GoesThrough(db, w) && DecideIn(db, w, at).Abort?
    ensures DecideIn(db, w, at).error == ErrInvalidWallet
  {
    hide RowsOk, LinksOk, ReversalsOk, LedgerOk, AllBooked, BalancesOk, StreamOk, EventsOk, InboxOk, IdsOk,
         DecideIn, Validate, PayloadOf, PayloadOfWager, FindExisting, IdentityTaken;
    NothingExists(db, w);
    assert Decisions.Ready(db, w);
    Decisions.OnlyExhaustedWalletsAbort(db, w, at);
  }
}
