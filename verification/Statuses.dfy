/** The status that a step gives its operation, by the stored rows and the balance alone. */
module Statuses {
  import opened Core
  import opened Finance
  import opened Domain
  import opened Delays
  import opened Engine
  import opened Invariant
  import opened Decisions
  import opened UseCases
  import opened Runs
  import opened Idempotency
  import opened Effects

  /** The operation that is referred to: itself, the stored one with that external identity, or none. */
  ghost predicate RefersTo(db: Db, w: Wager, found: Option<Wager>) {
    if w.reference == Some(w.externalId) then found == Some(w)
    else
      match found
      case Some(r) =>
        r.id in db.wagers && db.wagers[r.id] == r && r.provider == w.provider && Some(r.externalId) == w.reference
      case None =>
        forall id :: id in db.wagers && db.wagers[id].kind != Opening && db.wagers[id].provider == w.provider ==>
          Some(db.wagers[id].externalId) != w.reference
  }

  /** Some refund or rollback of the operation was processed. */
  ghost predicate IsReversed(db: Db, found: Option<Wager>) {
    found.Some? && exists id :: id in db.wagers && TakesBack(db.wagers[id], found.value.id)
  }

  predicate TakesBack(w: Wager, id: Uuid) {
    w.status == Processed && (w.kind == Refund || w.kind == Rollback) && w.referenceId == Some(id)
  }

  /** The cause of each status and of each failure code, and when the link is kept. */
  predicate StatusFor(row: Wager, w: Wager, wallet: WalletRow, found: Option<Wager>, reversed: bool) {
    var seen, cleared := NeedsReference(w) && found.Some?, Cleared(w, found, reversed);
    var balance, amount := wallet.balance.amount as int, w.money.amount as int;
    var takes := TakesMoney(w, found);
    && (row.status == PendingReference <==>
          NeedsReference(w)
          && (found.None? || (Matches(w, found.value) && (found.value.status == Pending || found.value.status == PendingReference))))
    && (row.status == Processed <==> cleared && (if takes then balance >= amount else balance + amount <= MAX_INT64))
    && (row.status == PendingReference || row.status == Processed || row.status == Rejected)
    && (row.failure == Some(ReferenceUnsuccessful) <==>
          seen && Matches(w, found.value) && (found.value.status == Rejected || found.value.status == Failed))
    && (row.failure == Some(InvalidReference) <==>
          seen && (!Matches(w, found.value) || (found.value.status == Processed && !MayAct(w, found.value))))
    && (row.failure == Some(AlreadyReversed) <==> IsReversal(w.kind) && reversed && Cleared(w, found, false))
    && (row.failure == Some(InsufficientBalance) <==> cleared && w.kind == Bet && balance < amount)
    && (row.failure == Some(ReversalInsufficientBalance) <==> cleared && w.kind == Rollback && takes && balance < amount)
    && (row.failure == Some(MoneyOverflow) <==> cleared && !takes && balance + amount > MAX_INT64)
    && (row.failure.Some? <==> row.status == Rejected)
    && row.referenceId == if NeedsReference(w) && Cleared(w, found, false) then Some(found.value.id) else None
  }

  lemma RowOfDecision(w: Wager, wallet: WalletRow, d: Decision, at: Instant)
    requires (w.status.Pending? || w.status.PendingReference?) && w.referenceId.None? && w.failure.None? && !d.Abort?
    ensures var row := After(w, wallet, d, at);
            && row.referenceId == ResolvedBy(d)
            && (row.status == PendingReference <==> d.Wait?) && (row.status == Processed <==> d.Settle?)
            && (row.status == Rejected <==> d.Refuse?) && row.failure == if d.Refuse? then Some(d.code) else None
  {
  }

  lemma StatusOfDecision(w: Wager, wallet: WalletRow, found: Option<Wager>, reversed: bool, at: Instant)
    requires ValidWager(w) && !w.kind.Opening? && w.referenceId.None? && w.failure.None?
    requires w.status.Pending? || w.status.PendingReference?
    requires ValidWallet(wallet) && wallet.version < MAX_INT64 && BelongsTo(w, wallet)
    ensures StatusFor(After(w, wallet, Decide(w, wallet, found, reversed, at), at), w, wallet, found, reversed)
  {
    hide Decide, After, Matches, MayAct, Cleared, TakesMoney, Validate;
    DecisionExactly(w, wallet, found, reversed, at);
    ResolvedExactly(w, wallet, found, reversed, at);
    RowOfDecision(w, wallet, Decide(w, wallet, found, reversed, at), at);
    OnlyKnownCodes(w, wallet, found, reversed, at);
  }

  lemma OnlyKnownCodes(w: Wager, wallet: WalletRow, found: Option<Wager>, reversed: bool, at: Instant)
    requires ValidWager(w) && !w.kind.Opening? && w.referenceId.None? && ValidWallet(wallet) && BelongsTo(w, wallet)
    ensures var d := Decide(w, wallet, found, reversed, at);
            d.Refuse? ==>
              d.code in {InsufficientBalance, ReversalInsufficientBalance, InvalidReference, ReferenceUnsuccessful,
                         AlreadyReversed, MoneyOverflow}
  {
    hide Validate, ValidateReference;
  }

  // ---- What the reads find ------------------------------------------------------------------------

  lemma OneReference(db: Db, w: Wager, found: Option<Wager>)
    requires Inv(db) && w.provider != "" && RefersTo(db, w, found) && w.reference.Some?
    ensures found == FindReference(db, w)
  {
    hide WalletsOk, LinksOk, ReversalsOk, LedgerOk, AllBooked, BalancesOk, StreamOk, EventsOk, InboxOk, IdsOk, Validate,
         PayloadOfWager;
    if w.reference != Some(w.externalId) {
      match found
      case Some(r) => FoundIsKeyed(db, r.id);
      case None =>
    }
  }

  lemma FoundIsKeyed(db: Db, id: Uuid)
    requires Inv(db) && id in db.wagers && db.wagers[id].provider != ""
    ensures var r := db.wagers[id];
            (r.provider, r.externalId) in db.byExternal && db.byExternal[(r.provider, r.externalId)] == id
  {
    hide WalletsOk, LinksOk, ReversalsOk, LedgerOk, AllBooked, BalancesOk, StreamOk, EventsOk, InboxOk, IdsOk,
         PayloadOfWager;
    assert RowOk(db.wallets, db.wagers[id]);
  }

  lemma ReversalsAreScanned(db: Db, found: Option<Wager>)
    requires Inv(db)
    ensures HasReversal(db, found) <==> IsReversed(db, found)
  {
    hide WalletsOk, RowsOk, IndexOk, LinksOk, LedgerOk, AllBooked, BalancesOk, StreamOk, EventsOk, InboxOk, IdsOk;
    if HasReversal(db, found) {
      assert TakesBack(db.wagers[db.reversals[found.value.id]], found.value.id);
    }
    if IsReversed(db, found) {
      var id :| id in db.wagers && TakesBack(db.wagers[id], found.value.id);
      assert Reverses(db.wagers[id]);
    }
  }

  /** The wager of a step and its wallet, as the decision needs them. */
  lemma ReadyFor(db: Db, w: Wager)
    requires Inv(db) && Ready(db, w)
    ensures w.wallet in db.wallets && ValidWallet(db.wallets[w.wallet]) && BelongsTo(w, db.wallets[w.wallet])
    ensures ValidWager(w) && !w.kind.Opening? && w.referenceId.None? && w.failure.None? && w.provider != ""
    ensures w.status.Pending? || w.status.PendingReference?
  {
    hide RowsOk, IndexOk, LinksOk, ReversalsOk, LedgerOk, AllBooked, BalancesOk, StreamOk, EventsOk, InboxOk, IdsOk,
         PayloadOfWager, IdentityTaken;
    assert !Blank(w.provider);
  }

  /** The status of a step on stored data, by the rows, the balance and the amount alone. */
  lemma StatusIn(db: Db, w: Wager, found: Option<Wager>, at: Instant)
    requires Inv(db) && Ready(db, w) && (NeedsReference(w) ==> RefersTo(db, w, found))
    requires w.wallet in db.wallets && db.wallets[w.wallet].version < MAX_INT64
    ensures StatusFor(After(w, db.wallets[w.wallet], DecideIn(db, w, at), at), w, db.wallets[w.wallet], found,
                      IsReversed(db, found))
  {
    hide Inv, Ready, After, StatusFor, Decide, HasReversal, FindReference, Validate, RefersTo, IsReversed;
    ReadyFor(db, w);
    if NeedsReference(w) {
      ReferenceIsNamed(w);
      OneReference(db, w, found);
    }
    ReversalsAreScanned(db, found);
    StatusOfDecision(w, db.wallets[w.wallet], found, IsReversed(db, found), at);
    ReferenceOnlyIfNeeded(w, db.wallets[w.wallet], found, FindReference(db, w), IsReversed(db, found),
                          HasReversal(db, FindReference(db, w)), at);
  }

  lemma ReferenceIsNamed(w: Wager)
    requires ValidWager(w) && NeedsReference(w)
    ensures w.reference.Some?
  {
  }

  lemma ReferenceOnlyIfNeeded(w: Wager, wallet: WalletRow, found: Option<Wager>, found': Option<Wager>, reversed: bool,
                              reversed': bool, at: Instant)
    requires NeedsReference(w) ==> found == found' && reversed == reversed'
    ensures Decide(w, wallet, found, reversed, at) == Decide(w, wallet, found', reversed', at)
  {
    hide ValidateReference, Move;
  }

  // ---- First answers and claims -----------------------------------------------------------------------

  /** The status of an operation that is answered for the first time. */
  lemma FirstStatusExactly(db: Db, authorized: string, q: Request, message: Option<Body>, created: Instant, stamp: Stamp,
                           w: Wager, found: Option<Wager>)
    requires Inv(db) && Admissible(db, ArrivalStep(authorized, q, message, created, stamp))
    requires message.Some? ==> message.value.request == q
    requires var reply := Arrive(db, authorized, q, message, created, stamp); reply.outcome.Ok? && !reply.outcome.value.replayed
    requires AdmittedWager(authorized, q, created, stamp) == Ok(w) && (NeedsReference(w) ==> RefersTo(db, w, found))
    requires q.wallet in db.wallets && db.wallets[q.wallet].version < MAX_INT64
    ensures var reply := Arrive(db, authorized, q, message, created, stamp);
            w.id in reply.db.wagers
            && StatusFor(reply.db.wagers[w.id], w, db.wallets[q.wallet], found, IsReversed(db, found))
  {
    hide Inv, Admit, Submit, Submittable, Receive, Unused, OnTime, StatusFor, Admitted, FindExisting, RefersTo, IsReversed;
    AdmittedIsSubmittable(db, authorized, q, created, stamp);
    AdmissionFacts(authorized, q, Fresh(stamp, ROW_SLOT), created);
    AdmittedNames(w, q);
    if message.Some? {
      FreshMessage(db, message.value, w, stamp);
    }
    FirstStatus(db, w, q, stamp, q.trace, found);
  }

  lemma FreshMessage(db: Db, body: Body, w: Wager, stamp: Stamp)
    requires Receive(db, body, w, stamp).outcome.Ok? && !Receive(db, body, w, stamp).outcome.value.replayed
    ensures Receive(db, body, w, stamp).outcome == Submit(db, w, stamp, body.request.trace).outcome
    ensures Receive(db, body, w, stamp).db.wagers == Submit(db, w, stamp, body.request.trace).db.wagers
  {
    hide Submit, FindExisting;
    if body.messageId !in db.inbox {
      ReceiveUnfolds(db, body, w, stamp);
    }
  }

  lemma FirstStatus(db: Db, w: Wager, q: Request, stamp: Stamp, trace: Trace, found: Option<Wager>)
    requires Inv(db) && Submittable(db, w, q, stamp, trace) && w.wallet in db.wallets
    requires Submit(db, w, stamp, trace).outcome.Ok? && !Submit(db, w, stamp, trace).outcome.value.replayed
    requires (NeedsReference(w) ==> RefersTo(db, w, found)) && db.wallets[w.wallet].version < MAX_INT64
    ensures var after := Submit(db, w, stamp, trace).db;
            w.id in after.wagers && StatusFor(after.wagers[w.id], w, db.wallets[w.wallet], found, IsReversed(db, found))
  {
    hide Unused, Admitted, Timely, DecideIn, Enacted, After, Submit, FindExisting, IdentityTaken, Ready, StatusFor,
         RefersTo, IsReversed, WalletsOk, RowsOk, IndexOk, LinksOk, ReversalsOk, LedgerOk, AllBooked, BalancesOk, StreamOk,
         EventsOk, InboxOk, IdsOk;
    SubmitNames(db, w, stamp, trace);
    ReplayIsSubmission(db, w, stamp, trace);
    SubmissionIsReady(db, w, q, stamp, trace);
    SubmitUnfolds(db, w, stamp, trace);
    hide Inv;
    StatusIn(db, w, found, stamp.at);
    EnactedStores(Enrolled(db, w, stamp.at), w, db.wallets[w.wallet], DecideIn(db, w, stamp.at), stamp, trace);
  }

  /** A claim that is given up, after its last attempt or beyond it. */
  predicate GivenUpFor(row: Wager) {
    row.status == Rejected && row.failure == Some(ReferenceNotFound) && row.referenceId.None?
  }

  /**
   * What one claim makes of its operation: nothing is looked for once the attempts are used up, and a
   * wait after the last one is given up; otherwise the status is the one of a step.
   */
  lemma ClaimStatusExactly(db: Db, id: Uuid, policy: ReferencePolicy, stamp: Stamp, found: Option<Wager>)
    requires Inv(db) && Retryable(db, id, policy, stamp) && id in db.wagers && id in db.schedules
    requires RetryOne(db, id, policy, stamp).Ok?
    requires NeedsReference(db.wagers[id]) ==> RefersTo(db, db.wagers[id], found)
    requires db.wagers[id].wallet in db.wallets && db.wallets[db.wagers[id].wallet].version < MAX_INT64
    ensures var after, w, attempts := RetryOne(db, id, policy, stamp).value, db.wagers[id], db.schedules[id].attempts;
            && id in after.wagers
            && (var row := after.wagers[id];
                if attempts >= policy.maxAttempts then GivenUpFor(row)
                else exists step ::
                  StatusFor(step, w, db.wallets[w.wallet], found, IsReversed(db, found))
                  && (if step.status == PendingReference && attempts + 1 == policy.maxAttempts then GivenUpFor(row)
                      else row == step))
  {
    hide WalletsOk, RowsOk, IndexOk, LinksOk, ReversalsOk, LedgerOk, AllBooked, BalancesOk, StreamOk, EventsOk, InboxOk, IdsOk,
         Unused, DecideIn, Enacted, StatusFor, RefersTo, IsReversed, Ready, FirstPending, Rescheduled;
    var w, wallet := db.wagers[id], db.wallets[db.wagers[id].wallet];
    PendingIsReady(db, id);
    ReadyFor(db, w);
    StatusIn(db, w, found, stamp.at);
    var d := DecideRetry(db, w, policy, stamp.at);
    RowIsNamed(db, id);
    EnactedStores(Rescheduled(db, id, policy, stamp.at), w, wallet, d, stamp, FirstPending(db.outbox, id).value);
    var step := After(w, wallet, DecideIn(db, w, stamp.at), stamp.at);
    assert StatusFor(step, w, wallet, found, IsReversed(db, found));
  }
}
