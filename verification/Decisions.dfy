/** What a decision guarantees about the wager, the wallet and the reference that it acts upon. */
module Decisions {
  import opened Core
  import opened Finance
  import opened Domain
  import opened Engine
  import opened Invariant

  /** The wager of a step: stored and waiting, or admitted and not stored yet. */
  ghost predicate Ready(db: Db, w: Wager) {
    && ValidWager(w) && !w.kind.Opening? && w.id.Random? && w.referenceId.None?
    && w.digest == Sha256(PayloadOfWager(w))
    && w.wallet in db.wallets && BelongsTo(w, db.wallets[w.wallet])
    && (if w.id in db.wagers then db.wagers[w.id] == w && w.status.PendingReference?
        else w.status.Pending? && !IdentityTaken(db, w))
  }

  lemma ReadyNames(db: Db, w: Wager)
    requires Ready(db, w)
    ensures w.wallet in db.wallets && ValidWager(w) && !w.kind.Opening? && w.id.Random? && !Reverses(w)
    ensures if w.id in db.wagers then db.wagers[w.id] == w else w.status.Pending?
  {
    hide Validate, PayloadOfWager, IdentityTaken;
  }

  /** The clock does not go back behind what the step works on. */
  predicate Timely(db: Db, w: Wager, at: Instant) {
    w.createdAt <= at && (w.wallet in db.wallets ==> db.wallets[w.wallet].createdAt <= at)
  }

  /**
   * What a step may decide: what its reads call for, giving up on the reference, or waiting for it
   * (which the reads may have called for a moment ago).
   */
  predicate Decided(db: Db, w: Wager, d: Decision, at: Instant)
    requires w.wallet in db.wallets
  {
    && !d.Abort?
    && (d == DecideIn(db, w, at) || d == Refuse(ReferenceNotFound, w.referenceId) || (d.Wait? && NeedsReference(w)))
  }

  /** The movement is the exact one and leaves a balance that is not negative. */
  predicate MovementOk(w: Wager, wallet: WalletRow, m: Movement, at: Instant) {
    && !w.kind.Loss? && IsPositive(w.money)
    && m.moved.id == wallet.id && m.moved.player == wallet.player && m.moved.createdAt == wallet.createdAt
    && m.moved.version as int == wallet.version as int + 1 && m.moved.updatedAt == at
    && m.moved.balance.currency == wallet.balance.currency == w.money.currency
    && m.moved.balance.amount as int == wallet.balance.amount as int + Signed(m.direction, w.money.amount)
    && m.moved.balance.amount >= 0
  }

  lemma MoveFacts(w: Wager, wallet: WalletRow, original: Option<Wager>, at: Instant)
    requires ValidWager(w) && ValidWallet(wallet) && BelongsTo(w, wallet)
    ensures var d := Move(w, wallet, original, at);
            var resolved := if original.Some? then Some(original.value.id) else w.referenceId;
            match d
            case Settle(r, None) => r == resolved && w.kind.Loss?
            case Settle(r, Some(m)) =>
              r == resolved && MovementOk(w, wallet, m, at) && m.direction == DirectionOf(w.kind, original)
            case Refuse(code, r) => r == resolved && !BlankCode(code)
            case Abort(e) => e == ErrInvalidWallet && wallet.version == MAX_INT64
            case Wait => false
  {
  }

  /** The reference that a decision resolves. */
  function ResolvedBy(d: Decision): Option<Uuid> {
    match d
    case Refuse(_, r) => r
    case Settle(r, _) => r
    case _ => None
  }

  predicate Accepted(w: Wager, found: Option<Wager>) {
    found.Some? && ValidateReference(w, found.value).None?
  }

  /** A decision, described by what it owes to the reference and to the wallet. */
  predicate DecisionShape(w: Wager, wallet: WalletRow, found: Option<Wager>, reversed: bool, d: Decision, at: Instant) {
    match d
    case Wait => NeedsReference(w)
    case Refuse(code, r) => !BlankCode(code) && (r.Some? ==> Accepted(w, found) && r.value == found.value.id)
    case Settle(r, movement) =>
      && (NeedsReference(w) ==> r.Some?)
      && (r.Some? ==> Accepted(w, found) && r.value == found.value.id)
      && (IsReversal(w.kind) ==> !reversed)
      && (movement.None? <==> w.kind.Loss?)
      && (movement.Some? ==>
            && MovementOk(w, wallet, movement.value, at)
            && movement.value.direction == DirectionOf(w.kind, if r.Some? then found else None))
    case Abort(e) => e == ErrInvalidWallet && wallet.version == MAX_INT64
  }

  lemma DecideFacts(w: Wager, wallet: WalletRow, found: Option<Wager>, reversed: bool, at: Instant)
    requires ValidWager(w) && w.referenceId.None? && ValidWallet(wallet) && BelongsTo(w, wallet)
    ensures DecisionShape(w, wallet, found, reversed, Decide(w, wallet, found, reversed, at), at)
  {
    MoveFacts(w, wallet, if NeedsReference(w) then found else None, at);
  }

  // ---- Every outcome, by its cause ------------------------------------------------------

  /** The operation found is another one, with the identity, the owner and the round that were asked for. */
  predicate Matches(w: Wager, r: Wager) {
    && ValidWager(r) && r.id != w.id && r.provider == w.provider && Some(r.externalId) == w.reference
    && r.wallet == w.wallet && r.player == w.player && r.money.currency == w.money.currency && r.round == w.round
  }

  /** Wins and refunds go back to a bet, rollbacks to a bet, a win or a refund; reversals take the whole amount. */
  predicate MayAct(w: Wager, r: Wager) {
    && (w.kind.Win? || w.kind.Refund? ==> r.kind.Bet?)
    && (w.kind.Rollback? ==> r.kind.Bet? || r.kind.Win? || r.kind.Refund?)
    && (IsReversal(w.kind) ==> r.money.amount == w.money.amount)
  }

  /** Nothing about the reference stands in the way of the movement. */
  predicate Cleared(w: Wager, found: Option<Wager>, reversed: bool) {
    && (NeedsReference(w) ==>
          found.Some? && Matches(w, found.value) && found.value.status.Processed? && MayAct(w, found.value))
    && !(IsReversal(w.kind) && reversed)
  }

  predicate TakesMoney(w: Wager, found: Option<Wager>) {
    w.kind.Bet? || (w.kind.Rollback? && found.Some? && !found.value.kind.Bet?)
  }

  /** Each outcome happens exactly for its own cause, and a settled one moves exactly its amount. */
  lemma DecisionExactly(w: Wager, wallet: WalletRow, found: Option<Wager>, reversed: bool, at: Instant)
    requires ValidWager(w) && !w.kind.Opening? && w.referenceId.None?
    requires ValidWallet(wallet) && wallet.version < MAX_INT64 && BelongsTo(w, wallet)
    ensures var d := Decide(w, wallet, found, reversed, at);
            var seen := NeedsReference(w) && found.Some?;
            var cleared, takes := Cleared(w, found, reversed), TakesMoney(w, found);
            var balance, amount := wallet.balance.amount as int, w.money.amount as int;
            && !d.Abort?
            && (d.Wait? <==>
                  NeedsReference(w)
                  && (found.None? || (Matches(w, found.value) && (found.value.status.Pending? || found.value.status.PendingReference?))))
            && (d.Refuse? && d.code == ReferenceUnsuccessful <==>
                  seen && Matches(w, found.value) && (found.value.status.Rejected? || found.value.status.Failed?))
            && (d.Refuse? && d.code == InvalidReference <==>
                  seen && (!Matches(w, found.value) || (found.value.status.Processed? && !MayAct(w, found.value))))
            && (d.Refuse? && d.code == AlreadyReversed <==> IsReversal(w.kind) && reversed && Cleared(w, found, false))
            && (d.Refuse? && d.code == InsufficientBalance <==> cleared && w.kind.Bet? && balance < amount)
            && (d.Refuse? && d.code == ReversalInsufficientBalance <==>
                  cleared && w.kind.Rollback? && takes && balance < amount)
            && (d.Refuse? && d.code == MoneyOverflow <==> cleared && !takes && balance + amount > MAX_INT64)
            && (d.Settle? <==> cleared && (if takes then balance >= amount else balance + amount <= MAX_INT64))
            && (d.Settle? && !w.kind.Loss? ==>
                  d.movement.Some? && d.movement.value.direction == (if takes then Debit else Credit)
                  && d.movement.value.moved.balance.amount as int == if takes then balance - amount else balance + amount)
  {
    if NeedsReference(w) && found.Some? {
      ReferenceExactly(w, found.value);
    }
    MoveExactly(w, wallet, if NeedsReference(w) then found else None, at);
    hide ValidateReference, Move, Matches, MayAct, Validate;
  }

  /** A step stops exactly at a wallet that has no version left for the movement that it gets as far as. */
  lemma AbortsExactly(w: Wager, wallet: WalletRow, found: Option<Wager>, reversed: bool, at: Instant)
    requires ValidWager(w) && !w.kind.Opening? && w.referenceId.None? && ValidWallet(wallet) && BelongsTo(w, wallet)
    ensures Decide(w, wallet, found, reversed, at).Abort? <==>
            wallet.version == MAX_INT64 && !w.kind.Loss? && Cleared(w, found, reversed)
    ensures Decide(w, wallet, found, reversed, at).Abort? ==> Decide(w, wallet, found, reversed, at).error == ErrInvalidWallet
  {
    if NeedsReference(w) && found.Some? {
      ReferenceExactly(w, found.value);
    }
    hide ValidateReference, Matches, MayAct, Validate;
  }

  /** The link of a decision: to the operation found, exactly when nothing but an earlier reversal stands against it. */
  lemma ResolvedExactly(w: Wager, wallet: WalletRow, found: Option<Wager>, reversed: bool, at: Instant)
    requires ValidWager(w) && !w.kind.Opening? && w.referenceId.None?
    requires !Decide(w, wallet, found, reversed, at).Abort?
    ensures ResolvedBy(Decide(w, wallet, found, reversed, at))
            == if NeedsReference(w) && Cleared(w, found, false) then Some(found.value.id) else None
  {
    if NeedsReference(w) && found.Some? {
      ReferenceExactly(w, found.value);
    }
    hide ValidateReference, Matches, MayAct, Validate, Debited, Credited;
  }

  lemma ReferenceExactly(w: Wager, r: Wager)
    requires NeedsReference(w) && w.referenceId.None? && ValidWager(w)
    ensures var e := ValidateReference(w, r);
            && (e.None? <==> Matches(w, r) && r.status.Processed? && MayAct(w, r))
            && (e == Some(ErrReferenceNotProcessed) <==> Matches(w, r) && !r.status.Processed?)
            && (e == Some(ErrInvalidWagerReference) <==> !Matches(w, r) || (r.status.Processed? && !MayAct(w, r)))
  {
    hide Validate;
  }

  lemma MoveExactly(w: Wager, wallet: WalletRow, original: Option<Wager>, at: Instant)
    requires ValidWager(w) && !w.kind.Opening?
    requires ValidWallet(wallet) && wallet.version < MAX_INT64 && BelongsTo(w, wallet)
    ensures var d := Move(w, wallet, original, at);
            var balance, amount := wallet.balance.amount as int, w.money.amount as int;
            var takes := TakesMoney(w, original);
            && (w.kind.Loss? ==> d.Settle? && amount == 0)
            && (!w.kind.Loss? && takes && balance < amount ==>
                  d.Refuse? && d.code == if w.kind.Rollback? then ReversalInsufficientBalance else InsufficientBalance)
            && (!w.kind.Loss? && !takes && balance + amount > MAX_INT64 ==> d.Refuse? && d.code == MoneyOverflow)
            && (!w.kind.Loss? && (if takes then balance >= amount else balance + amount <= MAX_INT64) ==>
                  && d.Settle? && d.movement.Some? && d.movement.value.direction == (if takes then Debit else Credit)
                  && d.movement.value.moved.balance.amount as int == if takes then balance - amount else balance + amount)
  {
  }

  lemma FoundIsStored(db: Db, w: Wager)
    requires RowsOk(db.wallets, db.wagers) && IndexOk(db.wagers, db.byKey, db.byExternal)
    requires FindReference(db, w).Some? && FindReference(db, w).value != w
    ensures var r := FindReference(db, w).value;
            r.id in db.wagers && db.wagers[r.id] == r && r.provider == w.provider && Some(r.externalId) == w.reference
  {
  }

  /** An accepted reference is a stored, processed operation to which the wager may be linked. */
  lemma AcceptedIsLinked(db: Db, w: Wager)
    requires RowsOk(db.wallets, db.wagers) && IndexOk(db.wagers, db.byKey, db.byExternal)
    requires !IsTerminal(w) && Accepted(w, FindReference(db, w))
    ensures var r := FindReference(db, w).value;
            r.id in db.wagers && db.wagers[r.id] == r && Linked(w, r)
  {
    FoundIsStored(db, w);
  }

  /** What the stored data know of a decision. */
  ghost predicate DecisionOk(wagers: map<Uuid, Wager>, reversals: map<Uuid, Uuid>, wallet: WalletRow,
                             w: Wager, d: Decision, at: Instant)
  {
    && !d.Abort?
    && (d.Wait? ==> NeedsReference(w))
    && (d.Refuse? ==> !BlankCode(d.code))
    && (ResolvedBy(d).Some? ==> ResolvedBy(d).value in wagers && Linked(w, wagers[ResolvedBy(d).value]))
    && (d.Settle? ==>
          && (NeedsReference(w) ==> d.resolved.Some?)
          && (IsReversal(w.kind) ==> d.resolved.Some? && d.resolved.value !in reversals)
          && (d.movement.None? <==> w.kind.Loss?)
          && (d.movement.Some? ==>
                && MovementOk(w, wallet, d.movement.value, at)
                && d.movement.value.direction
                   == DirectionOf(w.kind, if d.resolved.Some? && d.resolved.value in wagers
                                          then Some(wagers[d.resolved.value]) else None)))
  }

  lemma ShapeIsOk(wagers: map<Uuid, Wager>, reversals: map<Uuid, Uuid>, wallet: WalletRow, w: Wager,
                  found: Option<Wager>, d: Decision, at: Instant)
    requires !d.Abort?
    requires DecisionShape(w, wallet, found, found.Some? && found.value.id in reversals, d, at)
    requires Accepted(w, found) ==>
               found.value.id in wagers && wagers[found.value.id] == found.value && Linked(w, found.value)
    ensures DecisionOk(wagers, reversals, wallet, w, d, at)
  {
  }

  lemma GivingUpHasShape(w: Wager, wallet: WalletRow, found: Option<Wager>, reversed: bool, at: Instant)
    ensures DecisionShape(w, wallet, found, reversed, Refuse(ReferenceNotFound, None), at)
    ensures NeedsReference(w) ==> DecisionShape(w, wallet, found, reversed, Wait, at)
  {
  }

  lemma DecisionFacts(db: Db, w: Wager, d: Decision, at: Instant)
    requires RowsOk(db.wallets, db.wagers) && IndexOk(db.wagers, db.byKey, db.byExternal)
    requires Ready(db, w) && ValidWallet(db.wallets[w.wallet]) && Decided(db, w, d, at)
    ensures DecisionOk(db.wagers, db.reversals, db.wallets[w.wallet], w, d, at)
  {
    hide Validate, ValidateReference, DecisionShape, DecisionOk, Linked, PayloadOfWager, MoneyText, ValidWallet;
    var found, wallet := FindReference(db, w), db.wallets[w.wallet];
    if Accepted(w, found) {
      AcceptedIsLinked(db, w);
    }
    if d == Refuse(ReferenceNotFound, None) || (d.Wait? && NeedsReference(w)) {
      GivingUpHasShape(w, wallet, found, HasReversal(db, found), at);
    } else {
      DecideFacts(w, wallet, found, HasReversal(db, found), at);
    }
    ShapeIsOk(db.wagers, db.reversals, wallet, w, found, d, at);
  }

  /** Only a wallet at the greatest version stops a step. */
  lemma OnlyExhaustedWalletsAbort(db: Db, w: Wager, at: Instant)
    requires Ready(db, w) && ValidWallet(db.wallets[w.wallet])
    requires DecideIn(db, w, at).Abort?
    ensures DecideIn(db, w, at).error == ErrInvalidWallet && db.wallets[w.wallet].version == MAX_INT64
  {
    var found := FindReference(db, w);
    DecideFacts(w, db.wallets[w.wallet], found, HasReversal(db, found), at);
  }

  lemma RefusedIsValid(w: Wager, r: Option<Uuid>, code: FailureCode, at: Instant)
    requires ValidWager(w) && !IsTerminal(w) && w.createdAt <= at && !BlankCode(code)
    requires r.Some? ==> !r.value.Nil? && r.value != w.id && NeedsReference(w)
    ensures ValidWager(w.(referenceId := r, status := Rejected, failure := Some(code), updatedAt := at))
  {
  }

  lemma SettledIsValid(w: Wager, r: Option<Uuid>, balance: Money, at: Instant)
    requires ValidWager(w) && !IsTerminal(w) && w.createdAt <= at && !w.kind.Opening?
    requires balance.amount >= 0 && balance.currency == w.money.currency
    requires r.Some? ==> !r.value.Nil? && r.value != w.id && NeedsReference(w)
    requires NeedsReference(w) ==> r.Some?
    ensures ValidWager(w.(referenceId := r, status := Processed, result := Some(balance), updatedAt := at))
  {
  }

  lemma WaitingIsValid(w: Wager, at: Instant)
    requires ValidWager(w) && !IsTerminal(w) && w.createdAt <= at && NeedsReference(w)
    ensures ValidWager(w.(status := PendingReference, updatedAt := at))
  {
  }

  /** The row that a decision leaves is valid and keeps what identifies the wager. */
  lemma OutcomeIsValid(w: Wager, wallet: WalletRow, d: Decision, at: Instant)
    requires ValidWager(w) && !IsTerminal(w) && !w.kind.Opening? && w.createdAt <= at
    requires ValidWallet(wallet) && BelongsTo(w, wallet)
    requires !d.Abort? && (d.Wait? ==> NeedsReference(w)) && (d.Refuse? ==> !BlankCode(d.code))
    requires ResolvedBy(d).Some? ==> !ResolvedBy(d).value.Nil? && ResolvedBy(d).value != w.id && NeedsReference(w)
    requires d.Settle? ==> (NeedsReference(w) ==> d.resolved.Some?)
    requires d.Settle? && d.movement.Some? ==> MovementOk(w, wallet, d.movement.value, at)
    ensures ValidWager(After(w, wallet, d, at))
  {
    match d
    case Wait => WaitingIsValid(w, at);
    case Refuse(code, r) => RefusedIsValid(w, r, code, at);
    case Settle(r, movement) =>
      SettledIsValid(w, r, if movement.Some? then movement.value.moved.balance else wallet.balance, at);
  }

  /** The status, the identity and the link of the row that a decision leaves. */
  lemma OutcomeShape(w: Wager, wallet: WalletRow, d: Decision, at: Instant)
    requires (w.status.Pending? || w.status.PendingReference?) && w.referenceId.None? && !d.Abort?
    ensures var f := After(w, wallet, d, at);
            && SameBusiness(w, f) && f.referenceId == ResolvedBy(d)
            && (d.Wait? <==> f.status.PendingReference?)
            && (d.Refuse? <==> f.status.Rejected?)
            && (d.Settle? <==> f.status.Processed?)
            && (d.Refuse? ==> f.failure == Some(d.code))
  {
  }

  lemma OutcomeRow(db: Db, w: Wager, d: Decision, at: Instant)
    requires RowsOk(db.wallets, db.wagers)
    requires Ready(db, w) && Timely(db, w, at) && ValidWallet(db.wallets[w.wallet])
    requires DecisionOk(db.wagers, db.reversals, db.wallets[w.wallet], w, d, at)
    ensures RowOk(db.wallets, After(w, db.wallets[w.wallet], d, at))
  {
    var wallet := db.wallets[w.wallet];
    if ResolvedBy(d).Some? {
      assert !ResolvedBy(d).value.Nil? by {
        assert ValidWager(db.wagers[ResolvedBy(d).value]);
      }
    }
    OutcomeIsValid(w, wallet, d, at);
    OutcomeShape(w, wallet, d, at);
    SamePayload(w, After(w, wallet, d, at));
  }

  lemma SamePayload(w: Wager, f: Wager)
    requires SameBusiness(w, f)
    ensures PayloadOfWager(w) == PayloadOfWager(f)
  {
  }
}
