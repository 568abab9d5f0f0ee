/** Which movements, entries and events can be made, and what each of them holds. */
module Construction {
  import opened Core
  import opened Finance
  import opened Domain

  // ---- Movements --------------------------------------------------------------------------------

  /** The wallet is one that can move: its data are sound and one more version is left. */
  predicate CanMove(w: WalletRow) {
    && w.id != Nil && w.player != Nil && IsKnown(w.balance.currency) && w.balance.amount >= 0
    && 1 <= w.version < 9223372036854775807
  }

  predicate Moved(before: WalletRow, after: WalletRow, amount: int, now: Instant) {
    && after.id == before.id && after.player == before.player && after.createdAt == before.createdAt
    && after.balance.currency == before.balance.currency
    && after.balance.amount as int == before.balance.amount as int + amount
    && after.version as int == before.version as int + 1 && after.updatedAt == now
  }

  /** What stands against a movement of the amount, before the balance is looked at. */
  function Obstacle(w: WalletRow, money: Money): Option<Error> {
    if !CanMove(w) then Some(ErrInvalidWallet)
    else if !IsKnown(money.currency) || money.amount <= 0 then Some(ErrInvalidMoney)
    else if money.currency != w.balance.currency then Some(ErrWalletCurrency)
    else None
  }

  /** A credit fails at an obstacle or beyond 64 bits, and else adds its amount. */
  predicate CreditedAs(before: WalletRow, money: Money, now: Instant, err: Option<Error>, after: WalletRow) {
    if Obstacle(before, money).Some? then err == Obstacle(before, money)
    else if before.balance.amount as int + money.amount as int > 9223372036854775807 then err == Some(ErrMoneyOverflow)
    else err == None && Moved(before, after, money.amount as int, now)
  }

  /** A debit fails at an obstacle or beyond the balance, and else takes its amount. */
  predicate DebitedAs(before: WalletRow, money: Money, now: Instant, err: Option<Error>, after: WalletRow) {
    if Obstacle(before, money).Some? then err == Obstacle(before, money)
    else if before.balance.amount < money.amount then err == Some(ErrInsufficientBalance)
    else err == None && Moved(before, after, 0 - money.amount as int, now)
  }

  // ---- Entries ----------------------------------------------------------------------------------

  /** The entry accounts for a movement: a positive amount of one currency, between two balances that it tells apart. */
  predicate Accounts(e: Entry) {
    && e.wallet != Nil && e.transaction != Nil && e.money.amount > 0 && IsKnown(e.money.currency)
    && e.before.currency == e.money.currency && e.after.currency == e.money.currency
    && e.after.amount as int
       == e.before.amount as int + (if e.direction == Credit then e.money.amount as int else 0 - e.money.amount as int)
  }

  /** An entry is made exactly of what accounts for a movement. */
  lemma EntryExactly(e: Entry)
    ensures NewLedgerEntry(e.wallet, e.transaction, e.direction, e.money, e.before, e.after, e.id, e.createdAt)
            == if Accounts(e) then Ok(e)
               else Err(if e.wallet == Nil || e.transaction == Nil || !IsKnown(e.money.currency) || e.money.amount <= 0 then
                          ErrInvalidLedgerEntry
                        else if e.before.currency != e.money.currency || e.after.currency != e.money.currency then
                          ErrCurrencyMismatch
                        else if InRange(e.before.amount as int
                                        + if e.direction == Credit then e.money.amount as int else 0 - e.money.amount as int) then
                          ErrInvalidLedgerBalance
                        else ErrMoneyOverflow)
  {
  }

  // ---- Events -----------------------------------------------------------------------------------

  lemma ValidIsDated(w: Wager)
    requires ValidWager(w)
    ensures w.wallet != Nil && w.updatedAt > 0
  {
  }

  /** The event of an outcome is made exactly for a valid operation with that outcome, under a tracing. */
  lemma OutcomesExactly(w: Wager, trace: Trace, id: Uuid)
    ensures var ok := ValidWager(w) && !Blank(trace.correlation);
            && NewTransactionProcessed(w, trace, id)
               == (if ok && w.status == Processed then Ok(Event(id, w.wallet, w.updatedAt, trace, TransactionProcessed(w)))
                   else Err(ErrInvalidEvent))
            && NewTransactionRejected(w, trace, id)
               == (if ok && w.status == Rejected then Ok(Event(id, w.wallet, w.updatedAt, trace, TransactionRejected(w)))
                   else Err(ErrInvalidEvent))
            && NewTransactionPendingReference(w, trace, id)
               == (if ok && w.status == PendingReference then
                     Ok(Event(id, w.wallet, w.updatedAt, trace, TransactionPendingReference(w)))
                   else Err(ErrInvalidEvent))
  {
    hide Validate, Blank;
    if ValidWager(w) {
      ValidIsDated(w);
    }
  }

  /** The change of a balance that an operation announces: its own movement, from the second version on. */
  predicate Changes(w: Wager, e: Entry, version: int64) {
    && w.status == Processed && e.id != Nil && e.createdAt > 0 && Accounts(e)
    && e.wallet == w.wallet && e.transaction == w.id && e.money == w.money
    && w.result == Some(e.after) && e.before.amount >= 0 && e.after.amount >= 0
    && w.kind != Loss && (w.kind == Bet ==> e.direction == Debit)
    && (w.kind == Opening || w.kind == Win || w.kind == Refund ==> e.direction == Credit)
    && (if w.kind == Opening then version == 1 && e.before.amount == 0 else version >= 2)
  }

  lemma ChangesExactly(w: Wager, e: Entry, version: int64, trace: Trace, id: Uuid)
    ensures NewBalanceChanged(w, e, version, trace, id)
            == if ValidWager(w) && Changes(w, e, version) && !Blank(trace.correlation) then
                 Ok(Event(id, w.wallet, w.updatedAt, trace, BalanceChanged(e, version)))
               else Err(ErrInvalidEvent)
  {
    hide Blank;
    if ValidWager(w) {
      ValidIsDated(w);
      ValidIsNamed(w);
    }
    hide Validate;
  }

  lemma ValidIsNamed(w: Wager)
    requires ValidWager(w)
    ensures w.id != Nil && !w.kind.UnknownKind?
  {
  }
}
