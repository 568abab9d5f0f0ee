/** What each step leaves, table by table and field by field. */
module Effects {
  import opened Core
  import opened Finance
  import opened Domain
  import opened Delays
  import opened Engine
  import opened Invariant
  import opened Decisions
  import opened Steps
  import opened UseCases
  import opened Runs
  import opened Idempotency

  // ---- The tables after a step ----------------------------------------------------------------

  /** An execution numbers what it creates: its row, its entry, the event of its outcome, the one of the balance. */
  predicate EventFor(event: Event, ticket: nat, slot: nat, row: Wager, at: Instant, trace: Trace, content: Content) {
    && event.id == Random(ticket, slot) && event.aggregate == row.wallet && event.occurredAt == at
    && event.trace == trace && event.content == content
  }

  /** Bets take money, and rollbacks take back what a win or a refund gave; everything else gives money. */
  predicate Takes(rows: map<Uuid, Wager>, row: Wager) {
    || row.kind == Bet
    || (row.kind == Rollback && row.referenceId.Some? && row.referenceId.value in rows
        && rows[row.referenceId.value].kind != Bet)
  }

  /** The entry books the movement of its operation from one balance to the next. */
  predicate EntryFor(e: Entry, ticket: nat, rows: map<Uuid, Wager>, row: Wager, before: Money, after: Money, at: Instant) {
    && e.id == Random(ticket, ENTRY_SLOT) && e.wallet == row.wallet && e.transaction == row.id && e.money == row.money
    && e.direction == (if Takes(rows, row) then Debit else Credit)
    && e.before == before && e.after == after && e.createdAt == at
  }

  /** The balance is moved by the exact amount, one version further, at this instant; nothing else of the wallet changes. */
  predicate MovedFor(before: WalletRow, after: WalletRow, rows: map<Uuid, Wager>, row: Wager, at: Instant) {
    && after.id == before.id && after.player == before.player && after.createdAt == before.createdAt
    && after.balance.currency == before.balance.currency
    && after.balance.amount as int
       == before.balance.amount as int + (if Takes(rows, row) then -(row.money.amount as int) else row.money.amount as int)
    && after.balance.amount >= 0 && after.version as int == before.version as int + 1 && after.updatedAt == at
  }

  /** An operation that moved nothing: one event about it, or none if it only goes on waiting. */
  predicate OnlyAnnounced(before: Db, after: Db, row: Wager, ticket: nat, at: Instant, trace: Trace, content: Content) {
    && after.wallets == before.wallets && after.ledger == before.ledger
    && |after.outbox| == |before.outbox| + 1 && after.outbox[..|before.outbox|] == before.outbox
    && EventFor(after.outbox[|before.outbox|], ticket, OUTCOME_SLOT, row, at, trace, content)
  }

  /** An operation that moved its wallet: one entry, and the events of the outcome and of the balance. */
  predicate MovedAlong(before: Db, after: Db, row: Wager, ticket: nat, at: Instant, trace: Trace) {
    && row.wallet in before.wallets && row.wallet in after.wallets
    && after.wallets == before.wallets[row.wallet := after.wallets[row.wallet]]
    && MovedFor(before.wallets[row.wallet], after.wallets[row.wallet], after.wagers, row, at)
    && row.result == Some(after.wallets[row.wallet].balance)
    && |after.ledger| == |before.ledger| + 1 && after.ledger[..|before.ledger|] == before.ledger
    && EntryFor(after.ledger[|before.ledger|], ticket, after.wagers, row, before.wallets[row.wallet].balance,
                after.wallets[row.wallet].balance, at)
    && |after.outbox| == |before.outbox| + 2 && after.outbox[..|before.outbox|] == before.outbox
    && EventFor(after.outbox[|before.outbox|], ticket, OUTCOME_SLOT, row, at, trace, TransactionProcessed(row))
    && EventFor(after.outbox[|before.outbox| + 1], ticket, CHANGE_SLOT, row, at, trace,
                BalanceChanged(after.ledger[|before.ledger|], after.wallets[row.wallet].version))
  }

  /** The step about this row, seen in the tables: nothing but its own row, movement and events is written. */
  predicate StepLeaves(before: Db, after: Db, row: Wager, ticket: nat, at: Instant, trace: Trace) {
    && after.wagers == before.wagers[row.id := row]
    && after.byOwner == before.byOwner
    && match row.status
       case PendingReference =>
         if row.id in before.wagers then
           after.wallets == before.wallets && after.ledger == before.ledger && after.outbox == before.outbox
           && row == before.wagers[row.id]
         else
           row.updatedAt == at && row.result.None? && row.failure.None? && row.referenceId.None?
           && OnlyAnnounced(before, after, row, ticket, at, trace, TransactionPendingReference(row))
       case Rejected =>
         row.updatedAt == at && row.result.None? && row.failure.Some?
         && OnlyAnnounced(before, after, row, ticket, at, trace, TransactionRejected(row))
       case Processed =>
         && row.updatedAt == at && row.failure.None?
         && (if row.kind == Loss then
               row.wallet in before.wallets && row.result == Some(before.wallets[row.wallet].balance)
               && OnlyAnnounced(before, after, row, ticket, at, trace, TransactionProcessed(row))
             else MovedAlong(before, after, row, ticket, at, trace))
       case _ => false
  }

  lemma DirectionIsTaken(wagers: map<Uuid, Wager>, rows: map<Uuid, Wager>, w: Wager, f: Wager)
    requires rows == wagers[f.id := f] && f.kind == w.kind && f.referenceId != Some(f.id)
    requires f.referenceId.Some? ==> f.referenceId.value in wagers
    ensures DirectionOf(w.kind, if f.referenceId.Some? && f.referenceId.value in wagers
                                then Some(wagers[f.referenceId.value]) else None)
            == if Takes(rows, f) then Debit else Credit
  {
  }

  lemma StepParts(db: Db, w: Wager, d: Decision, stamp: Stamp, trace: Trace)
    requires Inv(db) && Enactable(db, w, d, stamp, trace)
    ensures w.wallet in db.wallets && !d.Abort? && w.referenceId.None? && !w.kind.Opening?
    ensures db.wallets[w.wallet].id == w.wallet
    ensures if w.id in db.wagers then db.wagers[w.id] == w && w.status.PendingReference? else w.status.Pending?
    ensures w.failure.None? && w.result.None?
    ensures d.Settle? ==> (d.movement.None? <==> w.kind.Loss?)
    ensures d.Settle? && d.movement.Some? ==>
              && MovementOk(w, db.wallets[w.wallet], d.movement.value, stamp.at)
              && d.movement.value.direction
                 == DirectionOf(w.kind, if d.resolved.Some? && d.resolved.value in db.wagers
                                        then Some(db.wagers[d.resolved.value]) else None)
    ensures ResolvedBy(d).Some? ==> ResolvedBy(d).value in db.wagers && ResolvedBy(d).value != w.id
  {
    hide WalletsOk, RowsOk, IndexOk, LinksOk, ReversalsOk, LedgerOk, AllBooked, BalancesOk, StreamOk, EventsOk, InboxOk,
         IdsOk, Decided, Timely, Unused, PayloadOfWager, Fits, MovementOk;
    OpenRowsAreBare(db, w);
    hide Validate;
    StepFacts(db, w, d, stamp, trace);
    DecisionSummary(db, w, d, stamp.at);
  }

  lemma OpenRowsAreBare(db: Db, w: Wager)
    requires Ready(db, w)
    ensures w.failure.None? && w.result.None?
  {
    hide PayloadOfWager, IdentityTaken;
  }

  /** Whatever a step decides, it leaves its row, its movement and its events, and nothing else. */
  lemma EnactedLeaves(db: Db, schedules: map<Uuid, Schedule>, w: Wager, d: Decision, stamp: Stamp, trace: Trace)
    requires Inv(db) && Enactable(db, w, d, stamp, trace) && w.wallet in db.wallets
    ensures var after := Enacted(db.(schedules := schedules), w, db.wallets[w.wallet], d, stamp, trace);
            var row := After(w, db.wallets[w.wallet], d, stamp.at);
            && StepLeaves(db, after, row, stamp.ticket, stamp.at, trace) && SameBusiness(w, row)
            && after.schedules == schedules && after.inbox == db.inbox
  {
    hide Inv, Enactable, MovementOk, StepLeaves;
    StepParts(db, w, d, stamp, trace);
    EnactedParts(db, schedules, w, d, stamp, trace);
  }

  lemma EnactedParts(db: Db, schedules: map<Uuid, Schedule>, w: Wager, d: Decision, stamp: Stamp, trace: Trace)
    requires w.wallet in db.wallets && db.wallets[w.wallet].id == w.wallet && !d.Abort? && w.referenceId.None?
    requires if w.id in db.wagers then db.wagers[w.id] == w && w.status.PendingReference? else w.status.Pending?
    requires w.failure.None? && w.result.None?
    requires d.Settle? ==> (d.movement.None? <==> w.kind.Loss?)
    requires d.Settle? && d.movement.Some? ==>
               && MovementOk(w, db.wallets[w.wallet], d.movement.value, stamp.at)
               && d.movement.value.direction
                  == DirectionOf(w.kind, if d.resolved.Some? && d.resolved.value in db.wagers
                                         then Some(db.wagers[d.resolved.value]) else None)
    requires ResolvedBy(d).Some? ==> ResolvedBy(d).value in db.wagers && ResolvedBy(d).value != w.id
    ensures var after := Enacted(db.(schedules := schedules), w, db.wallets[w.wallet], d, stamp, trace);
            var row := After(w, db.wallets[w.wallet], d, stamp.at);
            && StepLeaves(db, after, row, stamp.ticket, stamp.at, trace) && SameBusiness(w, row)
            && after.schedules == schedules && after.inbox == db.inbox
  {
    var row := After(w, db.wallets[w.wallet], d, stamp.at);
    var after := Enacted(db.(schedules := schedules), w, db.wallets[w.wallet], d, stamp, trace);
    EnactedStores(db.(schedules := schedules), w, db.wallets[w.wallet], d, stamp, trace);
    if d.Settle? {
      DirectionIsTaken(db.wagers, after.wagers, w, row);
    }
    if d.Wait? {
      assert db.outbox + [] == db.outbox;
    }
  }
}
