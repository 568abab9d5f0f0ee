/** Every write of a step is accepted by the storage, and every constructor that it calls succeeds. */
module Writes {
  import opened Core
  import opened Finance
  import opened Domain
  import opened Engine
  import opened Invariant
  import opened Decisions
  import opened Preservation
  import opened Steps
  import opened Schema
  import opened Storage

  /** The view of a transaction before its step: consistent data, but for a message and a schedule of its own. */
  predicate Beneath(clean: Db, base: Db) {
    base == clean.(schedules := base.schedules, inbox := base.inbox)
  }

  /** A step that may be carried out on the view. */
  ghost predicate Working(clean: Db, base: Db, w: Wager, d: Decision, stamp: Stamp, trace: Trace) {
    Inv(clean) && Beneath(clean, base) && Enactable(clean, w, d, stamp, trace)
  }

  /** The wager as the program holds it when it settles its outcome: as stored, or with its reference resolved. */
  predicate Held(w: Wager, v: Wager, resolved: Option<Uuid>, at: Instant) {
    && v.referenceId == resolved
    && (v == w || v == w.(referenceId := resolved, updatedAt := at))
  }

  lemma RecordedTwice(db: Db, w: Wager, f: Wager)
    requires SameBusiness(w, f) && !Reverses(w)
    ensures Recorded(Recorded(db, w), f) == Recorded(db, f)
  {
    assert db.wagers[w.id := w][f.id := f] == db.wagers[f.id := f];
  }

  /** The row of a step, in the terms of the checks that it has to pass. */
  ghost predicate Outcome(clean: Db, w: Wager, wallet: WalletRow, d: Decision, f: Wager, at: Instant) {
    && ValidWager(w) && ValidWager(f) && SameBusiness(w, f) && f.referenceId == ResolvedBy(d)
    && !w.kind.Opening? && w.referenceId.None? && (w.status.Pending? || w.status.PendingReference?) && w.failure.None?
    && (f.referenceId.Some? ==>
          && f.referenceId.value in clean.wagers && f.referenceId.value != w.id
          && Linked(f, clean.wagers[f.referenceId.value]) && ValidWager(clean.wagers[f.referenceId.value]))
    && (Reverses(f) ==> f.referenceId.value !in clean.reversals)
    && at > 0 && w.createdAt <= at && wallet.id == w.wallet && ValidWallet(wallet) && BelongsTo(w, wallet)
    && w.id.Random? && !d.Abort? && (d.Refuse? <==> f.status.Rejected?) && (d.Settle? <==> f.status.Processed?)
    && (d.Settle? ==> (d.movement.None? <==> w.kind.Loss?))
    && (d.Settle? && d.movement.Some? ==> MovementOk(w, wallet, d.movement.value, at))
  }

  lemma OutcomeFacts(clean: Db, base: Db, w: Wager, d: Decision, stamp: Stamp, trace: Trace)
    requires Working(clean, base, w, d, stamp, trace)
    ensures Outcome(clean, w, clean.wallets[w.wallet], d, After(w, clean.wallets[w.wallet], d, stamp.at), stamp.at)
  {
    hide IndexOk, LinksOk, ReversalsOk, LedgerOk, AllBooked, BalancesOk, StreamOk, EventsOk, InboxOk, IdsOk,
         DecisionOk, DecideIn, Validate, PayloadOfWager, Unused, MovementOk, Linked;
    var wallet := clean.wallets[w.wallet];
    StepFacts(clean, w, d, stamp, trace);
    OutcomeShape(w, wallet, d, stamp.at);
    DecisionSummary(clean, w, d, stamp.at);
    NothingFailedYet(w);
    var f := After(w, wallet, d, stamp.at);
    assert Fits(clean, f) && ValidWager(f);
    if f.referenceId.Some? {
      assert RowOk(clean.wallets, clean.wagers[f.referenceId.value]);
      assert ValidWager(clean.wagers[f.referenceId.value]);
      assert Linked(f, clean.wagers[f.referenceId.value]);
      assert f.referenceId.value != w.id by {
        LinkedApart(f, clean.wagers[f.referenceId.value]);
      }
    }
    hide RowOk, After;
  }

  lemma LinkedApart(w: Wager, r: Wager)
    requires Linked(w, r)
    ensures r.id != w.id
  {
  }

  lemma NothingFailedYet(w: Wager)
    requires ValidWager(w) && !IsTerminal(w)
    ensures w.failure.None?
  {
  }

  /** The update of the row passes the row checks, the trigger and the unique index. */
  lemma UpdatePasses(clean: Db, view: Db, w: Wager, wallet: WalletRow, d: Decision, f: Wager, at: Instant)
    requires Outcome(clean, w, wallet, d, f, at) && f == After(w, wallet, d, at) && (d.Refuse? ==> !d.code.OtherCode?)
    requires view.wagers == clean.wagers[w.id := w] && view.reversals == clean.reversals
    requires !(d.Wait? && w.status.PendingReference?)
    ensures UpdateWagerError(view, f).None? && Overwritten(view.wagers[f.id], f) == f
  {
    CodesAreShort(w, wallet, d, at);
    assert !Reverses(w) && f.id == w.id;
    hide Linked, After, Validate, RowChecks, ReferenceFits, CodeText, MovementOk;
    ValidRowPasses(f);
    if f.referenceId.Some? {
      OpeningsAreNotReferred(f, clean.wagers[f.referenceId.value]);
      LinkPasses(view.wagers, f);
    } else {
      NoReferenceFits(view.wagers, f);
    }
  }

  lemma NoReferenceFits(wagers: map<Uuid, Wager>, w: Wager)
    requires w.referenceId.None?
    ensures ReferenceFits(wagers, w)
  {
  }

  lemma CodesAreShort(w: Wager, wallet: WalletRow, d: Decision, at: Instant)
    requires w.failure.None? || |CodeText(w.failure.value)| <= 100
    requires d.Refuse? ==> !d.code.OtherCode?
    ensures var f := After(w, wallet, d, at); f.failure.Some? ==> |CodeText(f.failure.value)| <= 100
  {
  }

  lemma OpeningsAreNotReferred(w: Wager, r: Wager)
    requires ValidWager(w) && ValidWager(r) && Linked(w, r)
    ensures !r.kind.Opening?
  {
  }

  /** The status changes that lead to the row succeed. */
  lemma MarksPass(clean: Db, w: Wager, wallet: WalletRow, v: Wager, d: Decision, f: Wager, at: Instant)
    requires Outcome(clean, w, wallet, d, f, at) && f == After(w, wallet, d, at) && Held(w, v, ResolvedBy(d), at)
    requires d.Refuse? ==> !d.code.OtherCode?
    ensures match d
            case Refuse(code, _) => RejectedMarked(v, code, at) == Ok(f)
            case Settle(_, m) =>
              ProcessedMarked(v, if m.Some? then m.value.moved.balance else wallet.balance, at) == Ok(f)
            case Wait => w.status.Pending? && NeedsReference(w) ==> PendingReferenceMarked(v, at) == Ok(f)
            case Abort(_) => true
  {
    HeldIsValid(w, f, v, ResolvedBy(d), at);
    assert d.Settle? && NeedsReference(w) ==> f.referenceId.Some?;
    hide Validate, Linked;
  }

  lemma HeldIsValid(w: Wager, f: Wager, v: Wager, resolved: Option<Uuid>, at: Instant)
    requires ValidWager(w) && ValidWager(f) && SameBusiness(w, f) && f.referenceId == resolved
    requires !w.kind.Opening? && (w.status.Pending? || w.status.PendingReference?) && w.createdAt <= at
    requires Held(w, v, resolved, at)
    ensures CanChange(v).None?
  {
  }

  /** An event of the step is accepted: its identity is new, and its wallet and its tracing are known. */
  lemma EventPasses(view: Db, event: Event, slot: nat, ticket: nat)
    requires event.id == Random(ticket, slot) && event.aggregate in view.wallets && !event.aggregate.Nil?
    requires event.occurredAt > 0 && !Blank(event.trace.correlation)
    requires forall j :: 0 <= j < |view.outbox| ==> view.outbox[j].id != Random(ticket, slot)
    ensures CreateEventError(view, event).None? && !EventStored(view, event)
  {
    StorageAcceptsText(event.trace.correlation);
    hide Blank, BlankToStorage;
  }

  /** The entry of the step can be made and announced. */
  lemma EntryMakes(w: Wager, f: Wager, wallet: WalletRow, m: Movement, stamp: Stamp, trace: Trace)
    requires ValidWager(f) && f.status.Processed? && f.id == w.id && f.wallet == wallet.id && f.money == w.money
    requires ValidWallet(wallet) && MovementOk(w, wallet, m, stamp.at) && stamp.at > 0 && !w.kind.Opening?
    requires f.kind == w.kind && f.result == Some(m.moved.balance) && f.updatedAt == stamp.at
    requires DirectionFitsKind(w.kind, m.direction) && !Blank(trace.correlation)
    ensures NewLedgerEntry(wallet.id, f.id, m.direction, f.money, wallet.balance, m.moved.balance,
                           Fresh(stamp, ENTRY_SLOT), stamp.at) == Ok(EntryOf(f, wallet, m, stamp))
    ensures NewBalanceChanged(f, EntryOf(f, wallet, m, stamp), m.moved.version, trace, Fresh(stamp, CHANGE_SLOT))
            == Ok(Event(Fresh(stamp, CHANGE_SLOT), f.wallet, f.updatedAt, trace,
                        BalanceChanged(EntryOf(f, wallet, m, stamp), m.moved.version)))
  {
    assert !f.id.Nil? && !f.wallet.Nil?;
    hide Validate, Blank;
  }

  /** The outcome of the step can be announced. */
  lemma OutcomeAnnounces(f: Wager, stamp: Stamp, trace: Trace)
    requires ValidWager(f) && f.updatedAt > 0 && !Blank(trace.correlation)
    ensures f.status.Processed? ==>
              NewTransactionProcessed(f, trace, Fresh(stamp, OUTCOME_SLOT))
              == Ok(Event(Fresh(stamp, OUTCOME_SLOT), f.wallet, f.updatedAt, trace, TransactionProcessed(f)))
    ensures f.status.Rejected? ==>
              NewTransactionRejected(f, trace, Fresh(stamp, OUTCOME_SLOT))
              == Ok(Event(Fresh(stamp, OUTCOME_SLOT), f.wallet, f.updatedAt, trace, TransactionRejected(f)))
    ensures f.status.PendingReference? ==>
              NewTransactionPendingReference(f, trace, Fresh(stamp, OUTCOME_SLOT))
              == Ok(Event(Fresh(stamp, OUTCOME_SLOT), f.wallet, f.updatedAt, trace, TransactionPendingReference(f)))
  {
    assert !f.wallet.Nil?;
    hide Validate, Blank;
  }
}
