/** The financial step as the program runs it: entities and repositories, statement by statement. */
module Processing {
  import opened Core
  import opened Finance
  import opened Domain
  import opened Engine
  import opened Invariant
  import opened Decisions
  import opened Entities
  import opened Storage
  import opened Writes
  import Preservation
  import Steps

  function OutcomeEvent(f: Wager, content: Content, stamp: Stamp, trace: Trace): Event {
    Event(Fresh(stamp, OUTCOME_SLOT), f.wallet, f.updatedAt, trace, content)
  }

  /** The view once a refused or waiting operation is stored and announced. */
  lemma AnnouncedView(base: Db, w: Wager, wallet: WalletRow, d: Decision, f: Wager, stamp: Stamp, trace: Trace)
    requires SameBusiness(w, f) && !Reverses(w) && f == After(w, wallet, d, stamp.at)
    ensures d.Refuse? ==>
              Published(Recorded(Recorded(base, w), f), [OutcomeEvent(f, TransactionRejected(f), stamp, trace)])
              == Enacted(base, w, wallet, d, stamp, trace)
    ensures d.Wait? && w.status.Pending? ==>
              Published(Recorded(Recorded(base, w), f), [OutcomeEvent(f, TransactionPendingReference(f), stamp, trace)])
              == Enacted(base, w, wallet, d, stamp, trace)
    ensures d.Wait? && !w.status.Pending? ==> Recorded(base, w) == Enacted(base, w, wallet, d, stamp, trace)
  {
    RecordedTwice(base, w, f);
    assert Published(Recorded(base, f), []) == Recorded(base, f);
    hide Recorded;
  }

  /** What the methods need of the data beneath a step: nothing there has an identity of this execution. */
  lemma WorkingNames(clean: Db, base: Db, w: Wager, d: Decision, stamp: Stamp, trace: Trace)
    requires Working(clean, base, w, d, stamp, trace)
    ensures w.wallet in clean.wallets
    ensures forall j, slot :: 0 <= j < |base.outbox| ==> base.outbox[j].id != Random(stamp.ticket, slot)
    ensures forall k, slot :: 0 <= k < |base.ledger| ==> base.ledger[k].id != Random(stamp.ticket, slot)
    ensures !Blank(trace.correlation) && base.wallets == clean.wallets
    ensures base.wagers == clean.wagers && base.reversals == clean.reversals && base.ledger == clean.ledger
  {
    hide Inv, Timely, Decided, Blank, Validate, PayloadOfWager;
  }

  method RejectWager(r: Session, t: WagerTransaction, trace: Trace, code: FailureCode, stamp: Stamp,
                     ghost clean: Db, ghost base: Db, ghost w: Wager)
    returns (err: Option<Error>)
    requires !code.OtherCode? && Working(clean, base, w, Refuse(code, t.referenceId), stamp, trace)
    requires Held(w, t.Value(), t.referenceId, stamp.at) && r.view == Recorded(base, w)
    modifies r, t
    ensures err.None?
    ensures var wallet, d := clean.wallets[w.wallet], Refuse(code, old(t.referenceId));
            && t.Value() == After(w, wallet, d, stamp.at)
            && r.view == Enacted(base, w, wallet, d, stamp, trace)
  {
    hide Working, Validate, UpdateWagerError, CreateEventError, EventStored, Outcome, Enacted;
    WorkingNames(clean, base, w, Refuse(code, t.referenceId), stamp, trace);
    ghost var wallet, d := clean.wallets[w.wallet], Refuse(code, t.referenceId);
    ghost var f := After(w, wallet, d, stamp.at);
    OutcomeFacts(clean, base, w, d, stamp, trace);
    OutcomeNames(clean, w, wallet, d, f, stamp.at);
    AnnouncedView(base, w, wallet, d, f, stamp, trace);
    MarksPass(clean, w, wallet, t.Value(), d, f, stamp.at);
    err := t.Reject(code, stamp.at);
    if err.Some? {
      return;
    }
    UpdatePasses(clean, r.view, w, wallet, d, f, stamp.at);
    err := r.UpdateWager(t);
    if err.Some? {
      return;
    }
    OutcomeAnnounces(f, stamp, trace);
    var event := NewTransactionRejected(t.Value(), trace, Fresh(stamp, OUTCOME_SLOT));
    err := ErrorOf(event);
    if err.Some? {
      return;
    }
    EventPasses(r.view, event.value, OUTCOME_SLOT, stamp.ticket);
    err := r.CreateEvent(event.value);
  }

  /** What the methods need of the row that a step leaves. */
  lemma OutcomeNames(clean: Db, w: Wager, wallet: WalletRow, d: Decision, f: Wager, at: Instant)
    requires Outcome(clean, w, wallet, d, f, at) && f == After(w, wallet, d, at)
    ensures ValidWager(f) && SameBusiness(w, f) && !Reverses(w) && f.id == w.id && at > 0
    ensures f.wallet == w.wallet == wallet.id && !f.wallet.Nil?
    ensures d.Refuse? ==> f.status.Rejected? && f.updatedAt == at
    ensures d.Settle? ==> f.status.Processed? && f.updatedAt == at && f.money == w.money && f.kind == w.kind
    ensures d.Wait? && w.status.Pending? ==> f.status.PendingReference? && f.updatedAt == at
    ensures w.kind.Opening? == false && w.referenceId.None? && (w.status.Pending? || w.status.PendingReference?)
  {
    assert !f.wallet.Nil?;
    hide Validate, Linked, MovementOk;
  }

  /** A wager that already waits keeps its row and its event. */
  method WaitForReference(r: Session, t: WagerTransaction, trace: Trace, stamp: Stamp,
                          ghost clean: Db, ghost base: Db, ghost w: Wager)
    returns (err: Option<Error>)
    requires Working(clean, base, w, Wait, stamp, trace) && NeedsReference(w)
    requires t.Value() == w && r.view == Recorded(base, w)
    modifies r, t
    ensures err.None?
    ensures var wallet := clean.wallets[w.wallet];
            && t.Value() == After(w, wallet, Wait, stamp.at)
            && r.view == Enacted(base, w, wallet, Wait, stamp, trace)
  {
    hide Working, Validate, UpdateWagerError, CreateEventError, EventStored, Outcome, Enacted;
    WorkingNames(clean, base, w, Wait, stamp, trace);
    ghost var wallet := clean.wallets[w.wallet];
    ghost var f := After(w, wallet, Wait, stamp.at);
    OutcomeFacts(clean, base, w, Wait, stamp, trace);
    OutcomeNames(clean, w, wallet, Wait, f, stamp.at);
    AnnouncedView(base, w, wallet, Wait, f, stamp, trace);
    if t.status.PendingReference? {
      return None;
    }
    MarksPass(clean, w, wallet, t.Value(), Wait, f, stamp.at);
    err := t.MarkPendingReference(stamp.at);
    if err.Some? {
      return;
    }
    UpdatePasses(clean, r.view, w, wallet, Wait, f, stamp.at);
    err := r.UpdateWager(t);
    if err.Some? {
      return;
    }
    OutcomeAnnounces(f, stamp, trace);
    var event := NewTransactionPendingReference(t.Value(), trace, Fresh(stamp, OUTCOME_SLOT));
    err := ErrorOf(event);
    if err.Some? {
      return;
    }
    EventPasses(r.view, event.value, OUTCOME_SLOT, stamp.ticket);
    err := r.CreateEvent(event.value);
  }

  // ---- The whole step --------------------------------------------------------------------------

  /** The view once a settled operation is stored, announced and, unless it is a loss, posted. */
  lemma SettledView(base: Db, w: Wager, wallet: WalletRow, d: Decision, f: Wager, stamp: Stamp, trace: Trace)
    requires SameBusiness(w, f) && !Reverses(w) && f == After(w, wallet, d, stamp.at) && d.Settle?
    ensures var announced := Published(Recorded(Recorded(base, w), f), [OutcomeEvent(f, TransactionProcessed(f), stamp, trace)]);
            match d.movement
            case None => announced == Enacted(base, w, wallet, d, stamp, trace)
            case Some(m) =>
              var e := EntryOf(f, wallet, m, stamp);
              Published(Posted(announced, m.moved, e), [ChangeEvent(f, e, m.moved.version, stamp, trace)])
              == Enacted(base, w, wallet, d, stamp, trace)
  {
    RecordedTwice(base, w, f);
    if d.movement.Some? {
      var e := EntryOf(f, wallet, d.movement.value, stamp);
      var a, b := OutcomeEvent(f, TransactionProcessed(f), stamp, trace), ChangeEvent(f, e, d.movement.value.moved.version, stamp, trace);
      assert base.outbox + [a] + [b] == base.outbox + [a, b];
    }
    hide Recorded;
  }

  function ChangeEvent(f: Wager, e: Entry, version: int64, stamp: Stamp, trace: Trace): Event {
    Event(Fresh(stamp, CHANGE_SLOT), f.wallet, f.updatedAt, trace, BalanceChanged(e, version))
  }

  /** The wallet of a movement, written under the version that it had. */
  lemma WalletPasses(view: Db, wallet: WalletRow, m: Movement, w: Wager, at: Instant)
    requires wallet.id in view.wallets && view.wallets[wallet.id] == wallet && ValidWallet(wallet)
    requires MovementOk(w, wallet, m, at)
    ensures UpdateWalletError(view, m.moved).None?
    ensures WalletUpdated(view, m.moved) == view.(wallets := view.wallets[wallet.id := m.moved])
  {
  }

  /** What the stored data know of the entry of a movement. */
  ghost predicate Postable(clean: Db, rows: map<Uuid, Wager>, f: Wager, e: Entry) {
    && EntryOk(rows, e) && LinksOk(rows) && !f.kind.Opening? && rows == clean.wagers[f.id := f]
    && (forall id :: id in rows ==> rows[id].id == id)
    && f.id !in Booked(clean.ledger) && e.wallet in clean.wallets
    && e.transaction == f.id && f.wallet == e.wallet && f.money == e.money
    && (forall k :: 0 <= k < |clean.ledger| ==> clean.ledger[k].id != e.id)
  }

  lemma PostingFacts(clean: Db, w: Wager, wallet: WalletRow, d: Decision, m: Movement, f: Wager, stamp: Stamp,
                     trace: Trace)
    requires Inv(clean) && Steps.Enactable(clean, w, d, stamp, trace)
    requires w.wallet in clean.wallets && wallet == clean.wallets[w.wallet] && f == After(w, wallet, d, stamp.at)
    requires d.Settle? && d.movement == Some(m)
    ensures Postable(clean, clean.wagers[f.id := f], f, EntryOf(f, wallet, m, stamp))
  {
    hide IndexOk, RowOk, ReversalsOk, StreamOk, EventsOk, InboxOk, IdsOk, DecideIn, Decided, Validate, PayloadOfWager,
         LinksOk, LedgerOk, EntryOk, InOrder, Linked, DecisionOk;
    Steps.StepFacts(clean, w, d, stamp, trace);
    OutcomeShape(w, wallet, d, stamp.at);
    assert Steps.Fits(clean, f);
    Preservation.EntriesKept(clean.wagers, clean.ledger, f);
    Preservation.LinksKept(clean.wagers, f);
    Steps.EntryFits(clean, w, d, stamp);
  }

  /** The entry of a movement passes the checks, the keys and the trigger of the ledger. */
  lemma PostingPasses(clean: Db, view: Db, f: Wager, e: Entry)
    requires Postable(clean, view.wagers, f, e) && view.ledger == clean.ledger && view.wallets.Keys == clean.wallets.Keys
    ensures CreateEntryError(view, e).None?
  {
    assert e.transaction in view.wagers && view.wagers[e.transaction] == f;
    hide LinksOk, EntryOk, Booked;
    Schema.EntryPasses(view.wagers, e);
    Preservation.BookedIsListed(clean.ledger);
    hide Schema.EntryFits, Schema.EntryChecks;
  }

  /** The circumstances of a step before anything is decided. */
  ghost predicate Starting(clean: Db, base: Db, w: Wager, stamp: Stamp, trace: Trace) {
    && Inv(clean) && Beneath(clean, base) && Ready(clean, w) && Timely(clean, w, stamp.at)
    && Unused(clean, stamp.ticket) && !Blank(trace.correlation)
  }

  lemma StartingWorks(clean: Db, base: Db, w: Wager, d: Decision, stamp: Stamp, trace: Trace)
    requires Starting(clean, base, w, stamp, trace)
    ensures w.wallet in clean.wallets
    ensures Decided(clean, w, d, stamp.at) ==> Working(clean, base, w, d, stamp, trace)
  {
    hide Inv, Timely, Unused, Validate, PayloadOfWager;
  }

  /** The names of a decision that moves the wallet, or fails to. */
  lemma MoveNames(w: Wager, wallet: WalletRow, original: Option<Wager>, at: Instant)
    ensures var direction := DirectionOf(w.kind, original);
            var moved := if direction.Debit? then Debited(wallet, w.money, at) else Credited(wallet, w.money, at);
            var resolved := if original.Some? then Some(original.value.id) else w.referenceId;
            var d := Move(w, wallet, original, at);
            && (w.kind.Loss? ==> d == Settle(resolved, None))
            && (!w.kind.Loss? && moved.Ok? ==> d == Settle(resolved, Some(Movement(direction, moved.value))))
            && (!w.kind.Loss? && moved == Err(ErrInsufficientBalance) ==>
                  d == Refuse(if w.kind.Rollback? then ReversalInsufficientBalance else InsufficientBalance, resolved))
            && (!w.kind.Loss? && moved == Err(ErrMoneyOverflow) ==> d == Refuse(MoneyOverflow, resolved))
            && (!w.kind.Loss? && moved.Err? && moved.error != ErrInsufficientBalance && moved.error != ErrMoneyOverflow ==>
                  d == Abort(moved.error))
  {
    hide Credited, Debited;
  }

  /** Stores the entry of a movement and announces the change of balance. */
  method PostMovement(r: Session, wallet: Wallet, t: WagerTransaction, direction: Direction, before: Money,
                      trace: Trace, stamp: Stamp, ghost clean: Db, ghost base: Db, ghost w: Wager, ghost d: Decision)
    returns (err: Option<Error>)
    requires Working(clean, base, w, d, stamp, trace) && d.Settle? && w.wallet in clean.wallets && !w.kind.Loss?
    requires d.movement == Some(Movement(direction, wallet.Value()))
    requires t.Value() == After(w, clean.wallets[w.wallet], d, stamp.at)
    requires before == clean.wallets[w.wallet].balance && DirectionFitsKind(w.kind, direction)
    requires r.view.wagers == clean.wagers[t.id := t.Value()] && r.view.ledger == clean.ledger
    requires r.view.wallets.Keys == clean.wallets.Keys
    requires forall j :: 0 <= j < |r.view.outbox| ==> r.view.outbox[j].id != Random(stamp.ticket, CHANGE_SLOT)
    modifies r
    ensures err.None?
    ensures var e := EntryOf(t.Value(), clean.wallets[w.wallet], d.movement.value, stamp);
            r.view == Published(old(r.view).(ledger := old(r.view).ledger + [e]),
                                [ChangeEvent(t.Value(), e, wallet.version, stamp, trace)])
  {
    hide Working, Validate, CreateEventError, CreateEntryError, EventStored, Outcome, Enacted, After, MovementOk,
         Postable;
    ghost var row := clean.wallets[w.wallet];
    ghost var f := t.Value();
    WorkingNames(clean, base, w, d, stamp, trace);
    OutcomeFacts(clean, base, w, d, stamp, trace);
    OutcomeNames(clean, w, row, d, f, stamp.at);
    MovementFacts(clean, w, row, d, f, stamp.at);
    EntryMakes(w, f, row, d.movement.value, stamp, trace);
    var entry := NewLedgerEntry(wallet.id, t.id, direction, t.money, before, wallet.balance, Fresh(stamp, ENTRY_SLOT),
                                stamp.at);
    err := ErrorOf(entry);
    if err.Some? {
      return;
    }
    WorkingPosts(clean, base, w, row, d, f, stamp, trace);
    PostingPasses(clean, r.view, f, entry.value);
    err := r.CreateEntry(entry.value);
    if err.Some? {
      return;
    }
    var changed := NewBalanceChanged(t.Value(), entry.value, wallet.version, trace, Fresh(stamp, CHANGE_SLOT));
    err := ErrorOf(changed);
    if err.Some? {
      return;
    }
    EventPasses(r.view, changed.value, CHANGE_SLOT, stamp.ticket);
    err := r.CreateEvent(changed.value);
  }

  /** Stores the settled wager and its outcome event. */
  method StoreProcessed(r: Session, t: WagerTransaction, balance: Money, trace: Trace, stamp: Stamp,
                        ghost clean: Db, ghost base: Db, ghost w: Wager, ghost d: Decision)
    returns (err: Option<Error>)
    requires Working(clean, base, w, d, stamp, trace) && d.Settle? && w.wallet in clean.wallets
    requires Held(w, t.Value(), d.resolved, stamp.at)
    requires balance == if d.movement.Some? then d.movement.value.moved.balance else clean.wallets[w.wallet].balance
    requires r.view.wagers == clean.wagers[w.id := w] && r.view.reversals == clean.reversals
    requires r.view.outbox == base.outbox && w.wallet in r.view.wallets
    modifies r, t
    ensures err.None? && t.Value() == After(w, clean.wallets[w.wallet], d, stamp.at)
    ensures r.view == Published(Recorded(old(r.view), t.Value()),
                                [OutcomeEvent(t.Value(), TransactionProcessed(t.Value()), stamp, trace)])
  {
    hide Working, Validate, UpdateWagerError, CreateEventError, EventStored, Outcome, After;
    ghost var row := clean.wallets[w.wallet];
    ghost var f := After(w, row, d, stamp.at);
    WorkingNames(clean, base, w, d, stamp, trace);
    OutcomeFacts(clean, base, w, d, stamp, trace);
    OutcomeNames(clean, w, row, d, f, stamp.at);
    MarksPass(clean, w, row, t.Value(), d, f, stamp.at);
    err := t.MarkProcessed(balance, stamp.at);
    if err.Some? {
      return;
    }
    UpdatePasses(clean, r.view, w, row, d, f, stamp.at);
    err := r.UpdateWager(t);
    if err.Some? {
      return;
    }
    OutcomeAnnounces(f, stamp, trace);
    var processed := NewTransactionProcessed(t.Value(), trace, Fresh(stamp, OUTCOME_SLOT));
    err := ErrorOf(processed);
    if err.Some? {
      return;
    }
    EventPasses(r.view, processed.value, OUTCOME_SLOT, stamp.ticket);
    err := r.CreateEvent(processed.value);
  }

  /** Stores the moved wallet, the settled wager, its entry and its two events; a loss has the wager and one event only. */
  method BookWager(r: Session, wallet: Wallet, t: WagerTransaction, direction: Direction, before: Money, trace: Trace,
                   stamp: Stamp, ghost clean: Db, ghost base: Db, ghost w: Wager, ghost d: Decision)
    returns (err: Option<Error>)
    requires Working(clean, base, w, d, stamp, trace) && d.Settle? && w.wallet in clean.wallets
    requires Held(w, t.Value(), d.resolved, stamp.at) && r.view == Recorded(base, w)
    requires d.movement == if w.kind.Loss? then None else Some(Movement(direction, wallet.Value()))
    requires w.kind.Loss? ==> wallet.Value() == clean.wallets[w.wallet]
    requires before == clean.wallets[w.wallet].balance && (w.kind.Loss? || DirectionFitsKind(w.kind, direction))
    modifies r, t
    ensures err.None? && t.Value() == After(w, clean.wallets[w.wallet], d, stamp.at)
    ensures r.view == Enacted(base, w, clean.wallets[w.wallet], d, stamp, trace)
  {
    hide Working, Validate, UpdateWagerError, UpdateWalletError, CreateEventError, CreateEntryError, EventStored,
         Outcome, Enacted, After, MovementOk, Postable;
    ghost var row := clean.wallets[w.wallet];
    ghost var f := After(w, row, d, stamp.at);
    WorkingNames(clean, base, w, d, stamp, trace);
    OutcomeFacts(clean, base, w, d, stamp, trace);
    OutcomeNames(clean, w, row, d, f, stamp.at);
    SettledView(base, w, row, d, f, stamp, trace);
    RecordedParts(base, w, f);
    hide Recorded, Published, Posted, EntryOf;
    if !t.kind.Loss? {
      PostedEarlier(r.view, wallet.Value(), f, OutcomeEvent(f, TransactionProcessed(f), stamp, trace));
      MovementFacts(clean, w, row, d, f, stamp.at);
      WalletPasses(r.view, row, d.movement.value, w, stamp.at);
      err := r.UpdateWallet(wallet);
      if err.Some? {
        return;
      }
    }
    err := StoreProcessed(r, t, wallet.balance, trace, stamp, clean, base, w, d);
    if err.Some? || t.kind.Loss? {
      return;
    }
    err := PostMovement(r, wallet, t, direction, before, trace, stamp, clean, base, w, d);
  }

  /** What the view of a step has before and after its row is recorded. */
  lemma RecordedParts(base: Db, w: Wager, f: Wager)
    requires SameBusiness(w, f) && !Reverses(w)
    ensures Recorded(base, w).wagers == base.wagers[w.id := w] && Recorded(base, w).reversals == base.reversals
    ensures Recorded(base, w).outbox == base.outbox && Recorded(base, w).wallets == base.wallets
    ensures Recorded(base, w).ledger == base.ledger
    ensures base.wagers[w.id := w][f.id := f] == base.wagers[f.id := f]
  {
  }

  /** The wallet may be stored before the row and its event. */
  lemma PostedEarlier(view: Db, moved: WalletRow, f: Wager, event: Event)
    ensures var stored := Published(Recorded(view.(wallets := view.wallets[moved.id := moved]), f), [event]);
            && stored.wagers == view.wagers[f.id := f] && stored.ledger == view.ledger
            && stored.wallets == view.wallets[moved.id := moved] && stored.outbox == view.outbox + [event]
            && forall e, change ::
                 Published(stored.(ledger := stored.ledger + [e]), [change])
                 == Published(Posted(Published(Recorded(view, f), [event]), moved, e), [change])
  {
    hide Reverses;
  }

  lemma WorkingPosts(clean: Db, base: Db, w: Wager, wallet: WalletRow, d: Decision, f: Wager, stamp: Stamp, trace: Trace)
    requires Working(clean, base, w, d, stamp, trace) && w.wallet in clean.wallets && wallet == clean.wallets[w.wallet]
    requires f == After(w, wallet, d, stamp.at) && d.Settle? && d.movement.Some?
    ensures Postable(clean, clean.wagers[f.id := f], f, EntryOf(f, wallet, d.movement.value, stamp))
  {
    hide Inv, Steps.Enactable, After, EntryOf, Postable;
    PostingFacts(clean, w, wallet, d, d.movement.value, f, stamp, trace);
  }

  lemma MovementFacts(clean: Db, w: Wager, wallet: WalletRow, d: Decision, f: Wager, at: Instant)
    requires Outcome(clean, w, wallet, d, f, at) && d.Settle? && d.movement.Some?
    ensures ValidWallet(wallet) && wallet.id == w.wallet && MovementOk(w, wallet, d.movement.value, at)
    ensures d.movement.value.moved.id == wallet.id
    ensures f == After(w, wallet, d, at) ==> f.result == Some(d.movement.value.moved.balance)
  {
    hide Validate, Linked;
  }

  /** Once its reference is resolved, the wager moves its wallet and is settled, or is rejected. */
  method SettleWager(r: Session, wallet: Wallet, t: WagerTransaction, original: Option<Wager>, trace: Trace,
                     stamp: Stamp, ghost clean: Db, ghost base: Db, ghost w: Wager)
    returns (err: Option<Error>)
    requires Starting(clean, base, w, stamp, trace) && w.wallet in clean.wallets
    requires Held(w, t.Value(), if original.Some? then Some(original.value.id) else w.referenceId, stamp.at)
    requires r.view == Recorded(base, w) && wallet.Value() == clean.wallets[w.wallet]
    requires DecideIn(clean, w, stamp.at) == Move(w, clean.wallets[w.wallet], original, stamp.at)
    requires t.kind.Rollback? ==> original.Some?
    modifies r, wallet, t
    ensures var row, d := clean.wallets[w.wallet], DecideIn(clean, w, stamp.at);
            if d.Abort? then err == Some(d.error)
            else err.None? && t.Value() == After(w, row, d, stamp.at)
                 && r.view == Enacted(base, w, row, d, stamp, trace)
  {
    hide Starting, Working, Validate, UpdateWagerError, UpdateWalletError, CreateEventError, CreateEntryError, EventStored,
         Outcome, Enacted, DecideIn, Move, Credited, Debited, After, MovementOk, EntryOf, Recorded;
    ghost var row, d := clean.wallets[w.wallet], DecideIn(clean, w, stamp.at);
    MoveNames(w, row, original, stamp.at);
    var direction := Credit;
    if t.kind.Bet? {
      direction := Debit;
    }
    if t.kind.Rollback? && !original.value.kind.Bet? {
      direction := Debit;
    }
    var before := wallet.balance;
    if !t.kind.Loss? {
      if direction.Debit? {
        err := wallet.Debit(t.money, stamp.at);
      } else {
        err := wallet.Credit(t.money, stamp.at);
      }
      if err == Some(ErrInsufficientBalance) {
        var code := if t.kind.Rollback? then ReversalInsufficientBalance else InsufficientBalance;
        StartingWorks(clean, base, w, d, stamp, trace);
        err := RejectWager(r, t, trace, code, stamp, clean, base, w);
        return;
      }
      if err == Some(ErrMoneyOverflow) {
        StartingWorks(clean, base, w, d, stamp, trace);
        err := RejectWager(r, t, trace, MoneyOverflow, stamp, clean, base, w);
        return;
      }
      if err.Some? {
        return;
      }
    }
    StartingWorks(clean, base, w, d, stamp, trace);
    err := BookWager(r, wallet, t, direction, before, trace, stamp, clean, base, w, d);
  }

  /** What the lookups of the program find in the view: the row of the wager itself is already there. */
  lemma LookupsAgree(clean: Db, base: Db, view: Db, w: Wager, stamp: Stamp, trace: Trace)
    requires Starting(clean, base, w, stamp, trace) && view == Recorded(base, w) && w.reference.Some?
    ensures var found := FindReference(clean, w);
            && FindByExternal(view, w.provider, w.reference.value) == found
            && (found.Some? ==> ValidWager(found.value))
            && (found.Some? ==>
                  (found.value.id in clean.reversals <==>
                     exists id :: id in view.wagers && Reverses(view.wagers[id])
                                  && view.wagers[id].referenceId == Some(found.value.id)))
  {
    hide WalletsOk, RowsOk, IndexOk, LinksOk, ReversalsOk, LedgerOk, AllBooked, BalancesOk, StreamOk, EventsOk, InboxOk,
         IdsOk, Timely, Unused, Blank, FindReference, FindByExternal, Ready;
    var found := FindReference(clean, w);
    ReadyNames(clean, w);
    LookupByExternal(clean, view, w);
    if found.Some? {
      FoundIsValid(clean, w);
      ReversalsAgree(clean.wagers, clean.reversals, view.wagers, w, found.value.id);
    }
  }

  lemma FoundIsValid(db: Db, w: Wager)
    requires RowsOk(db.wallets, db.wagers) && IndexOk(db.wagers, db.byKey, db.byExternal) && ValidWager(w)
    requires FindReference(db, w).Some?
    ensures ValidWager(FindReference(db, w).value)
  {
    hide Validate, PayloadOfWager;
    if FindReference(db, w).value != w {
      FoundIsStored(db, w);
    }
  }

  /** The scan for a reversal agrees with the index that the storage keeps. */
  lemma ReversalsAgree(wagers: map<Uuid, Wager>, reversals: map<Uuid, Uuid>, rows: map<Uuid, Wager>, w: Wager, x: Uuid)
    requires ReversalsOk(wagers, reversals) && rows == wagers[w.id := w] && !Reverses(w)
    requires w.id in wagers ==> wagers[w.id] == w
    ensures x in reversals <==> exists id :: id in rows && Reverses(rows[id]) && rows[id].referenceId == Some(x)
  {
    if x in reversals {
      assert rows[reversals[x]] == wagers[reversals[x]];
    }
  }

  lemma LookupByExternal(clean: Db, view: Db, w: Wager)
    requires IndexOk(clean.wagers, clean.byKey, clean.byExternal) && w.reference.Some?
    requires view.wagers == clean.wagers[w.id := w]
    requires view.byExternal == clean.byExternal[(w.provider, w.externalId) := w.id]
    requires w.id in clean.wagers ==> clean.wagers[w.id] == w
    ensures FindByExternal(view, w.provider, w.reference.value) == FindReference(clean, w)
  {
  }

  /** The check of a reference ends in one of three ways. */
  lemma ReferenceErrors(w: Wager, r: Wager)
    ensures var e := ValidateReference(w, r);
            e.None? || e == Some(ErrReferenceNotProcessed) || e == Some(ErrInvalidWagerReference)
  {
    hide Validate;
  }

  /** What the reference alone decides. */
  lemma DecideNames(clean: Db, w: Wager, at: Instant)
    requires w.wallet in clean.wallets
    ensures var found, d := FindReference(clean, w), DecideIn(clean, w, at);
            var row := clean.wallets[w.wallet];
            && (!NeedsReference(w) ==> d == Move(w, row, None, at))
            && (NeedsReference(w) && found.None? ==> d == Wait)
            && (NeedsReference(w) && found.Some? ==>
                  match ValidateReference(w, found.value)
                  case Some(ErrReferenceNotProcessed) =>
                    d == if !IsTerminal(found.value) then Wait else Refuse(ReferenceUnsuccessful, w.referenceId)
                  case Some(_) => d == Refuse(InvalidReference, w.referenceId)
                  case None =>
                    d == if IsReversal(w.kind) && found.value.id in clean.reversals
                         then Refuse(AlreadyReversed, Some(found.value.id)) else Move(w, row, found, at))
  {
    hide ValidateReference, Move, FindReference;
  }

  /** A wager before its step: open, valid and without a resolved reference. */
  lemma StartingNames(clean: Db, base: Db, w: Wager, stamp: Stamp, trace: Trace)
    requires Starting(clean, base, w, stamp, trace)
    ensures w.wallet in clean.wallets && w.referenceId.None? && CanChange(w).None? && !w.kind.Opening?
    ensures NeedsReference(w) ==> w.reference.Some?
    ensures w.kind.Rollback? ==> NeedsReference(w)
  {
    hide Inv, Timely, Unused, Blank, PayloadOfWager;
  }

  /** The whole step: it decides what the engine decides and leaves what the engine leaves. */
  method ProcessWager(r: Session, wallet: Wallet, t: WagerTransaction, trace: Trace, stamp: Stamp,
                      ghost clean: Db, ghost base: Db)
    returns (err: Option<Error>)
    requires Starting(clean, base, t.Value(), stamp, trace) && t.wallet in clean.wallets
    requires r.view == Recorded(base, t.Value()) && wallet.Value() == clean.wallets[t.wallet]
    modifies r, wallet, t
    ensures var w, row, d := old(t.Value()), clean.wallets[t.wallet], DecideIn(clean, old(t.Value()), stamp.at);
            if d.Abort? then err == Some(d.error)
            else err.None? && t.Value() == After(w, row, d, stamp.at)
                 && r.view == Enacted(base, w, row, d, stamp, trace)
  {
    hide Starting, Working, Validate, ValidateReference, Enacted, DecideIn, Move, After, Recorded, FindByExternal,
         FindReference;
    ghost var w := t.Value();
    ghost var d := DecideIn(clean, w, stamp.at);
    StartingNames(clean, base, w, stamp, trace);
    StartingWorks(clean, base, w, d, stamp, trace);
    DecideNames(clean, w, stamp.at);
    var original: Option<Wager> := None;
    if NeedsReference(t.Value()) {
      LookupsAgree(clean, base, r.view, w, stamp, trace);
      var found := r.FindByExternalId(t.provider, t.reference.value);
      if found == Err(ErrWagerNotFound) {
        err := WaitForReference(r, t, trace, stamp, clean, base, w);
        return;
      }
      err := ErrorOf(found);
      if err.Some? {
        return;
      }
      ReferenceErrors(w, found.value);
      err := t.ResolveReference(found.value, stamp.at);
      if err == Some(ErrReferenceNotProcessed) {
        if !IsTerminal(found.value) {
          err := WaitForReference(r, t, trace, stamp, clean, base, w);
        } else {
          err := RejectWager(r, t, trace, ReferenceUnsuccessful, stamp, clean, base, w);
        }
        return;
      }
      if err == Some(ErrInvalidWagerReference) {
        err := RejectWager(r, t, trace, InvalidReference, stamp, clean, base, w);
        return;
      }
      if err.Some? {
        return;
      }
      if IsReversal(t.kind) {
        var reversed := r.HasSuccessfulReversal(found.value.id);
        if reversed {
          err := RejectWager(r, t, trace, AlreadyReversed, stamp, clean, base, w);
          return;
        }
      }
      original := Some(found.value);
    }
    err := SettleWager(r, wallet, t, original, trace, stamp, clean, base, w);
  }
}
