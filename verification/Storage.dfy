/** The private view of one transaction, and the repositories that write to it. */
module Storage {
  import opened Core
  import opened Finance
  import opened Domain
  import opened Engine
  import opened Schema
  import opened Entities
  import Delays

  // ---- What each statement does to the stored data -------------------------------------------

  /** A row read back is validated again. */
  function Rehydrated(found: Option<Wager>): Result<Wager> {
    if found.None? then Err(ErrWagerNotFound)
    else if Validate(found.value).Some? then Err(Validate(found.value).value)
    else Ok(found.value)
  }

  /** No row is an error of its own, and so is a row that is not valid; any other is answered as it is. */
  predicate ReadBack(row: Option<Wager>, found: Result<Wager>) {
    match row
    case None => found == Err(ErrWagerNotFound)
    case Some(w) => if ValidWager(w) then found == Ok(w) else found.Err? && found.error != ErrWagerNotFound
  }

  function InsertWagerError(db: Db, w: Wager): Option<Error> {
    if !ReferenceFits(db.wagers, w) || !RowChecks(w) || !Sizes(w) then Some(ErrConstraint)
    else if KeyTaken(db, w) then Some(ErrWagerConflict)
    else if !WalletKnown(db.wallets, w) then Some(ErrConstraint)
    else None
  }

  function WagerInserted(db: Db, w: Wager, at: Instant): Db {
    if w.kind.Opening? then db.(wagers := db.wagers[w.id := w], schedules := db.schedules[w.id := Schedule(0, at)])
    else Recorded(Enrolled(db, w, at), w)
  }

  /** The row that an update leaves: it writes the status, the link, the outcome and the instant. */
  function Overwritten(stored: Wager, w: Wager): Wager {
    stored.(status := w.status, referenceId := w.referenceId, failure := w.failure, result := w.result,
            updatedAt := w.updatedAt)
  }

  function UpdateWagerError(db: Db, w: Wager): Option<Error> {
    if w.id !in db.wagers || IsTerminal(db.wagers[w.id]) then Some(ErrWagerNotPending)
    else
      var row := Overwritten(db.wagers[w.id], w);
      if !TransitionFits(db.wagers[w.id], row) || !ReferenceFits(db.wagers, row) || !RowChecks(row)
         || (w.failure.Some? && |CodeText(w.failure.value)| > 100) || ReversalTaken(db, row) then Some(ErrConstraint)
      else None
  }

  function UpdateWalletError(db: Db, row: WalletRow): Option<Error> {
    if row.id !in db.wallets || db.wallets[row.id].version as int != row.version - 1 then Some(ErrWalletConcurrentUpdate)
    else if row.balance.amount < 0 || row.version < 1 then Some(ErrConstraint)
    else None
  }

  function WalletUpdated(db: Db, row: WalletRow): Db
    requires row.id in db.wallets
  {
    var stored := db.wallets[row.id];
    db.(wallets := db.wallets[row.id := stored.(balance := Money(row.balance.amount, stored.balance.currency),
                                                version := row.version, updatedAt := row.updatedAt)])
  }

  function CreateWalletError(db: Db, row: WalletRow): Option<Error> {
    if row.balance.amount < 0 || row.version < 1 || !ValidCurrency(row.balance.currency) then Some(ErrConstraint)
    else if row.id in db.wallets || (row.player, row.balance.currency) in db.byOwner then Some(ErrWalletConflict)
    else None
  }

  function CreateEntryError(db: Db, e: Entry): Option<Error> {
    if !EntryFits(db.wagers, e) || !EntryChecks(e) || !EntryKeys(db, e) then Some(ErrConstraint) else None
  }

  /** A second event with the same identity is ignored if it is the same, and refused otherwise. */
  function CreateEventError(db: Db, event: Event): Option<Error> {
    if event.id.Nil? || event.aggregate.Nil? || event.occurredAt == 0 then Some(ErrInvalidEvent)
    else if !EventChecks(db, event) then Some(ErrConstraint)
    else if exists j :: 0 <= j < |db.outbox| && db.outbox[j].id == event.id && db.outbox[j] != event then
      Some(ErrOutboxConflict)
    else None
  }

  predicate EventStored(db: Db, event: Event) {
    exists j :: 0 <= j < |db.outbox| && db.outbox[j].id == event.id
  }

  /** The writing statements of the repositories. */
  datatype Write =
    | InsertWager(wager: Wager, at: Instant)
    | UpdateWager(wager: Wager)
    | InsertWallet(wallet: WalletRow)
    | UpdateWallet(wallet: WalletRow)
    | InsertEntry(entry: Entry)
    | InsertEvent(event: Event)

  function Refusal(db: Db, write: Write): Option<Error> {
    match write
    case InsertWager(w, _) => InsertWagerError(db, w)
    case UpdateWager(w) => UpdateWagerError(db, w)
    case InsertWallet(row) => CreateWalletError(db, row)
    case UpdateWallet(row) => UpdateWalletError(db, row)
    case InsertEntry(e) => CreateEntryError(db, e)
    case InsertEvent(event) => CreateEventError(db, event)
  }

  /** The data after the statement: a refused one changes nothing. */
  function Written(db: Db, write: Write): Db {
    if Refusal(db, write).Some? then db
    else
      match write
      case InsertWager(w, at) => WagerInserted(db, w, at)
      case UpdateWager(w) => Recorded(db, Overwritten(db.wagers[w.id], w))
      case InsertWallet(row) =>
        db.(wallets := db.wallets[row.id := row],
            byOwner := db.byOwner[(row.player, row.balance.currency) := row.id])
      case UpdateWallet(row) => WalletUpdated(db, row)
      case InsertEntry(e) => db.(ledger := db.ledger + [e])
      case InsertEvent(event) => if EventStored(db, event) then db else Published(db, [event])
  }

  // ---- The repositories ----------------------------------------------------------------------

  class Session {
    var view: Db

    constructor (committed: Db)
      ensures view == committed
    {
      view := committed;
    }

    method FindWalletForUpdate(id: Uuid) returns (found: Result<Wallet>)
      ensures id !in view.wallets ==> found == Err(ErrWalletNotFound)
      ensures id in view.wallets && !ValidWallet(view.wallets[id]) ==> found == Err(ErrInvalidWallet)
      ensures id in view.wallets && ValidWallet(view.wallets[id]) ==>
                found.Ok? && fresh(found.value) && found.value.Value() == view.wallets[id]
    {
      if id !in view.wallets {
        return Err(ErrWalletNotFound);
      }
      if !ValidWallet(view.wallets[id]) {
        return Err(ErrInvalidWallet);
      }
      var wallet := new Wallet(view.wallets[id]);
      return Ok(wallet);
    }

    method CreateWallet(wallet: Wallet) returns (err: Option<Error>)
      modifies this
      ensures var write := Write.InsertWallet(wallet.Value());
              err == Refusal(old(view), write) && view == Written(old(view), write)
    {
      err := CreateWalletError(view, wallet.Value());
      if err.None? {
        view := view.(wallets := view.wallets[wallet.id := wallet.Value()],
                      byOwner := view.byOwner[(wallet.player, wallet.balance.currency) := wallet.id]);
      }
    }

    /** The version that the wallet had before its movement guards the write. */
    method UpdateWallet(wallet: Wallet) returns (err: Option<Error>)
      modifies this
      ensures var write := Write.UpdateWallet(wallet.Value());
              err == Refusal(old(view), write) && view == Written(old(view), write)
    {
      err := UpdateWalletError(view, wallet.Value());
      if err.None? {
        view := WalletUpdated(view, wallet.Value());
      }
    }

    method CreateWager(t: WagerTransaction, at: Instant) returns (err: Option<Error>)
      modifies this
      ensures var write := Write.InsertWager(t.Value(), at);
              err == Refusal(old(view), write) && view == Written(old(view), write)
    {
      err := InsertWagerError(view, t.Value());
      if err.None? {
        view := WagerInserted(view, t.Value(), at);
      }
    }

    method FindByIdempotencyKey(provider: string, key: string) returns (found: Result<Wager>)
      ensures ReadBack(FindByKey(view, provider, key), found)
    {
      found := Rehydrated(FindByKey(view, provider, key));
    }

    method FindByExternalId(provider: string, externalId: string) returns (found: Result<Wager>)
      ensures ReadBack(FindByExternal(view, provider, externalId), found)
    {
      found := Rehydrated(FindByExternal(view, provider, externalId));
    }

    /** A scan of the table: no index is asked. */
    method HasSuccessfulReversal(id: Uuid) returns (reversed: bool)
      ensures reversed <==> exists w :: w in view.wagers && Reverses(view.wagers[w]) && view.wagers[w].referenceId == Some(id)
    {
      reversed := exists w :: w in view.wagers && Reverses(view.wagers[w]) && view.wagers[w].referenceId == Some(id);
    }

    method UpdateWager(t: WagerTransaction) returns (err: Option<Error>)
      modifies this
      ensures var write := Write.UpdateWager(t.Value());
              err == Refusal(old(view), write) && view == Written(old(view), write)
    {
      err := UpdateWagerError(view, t.Value());
      if err.None? {
        view := Recorded(view, Overwritten(view.wagers[t.id], t.Value()));
      }
    }

    method ScheduleReferenceRetry(id: Uuid, attempts: nat, delay: int, at: Instant) returns (err: Option<Error>)
      requires delay >= 0
      modifies this
      ensures err == if id in old(view).wagers && old(view).wagers[id].status.PendingReference? then None
                     else Some(ErrWagerNotPending)
      ensures view == if err.Some? then old(view)
                      else old(view).(schedules := old(view).schedules[id := Schedule(attempts, at + delay / Delays.MICROSECOND)])
    {
      if id !in view.wagers || !view.wagers[id].status.PendingReference? {
        return Some(ErrWagerNotPending);
      }
      view := view.(schedules := view.schedules[id := Schedule(attempts, at + delay / Delays.MICROSECOND)]);
      return None;
    }

    method CreateEntry(e: Entry) returns (err: Option<Error>)
      modifies this
      ensures var write := Write.InsertEntry(e);
              err == Refusal(old(view), write) && view == Written(old(view), write)
    {
      err := CreateEntryError(view, e);
      if err.None? {
        view := view.(ledger := view.ledger + [e]);
      }
    }

    method CreateEvent(event: Event) returns (err: Option<Error>)
      modifies this
      ensures var write := Write.InsertEvent(event);
              err == Refusal(old(view), write) && view == Written(old(view), write)
    {
      err := CreateEventError(view, event);
      if err.None? && !EventStored(view, event) {
        view := Published(view, [event]);
      }
    }

    /** Registers a message, or finds what became of it. */
    method RegisterMessage(body: Body) returns (duplicate: Result<bool>)
      modifies this
      ensures body.messageId !in old(view).inbox ==>
                && duplicate == Ok(false)
                && view == old(view).(inbox := old(view).inbox[body.messageId := Receipt(body, false)])
      ensures body.messageId in old(view).inbox ==>
                && view == old(view)
                && (var receipt := old(view).inbox[body.messageId];
                    duplicate == if receipt.body != body then Err(ErrInboxConflict)
                                 else if !receipt.completed then Err(ErrInboxIncomplete)
                                 else Ok(true))
    {
      if body.messageId !in view.inbox {
        view := Received(view, body, false);
        return Ok(false);
      }
      var receipt := view.inbox[body.messageId];
      if receipt.body != body {
        return Err(ErrInboxConflict);
      }
      if !receipt.completed {
        return Err(ErrInboxIncomplete);
      }
      return Ok(true);
    }

    method CompleteMessage(body: Body) returns (err: Option<Error>)
      modifies this
      ensures err == if body.messageId in old(view).inbox then None else Some(ErrInboxIncomplete)
      ensures err.Some? ==> view == old(view)
      ensures err.None? ==>
                var receipt := old(view).inbox[body.messageId];
                view == old(view).(inbox := old(view).inbox[body.messageId := Receipt(receipt.body, true)])
    {
      if body.messageId !in view.inbox {
        return Some(ErrInboxIncomplete);
      }
      view := view.(inbox := view.inbox[body.messageId := view.inbox[body.messageId].(completed := true)]);
      return None;
    }
  }
}
