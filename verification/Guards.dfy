/** What the storage protects on its own, whatever sequence of writes a program sends to it. */
module Guards {
  import opened Core
  import opened Domain
  import opened Engine
  import opened Invariant
  import opened Runs
  import opened Idempotency
  import opened Schema
  import opened Storage
  import Preservation
  import Opening

  function AllWritten(db: Db, writes: seq<Write>): Db
    decreases |writes|
  {
    if writes == [] then db else AllWritten(Written(db, writes[0]), writes[1..])
  }

  // ---- What holds of the tables -----------------------------------------------------------------

  ghost predicate EntriesOnce(ledger: seq<Entry>) {
    forall j, k :: 0 <= j < k < |ledger| ==>
      !(ledger[j].wallet == ledger[k].wallet && ledger[j].transaction == ledger[k].transaction)
  }

  ghost predicate RowsNamed(wagers: map<Uuid, Wager>) {
    forall id :: id in wagers ==> wagers[id].id == id && (wagers[id].kind.Opening? ==> wagers[id].status.Processed?)
  }

  ghost predicate WalletsNamed(wallets: map<Uuid, WalletRow>) {
    forall id :: id in wallets ==> wallets[id].id == id
  }

  /** Rows under their keys, one reversal for each operation, one entry for each operation of a wallet. */
  ghost predicate KeysOk(db: Db) {
    && RowsNamed(db.wagers) && WalletsNamed(db.wallets) && IndexOk(db.wagers, db.byKey, db.byExternal) && ReversalsOk(db.wagers, db.reversals)
    && IdsOk(db.ledger, db.outbox) && EntriesOnce(db.ledger)
  }

  // ---- One write ----------------------------------------------------------------------------------

  lemma NewRowKeepsIndex(wagers: map<Uuid, Wager>, byKey: map<(string, string), Uuid>,
                         byExternal: map<(string, string), Uuid>, w: Wager)
    requires IndexOk(wagers, byKey, byExternal) && w.id !in wagers
    requires !w.kind.Opening? ==> (w.provider, w.key) !in byKey && (w.provider, w.externalId) !in byExternal
    ensures if w.kind.Opening? then IndexOk(wagers[w.id := w], byKey, byExternal)
            else IndexOk(wagers[w.id := w], byKey[(w.provider, w.key) := w.id], byExternal[(w.provider, w.externalId) := w.id])
  {
  }

  lemma RowKeepsReversals(wagers: map<Uuid, Wager>, reversals: map<Uuid, Uuid>, w: Wager)
    requires ReversalsOk(wagers, reversals) && RowsNamed(wagers)
    requires w.id in wagers ==> !IsTerminal(wagers[w.id])
    requires Reverses(w) && w.referenceId.value in reversals ==> reversals[w.referenceId.value] == w.id
    ensures ReversalsOk(wagers[w.id := w], if Reverses(w) then reversals[w.referenceId.value := w.id] else reversals)
  {
    forall r | r in reversals ensures reversals[r] != w.id {
      assert Reverses(wagers[reversals[r]]);
    }
  }

  /** The row takes the place of nothing or of an open row of the same operation; the keys stay, and the rest. */
  lemma RowExtends(before: Db, after: Db, w: Wager)
    requires after.wagers == before.wagers[w.id := w]
    requires w.id in before.wagers ==> SameBusiness(before.wagers[w.id], w) && !IsTerminal(before.wagers[w.id])
    requires forall k :: k in before.byKey ==> k in after.byKey && after.byKey[k] == before.byKey[k]
    requires forall k :: k in before.byExternal ==> k in after.byExternal && after.byExternal[k] == before.byExternal[k]
    requires after.wallets == before.wallets && after.inbox == before.inbox
    requires after.ledger == before.ledger && after.outbox == before.outbox
    ensures Extends(before, after)
  {
  }

  lemma InsertionParts(db: Db, w: Wager, at: Instant)
    requires InsertWagerError(db, w).None?
    ensures var after := WagerInserted(db, w, at);
            && w.id !in db.wagers && after.wagers == db.wagers[w.id := w]
            && after.wallets == db.wallets && after.inbox == db.inbox
            && after.ledger == db.ledger && after.outbox == db.outbox
            && (if w.kind.Opening? then
                  w.status.Processed? && !Reverses(w)
                  && after.byKey == db.byKey && after.byExternal == db.byExternal && after.reversals == db.reversals
                else
                  && (w.provider, w.key) !in db.byKey && (w.provider, w.externalId) !in db.byExternal
                  && after.byKey == db.byKey[(w.provider, w.key) := w.id]
                  && after.byExternal == db.byExternal[(w.provider, w.externalId) := w.id]
                  && !ReversalTaken(db, w)
                  && after.reversals == if Reverses(w) then db.reversals[w.referenceId.value := w.id] else db.reversals)
  {
    hide RowChecks, Sizes, ReferenceFits, WalletKnown;
    if w.kind.Opening? {
      OpeningIsSettled(w);
    }
  }

  lemma OpeningIsSettled(w: Wager)
    requires RowChecks(w) && w.kind.Opening?
    ensures w.status.Processed? && !Reverses(w)
  {
    hide CheckAmount, CheckResult, CheckReference, Column;
  }

  lemma InsertionKeeps(db: Db, w: Wager, at: Instant)
    requires KeysOk(db) && InsertWagerError(db, w).None?
    ensures KeysOk(WagerInserted(db, w, at)) && Extends(db, WagerInserted(db, w, at))
  {
    hide InsertWagerError, WagerInserted, IdsOk, EntriesOnce, IndexOk, ReversalsOk, Extends, Reverses;
    InsertionParts(db, w, at);
    NewRowKeepsIndex(db.wagers, db.byKey, db.byExternal, w);
    RowKeepsReversals(db.wagers, db.reversals, w);
    RowExtends(db, WagerInserted(db, w, at), w);
  }

  lemma OverwritingKeepsIndex(wagers: map<Uuid, Wager>, byKey: map<(string, string), Uuid>,
                              byExternal: map<(string, string), Uuid>, w: Wager)
    requires IndexOk(wagers, byKey, byExternal) && RowsNamed(wagers)
    requires w.id in wagers && !wagers[w.id].kind.Opening? && SameBusiness(wagers[w.id], w)
    ensures byKey[(w.provider, w.key) := w.id] == byKey && byExternal[(w.provider, w.externalId) := w.id] == byExternal
    ensures IndexOk(wagers[w.id := w], byKey, byExternal)
  {
  }

  lemma UpdateParts(db: Db, w: Wager)
    requires UpdateWagerError(db, w).None? && RowsNamed(db.wagers)
    ensures w.id in db.wagers
    ensures var stored, row := db.wagers[w.id], Overwritten(db.wagers[w.id], w);
            && row.id == w.id && !stored.kind.Opening? && !IsTerminal(stored) && SameBusiness(stored, row)
            && !ReversalTaken(db, row)
  {
    hide RowChecks, ReferenceFits, CodeText;
  }

  lemma UpdateKeeps(db: Db, w: Wager)
    requires KeysOk(db) && UpdateWagerError(db, w).None?
    ensures w.id in db.wagers
    ensures var after := Recorded(db, Overwritten(db.wagers[w.id], w)); KeysOk(after) && Extends(db, after)
  {
    hide UpdateWagerError, IdsOk, EntriesOnce, IndexOk, ReversalsOk, Extends, Overwritten, Reverses;
    UpdateParts(db, w);
    var row := Overwritten(db.wagers[w.id], w);
    OverwritingKeepsIndex(db.wagers, db.byKey, db.byExternal, row);
    RowKeepsReversals(db.wagers, db.reversals, row);
    RowExtends(db, Recorded(db, row), row);
  }

  lemma WalletExtends(before: Db, after: Db, row: WalletRow)
    requires after == before.(wallets := before.wallets[row.id := row], byOwner := after.byOwner)
    requires row.id in before.wallets ==>
               && Owner(row) == Owner(before.wallets[row.id]) && row.createdAt == before.wallets[row.id].createdAt
               && before.wallets[row.id].version <= row.version
    ensures Extends(before, after)
  {
  }

  lemma WalletWriteKeeps(db: Db, write: Write)
    requires KeysOk(db) && (write.InsertWallet? || write.UpdateWallet?)
    ensures KeysOk(Written(db, write)) && Extends(db, Written(db, write))
  {
    hide IndexOk, ReversalsOk, IdsOk, EntriesOnce, RowsNamed, Extends;
    ExtendsItself(db);
    if Refusal(db, write).None? {
      WalletExtends(db, Written(db, write), Written(db, write).wallets[write.wallet.id]);
    }
  }

  lemma EntryKeeps(db: Db, e: Entry)
    requires KeysOk(db)
    ensures KeysOk(Written(db, InsertEntry(e))) && Extends(db, Written(db, InsertEntry(e)))
  {
    hide IndexOk, ReversalsOk, RowsNamed, EntryFits, EntryChecks;
  }

  lemma EventKeeps(db: Db, event: Event)
    requires KeysOk(db)
    ensures KeysOk(Written(db, InsertEvent(event))) && Extends(db, Written(db, InsertEvent(event)))
  {
    hide IndexOk, ReversalsOk, RowsNamed, EntriesOnce, EventChecks;
  }

  lemma WriteKeeps(db: Db, write: Write)
    requires KeysOk(db)
    ensures KeysOk(Written(db, write)) && Extends(db, Written(db, write))
  {
    hide KeysOk, Extends, WagerInserted, Recorded, Overwritten, InsertWagerError, UpdateWagerError;
    if Refusal(db, write).Some? {
      ExtendsItself(db);
    } else {
      match write
      case InsertWager(w, at) => InsertionKeeps(db, w, at);
      case UpdateWager(w) => UpdateKeeps(db, w);
      case InsertWallet(_) => WalletWriteKeeps(db, write);
      case UpdateWallet(_) => WalletWriteKeeps(db, write);
      case InsertEntry(e) => EntryKeeps(db, e);
      case InsertEvent(event) => EventKeeps(db, event);
    }
  }

  // ---- Every sequence of writes ---------------------------------------------------------------------

  /**
   * Whatever is sent: keys stay unique, no operation is reversed or booked twice, settled rows stay
   * as they are, versions of wallets only rise, and the ledger and the outbox only grow.
   */
  lemma {:induction false} WritesAreGuarded(db: Db, writes: seq<Write>)
    requires KeysOk(db)
    ensures KeysOk(AllWritten(db, writes)) && Extends(db, AllWritten(db, writes))
    decreases |writes|
  {
    hide KeysOk, Extends, Written;
    if writes == [] {
      ExtendsItself(db);
    } else {
      WriteKeeps(db, writes[0]);
      WritesAreGuarded(Written(db, writes[0]), writes[1..]);
      ExtendsFurther(db, Written(db, writes[0]), AllWritten(db, writes));
    }
  }

  /** From the empty tables on, the keys hold. */
  lemma KeysFromTheStart(writes: seq<Write>)
    ensures KeysOk(AllWritten(EMPTY_DB, writes))
  {
    hide AllWritten;
    WritesAreGuarded(EMPTY_DB, writes);
  }

  /** Once an update of a wallet has taken effect, no update from the same or an earlier version ever does. */
  lemma StaleUpdatesAreRefused(db: Db, a: WalletRow, writes: seq<Write>, b: WalletRow)
    requires KeysOk(db) && Refusal(db, UpdateWallet(a)).None? && b.id == a.id && b.version <= a.version
    ensures var later := AllWritten(Written(db, UpdateWallet(a)), writes);
            Refusal(later, UpdateWallet(b)) == Some(ErrWalletConcurrentUpdate) && Written(later, UpdateWallet(b)) == later
  {
    var first := Written(db, UpdateWallet(a));
    assert a.id in first.wallets && first.wallets[a.id].version == a.version;
    WriteKeeps(db, UpdateWallet(a));
    hide KeysOk, AllWritten;
    WritesAreGuarded(first, writes);
  }

  /** A settled row keeps its outcome for ever, and every later update of it is refused. */
  lemma SettledRowsStay(db: Db, id: Uuid, writes: seq<Write>, w: Wager)
    requires KeysOk(db) && id in db.wagers && IsTerminal(db.wagers[id]) && w.id == id
    ensures var later := AllWritten(db, writes);
            && id in later.wagers && later.wagers[id] == db.wagers[id]
            && Refusal(later, UpdateWager(w)) == Some(ErrWagerNotPending) && Written(later, UpdateWager(w)) == later
  {
    hide KeysOk, AllWritten;
    WritesAreGuarded(db, writes);
  }

  lemma TakenStays(before: Db, after: Db, w: Wager, v: Wager)
    requires Extends(before, after) && !v.kind.Opening?
    requires w.id in before.wagers && (w.provider, w.key) in before.byKey && (w.provider, w.externalId) in before.byExternal
    requires v.id == w.id || SharesIdentity(w, v.provider, v.key, v.externalId)
    ensures InsertWagerError(after, v).Some?
  {
    hide RowChecks, Sizes, ReferenceFits, WalletKnown;
  }

  /** Once an operation is stored, no other one with its identity, its key or its external identity ever is. */
  lemma IdentitiesAreTakenOnce(db: Db, w: Wager, at: Instant, writes: seq<Write>, v: Wager, at': Instant)
    requires KeysOk(db) && Refusal(db, InsertWager(w, at)).None? && !w.kind.Opening? && !v.kind.Opening?
    requires v.id == w.id || SharesIdentity(w, v.provider, v.key, v.externalId)
    ensures var later := AllWritten(Written(db, InsertWager(w, at)), writes);
            Refusal(later, InsertWager(v, at')).Some? && Written(later, InsertWager(v, at')) == later
  {
    hide KeysOk, AllWritten, InsertWagerError, WagerInserted, Extends;
    var first := Written(db, InsertWager(w, at));
    InsertionParts(db, w, at);
    WriteKeeps(db, InsertWager(w, at));
    WritesAreGuarded(first, writes);
    TakenStays(first, AllWritten(first, writes), w, v);
  }

  /** Once an operation of a wallet is booked, it is never booked again. */
  lemma EntriesAreBookedOnce(db: Db, e: Entry, writes: seq<Write>, f: Entry)
    requires KeysOk(db) && Refusal(db, InsertEntry(e)).None?
    requires f.id == e.id || (f.wallet == e.wallet && f.transaction == e.transaction)
    ensures var later := AllWritten(Written(db, InsertEntry(e)), writes);
            Refusal(later, InsertEntry(f)) == Some(ErrConstraint) && Written(later, InsertEntry(f)) == later
  {
    hide EntryFits, EntryChecks;
    var first := Written(db, InsertEntry(e));
    assert first.ledger[|db.ledger|] == e;
    WriteKeeps(db, InsertEntry(e));
    hide KeysOk, AllWritten;
    WritesAreGuarded(first, writes);
    assert AllWritten(first, writes).ledger[|db.ledger|] == e;
  }

  lemma EventIsThere(db: Db, event: Event)
    requires KeysOk(db) && Refusal(db, InsertEvent(event)).None?
    ensures exists j :: 0 <= j < |Written(db, InsertEvent(event)).outbox| && Written(db, InsertEvent(event)).outbox[j] == event
  {
    hide EventChecks, IndexOk, ReversalsOk, RowsNamed, EntriesOnce;
    if EventStored(db, event) {
      var j :| 0 <= j < |db.outbox| && db.outbox[j].id == event.id;
      assert Written(db, InsertEvent(event)).outbox[j] == event;
    } else {
      assert Written(db, InsertEvent(event)).outbox[|db.outbox|] == event;
    }
  }

  lemma OnlyEventUnderId(db: Db, event: Event, j: nat)
    requires KeysOk(db) && j < |db.outbox| && db.outbox[j] == event
    ensures forall k :: 0 <= k < |db.outbox| && db.outbox[k].id == event.id ==> db.outbox[k] == event
  {
    hide IndexOk, ReversalsOk, RowsNamed, EntriesOnce;
  }

  /** Once an event is stored, the same event changes nothing and another one under its identity is refused. */
  lemma EventsAreStoredOnce(db: Db, event: Event, writes: seq<Write>, other: Event)
    requires KeysOk(db) && Refusal(db, InsertEvent(event)).None? && other.id == event.id
    ensures var later := AllWritten(Written(db, InsertEvent(event)), writes);
            && Written(later, InsertEvent(other)) == later
            && (other == event ==> Refusal(later, InsertEvent(other)).None?)
            && (other != event ==> Refusal(later, InsertEvent(other)).Some?)
  {
    hide KeysOk, AllWritten, EventChecks, CreateEventError, EventStored, Extends;
    var first := Written(db, InsertEvent(event));
    WriteKeeps(db, InsertEvent(event));
    WritesAreGuarded(first, writes);
    EventIsThere(db, event);
    var j :| 0 <= j < |first.outbox| && first.outbox[j] == event;
    var later := AllWritten(first, writes);
    ExtendsFurther(db, first, later);
    EventPersists(first, later, j);
    StoredEventGuards(db, later, event, j, other);
  }

  lemma EventPersists(before: Db, after: Db, j: nat)
    requires Extends(before, after) && j < |before.outbox|
    ensures j < |after.outbox| && after.outbox[j] == before.outbox[j]
  {
  }

  lemma StoredEventGuards(db: Db, later: Db, event: Event, j: nat, other: Event)
    requires CreateEventError(db, event).None? && Extends(db, later) && KeysOk(later)
    requires j < |later.outbox| && later.outbox[j] == event && other.id == event.id
    ensures Written(later, InsertEvent(other)) == later
    ensures other == event ==> CreateEventError(later, other).None?
    ensures other != event ==> CreateEventError(later, other).Some?
  {
    OnlyEventUnderId(later, event, j);
    hide KeysOk;
  }
}
