/** What the stored rows, entries and commits are, by the constraints of the storage alone. */
module Tables {
  import opened Core
  import opened Finance
  import opened Domain
  import opened Engine
  import opened Invariant
  import opened Runs
  import opened Schema
  import opened Storage
  import opened Guards
  import opened Idempotency
  import opened Statuses

  // ---- Rows -------------------------------------------------------------------------------------

  /** The operation is made by a provider, or it is the opening of a wallet, settled from the start. */
  predicate HasOrigin(w: Wager) {
    if w.kind == Opening then
      && w.provider == "" && w.externalId == "" && w.key == "" && w.round == "" && w.game == "" && w.digest == NoDigest
      && w.status == Processed && w.reference.None? && w.referenceId.None?
      && w.result.Some? && w.result.value.amount == w.money.amount
    else
      && !BlankToStorage(w.provider) && !BlankToStorage(w.externalId) && !BlankToStorage(w.key)
      && !BlankToStorage(w.round) && !BlankToStorage(w.game) && w.digest != NoDigest
  }

  /** A result belongs to the processed and a code of failure to the rejected and failed. */
  predicate HasOutcome(w: Wager) {
    && (w.status == Processed <==> w.result.Some?) && (w.result.Some? ==> w.result.value.amount >= 0)
    && (w.status == Rejected || w.status == Failed <==> w.failure.Some?)
    && (w.failure.Some? ==> !BlankToStorage(CodeText(w.failure.value)))
  }

  /** Refunds and rollbacks name their reference, only what has one waits for it, and it is resolved in the end. */
  predicate HasReference(w: Wager) {
    && (w.reference.Some? ==> !BlankToStorage(w.reference.value))
    && (w.kind == Refund || w.kind == Rollback ==> w.reference.Some?)
    && (w.status == PendingReference ==> w.reference.Some? && (w.kind == Win || w.kind == Refund || w.kind == Rollback))
    && (w.status == Processed && w.reference.Some? && (w.kind == Win || w.kind == Refund || w.kind == Rollback) ==>
          w.referenceId.Some?)
    && w.referenceId != Some(w.id)
  }

  predicate RowSound(w: Wager) {
    && !w.kind.UnknownKind? && w.createdAt <= w.updatedAt
    && (if w.kind == Loss then w.money.amount == 0 else w.money.amount > 0)
    && HasOrigin(w) && HasOutcome(w) && HasReference(w)
  }

  /** The checks of a row are exactly these. */
  lemma RowChecksExactly(w: Wager)
    ensures RowChecks(w) <==> RowSound(w)
  {
    hide BlankToStorage, CodeText;
    EmptyIsBlank(w.provider);
    EmptyIsBlank(w.externalId);
    EmptyIsBlank(w.key);
    EmptyIsBlank(w.round);
    EmptyIsBlank(w.game);
  }

  /** What the program asks of an operation beyond the checks of its row. */
  predicate Stricter(w: Wager) {
    && w.id != Nil && w.wallet != Nil && w.player != Nil && w.createdAt > 0
    && (w.money.currency == BRL || w.money.currency == USD)
    && (w.kind != Opening ==> !Blank(w.provider) && !Blank(w.externalId) && !Blank(w.key) && !Blank(w.round) && !Blank(w.game))
    && (w.reference.Some? ==> !Blank(w.reference.value))
    && (w.referenceId.Some? ==>
          w.referenceId != Some(Nil)
          && (w.kind == Refund || w.kind == Rollback || (w.kind == Win && w.reference.Some?)))
    && (w.result.Some? ==> w.result.value.currency == w.money.currency)
    && (w.failure.Some? ==> !BlankCode(w.failure.value))
  }

  /** The rules of the program are the checks of the row, of a settled opening too, and exactly these others. */
  lemma RulesExactly(w: Wager)
    ensures ValidWager(w) && (w.kind == Opening ==> w.status == Processed) <==> RowSound(w) && Stricter(w)
  {
    if ValidWager(w) && (w.kind == Opening ==> w.status == Processed) {
      ValidRowPasses(w);
      RowChecksExactly(w);
      ValidIsStricter(w);
    }
    if RowSound(w) && Stricter(w) {
      StricterIsValid(w);
    }
    hide RowChecks, RowSound, Stricter, Validate;
  }

  lemma ValidIsStricter(w: Wager)
    requires ValidWager(w)
    ensures Stricter(w)
  {
    hide Blank;
  }

  lemma StricterIsValid(w: Wager)
    requires RowSound(w) && Stricter(w)
    ensures ValidWager(w)
  {
    hide Blank, BlankToStorage, CodeText;
  }

  lemma EmptyIsBlank(s: string)
    ensures s == "" ==> BlankToStorage(s)
  {
  }

  /** A resolved reference: to a processed operation of the same player, wallet, currency and round that may be referred to. */
  predicate LinkSound(wagers: map<Uuid, Wager>, w: Wager) {
    w.referenceId.Some? ==>
      && w.referenceId.value in wagers
      && (var r := wagers[w.referenceId.value];
          && r.status == Processed && r.provider == w.provider && w.reference == Some(r.externalId)
          && r.wallet == w.wallet && r.player == w.player && r.money.currency == w.money.currency && r.round == w.round
          && (if w.kind == Rollback then r.kind == Bet || r.kind == Win || r.kind == Refund
              else (w.kind == Win || w.kind == Refund) && r.kind == Bet)
          && (w.kind != Win ==> r.money.amount == w.money.amount))
  }

  lemma LinkExactly(wagers: map<Uuid, Wager>, w: Wager)
    requires forall id :: id in wagers ==> RowSound(wagers[id])
    ensures ReferenceFits(wagers, w) <==> LinkSound(wagers, w)
  {
    if w.referenceId.Some? && w.referenceId.value in wagers {
      var r := wagers[w.referenceId.value];
      EmptyIsBlank(r.externalId);
      assert RowSound(r) && HasOrigin(r);
      hide BlankToStorage, HasOutcome, HasReference;
    }
  }

  // ---- Entries ----------------------------------------------------------------------------------

  /** An entry: one movement of a processed operation, of its amount and in its direction, up to its result. */
  predicate EntrySound(wagers: map<Uuid, Wager>, e: Entry) {
    && e.transaction in wagers
    && (var w := wagers[e.transaction];
        && w.status == Processed && w.kind != Loss && w.wallet == e.wallet && w.money == e.money
        && w.result.Some? && w.result.value.amount == e.after.amount
        && (var takes := w.kind == Bet
                         || (w.kind == Rollback && w.referenceId.Some? && w.referenceId.value in wagers
                             && (wagers[w.referenceId.value].kind == Win || wagers[w.referenceId.value].kind == Refund));
            && e.direction == (if takes then Debit else Credit)
            && e.after.amount as int == if takes then e.before.amount - e.money.amount else e.before.amount + e.money.amount)
        && (w.kind == Opening ==> e.before.amount == 0))
    && e.money.amount > 0 && e.before.amount >= 0 && e.after.amount >= 0
  }

  // ---- Tables -----------------------------------------------------------------------------------

  predicate WalletSound(row: WalletRow) {
    row.balance.amount >= 0 && row.version >= 1 && (row.balance.currency == BRL || row.balance.currency == USD)
  }

  /** A player has one wallet of a currency. */
  ghost predicate OwnersApart(wallets: map<Uuid, WalletRow>, byOwner: map<(Uuid, Currency), Uuid>) {
    && (forall id :: id in wallets ==>
          (wallets[id].player, wallets[id].balance.currency) in byOwner
          && byOwner[(wallets[id].player, wallets[id].balance.currency)] == id)
    && (forall o :: o in byOwner ==> byOwner[o] in wallets && Owner(wallets[byOwner[o]]) == o)
  }

  /** The operation is of a stored wallet, of its player and in its currency. */
  predicate OwnerSound(wallets: map<Uuid, WalletRow>, w: Wager) {
    w.wallet in wallets && wallets[w.wallet].player == w.player && wallets[w.wallet].balance.currency == w.money.currency
  }

  predicate TextsFit(w: Wager) {
    && |w.provider| <= 100 && |w.externalId| <= 255 && |w.key| <= 255 && |w.round| <= 255 && |w.game| <= 255
    && (w.reference.Some? ==> |w.reference.value| <= 255) && (w.failure.Some? ==> |CodeText(w.failure.value)| <= 100)
  }

  predicate EventSound(wallets: map<Uuid, WalletRow>, event: Event) {
    && event.id != Nil && event.aggregate != Nil && event.occurredAt > 0 && event.aggregate in wallets
    && !BlankToStorage(event.trace.correlation)
  }

  ghost predicate TablesSound(db: Db) {
    && OwnersApart(db.wallets, db.byOwner) && (forall id :: id in db.wallets ==> WalletSound(db.wallets[id]))
    && (forall id :: id in db.wagers ==>
          RowSound(db.wagers[id]) && LinkSound(db.wagers, db.wagers[id]) && TextsFit(db.wagers[id])
          && OwnerSound(db.wallets, db.wagers[id]))
    && (forall k :: 0 <= k < |db.ledger| ==> EntrySound(db.wagers, db.ledger[k]))
    && (forall j :: 0 <= j < |db.outbox| ==> EventSound(db.wallets, db.outbox[j]))
  }

  // ---- Which writes are accepted ------------------------------------------------------------------

  /** No stored operation is in the way: with its identity, a key of its provider, or the reversal that it would be. */
  ghost predicate Unclaimed(db: Db, w: Wager) {
    && w.id !in db.wagers && (w.kind == Opening ==> Named(w.wallet) !in db.wagers)
    && (w.kind != Opening ==>
          forall id :: id in db.wagers ==> !SharesIdentity(db.wagers[id], w.provider, w.key, w.externalId))
    && OnlyReversal(db, w)
  }

  /** No other operation has already taken back what this one takes back. */
  ghost predicate OnlyReversal(db: Db, w: Wager) {
    w.status == Processed && (w.kind == Refund || w.kind == Rollback) && w.referenceId.Some? ==>
      forall id :: id in db.wagers && id != w.id ==> !TakesBack(db.wagers[id], w.referenceId.value)
  }

  /** An open row becomes another row of its operation; it does not wait anew, and keeps a link that it has. */
  predicate GoesOn(stored: Wager, w: Wager) {
    && (stored.status == Pending || stored.status == PendingReference)
    && !(stored.status == PendingReference && w.status == Pending)
    && (stored.referenceId.Some? ==> w.referenceId == stored.referenceId)
  }

  /** The stored row with the status, the link, the outcome and the instant of the other. */
  predicate Takes(stored: Wager, w: Wager, row: Wager) {
    && SameBusiness(stored, row) && row.status == w.status && row.referenceId == w.referenceId && row.failure == w.failure
    && row.result == w.result && row.updatedAt == w.updatedAt
  }

  ghost predicate Acceptable(db: Db, write: Write) {
    match write
    case InsertWager(w, _) =>
      RowSound(w) && LinkSound(db.wagers, w) && TextsFit(w) && OwnerSound(db.wallets, w) && Unclaimed(db, w)
    case UpdateWager(w) =>
      && w.id in db.wagers && GoesOn(db.wagers[w.id], w)
      && exists row :: Takes(db.wagers[w.id], w, row) && RowSound(row) && LinkSound(db.wagers, row) && TextsFit(row)
                       && OnlyReversal(db, row)
    case InsertWallet(row) =>
      && WalletSound(row) && row.id !in db.wallets
      && forall id :: id in db.wallets ==> !(db.wallets[id].player == row.player
                                             && db.wallets[id].balance.currency == row.balance.currency)
    case UpdateWallet(row) =>
      && row.id in db.wallets && db.wallets[row.id].version as int == row.version as int - 1
      && row.balance.amount >= 0 && row.version >= 1
    case InsertEntry(e) =>
      && EntrySound(db.wagers, e) && e.wallet in db.wallets
      && forall k :: 0 <= k < |db.ledger| ==>
           db.ledger[k].id != e.id && !(db.ledger[k].wallet == e.wallet && db.ledger[k].transaction == e.transaction)
    case InsertEvent(event) =>
      && EventSound(db.wallets, event)
      && forall j :: 0 <= j < |db.outbox| && db.outbox[j].id == event.id ==> db.outbox[j] == event
  }

  lemma ReversalByScan(db: Db, w: Wager)
    requires ReversalsOk(db.wagers, db.reversals)
    ensures ReversalTaken(db, w) <==> !OnlyReversal(db, w)
  {
    if !OnlyReversal(db, w) {
      var id :| id in db.wagers && id != w.id && TakesBack(db.wagers[id], w.referenceId.value);
      assert Reverses(db.wagers[id]);
    }
    if ReversalTaken(db, w) {
      var id := db.reversals[w.referenceId.value];
      assert id in db.wagers && TakesBack(db.wagers[id], w.referenceId.value);
    }
  }

  lemma KeysByScan(db: Db, w: Wager)
    requires IndexOk(db.wagers, db.byKey, db.byExternal) && ReversalsOk(db.wagers, db.reversals)
    requires w.kind == Opening ==> !Reverses(w)
    ensures KeyTaken(db, w) <==> !Unclaimed(db, w)
  {
    hide ReversalsOk, ReversalTaken, OnlyReversal;
    ReversalByScan(db, w);
    OpeningsReverseNothing(db, w);
    if w.kind != Opening {
      if (w.provider, w.key) in db.byKey {
        var id := db.byKey[(w.provider, w.key)];
        assert id in db.wagers && SharesIdentity(db.wagers[id], w.provider, w.key, w.externalId);
      }
      if (w.provider, w.externalId) in db.byExternal {
        var id := db.byExternal[(w.provider, w.externalId)];
        assert id in db.wagers && SharesIdentity(db.wagers[id], w.provider, w.key, w.externalId);
      }
    }
  }

  lemma OpeningsReverseNothing(db: Db, w: Wager)
    ensures w.kind == Opening ==> OnlyReversal(db, w)
  {
  }

  lemma InsertionExactly(db: Db, w: Wager)
    requires KeysOk(db) && TablesSound(db)
    ensures InsertWagerError(db, w).None? <==> Acceptable(db, Write.InsertWager(w, 0))
  {
    hide RowChecks, RowSound, ReferenceFits, LinkSound, KeyTaken, Unclaimed, EntrySound, EventSound, WalletSound, IndexOk,
         ReversalsOk, IdsOk, EntriesOnce, OwnersApart, CodeText;
    RowChecksExactly(w);
    LinkExactly(db.wagers, w);
    if RowSound(w) {
      SettledFromTheStart(w);
      KeysByScan(db, w);
    }
  }

  lemma SettledFromTheStart(w: Wager)
    requires RowSound(w)
    ensures w.kind == Opening ==> !Reverses(w)
  {
  }

  lemma UpdateExactly(db: Db, w: Wager)
    requires KeysOk(db) && TablesSound(db)
    ensures UpdateWagerError(db, w).None? <==> Acceptable(db, Write.UpdateWager(w))
  {
    hide RowChecks, RowSound, ReferenceFits, LinkSound, EntrySound, EventSound, WalletSound, IndexOk, ReversalsOk, IdsOk,
         EntriesOnce, OwnersApart, CodeText, ReversalTaken, OnlyReversal, OwnerSound;
    if w.id in db.wagers {
      var stored := db.wagers[w.id];
      var row := Overwritten(stored, w);
      assert Takes(stored, w, row);
      assert forall other :: Takes(stored, w, other) ==> other == row;
      assert TextsFit(stored);
      RowChecksExactly(row);
      LinkExactly(db.wagers, row);
      ReversalByScan(db, row);
    }
  }

  lemma WalletsExactly(db: Db, row: WalletRow)
    requires KeysOk(db) && TablesSound(db)
    ensures CreateWalletError(db, row).None? <==> Acceptable(db, Write.InsertWallet(row))
    ensures UpdateWalletError(db, row).None? <==> Acceptable(db, Write.UpdateWallet(row))
  {
    hide RowSound, LinkSound, EntrySound, EventSound, IndexOk, ReversalsOk, IdsOk, EntriesOnce, TextsFit, OwnerSound, RowsNamed;
  }

  lemma EntriesExactly(db: Db, e: Entry)
    ensures CreateEntryError(db, e).None? <==> Acceptable(db, Write.InsertEntry(e))
  {
  }

  lemma EventsExactly(db: Db, event: Event)
    ensures CreateEventError(db, event).None? <==> Acceptable(db, Write.InsertEvent(event))
  {
    hide BlankToStorage;
  }

  /** A write is accepted exactly if what it stores is sound beside the rows that are there. */
  lemma AcceptedExactly(db: Db, write: Write)
    requires KeysOk(db) && TablesSound(db)
    ensures Refusal(db, write).None? <==> Acceptable(db, write)
  {
    hide KeysOk, TablesSound, InsertWagerError, UpdateWagerError, CreateWalletError, UpdateWalletError, CreateEntryError,
         CreateEventError, RowSound, LinkSound, TextsFit, OwnerSound, Unclaimed, EntrySound, EventSound, WalletSound;
    match write
    case InsertWager(w, _) => InsertionExactly(db, w);
    case UpdateWager(w) => UpdateExactly(db, w);
    case InsertWallet(row) => WalletsExactly(db, row);
    case UpdateWallet(row) => WalletsExactly(db, row);
    case InsertEntry(e) => EntriesExactly(db, e);
    case InsertEvent(event) => EventsExactly(db, event);
  }

  // ---- Every write ------------------------------------------------------------------------------

  /** What refers to a settled row is not touched by a new or an overwritten row. */
  lemma RowKeepsOthers(wagers: map<Uuid, Wager>, w: Wager)
    requires w.id in wagers ==> !IsTerminal(wagers[w.id]) && SameBusiness(wagers[w.id], w)
    ensures forall x: Wager :: LinkSound(wagers, x) ==> LinkSound(wagers[w.id := w], x)
    ensures forall e: Entry :: EntrySound(wagers, e) && LinkedInside(wagers, e) ==> EntrySound(wagers[w.id := w], e)
  {
  }

  /** The link of the operation that an entry books leads to a stored row. */
  predicate LinkedInside(wagers: map<Uuid, Wager>, e: Entry) {
    e.transaction in wagers ==> LinkSound(wagers, wagers[e.transaction])
  }

  lemma RowStored(db: Db, after: Db, w: Wager)
    requires TablesSound(db) && after.wagers == db.wagers[w.id := w] && after.ledger == db.ledger
    requires after.wallets == db.wallets && after.byOwner == db.byOwner && after.outbox == db.outbox
    requires w.id in db.wagers ==> !IsTerminal(db.wagers[w.id]) && SameBusiness(db.wagers[w.id], w)
    requires RowSound(w) && LinkSound(db.wagers, w) && TextsFit(w) && OwnerSound(db.wallets, w)
    ensures TablesSound(after)
  {
    hide RowSound, LinkSound, EntrySound, WalletSound, EventSound, TextsFit, OwnerSound, IsTerminal;
    RowKeepsOthers(db.wagers, w);
    forall id | id in after.wagers
      ensures RowSound(after.wagers[id]) && LinkSound(after.wagers, after.wagers[id]) && TextsFit(after.wagers[id])
      ensures OwnerSound(after.wallets, after.wagers[id])
    {
      assert id != w.id ==> after.wagers[id] == db.wagers[id];
    }
    forall k | 0 <= k < |after.ledger| ensures EntrySound(after.wagers, after.ledger[k]) {
      assert EntrySound(db.wagers, db.ledger[k]);
      BookedIsStored(db.wagers, db.ledger[k]);
      assert LinkedInside(db.wagers, db.ledger[k]);
    }
  }

  lemma BookedIsStored(wagers: map<Uuid, Wager>, e: Entry)
    requires EntrySound(wagers, e)
    ensures e.transaction in wagers
  {
  }

  lemma RecordedRows(db: Db, w: Wager)
    ensures var after := Recorded(db, w);
            && after.wagers == db.wagers[w.id := w] && after.ledger == db.ledger && after.wallets == db.wallets
            && after.byOwner == db.byOwner && after.outbox == db.outbox
  {
  }

  lemma InsertedRows(db: Db, w: Wager, at: Instant)
    ensures var after := WagerInserted(db, w, at);
            && after.wagers == db.wagers[w.id := w] && after.ledger == db.ledger && after.wallets == db.wallets
            && after.byOwner == db.byOwner && after.outbox == db.outbox
  {
    hide Recorded;
    RecordedRows(Enrolled(db, w, at), w);
  }

  lemma IsNew(db: Db, w: Wager)
    requires InsertWagerError(db, w).None?
    ensures w.id !in db.wagers
  {
    hide ReferenceFits, RowChecks, Sizes, WalletKnown, ReversalTaken;
  }

  lemma UpdateKeepsSound(db: Db, w: Wager)
    requires KeysOk(db) && TablesSound(db) && UpdateWagerError(db, w).None?
    ensures w.id in db.wagers && TablesSound(Recorded(db, Overwritten(db.wagers[w.id], w)))
  {
    hide RowSound, LinkSound, EntrySound, WalletSound, EventSound, TextsFit, OwnerSound, UpdateWagerError, IndexOk, ReversalsOk,
         IdsOk, EntriesOnce, Recorded, OnlyReversal;
    UpdateExactly(db, w);
    UpdateParts(db, w);
    var stored, row := db.wagers[w.id], Overwritten(db.wagers[w.id], w);
    assert forall other :: Takes(stored, w, other) ==> other == row;
    RecordedRows(db, row);
    SameOwner(db.wallets, stored, row);
    RowStored(db, Recorded(db, row), row);
  }

  lemma SameOwner(wallets: map<Uuid, WalletRow>, stored: Wager, row: Wager)
    requires OwnerSound(wallets, stored) && SameBusiness(stored, row)
    ensures OwnerSound(wallets, row)
  {
  }

  /** The wallets after a write to them are those that the rows and the events need. */
  lemma WalletsStored(db: Db, after: Db, row: WalletRow)
    requires TablesSound(db) && after == db.(wallets := db.wallets[row.id := row], byOwner := after.byOwner)
    requires OwnersApart(after.wallets, after.byOwner) && WalletSound(row)
    requires row.id in db.wallets ==> Owner(row) == Owner(db.wallets[row.id])
    ensures TablesSound(after)
  {
    hide RowSound, LinkSound, EntrySound, WalletSound, TextsFit, BlankToStorage, OwnersApart;
  }

  lemma NewWalletIsApart(wallets: map<Uuid, WalletRow>, byOwner: map<(Uuid, Currency), Uuid>, row: WalletRow)
    requires OwnersApart(wallets, byOwner) && row.id !in wallets && Owner(row) !in byOwner
    ensures OwnersApart(wallets[row.id := row], byOwner[Owner(row) := row.id])
  {
  }

  lemma MovedWalletIsApart(wallets: map<Uuid, WalletRow>, byOwner: map<(Uuid, Currency), Uuid>, row: WalletRow)
    requires OwnersApart(wallets, byOwner) && row.id in wallets && Owner(row) == Owner(wallets[row.id])
    ensures OwnersApart(wallets[row.id := row], byOwner)
  {
  }

  lemma InsertedWalletIsSound(db: Db, row: WalletRow)
    requires TablesSound(db) && CreateWalletError(db, row).None?
    ensures TablesSound(db.(wallets := db.wallets[row.id := row],
                            byOwner := db.byOwner[(row.player, row.balance.currency) := row.id]))
  {
    var after := db.(wallets := db.wallets[row.id := row],
                     byOwner := db.byOwner[(row.player, row.balance.currency) := row.id]);
    assert WalletSound(row) && OwnersApart(db.wallets, db.byOwner);
    hide TablesSound, OwnersApart, WalletSound;
    NewWalletIsApart(db.wallets, db.byOwner, row);
    WalletsStored(db, after, row);
  }

  lemma UpdatedWalletIsSound(db: Db, row: WalletRow)
    requires KeysOk(db) && TablesSound(db) && UpdateWalletError(db, row).None?
    ensures row.id in db.wallets && TablesSound(WalletUpdated(db, row))
  {
    var stored := db.wallets[row.id];
    var moved := WalletUpdated(db, row).wallets[row.id];
    assert stored.id == row.id && WalletSound(stored) && OwnersApart(db.wallets, db.byOwner);
    hide KeysOk, TablesSound, OwnersApart;
    MovedWalletIsApart(db.wallets, db.byOwner, moved);
    WalletsStored(db, WalletUpdated(db, row), moved);
  }

  lemma WriteKeepsSound(db: Db, write: Write)
    requires KeysOk(db) && TablesSound(db)
    ensures TablesSound(Written(db, write))
  {
    hide RowSound, LinkSound, EntrySound, WalletSound, EventSound, TextsFit, OwnerSound, OwnersApart, InsertWagerError,
         UpdateWagerError, CreateWalletError, UpdateWalletError, CreateEntryError, CreateEventError, EventStored, KeysOk,
         WagerInserted, Recorded, Overwritten, WalletUpdated, Unclaimed;
    if Refusal(db, write).None? {
      AcceptedExactly(db, write);
      match write
      case InsertWager(w, at) =>
        IsNew(db, w);
        InsertedRows(db, w, at);
        RowStored(db, WagerInserted(db, w, at), w);
      case UpdateWager(w) => UpdateKeepsSound(db, w);
      case InsertEntry(e) =>
      case UpdateWallet(row) => UpdatedWalletIsSound(db, row);
      case InsertWallet(row) => InsertedWalletIsSound(db, row);
      case InsertEvent(_) =>
    }
  }

  /** Whatever a program writes, every table stays sound. */
  lemma {:induction false} TablesStaySound(db: Db, writes: seq<Write>)
    requires KeysOk(db) && TablesSound(db)
    ensures TablesSound(AllWritten(db, writes))
    decreases |writes|
  {
    hide KeysOk, TablesSound, Written;
    if writes != [] {
      WriteKeeps(db, writes[0]);
      WriteKeepsSound(db, writes[0]);
      TablesStaySound(Written(db, writes[0]), writes[1..]);
    }
  }

  lemma SoundFromTheStart(writes: seq<Write>)
    ensures TablesSound(AllWritten(EMPTY_DB, writes))
  {
    hide AllWritten;
    TablesStaySound(EMPTY_DB, writes);
  }

  // ---- The course of a row ------------------------------------------------------------------------

  /** A settled row is as it was; one that waits is not pending again; a link stays. */
  predicate Later(before: Wager, after: Wager) {
    && SameBusiness(before, after)
    && (before.status == Processed || before.status == Rejected || before.status == Failed ==> after == before)
    && (before.status == PendingReference ==> after.status != Pending)
    && (before.referenceId.Some? ==> after.referenceId == before.referenceId)
  }

  lemma UpdateGoesForward(db: Db, w: Wager)
    requires KeysOk(db) && TablesSound(db) && UpdateWagerError(db, w).None?
    ensures w.id in db.wagers && Later(db.wagers[w.id], Overwritten(db.wagers[w.id], w))
    ensures Overwritten(db.wagers[w.id], w).id == w.id
  {
    hide KeysOk, TablesSound, RowSound, LinkSound, UpdateWagerError, TextsFit, OnlyReversal;
    UpdateExactly(db, w);
    UpdateNames(db, w);
  }

  lemma UpdateNames(db: Db, w: Wager)
    requires KeysOk(db) && w.id in db.wagers
    ensures db.wagers[w.id].id == w.id
  {
    hide IndexOk, ReversalsOk, IdsOk, EntriesOnce;
  }

  /** The rows of operations after a write: as they were, but for the one that it stores. */
  lemma WriteStoresOne(db: Db, write: Write)
    requires Refusal(db, write).None?
    ensures write.UpdateWager? ==> write.wager.id in db.wagers
    ensures Written(db, write).wagers
            == match write
               case InsertWager(w, _) => db.wagers[w.id := w]
               case UpdateWager(w) =>
                 var row := Overwritten(db.wagers[w.id], w);
                 db.wagers[row.id := row]
               case _ => db.wagers
  {
    hide InsertWagerError, CreateWalletError, CreateEntryError, CreateEventError, EventStored, WagerInserted, Recorded,
         RowChecks, ReferenceFits, TransitionFits, ReversalTaken, Overwritten;
    match write
    case InsertWager(w, at) => InsertedRows(db, w, at);
    case UpdateWager(w) => RecordedRows(db, Overwritten(db.wagers[w.id], w));
    case _ =>
  }

  lemma WriteGoesForward(db: Db, write: Write, id: Uuid)
    requires KeysOk(db) && TablesSound(db) && id in db.wagers
    ensures id in Written(db, write).wagers && Later(db.wagers[id], Written(db, write).wagers[id])
  {
    hide KeysOk, TablesSound, InsertWagerError, UpdateWagerError, Overwritten, Later, Written;
    LaterItself(db.wagers[id]);
    RefusedIsNothing(db, write);
    if Refusal(db, write).None? {
      WriteStoresOne(db, write);
      match write
      case InsertWager(w, at) => IsNew(db, w);
      case UpdateWager(w) => UpdateGoesForward(db, w);
      case _ =>
    }
  }

  lemma LaterItself(w: Wager)
    ensures Later(w, w)
  {
  }

  lemma RefusedIsNothing(db: Db, write: Write)
    ensures Refusal(db, write).Some? ==> Written(db, write) == db
  {
    hide Refusal;
  }

  /** Under any writes, an operation only goes forward. */
  lemma {:induction false} RowsGoForward(db: Db, writes: seq<Write>, id: Uuid)
    requires KeysOk(db) && TablesSound(db) && id in db.wagers
    ensures id in AllWritten(db, writes).wagers && Later(db.wagers[id], AllWritten(db, writes).wagers[id])
    decreases |writes|
  {
    hide KeysOk, TablesSound, Written;
    if writes != [] {
      WriteKeeps(db, writes[0]);
      WriteKeepsSound(db, writes[0]);
      WriteGoesForward(db, writes[0], id);
      RowsGoForward(Written(db, writes[0]), writes[1..], id);
    }
  }

  // ---- Commits ----------------------------------------------------------------------------------

  /** The entry moves the wallet after its opening. */
  predicate MovesLater(wagers: map<Uuid, Wager>, e: Entry, wallet: Uuid) {
    e.wallet == wallet && e.transaction in wagers && wagers[e.transaction].kind != Opening
  }

  /** The places of the entries that move a wallet after its opening. */
  function MovesOf(wagers: map<Uuid, Wager>, ledger: seq<Entry>, wallet: Uuid): set<nat> {
    set k: nat | k < |ledger| && MovesLater(wagers, ledger[k], wallet)
  }

  lemma MovesGrow(wagers: map<Uuid, Wager>, ledger: seq<Entry>, wallet: Uuid)
    requires ledger != []
    ensures var n := |ledger| - 1;
            && n !in MovesOf(wagers, ledger[..n], wallet)
            && MovesOf(wagers, ledger, wallet)
               == MovesOf(wagers, ledger[..n], wallet) + (if MovesLater(wagers, ledger[n], wallet) then {n} else {})
  {
    hide MovesLater;
  }

  lemma {:induction false} MovesAreCounted(wagers: map<Uuid, Wager>, ledger: seq<Entry>, wallet: Uuid)
    ensures CountedMoves(wagers, ledger, wallet) == |MovesOf(wagers, ledger, wallet)|
  {
    hide MovesOf;
    if ledger == [] {
      NothingMoves(wagers, wallet);
    } else {
      MovesAreCounted(wagers, ledger[..|ledger| - 1], wallet);
      MovesGrow(wagers, ledger, wallet);
    }
  }

  lemma NothingMoves(wagers: map<Uuid, Wager>, wallet: Uuid)
    ensures MovesOf(wagers, [], wallet) == {}
  {
  }

  /** Every wallet holds what its entries add up to, one version for each, and no processed movement or message is left out. */
  ghost predicate Balanced(db: Db) {
    && (forall id :: id in db.wallets ==>
          && db.wallets[id].balance.amount as int == Sum(db.ledger, id)
          && db.wallets[id].version as int == 1 + |MovesOf(db.wagers, db.ledger, id)|)
    && (forall w :: w in db.wagers && db.wagers[w].wallet in db.wallets
                    && db.wagers[w].status == Processed && db.wagers[w].kind != Loss ==>
          exists k :: 0 <= k < |db.ledger| && db.ledger[k].transaction == w)
    && (forall m :: m in db.inbox ==> db.inbox[m].completed)
  }

  /** A commit is accepted exactly if the data balance. */
  lemma CommitsExactly(db: Db)
    ensures CommitChecks(db) <==> Balanced(db)
  {
    hide Sum, CountedMoves, MovesOf;
    forall id ensures CountedMoves(db.wagers, db.ledger, id) == |MovesOf(db.wagers, db.ledger, id)| {
      MovesAreCounted(db.wagers, db.ledger, id);
    }
  }
}
