/** Opening a wallet keeps the invariant. */
module Opening {
  import opened Core
  import opened Finance
  import opened Domain
  import opened Engine
  import opened Invariant
  import opened Preservation
  import opened Steps

  /** A new wallet of an owner who has none in its currency. */
  ghost predicate NewTo(db: Db, wallet: WalletRow, stamp: Stamp) {
    && wallet.id == Fresh(stamp, ROW_SLOT) && wallet.id !in db.wallets && Owner(wallet) !in db.byOwner
    && ValidWallet(wallet) && wallet.version == 1 && wallet.createdAt == wallet.updatedAt == stamp.at
  }

  lemma {:induction false} NothingBooked(ledger: seq<Entry>, wallet: Uuid)
    requires forall k :: 0 <= k < |ledger| ==> ledger[k].wallet != wallet
    ensures Sum(ledger, wallet) == 0 && Moves(ledger, wallet) == 0
  {
    if ledger != [] {
      var init := ledger[..|ledger| - 1];
      assert forall k :: 0 <= k < |init| ==> init[k] == ledger[k];
      NothingBooked(init, wallet);
    }
  }

  /** Nothing in the database is about a wallet that does not exist. */
  lemma NothingAbout(db: Db, id: Uuid)
    requires RowsOk(db.wallets, db.wagers) && LedgerOk(db.wagers, db.ledger) && id !in db.wallets
    ensures Named(id) !in db.wagers
    ensures Sum(db.ledger, id) == 0 && Moves(db.ledger, id) == 0
  {
    hide Validate, PayloadOfWager, InOrder;
    forall k | 0 <= k < |db.ledger| ensures db.ledger[k].wallet != id {
      assert EntryOk(db.wagers, db.ledger[k]);
    }
    NothingBooked(db.ledger, id);
  }

  lemma NewWalletKeepsRows(wallets: map<Uuid, WalletRow>, byOwner: map<(Uuid, Currency), Uuid>,
                           wagers: map<Uuid, Wager>, wallet: WalletRow)
    requires WalletsOk(wallets, byOwner) && RowsOk(wallets, wagers)
    requires wallet.id !in wallets && wallet.id.Random? && ValidWallet(wallet) && Owner(wallet) !in byOwner
    ensures WalletsOk(wallets[wallet.id := wallet], byOwner[Owner(wallet) := wallet.id])
    ensures RowsOk(wallets[wallet.id := wallet], wagers)
  {
    hide Validate, PayloadOfWager;
  }

  lemma OpeningRow(wallet: WalletRow, at: Instant)
    requires ValidWallet(wallet) && wallet.balance.amount > 0 && wallet.createdAt <= at
    ensures ValidWager(OpeningOf(wallet, at))
  {
  }

  lemma OpeningEntryFits(db: Db, wallet: WalletRow, stamp: Stamp)
    requires NewTo(db, wallet, stamp) && wallet.balance.amount > 0
    requires Sum(db.ledger, wallet.id) == 0 && Moves(db.ledger, wallet.id) == 0 && Named(wallet.id) !in Booked(db.ledger)
    ensures var w, e := OpeningOf(wallet, stamp.at), OpeningEntry(wallet, stamp);
            EntryOk(db.wagers[w.id := w], e) && InOrder(db.wagers[w.id := w], db.ledger, e)
  {
  }

  lemma OpeningBalances(wallets: map<Uuid, WalletRow>, ledger: seq<Entry>, wallet: WalletRow, stamp: Stamp)
    requires BalancesOk(wallets, ledger) && Sum(ledger, wallet.id) == 0 && Moves(ledger, wallet.id) == 0
    requires wallet.version == 1
    ensures BalancesOk(wallets[wallet.id := wallet], ledger + [OpeningEntry(wallet, stamp)])
    ensures Moves(ledger + [OpeningEntry(wallet, stamp)], wallet.id) == 0
  {
    var e := OpeningEntry(wallet, stamp);
    forall id ensures Sum(ledger + [e], id) == Sum(ledger, id) + (if id == wallet.id then e.money.amount else 0)
              ensures Moves(ledger + [e], id) == Moves(ledger, id)
    {
      Appended(ledger, e, id);
    }
  }

  lemma OpeningBooks(db: Db, wallet: WalletRow, stamp: Stamp)
    requires BalancesOk(db.wallets, db.ledger) && LedgerOk(db.wagers, db.ledger) && AllBooked(db.wagers, db.ledger)
    requires StreamOk(db.ledger, Changes(db.outbox)) && LinksOk(db.wagers) && RowsOk(db.wallets, db.wagers)
    requires NewTo(db, wallet, stamp) && wallet.balance.amount > 0
    ensures var w := OpeningOf(wallet, stamp.at);
            var e := OpeningEntry(wallet, stamp);
            && LedgerOk(db.wagers[w.id := w], db.ledger + [e])
            && AllBooked(db.wagers[w.id := w], db.ledger + [e])
            && BalancesOk(db.wallets[wallet.id := wallet], db.ledger + [e])
            && Moves(db.ledger + [e], wallet.id) == 0
  {
    var w := OpeningOf(wallet, stamp.at);
    var e := OpeningEntry(wallet, stamp);
    var rows := db.wagers[w.id := w];
    NothingAbout(db, wallet.id);
    hide RowsOk, LedgerOk, EntryOk, InOrder, LinksOk, BalancesOk, AllBooked, StreamOk;
    EntriesKept(db.wagers, db.ledger, w);
    OpeningEntryFits(db, wallet, stamp);
    LedgerExtended(rows, db.ledger, e);
    AllBookedExtended(db.wagers, db.ledger, w, e);
    OpeningBalances(db.wallets, db.ledger, wallet, stamp);
  }

  lemma OpeningEventsFit(db: Db, wallet: WalletRow, stamp: Stamp, trace: Trace)
    requires EventsOk(db.wagers, db.outbox) && forall id :: id in db.wagers ==> db.wagers[id].id == id
    requires Named(wallet.id) !in db.wagers && wallet.balance.amount > 0
    ensures var w := OpeningOf(wallet, stamp.at);
            var events := OpeningEvents(wallet, stamp, trace);
            && EventsOk(db.wagers[w.id := w], db.outbox + events)
            && Changes(db.outbox + events) == Changes(db.outbox) + [events[1]]
  {
    var w := OpeningOf(wallet, stamp.at);
    var a, b := OpeningEvents(wallet, stamp, trace)[0], OpeningEvents(wallet, stamp, trace)[1];
    assert OpeningEvents(wallet, stamp, trace) == [a, b];
    forall tag ensures Count(db.outbox + [a, b], w.id, tag) == Count([a, b], w.id, tag) {
      CountConcat(db.outbox, [a, b], w.id, tag);
      NoEventsYet(db.wagers, db.outbox, w.id, tag);
    }
    forall tag {
      CountOfTwo(a, b, w.id, tag);
    }
    CountOfTwo(a, b, w.id, ProcessedTag);
    assert EventsMatch(w, db.outbox + [a, b]);
    EventsKept(db.wagers, db.outbox, w, [a, b]);
    ChangesConcat(db.outbox, [a, b]);
  }

  lemma EmptyWalletKeepsInv(db: Db, wallet: WalletRow, stamp: Stamp, trace: Trace)
    requires Inv(db) && NewTo(db, wallet, stamp) && wallet.balance.amount == 0
    ensures Inv(Opened(db, wallet, stamp, trace))
  {
    hide IndexOk, LinksOk, ReversalsOk, SchedulesOk, LedgerOk, AllBooked, StreamOk, EventsOk, InboxOk, IdsOk, RowOk;
    NothingAbout(db, wallet.id);
    NewWalletKeepsRows(db.wallets, db.byOwner, db.wagers, wallet);
    hide WalletsOk, RowsOk;
  }

  lemma OpeningIndexes(db: Db, w: Wager)
    requires IndexOk(db.wagers, db.byKey, db.byExternal) && LinksOk(db.wagers) && ReversalsOk(db.wagers, db.reversals)
    requires SchedulesOk(db.wagers, db.schedules) && InboxOk(db.wagers, db.byKey, db.inbox)
    requires w.id !in db.wagers && w.kind.Opening? && w.referenceId.None?
    ensures var rows := db.wagers[w.id := w];
            && IndexOk(rows, db.byKey, db.byExternal) && LinksOk(rows) && ReversalsOk(rows, db.reversals)
            && InboxOk(rows, db.byKey, db.inbox)
  {
    hide IndexOk, LinksOk, ReversalsOk, InboxOk, Linked;
    OpeningHasNoKey(db.wagers, db.byKey, db.byExternal, db.inbox, w);
    LinksKept(db.wagers, w);
    ReversalsKept(db.wagers, db.reversals, w);
  }

  lemma OpeningHasNoKey(wagers: map<Uuid, Wager>, byKey: map<(string, string), Uuid>,
                        byExternal: map<(string, string), Uuid>, inbox: map<string, Receipt>, w: Wager)
    requires IndexOk(wagers, byKey, byExternal) && InboxOk(wagers, byKey, inbox)
    requires w.id !in wagers && w.kind.Opening?
    ensures IndexOk(wagers[w.id := w], byKey, byExternal) && InboxOk(wagers[w.id := w], byKey, inbox)
  {
    hide PayloadOf;
  }

  lemma OpeningStream(db: Db, wallet: WalletRow, stamp: Stamp, trace: Trace)
    requires StreamOk(db.ledger, Changes(db.outbox)) && IdsOk(db.ledger, db.outbox) && Unused(db, stamp.ticket)
    requires Moves(db.ledger + [OpeningEntry(wallet, stamp)], wallet.id) == 0
    ensures var e := OpeningEntry(wallet, stamp);
            var events := OpeningEvents(wallet, stamp, trace);
            && StreamOk(db.ledger + [e], Changes(db.outbox) + [events[1]])
            && IdsOk(db.ledger + [e], db.outbox + events)
  {
    var e := OpeningEntry(wallet, stamp);
    var events := OpeningEvents(wallet, stamp, trace);
    StreamExtended(db.ledger, Changes(db.outbox), e, events[1]);
    IdsKept(db.ledger, db.outbox, [e], events, stamp.ticket);
  }

  lemma OpenedRows(db: Db, wallet: WalletRow, stamp: Stamp)
    requires WalletsOk(db.wallets, db.byOwner) && RowsOk(db.wallets, db.wagers)
    requires NewTo(db, wallet, stamp) && wallet.balance.amount > 0
    ensures var wallets, w := db.wallets[wallet.id := wallet], OpeningOf(wallet, stamp.at);
            && WalletsOk(wallets, db.byOwner[Owner(wallet) := wallet.id]) && RowsOk(wallets, db.wagers[w.id := w])
  {
    hide RowsOk, RowOk, Validate, WalletsOk;
    NewWalletKeepsRows(db.wallets, db.byOwner, db.wagers, wallet);
    OpeningRow(wallet, stamp.at);
    OpeningRowFits(db.wallets[wallet.id := wallet], wallet, stamp.at);
    RowsKept(db.wallets[wallet.id := wallet], db.wagers, OpeningOf(wallet, stamp.at));
  }

  lemma OpenedKeepsInv(db: Db, wallet: WalletRow, stamp: Stamp, trace: Trace)
    requires Inv(db) && NewTo(db, wallet, stamp) && Unused(db, stamp.ticket)
    ensures Inv(Opened(db, wallet, stamp, trace))
  {
    if wallet.balance.amount == 0 {
      hide Inv, Opened, NewTo, Unused;
      EmptyWalletKeepsInv(db, wallet, stamp, trace);
    } else {
      hide IndexOk, LinksOk, ReversalsOk, LedgerOk, AllBooked, BalancesOk, StreamOk, EventsOk, InboxOk, IdsOk, RowOk,
           WalletsOk, Validate, Unused, OpeningEvents;
      NothingAbout(db, wallet.id);
      OpeningEventsFit(db, wallet, stamp, trace);
      hide RowsOk;
      OpenedRows(db, wallet, stamp);
      OpeningIndexes(db, OpeningOf(wallet, stamp.at));
      OpeningBooks(db, wallet, stamp);
      OpeningStream(db, wallet, stamp, trace);
    }
  }

  lemma OpeningRowFits(wallets: map<Uuid, WalletRow>, wallet: WalletRow, at: Instant)
    requires wallet.id in wallets && wallets[wallet.id] == wallet && ValidWager(OpeningOf(wallet, at))
    ensures RowOk(wallets, OpeningOf(wallet, at))
  {
    hide Validate;
  }

  lemma OpenKeepsInv(db: Db, player: Uuid, initial: Money, stamp: Stamp, trace: Trace)
    requires Inv(db) && Unused(db, stamp.ticket) && stamp.at > 0
    ensures Open(db, player, initial, stamp, trace).Ok? ==> Inv(Open(db, player, initial, stamp, trace).value)
  {
    hide Inv, Opened, Unused;
    if Open(db, player, initial, stamp, trace).Ok? {
      OpenedKeepsInv(db, NewWallet(player, initial, Fresh(stamp, ROW_SLOT), stamp.at).value, stamp, trace);
    }
  }
  // ---- Exactly what an opening leaves -------------------------------------------------------------

  /** A player without a wallet in the currency may open one with any amount that is not negative. */
  predicate MayOpen(player: Uuid, initial: Money) {
    player != Nil && (initial.currency == BRL || initial.currency == USD) && initial.amount >= 0
  }

  ghost predicate HasWallet(db: Db, player: Uuid, currency: Currency) {
    exists id :: id in db.wallets && db.wallets[id].player == player && db.wallets[id].balance.currency == currency
  }

  /** The new wallet holds what it was opened with. */
  predicate OpenedRow(row: WalletRow, id: Uuid, player: Uuid, initial: Money, at: Instant) {
    row.id == id && row.player == player && row.balance == initial && row.version == 1 && row.createdAt == row.updatedAt == at
  }

  /** The opening operation: processed, of the whole amount, with nothing that a provider sends. */
  predicate OpeningRowOf(w: Wager, wallet: Uuid, player: Uuid, initial: Money, at: Instant) {
    && w.id == Named(wallet) && w.wallet == wallet && w.player == player && w.kind == Kind.Opening && w.money == initial
    && w.status == Processed && w.result == Some(initial) && w.createdAt == w.updatedAt == at
    && w.provider == "" && w.externalId == "" && w.key == "" && w.digest == NoDigest && w.round == "" && w.game == ""
    && w.reference.None? && w.referenceId.None? && w.failure.None?
  }

  predicate OpeningEntryOf(e: Entry, id: Uuid, wallet: Uuid, initial: Money, at: Instant) {
    && e.id == id && e.wallet == wallet && e.transaction == Named(wallet) && e.direction == Credit && e.money == initial
    && e.before == Money(0, initial.currency) && e.after == initial && e.createdAt == at
  }

  predicate OpeningEventOf(event: Event, id: Uuid, wallet: Uuid, at: Instant, trace: Trace, content: Content) {
    event.id == id && event.aggregate == wallet && event.occurredAt == at && event.trace == trace && event.content == content
  }

  /** With money, the opening operation, its entry and its two events; without, the wallet alone. */
  predicate OpeningLeaves(before: Db, after: Db, player: Uuid, initial: Money, stamp: Stamp, trace: Trace) {
    var id := Random(stamp.ticket, ROW_SLOT);
    && id !in before.wallets && id in after.wallets && OpenedRow(after.wallets[id], id, player, initial, stamp.at)
    && after.wallets == before.wallets[id := after.wallets[id]]
    && after.byOwner == before.byOwner[(player, initial.currency) := id]
    && after.inbox == before.inbox && after.byKey == before.byKey && after.byExternal == before.byExternal
    && after.reversals == before.reversals
    && if initial.amount == 0 then
         after.wagers == before.wagers && after.schedules == before.schedules && after.ledger == before.ledger
         && after.outbox == before.outbox
       else
         && Named(id) !in before.wagers && Named(id) in after.wagers
         && OpeningRowOf(after.wagers[Named(id)], id, player, initial, stamp.at)
         && after.wagers == before.wagers[Named(id) := after.wagers[Named(id)]]
         && |after.ledger| == |before.ledger| + 1 && after.ledger[..|before.ledger|] == before.ledger
         && OpeningEntryOf(after.ledger[|before.ledger|], Random(stamp.ticket, ENTRY_SLOT), id, initial, stamp.at)
         && |after.outbox| == |before.outbox| + 2 && after.outbox[..|before.outbox|] == before.outbox
         && OpeningEventOf(after.outbox[|before.outbox|], Random(stamp.ticket, OUTCOME_SLOT), id, stamp.at, trace,
                           TransactionProcessed(after.wagers[Named(id)]))
         && OpeningEventOf(after.outbox[|before.outbox| + 1], Random(stamp.ticket, CHANGE_SLOT), id, stamp.at, trace,
                           BalanceChanged(after.ledger[|before.ledger|], 1))
  }

  lemma OwnersAreListed(db: Db, player: Uuid, currency: Currency)
    requires WalletsOk(db.wallets, db.byOwner)
    ensures HasWallet(db, player, currency) <==> (player, currency) in db.byOwner
  {
    if HasWallet(db, player, currency) {
      var id :| id in db.wallets && db.wallets[id].player == player && db.wallets[id].balance.currency == currency;
      assert Owner(db.wallets[id]) in db.byOwner;
    }
    if (player, currency) in db.byOwner {
      assert Owner(db.wallets[db.byOwner[(player, currency)]]) == (player, currency);
    }
  }

  /** An opening succeeds exactly for a player without such a wallet, and leaves exactly the wallet with its books. */
  lemma OpensExactly(db: Db, player: Uuid, initial: Money, stamp: Stamp, trace: Trace)
    requires Inv(db) && Unused(db, stamp.ticket)
    ensures Open(db, player, initial, stamp, trace).Ok? <==>
            MayOpen(player, initial) && !HasWallet(db, player, initial.currency)
    ensures !MayOpen(player, initial) ==> Open(db, player, initial, stamp, trace) == Err(ErrInvalidWallet)
    ensures MayOpen(player, initial) && HasWallet(db, player, initial.currency) ==>
              Open(db, player, initial, stamp, trace) == Err(ErrWalletConflict)
    ensures Open(db, player, initial, stamp, trace).Ok? ==>
              OpeningLeaves(db, Open(db, player, initial, stamp, trace).value, player, initial, stamp, trace)
  {
    hide RowsOk, IndexOk, LinksOk, ReversalsOk, LedgerOk, AllBooked, BalancesOk, StreamOk, EventsOk, InboxOk, IdsOk,
         WalletsOk, HasWallet, OpeningLeaves, Opened;
    assert Fresh(stamp, ROW_SLOT) !in db.wallets;
    OwnersAreListed(db, player, initial.currency);
    NothingAbout(db, Fresh(stamp, ROW_SLOT));
    hide Inv, Unused;
    if Open(db, player, initial, stamp, trace).Ok? {
      var wallet := NewWallet(player, initial, Fresh(stamp, ROW_SLOT), stamp.at).value;
      OpenedLeaves(db, wallet, player, initial, stamp, trace);
    }
  }

  lemma OpenedLeaves(db: Db, wallet: WalletRow, player: Uuid, initial: Money, stamp: Stamp, trace: Trace)
    requires OpenedRow(wallet, Random(stamp.ticket, ROW_SLOT), player, initial, stamp.at)
    requires wallet.id !in db.wallets && Named(wallet.id) !in db.wagers
    ensures OpeningLeaves(db, Opened(db, wallet, stamp, trace), player, initial, stamp, trace)
  {
  }
}
