/** What holds of the database after every commit. */
module Invariant {
  import opened Core
  import opened Finance
  import opened Domain
  import opened Engine

  // ---- Wallets ------------------------------------------------------------------------

  function Owner(w: WalletRow): (Uuid, Currency) {
    (w.player, w.balance.currency)
  }

  ghost predicate WalletsOk(wallets: map<Uuid, WalletRow>, byOwner: map<(Uuid, Currency), Uuid>) {
    && (forall id :: id in wallets ==>
          wallets[id].id == id && id.Random? && ValidWallet(wallets[id])
          && Owner(wallets[id]) in byOwner && byOwner[Owner(wallets[id])] == id)
    && (forall o :: o in byOwner ==> byOwner[o] in wallets && Owner(wallets[byOwner[o]]) == o)
  }

  // ---- Wagers -------------------------------------------------------------------------

  function PayloadOfWager(w: Wager): Payload {
    Payload(w.externalId, w.game, w.kind, MoneyText(w.money), w.money.currency, w.player, w.provider, w.reference,
            w.round, w.wallet)
  }

  predicate BelongsTo(w: Wager, wallet: WalletRow) {
    wallet.player == w.player && wallet.balance.currency == w.money.currency
  }

  /** A committed row: valid, settled or waiting, and about a wallet of its player and currency. */
  ghost predicate RowOk(wallets: map<Uuid, WalletRow>, w: Wager) {
    && ValidWager(w)
    && (w.status.PendingReference? || w.status.Processed? || w.status.Rejected?)
    && (w.status.PendingReference? ==> w.referenceId.None?)
    && (if w.kind.Opening? then w.id == Named(w.wallet) && w.status.Processed?
        else w.id.Random? && w.digest == Sha256(PayloadOfWager(w)))
    && w.wallet in wallets && BelongsTo(w, wallets[w.wallet])
  }

  ghost predicate RowsOk(wallets: map<Uuid, WalletRow>, wagers: map<Uuid, Wager>) {
    forall id :: id in wagers ==> wagers[id].id == id && RowOk(wallets, wagers[id])
  }

  ghost predicate IndexOk(wagers: map<Uuid, Wager>, byKey: map<(string, string), Uuid>,
                          byExternal: map<(string, string), Uuid>)
  {
    && (forall id :: id in wagers && !wagers[id].kind.Opening? ==>
          var w := wagers[id];
          && (w.provider, w.key) in byKey && byKey[(w.provider, w.key)] == id
          && (w.provider, w.externalId) in byExternal && byExternal[(w.provider, w.externalId)] == id)
    && (forall k :: k in byKey ==>
          byKey[k] in wagers && (var w := wagers[byKey[k]]; !w.kind.Opening? && k == (w.provider, w.key)))
    && (forall k :: k in byExternal ==>
          byExternal[k] in wagers && (var w := wagers[byExternal[k]]; !w.kind.Opening? && k == (w.provider, w.externalId)))
  }

  /** A link joins a wager to a processed operation that it may act upon. */
  predicate Linked(w: Wager, r: Wager) {
    && NeedsReference(w) && r.id != w.id && r.status.Processed?
    && r.provider == w.provider && w.reference == Some(r.externalId)
    && r.wallet == w.wallet && r.player == w.player
    && r.money.currency == w.money.currency && r.round == w.round
    && ReferenceKindFits(w.kind, r.kind)
    && (w.kind.Win? || r.money == w.money)
  }

  ghost predicate LinksOk(wagers: map<Uuid, Wager>) {
    forall id :: id in wagers && wagers[id].referenceId.Some? ==>
      wagers[id].referenceId.value in wagers && Linked(wagers[id], wagers[wagers[id].referenceId.value])
  }

  ghost predicate ReversalsOk(wagers: map<Uuid, Wager>, reversals: map<Uuid, Uuid>) {
    && (forall r :: r in reversals ==>
          reversals[r] in wagers && Reverses(wagers[reversals[r]]) && wagers[reversals[r]].referenceId == Some(r))
    && (forall id :: id in wagers && Reverses(wagers[id]) ==>
          wagers[id].referenceId.value in reversals && reversals[wagers[id].referenceId.value] == id)
  }

  ghost predicate SchedulesOk(wagers: map<Uuid, Wager>, schedules: map<Uuid, Schedule>) {
    forall id :: id in wagers ==> id in schedules
  }

  // ---- Books --------------------------------------------------------------------------

  /** The exact signed sum of the entries of one wallet. */
  function Sum(ledger: seq<Entry>, wallet: Uuid): int {
    if ledger == [] then 0
    else
      var e := ledger[|ledger| - 1];
      Sum(ledger[..|ledger| - 1], wallet) + (if e.wallet == wallet then Signed(e.direction, e.money.amount) else 0)
  }

  /** How many entries of one wallet do not come from its opening. */
  function Moves(ledger: seq<Entry>, wallet: Uuid): nat {
    if ledger == [] then 0
    else
      var e := ledger[|ledger| - 1];
      Moves(ledger[..|ledger| - 1], wallet) + (if e.wallet == wallet && !e.transaction.Named? then 1 else 0)
  }

  function Booked(ledger: seq<Entry>): set<Uuid> {
    if ledger == [] then {} else Booked(ledger[..|ledger| - 1]) + {ledger[|ledger| - 1].transaction}
  }

  lemma Appended(ledger: seq<Entry>, e: Entry, wallet: Uuid)
    ensures Sum(ledger + [e], wallet)
            == Sum(ledger, wallet) + (if e.wallet == wallet then Signed(e.direction, e.money.amount) else 0)
    ensures Moves(ledger + [e], wallet)
            == Moves(ledger, wallet) + (if e.wallet == wallet && !e.transaction.Named? then 1 else 0)
    ensures Booked(ledger + [e]) == Booked(ledger) + {e.transaction}
  {
    assert (ledger + [e])[..|ledger + [e]| - 1] == ledger;
  }

  function Original(wagers: map<Uuid, Wager>, w: Wager): Option<Wager> {
    if w.referenceId.Some? && w.referenceId.value in wagers then Some(wagers[w.referenceId.value]) else None
  }

  /** An entry accounts for a processed operation, in its direction and up to its result. */
  ghost predicate EntryOk(wagers: map<Uuid, Wager>, e: Entry) {
    && e.transaction in wagers
    && (var w := wagers[e.transaction];
        && w.status.Processed? && !w.kind.Loss? && w.wallet == e.wallet && w.money == e.money
        && w.result == Some(e.after) && e.direction == DirectionOf(w.kind, Original(wagers, w)))
    && IsPositive(e.money) && e.before.currency == e.money.currency && e.after.currency == e.money.currency
    && e.before.amount >= 0 && e.after.amount >= 0
    && e.after.amount == e.before.amount + Signed(e.direction, e.money.amount)
    && e.id.Random? && e.createdAt > 0
  }

  /**
   * The entry follows the earlier ones of its wallet, is new, comes after what it refers to and,
   * for an opening, before any movement.
   */
  ghost predicate InOrder(wagers: map<Uuid, Wager>, earlier: seq<Entry>, e: Entry) {
    && e.before.amount == Sum(earlier, e.wallet)
    && (e.transaction.Named? ==> Moves(earlier, e.wallet) == 0 && e.transaction == Named(e.wallet))
    && e.transaction !in Booked(earlier)
    && (e.transaction in wagers && wagers[e.transaction].referenceId.Some? ==>
          wagers[e.transaction].referenceId.value in Booked(earlier))
  }

  ghost predicate LedgerOk(wagers: map<Uuid, Wager>, ledger: seq<Entry>) {
    forall k :: 0 <= k < |ledger| ==> EntryOk(wagers, ledger[k]) && InOrder(wagers, ledger[..k], ledger[k])
  }

  predicate Financial(w: Wager) {
    w.status.Processed? && !w.kind.Loss?
  }

  ghost predicate AllBooked(wagers: map<Uuid, Wager>, ledger: seq<Entry>) {
    forall id :: id in wagers && Financial(wagers[id]) ==> id in Booked(ledger)
  }

  ghost predicate BalancesOk(wallets: map<Uuid, WalletRow>, ledger: seq<Entry>) {
    forall id :: id in wallets ==>
      wallets[id].balance.amount == Sum(ledger, id) && wallets[id].version == 1 + Moves(ledger, id)
  }

  // ---- Events -------------------------------------------------------------------------

  /** The balance changes among the events, in order. */
  function Changes(outbox: seq<Event>): seq<Event> {
    if outbox == [] then []
    else
      var last := outbox[|outbox| - 1];
      Changes(outbox[..|outbox| - 1]) + (if last.content.BalanceChanged? then [last] else [])
  }

  /** A change announces its ledger entry under the version that the wallet reached with it. */
  predicate Announces(event: Event, ledger: seq<Entry>, k: nat)
    requires k < |ledger|
  {
    && event.content.BalanceChanged? && event.content.entry == ledger[k]
    && event.aggregate == ledger[k].wallet
    && event.content.version == 1 + Moves(ledger[..k + 1], ledger[k].wallet)
  }

  ghost predicate StreamOk(ledger: seq<Entry>, changes: seq<Event>) {
    && |changes| == |ledger|
    && forall k :: 0 <= k < |ledger| ==> Announces(changes[k], ledger, k)
  }

  datatype Tag = ProcessedTag | RejectedTag | PendingTag | ChangeTag

  /** The event is of this sort and about this operation. */
  predicate Concerns(content: Content, id: Uuid, tag: Tag) {
    match content
    case TransactionProcessed(w) => tag.ProcessedTag? && w.id == id
    case TransactionRejected(w) => tag.RejectedTag? && w.id == id
    case TransactionPendingReference(w) => tag.PendingTag? && w.id == id
    case BalanceChanged(e, _) => tag.ChangeTag? && e.transaction == id
  }

  function Count(outbox: seq<Event>, id: Uuid, tag: Tag): nat {
    if outbox == [] then 0
    else
      Count(outbox[..|outbox| - 1], id, tag) + (if Concerns(outbox[|outbox| - 1].content, id, tag) then 1 else 0)
  }

  /** The events that the status of a wager calls for, each once. */
  ghost predicate EventsMatch(w: Wager, outbox: seq<Event>) {
    && Count(outbox, w.id, ProcessedTag) == (if w.status.Processed? then 1 else 0)
    && Count(outbox, w.id, RejectedTag) == (if w.status.Rejected? then 1 else 0)
    && Count(outbox, w.id, ChangeTag) == (if Financial(w) then 1 else 0)
    && Count(outbox, w.id, PendingTag) <= (if NeedsReference(w) then 1 else 0)
    && (w.status.PendingReference? ==> Count(outbox, w.id, PendingTag) == 1)
  }

  /** The snapshot in an outcome event is the stored row, which no longer changes. */
  ghost predicate SnapshotOk(wagers: map<Uuid, Wager>, event: Event) {
    match event.content
    case TransactionProcessed(w) => w.id in wagers && wagers[w.id] == w && event.aggregate == w.wallet && w.status.Processed?
    case TransactionRejected(w) => w.id in wagers && wagers[w.id] == w && event.aggregate == w.wallet && w.status.Rejected?
    case TransactionPendingReference(w) =>
      w.id in wagers && SameBusiness(w, wagers[w.id]) && event.aggregate == w.wallet && !Blank(event.trace.correlation)
    case BalanceChanged(e, _) => e.transaction in wagers
  }

  ghost predicate EventsOk(wagers: map<Uuid, Wager>, outbox: seq<Event>) {
    && (forall id :: id in wagers ==> EventsMatch(wagers[id], outbox))
    && (forall j :: 0 <= j < |outbox| ==> SnapshotOk(wagers, outbox[j]))
  }

  // ---- Inbox --------------------------------------------------------------------------

  /** The operation that the request describes is stored under its key. */
  ghost predicate Answered(wagers: map<Uuid, Wager>, byKey: map<(string, string), Uuid>, q: Request) {
    && (q.provider, q.key) in byKey && byKey[(q.provider, q.key)] in wagers
    && wagers[byKey[(q.provider, q.key)]].digest == Sha256(PayloadOf(q))
  }

  ghost predicate InboxOk(wagers: map<Uuid, Wager>, byKey: map<(string, string), Uuid>, inbox: map<string, Receipt>) {
    forall m :: m in inbox ==>
      inbox[m].completed && inbox[m].body.messageId == m && Answered(wagers, byKey, inbox[m].body.request)
  }

  // ---- Identities ---------------------------------------------------------------------

  predicate Draws(id: Uuid, ticket: nat) {
    id.Random? && id.ticket == ticket
  }

  /** No stored identity comes from this ticket. */
  ghost predicate Unused(db: Db, ticket: nat) {
    && (forall id :: id in db.wallets ==> !Draws(id, ticket))
    && (forall id :: id in db.wagers ==> !Draws(id, ticket))
    && (forall k :: 0 <= k < |db.ledger| ==> !Draws(db.ledger[k].id, ticket))
    && (forall k :: 0 <= k < |db.outbox| ==> !Draws(db.outbox[k].id, ticket))
  }

  ghost predicate IdsOk(ledger: seq<Entry>, outbox: seq<Event>) {
    && (forall j, k :: 0 <= j < k < |ledger| ==> ledger[j].id != ledger[k].id)
    && (forall j, k :: 0 <= j < k < |outbox| ==> outbox[j].id != outbox[k].id)
  }

  // ---- All together -------------------------------------------------------------------

  ghost predicate Inv(db: Db) {
    && WalletsOk(db.wallets, db.byOwner)
    && RowsOk(db.wallets, db.wagers)
    && IndexOk(db.wagers, db.byKey, db.byExternal)
    && LinksOk(db.wagers)
    && ReversalsOk(db.wagers, db.reversals)
    && SchedulesOk(db.wagers, db.schedules)
    && LedgerOk(db.wagers, db.ledger)
    && AllBooked(db.wagers, db.ledger)
    && BalancesOk(db.wallets, db.ledger)
    && StreamOk(db.ledger, Changes(db.outbox))
    && EventsOk(db.wagers, db.outbox)
    && InboxOk(db.wagers, db.byKey, db.inbox)
    && IdsOk(db.ledger, db.outbox)
  }

  lemma EmptyIsConsistent()
    ensures Inv(EMPTY_DB)
  {
  }
}
