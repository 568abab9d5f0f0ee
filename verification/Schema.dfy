/** The rules that the storage enforces on its own: check constraints, keys and triggers. */
module Schema {
  import opened Core
  import opened Finance
  import opened Domain
  import opened Engine
  import opened Invariant
  import Preservation

  // ---- Columns ------------------------------------------------------------------------------

  /** An empty text is stored as a null. */
  function Column(text: string): Option<string> {
    if text == "" then None else Some(text)
  }

  predicate Filled(column: Option<string>) {
    column.Some? && !BlankToStorage(column.value)
  }

  function CodeText(code: FailureCode): string {
    match code
    case InsufficientBalance => "INSUFFICIENT_BALANCE"
    case ReversalInsufficientBalance => "REVERSAL_INSUFFICIENT_BALANCE"
    case InvalidReference => "INVALID_REFERENCE"
    case ReferenceUnsuccessful => "REFERENCE_UNSUCCESSFUL"
    case AlreadyReversed => "ALREADY_REVERSED"
    case MoneyOverflow => "MONEY_OVERFLOW"
    case ReferenceNotFound => "REFERENCE_NOT_FOUND"
    case OtherCode(text) => text
  }

  // ---- Wagers: row checks -------------------------------------------------------------------

  predicate CheckAmount(w: Wager) {
    || (w.kind.Loss? && w.money.amount == 0)
    || (w.kind.Opening? && w.money.amount >= 0)
    || ((w.kind.Bet? || w.kind.Win? || IsReversal(w.kind)) && w.money.amount > 0)
  }

  predicate CheckOrigin(w: Wager) {
    if w.kind.Opening? then
      && w.money.amount > 0 && w.status.Processed?
      && Column(w.provider).None? && Column(w.externalId).None? && Column(w.key).None? && w.digest.NoDigest?
      && Column(w.round).None? && Column(w.game).None? && w.reference.None? && w.referenceId.None?
      && w.result.Some? && w.result.value.amount == w.money.amount
    else
      && Filled(Column(w.provider)) && Filled(Column(w.externalId)) && Filled(Column(w.key)) && w.digest.Sha256?
      && Filled(Column(w.round)) && Filled(Column(w.game))
  }

  predicate CheckResult(w: Wager) {
    && (w.result.Some? ==> w.result.value.amount >= 0)
    && match w.status
       case Processed => w.result.Some? && w.failure.None?
       case Pending | PendingReference => w.result.None? && w.failure.None?
       case Rejected | Failed => w.result.None? && w.failure.Some? && !BlankToStorage(CodeText(w.failure.value))
  }

  predicate CheckReference(w: Wager) {
    && (w.reference.Some? ==> !BlankToStorage(w.reference.value))
    && (IsReversal(w.kind) ==> w.reference.Some?)
    && (w.status.PendingReference? ==> (w.kind.Win? || IsReversal(w.kind)) && w.reference.Some?)
    && (w.status.Processed? && w.referenceId.None? ==>
          !IsReversal(w.kind) && !(w.kind.Win? && w.reference.Some?))
    && (w.referenceId.Some? ==> w.referenceId.value != w.id)
  }

  /** All that a row of wagers is checked for by itself. */
  predicate RowChecks(w: Wager) {
    && KnownKind(w.kind) && CheckAmount(w) && CheckOrigin(w) && CheckResult(w) && CheckReference(w)
    && w.createdAt <= w.updatedAt
  }

  /** The sizes of the text columns that an insertion fills. */
  predicate Sizes(w: Wager) {
    && |w.provider| <= 100 && |w.externalId| <= 255 && |w.key| <= 255 && |w.round| <= 255 && |w.game| <= 255
    && (w.reference.Some? ==> |w.reference.value| <= 255)
    && (w.failure.Some? ==> |CodeText(w.failure.value)| <= 100)
  }

  // ---- Wagers: the row trigger --------------------------------------------------------------

  /** A resolved reference points to a processed operation that fits. */
  predicate ReferenceFits(wagers: map<Uuid, Wager>, w: Wager) {
    w.referenceId.Some? ==>
      && w.referenceId.value in wagers
      && (var original := wagers[w.referenceId.value];
          && original.status.Processed?
          && Column(original.provider) == Column(w.provider) && Column(original.externalId) == w.reference
          && original.wallet == w.wallet && original.player == w.player
          && original.money.currency == w.money.currency && Column(original.round) == Column(w.round)
          && (w.kind.Win? || w.kind.Refund? ==> original.kind.Bet?)
          && (w.kind.Rollback? ==> original.kind.Bet? || original.kind.Win? || original.kind.Refund?)
          && (w.kind.Win? || IsReversal(w.kind))
          && (IsReversal(w.kind) ==> w.money.amount == original.money.amount))
  }

  predicate TransitionFits(stored: Wager, w: Wager) {
    && !IsTerminal(stored) && SameBusiness(stored, w)
    && !(stored.status.PendingReference? && w.status.Pending?)
    && (stored.referenceId.Some? ==> w.referenceId == stored.referenceId)
  }

  // ---- Keys ---------------------------------------------------------------------------------

  predicate WalletKnown(wallets: map<Uuid, WalletRow>, w: Wager) {
    w.wallet in wallets && BelongsTo(w, wallets[w.wallet])
  }

  predicate ReversalTaken(db: Db, w: Wager) {
    Reverses(w) && w.referenceId.value in db.reversals && db.reversals[w.referenceId.value] != w.id
  }

  /** A key of the new row is in use; an opening has no key but its wallet. */
  predicate KeyTaken(db: Db, w: Wager) {
    if w.kind.Opening? then w.id in db.wagers || Named(w.wallet) in db.wagers else IdentityTaken(db, w) || ReversalTaken(db, w)
  }

  // ---- Ledger, events and inbox -------------------------------------------------------------

  predicate EntryChecks(e: Entry) {
    && e.money.amount > 0 && e.before.amount >= 0 && e.after.amount >= 0
    && e.after.amount == e.before.amount + Signed(e.direction, e.money.amount)
  }

  /** The trigger on the ledger: a processed financial operation, in its direction, up to its result. */
  predicate EntryFits(wagers: map<Uuid, Wager>, e: Entry) {
    && e.transaction in wagers
    && (var w := wagers[e.transaction];
        && w.status.Processed? && !w.kind.Loss?
        && (e.direction.Debit? <==>
              || w.kind.Bet?
              || (w.kind.Rollback? && w.referenceId.Some? && w.referenceId.value in wagers
                  && (wagers[w.referenceId.value].kind.Win? || wagers[w.referenceId.value].kind.Refund?)))
        && w.result.Some? && e.after.amount == w.result.value.amount
        && (w.kind.Opening? ==> e.before.amount == 0))
  }

  predicate EntryKeys(db: Db, e: Entry) {
    && e.wallet in db.wallets && e.transaction in db.wagers
    && (var w := db.wagers[e.transaction]; w.wallet == e.wallet && w.money == e.money)
    && (forall k :: 0 <= k < |db.ledger| ==>
          db.ledger[k].id != e.id && !(db.ledger[k].wallet == e.wallet && db.ledger[k].transaction == e.transaction))
  }

  predicate EventChecks(db: Db, event: Event) {
    event.aggregate in db.wallets && !BlankToStorage(event.trace.correlation)
  }

  // ---- At the commit ------------------------------------------------------------------------

  /** The movements of a wallet, counted by the kind of the operation that each entry belongs to. */
  function CountedMoves(wagers: map<Uuid, Wager>, ledger: seq<Entry>, wallet: Uuid): nat {
    if ledger == [] then 0
    else
      var e := ledger[|ledger| - 1];
      CountedMoves(wagers, ledger[..|ledger| - 1], wallet)
      + (if e.wallet == wallet && e.transaction in wagers && !wagers[e.transaction].kind.Opening? then 1 else 0)
  }

  /** The deferred check of a wallet against its ledger and its operations. */
  predicate FinancialState(db: Db, id: Uuid)
    requires id in db.wallets
  {
    && db.wallets[id].balance.amount == Sum(db.ledger, id)
    && db.wallets[id].version == 1 + CountedMoves(db.wagers, db.ledger, id)
    && (forall w :: w in db.wagers && db.wagers[w].wallet == id && Financial(db.wagers[w]) ==>
          exists k :: 0 <= k < |db.ledger| && db.ledger[k].transaction == w)
  }

  predicate MessagesCompleted(inbox: map<string, Receipt>) {
    forall m :: m in inbox ==> inbox[m].completed
  }

  /** What every commit is checked for, whatever was written. */
  predicate CommitChecks(db: Db) {
    (forall id :: id in db.wallets ==> FinancialState(db, id)) && MessagesCompleted(db.inbox)
  }

  // ---- The rules of the program imply the rules of the storage -------------------------------

  lemma FilledFields(w: Wager)
    requires ValidWager(w) && !w.kind.Opening?
    ensures Filled(Column(w.provider)) && Filled(Column(w.externalId)) && Filled(Column(w.key))
    ensures Filled(Column(w.round)) && Filled(Column(w.game)) && w.digest.Sha256?
  {
    StorageAcceptsText(w.provider);
    StorageAcceptsText(w.externalId);
    StorageAcceptsText(w.key);
    StorageAcceptsText(w.round);
    StorageAcceptsText(w.game);
    hide BlankToStorage;
  }

  lemma CodesAreFilled(code: FailureCode)
    requires !BlankCode(code)
    ensures !BlankToStorage(CodeText(code))
  {
    if code.OtherCode? {
      StorageAcceptsText(code.text);
    } else {
      assert CodeText(code)[0] != ' ';
    }
  }

  /** A valid wager passes every check on its row, whatever its status. */
  lemma ValidRowPasses(w: Wager)
    requires ValidWager(w) && (w.kind.Opening? ==> w.status.Processed?)
    ensures RowChecks(w)
  {
    if !w.kind.Opening? {
      FilledFields(w);
    }
    if w.failure.Some? && !BlankCode(w.failure.value) {
      CodesAreFilled(w.failure.value);
    }
    if w.reference.Some? {
      StorageAcceptsText(w.reference.value);
    }
    hide BlankToStorage, CodeText, Blank;
  }

  /** A link of the program is a resolved reference of the storage. */
  lemma LinkPasses(wagers: map<Uuid, Wager>, w: Wager)
    requires ValidWager(w) && w.referenceId.Some?
    requires w.referenceId.value in wagers && Linked(w, wagers[w.referenceId.value])
    requires !wagers[w.referenceId.value].kind.Opening? && ValidWager(wagers[w.referenceId.value])
    ensures ReferenceFits(wagers, w)
  {
    FilledFields(wagers[w.referenceId.value]);
    hide BlankToStorage;
  }

  /** An entry of the program passes the checks and the trigger of the ledger. */
  lemma EntryPasses(wagers: map<Uuid, Wager>, e: Entry)
    requires EntryOk(wagers, e) && LinksOk(wagers)
    requires wagers[e.transaction].kind.Opening? ==> e.before.amount == 0
    requires forall id :: id in wagers ==> wagers[id].id == id
    ensures EntryChecks(e) && EntryFits(wagers, e)
  {
    var w := wagers[e.transaction];
    if w.referenceId.Some? {
      assert Linked(w, wagers[w.referenceId.value]);
    }
  }

  lemma {:induction false} CountedByKind(wallets: map<Uuid, WalletRow>, wagers: map<Uuid, Wager>, ledger: seq<Entry>,
                                         wallet: Uuid)
    requires RowsOk(wallets, wagers) && forall k :: 0 <= k < |ledger| ==> ledger[k].transaction in wagers
    ensures CountedMoves(wagers, ledger, wallet) == Moves(ledger, wallet)
  {
    hide Validate, PayloadOfWager;
    if ledger != [] {
      var init := ledger[..|ledger| - 1];
      assert forall k :: 0 <= k < |init| ==> init[k] == ledger[k];
      CountedByKind(wallets, wagers, init, wallet);
    }
  }

  /** A consistent database passes every deferred check. */
  lemma ConsistentPasses(db: Db)
    requires Inv(db)
    ensures CommitChecks(db)
  {
    hide WalletsOk, RowsOk, IndexOk, LinksOk, ReversalsOk, StreamOk, EventsOk, IdsOk, Answered, InOrder;
    forall id | id in db.wallets ensures FinancialState(db, id) {
      assert forall k :: 0 <= k < |db.ledger| ==> EntryOk(db.wagers, db.ledger[k]);
      CountedByKind(db.wallets, db.wagers, db.ledger, id);
      Preservation.BookedIsListed(db.ledger);
    }
  }
}
