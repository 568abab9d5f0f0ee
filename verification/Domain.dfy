/** The values of the domain and its rules: what a wager, a wallet, a ledger entry and an event may be. */
module Domain {
  import opened Core
  import opened Finance

  // ---- Wager transactions -------------------------------------------------------------

  datatype Kind = Opening | Bet | Win | Loss | Refund | Rollback | UnknownKind(text: string)

  datatype Status = Pending | PendingReference | Processed | Rejected | Failed

  datatype FailureCode =
    | InsufficientBalance
    | ReversalInsufficientBalance
    | InvalidReference
    | ReferenceUnsuccessful
    | AlreadyReversed
    | MoneyOverflow
    | ReferenceNotFound
    | OtherCode(text: string)

  predicate BlankCode(code: FailureCode) {
    code.OtherCode? && Blank(code.text)
  }

  /** The fields that identify an operation, in the order in which they are hashed. */
  datatype Payload = Payload(
    externalId: string, game: string, kind: Kind, amount: string, currency: Currency,
    player: Uuid, provider: string, reference: Option<string>, round: string, wallet: Uuid)

  /** A digest is an injective image of its content; operations made internally have none. */
  datatype Digest = NoDigest | Sha256(content: Payload)

  datatype Wager = Wager(
    id: Uuid, externalId: string, provider: string, key: string, digest: Digest,
    wallet: Uuid, player: Uuid, round: string, game: string, kind: Kind, money: Money,
    reference: Option<string>, referenceId: Option<Uuid>, status: Status,
    failure: Option<FailureCode>, result: Option<Money>, createdAt: Instant, updatedAt: Instant)

  predicate KnownKind(kind: Kind) {
    !kind.UnknownKind?
  }

  predicate IsReversal(kind: Kind) {
    kind.Refund? || kind.Rollback?
  }

  predicate IsTerminal(w: Wager) {
    w.status.Processed? || w.status.Rejected? || w.status.Failed?
  }

  predicate NeedsReference(w: Wager) {
    IsReversal(w.kind) || (w.kind.Win? && w.reference.Some?)
  }

  function ValidateWagerMoney(kind: Kind, money: Money, reference: Option<string>): Option<Error> {
    if !ValidMoney(money) then Some(ErrInvalidWagerMoney)
    else if reference.Some? && Blank(reference.value) then Some(ErrReferenceRequired)
    else
      match kind
      case Opening | Bet | Win => if !IsPositive(money) then Some(ErrInvalidWagerMoney) else None
      case Loss => if !Finance.IsZero(money) then Some(ErrInvalidWagerMoney) else None
      case Refund | Rollback =>
        if !IsPositive(money) then Some(ErrInvalidWagerMoney)
        else if reference.None? then Some(ErrReferenceRequired)
        else None
      case UnknownKind(_) => Some(ErrInvalidWagerKind)
  }

  function ValidateOrigin(w: Wager): Option<Error> {
    if w.kind.Opening? then
      if w.provider != "" || w.externalId != "" || w.key != "" || w.digest != NoDigest then
        Some(ErrInvalidWagerTransaction)
      else if w.round != "" || w.game != "" || w.reference.Some? || w.referenceId.Some? then
        Some(ErrInvalidWagerTransaction)
      else None
    else if Blank(w.provider) || Blank(w.externalId) || Blank(w.key) || w.digest.NoDigest?
            || Blank(w.round) || Blank(w.game) then Some(ErrInvalidWagerTransaction)
    else None
  }

  function ValidateResult(w: Wager): Option<Error> {
    if w.result.Some? && (!ValidMoney(w.result.value) || w.result.value.amount < 0) then Some(ErrInvalidWagerMoney)
    else if w.result.Some? && w.result.value.currency != w.money.currency then Some(ErrCurrencyMismatch)
    else None
  }

  function ValidateStatus(w: Wager): Option<Error> {
    match w.status
    case Pending | PendingReference =>
      if w.failure.Some? || w.result.Some? then Some(ErrInvalidWagerStatus)
      else if w.status.PendingReference? && !NeedsReference(w) then Some(ErrInvalidWagerStatus)
      else None
    case Processed =>
      if w.failure.Some? || w.result.None? then Some(ErrInvalidWagerStatus)
      else if NeedsReference(w) && w.referenceId.None? then Some(ErrReferenceRequired)
      else if w.kind.Opening? && w.result.value != w.money then Some(ErrInvalidWagerMoney)
      else None
    case Rejected | Failed =>
      if w.failure.None? || BlankCode(w.failure.value) || w.result.Some? then Some(ErrInvalidWagerStatus)
      else None
  }

  /** The representation check of a wager, with its errors in the order in which they are raised. */
  function Validate(w: Wager): Option<Error> {
    if w.id.Nil? || w.wallet.Nil? || w.player.Nil? then Some(ErrInvalidWagerTransaction)
    else if !KnownKind(w.kind) then Some(ErrInvalidWagerKind)
    else if w.createdAt == 0 || w.updatedAt < w.createdAt then Some(ErrInvalidWagerTransaction)
    else if ValidateWagerMoney(w.kind, w.money, w.reference).Some? then
      ValidateWagerMoney(w.kind, w.money, w.reference)
    else if ValidateOrigin(w).Some? then ValidateOrigin(w)
    else if w.referenceId.Some? && (w.referenceId.value.Nil? || w.referenceId.value == w.id || !NeedsReference(w)) then
      Some(ErrInvalidWagerReference)
    else if ValidateResult(w).Some? then ValidateResult(w)
    else ValidateStatus(w)
  }

  predicate ValidWager(w: Wager) {
    Validate(w).None?
  }

  function CanChange(w: Wager): Option<Error> {
    if Validate(w).Some? then Validate(w)
    else if IsTerminal(w) then Some(ErrTerminalTransaction)
    else None
  }

  predicate ReferenceKindFits(kind: Kind, original: Kind) {
    match kind
    case Win | Refund => original.Bet?
    case Rollback => original.Bet? || original.Win? || original.Refund?
    case _ => true
  }

  function ValidateReference(w: Wager, r: Wager): Option<Error> {
    if !NeedsReference(w) then Some(ErrInvalidWagerReference)
    else if Validate(r).Some? || r.id == w.id then Some(ErrInvalidWagerReference)
    else if r.provider != w.provider || w.reference != Some(r.externalId) then Some(ErrInvalidWagerReference)
    else if r.wallet != w.wallet || r.player != w.player then Some(ErrInvalidWagerReference)
    else if r.money.currency != w.money.currency || r.round != w.round then Some(ErrInvalidWagerReference)
    else if w.referenceId.Some? && w.referenceId.value != r.id then Some(ErrInvalidWagerReference)
    else if !r.status.Processed? then Some(ErrReferenceNotProcessed)
    else if !ReferenceKindFits(w.kind, r.kind) then Some(ErrInvalidWagerReference)
    else if !w.kind.Win? && r.money != w.money then Some(ErrInvalidWagerReference)
    else None
  }

  // Status changes: the value of a wager after each of them, or the error that leaves it alone.

  function PendingReferenceMarked(w: Wager, now: Instant): Result<Wager> {
    if CanChange(w).Some? then Err(CanChange(w).value)
    else if !w.status.Pending? || !NeedsReference(w) || w.referenceId.Some? then Err(ErrInvalidWagerStatus)
    else Ok(w.(status := PendingReference, updatedAt := now))
  }

  function ReferenceResolved(w: Wager, r: Wager, now: Instant): Result<Wager> {
    if CanChange(w).Some? then Err(CanChange(w).value)
    else if ValidateReference(w, r).Some? then Err(ValidateReference(w, r).value)
    else Ok(w.(referenceId := Some(r.id), updatedAt := now))
  }

  function ProcessedMarked(w: Wager, balance: Money, now: Instant): Result<Wager> {
    if CanChange(w).Some? then Err(CanChange(w).value)
    else if !ValidMoney(balance) || balance.amount < 0 then Err(ErrInvalidWagerMoney)
    else if NeedsReference(w) && w.referenceId.None? then Err(ErrReferenceRequired)
    else if balance.currency != w.money.currency then Err(ErrCurrencyMismatch)
    else if w.kind.Opening? && balance != w.money then Err(ErrInvalidWagerMoney)
    else Ok(w.(status := Processed, result := Some(balance), updatedAt := now))
  }

  function RejectedMarked(w: Wager, code: FailureCode, now: Instant): Result<Wager> {
    if CanChange(w).Some? then Err(CanChange(w).value)
    else if BlankCode(code) then Err(ErrInvalidWagerTransaction)
    else Ok(w.(status := Rejected, failure := Some(code), updatedAt := now))
  }

  // Every status change, at an instant not before the creation, turns a valid wager into a
  // valid one, keeps its business fields and never leaves a terminal status.

  predicate SoundChange(w: Wager, v: Result<Wager>) {
    v.Ok? ==> ValidWager(w) && !IsTerminal(w) && ValidWager(v.value) && SameBusiness(w, v.value)
  }

  lemma WaitingIsSound(w: Wager, now: Instant)
    requires w.createdAt <= now
    ensures SoundChange(w, PendingReferenceMarked(w, now))
  {
  }

  lemma ResolvingIsSound(w: Wager, r: Wager, now: Instant)
    requires w.createdAt <= now
    ensures SoundChange(w, ReferenceResolved(w, r, now))
  {
  }

  lemma ProcessingIsSound(w: Wager, balance: Money, now: Instant)
    requires w.createdAt <= now
    ensures SoundChange(w, ProcessedMarked(w, balance, now))
  {
  }

  lemma RejectingIsSound(w: Wager, code: FailureCode, now: Instant)
    requires w.createdAt <= now
    ensures SoundChange(w, RejectedMarked(w, code, now))
  {
  }

  /** The two values agree on all that identifies the operation. */
  predicate SameBusiness(a: Wager, b: Wager) {
    b == a.(referenceId := b.referenceId, status := b.status, failure := b.failure, result := b.result,
            updatedAt := b.updatedAt)
  }

  function NewWager(provider: string, externalId: string, key: string, digest: Digest, wallet: Uuid, player: Uuid,
                    round: string, game: string, kind: Kind, money: Money, reference: Option<string>,
                    id: Uuid, now: Instant): Result<Wager>
  {
    if !KnownKind(kind) then Err(ErrInvalidWagerKind)
    else if kind.Opening? then Err(ErrExternalOpening)
    else if ValidateWagerMoney(kind, money, reference).Some? then Err(ValidateWagerMoney(kind, money, reference).value)
    else
      var w := Wager(id, externalId, provider, key, digest, wallet, player, round, game, kind, money, reference,
                     None, Pending, None, None, now, now);
      if Validate(w).Some? then Err(Validate(w).value) else Ok(w)
  }

  // ---- Wallets ------------------------------------------------------------------------

  datatype WalletRow = WalletRow(
    id: Uuid, player: Uuid, balance: Money, version: int64, createdAt: Instant, updatedAt: Instant)

  predicate ValidWallet(w: WalletRow) {
    && !w.id.Nil? && !w.player.Nil? && ValidMoney(w.balance) && w.balance.amount >= 0
    && w.version >= 1 && 0 < w.createdAt <= w.updatedAt
  }

  function NewWallet(player: Uuid, initial: Money, id: Uuid, now: Instant): Result<WalletRow> {
    if player.Nil? || !ValidMoney(initial) || initial.amount < 0 then Err(ErrInvalidWallet)
    else Ok(WalletRow(id, player, initial, 1, now, now))
  }

  function ValidateMovement(w: WalletRow, money: Money): Option<Error> {
    if w.id.Nil? || w.player.Nil? then Some(ErrInvalidWallet)
    else if !ValidMoney(w.balance) || w.balance.amount < 0 then Some(ErrInvalidWallet)
    else if w.version < 1 || w.version == MAX_INT64 then Some(ErrInvalidWallet)
    else if !IsPositive(money) then Some(ErrInvalidMoney)
    else None
  }

  function Credited(w: WalletRow, money: Money, now: Instant): Result<WalletRow> {
    if ValidateMovement(w, money).Some? then Err(ValidateMovement(w, money).value)
    else if money.currency != w.balance.currency then Err(ErrWalletCurrency)
    else
      match Add(w.balance, money)
      case Err(e) => Err(e)
      case Ok(balance) => Ok(w.(balance := balance, version := w.version + 1, updatedAt := now))
  }

  function Debited(w: WalletRow, money: Money, now: Instant): Result<WalletRow> {
    if ValidateMovement(w, money).Some? then Err(ValidateMovement(w, money).value)
    else if money.currency != w.balance.currency then Err(ErrWalletCurrency)
    else if w.balance.amount < money.amount then Err(ErrInsufficientBalance)
    else
      match Sub(w.balance, money)
      case Err(e) => Err(e)
      case Ok(balance) => Ok(w.(balance := balance, version := w.version + 1, updatedAt := now))
  }

  /** A credit and the debit of the same amount cancel, whatever came first; each counts one version. */
  lemma MovementsCancel(w: WalletRow, money: Money, now: Instant, later: Instant)
    requires ValidWallet(w) && w.version + 2 <= MAX_INT64
    ensures Credited(w, money, now).Ok? ==>
              Debited(Credited(w, money, now).value, money, later)
              == Ok(w.(version := w.version + 2, updatedAt := later))
    ensures Debited(w, money, now).Ok? ==>
              Credited(Debited(w, money, now).value, money, later)
              == Ok(w.(version := w.version + 2, updatedAt := later))
  {
  }

  // ---- Ledger -------------------------------------------------------------------------

  datatype Direction = Debit | Credit

  datatype Entry = Entry(
    id: Uuid, wallet: Uuid, transaction: Uuid, direction: Direction, money: Money,
    before: Money, after: Money, createdAt: Instant)

  function Signed(direction: Direction, amount: int): int {
    if direction.Credit? then amount else -amount
  }

  function ValidateLedgerBalance(direction: Direction, money: Money, before: Money, after: Money): Option<Error> {
    var expected := if direction.Debit? then Sub(before, money) else Add(before, money);
    if expected.Err? then Some(expected.error)
    else if expected.value.amount != after.amount then Some(ErrInvalidLedgerBalance)
    else None
  }

  function NewLedgerEntry(wallet: Uuid, transaction: Uuid, direction: Direction, money: Money, before: Money,
                          after: Money, id: Uuid, now: Instant): Result<Entry>
  {
    if wallet.Nil? || transaction.Nil? then Err(ErrInvalidLedgerEntry)
    else if !IsPositive(money) then Err(ErrInvalidLedgerEntry)
    else if money.currency != before.currency || money.currency != after.currency then Err(ErrCurrencyMismatch)
    else if ValidateLedgerBalance(direction, money, before, after).Some? then
      Err(ValidateLedgerBalance(direction, money, before, after).value)
    else Ok(Entry(id, wallet, transaction, direction, money, before, after, now))
  }

  // ---- Events -------------------------------------------------------------------------

  datatype Trace = Trace(correlation: string, causation: string)

  datatype Content =
    | TransactionProcessed(wager: Wager)
    | TransactionRejected(wager: Wager)
    | TransactionPendingReference(wager: Wager)
    | BalanceChanged(entry: Entry, version: int64)

  /** An integration event; its content is a snapshot taken when it is made. */
  datatype Event = Event(id: Uuid, aggregate: Uuid, occurredAt: Instant, trace: Trace, content: Content)

  function NewEvent(w: Wager, content: Content, trace: Trace, id: Uuid): Result<Event> {
    if w.wallet.Nil? || w.updatedAt == 0 || Blank(trace.correlation) then Err(ErrInvalidEvent)
    else Ok(Event(id, w.wallet, w.updatedAt, trace, content))
  }

  function NewTransactionProcessed(w: Wager, trace: Trace, id: Uuid): Result<Event> {
    if !ValidWager(w) || !w.status.Processed? then Err(ErrInvalidEvent)
    else NewEvent(w, TransactionProcessed(w), trace, id)
  }

  function NewTransactionRejected(w: Wager, trace: Trace, id: Uuid): Result<Event> {
    if !ValidWager(w) || !w.status.Rejected? then Err(ErrInvalidEvent)
    else NewEvent(w, TransactionRejected(w), trace, id)
  }

  function NewTransactionPendingReference(w: Wager, trace: Trace, id: Uuid): Result<Event> {
    if !ValidWager(w) || !w.status.PendingReference? then Err(ErrInvalidEvent)
    else NewEvent(w, TransactionPendingReference(w), trace, id)
  }

  /** The direction that the kind alone settles; a rollback may go either way. */
  predicate DirectionFitsKind(kind: Kind, direction: Direction) {
    match kind
    case Opening | Win | Refund => direction.Credit?
    case Bet => direction.Debit?
    case Loss => false
    case Rollback | UnknownKind(_) => true
  }

  function NewBalanceChanged(w: Wager, entry: Entry, version: int64, trace: Trace, id: Uuid): Result<Event> {
    if !ValidWager(w) || !w.status.Processed? then Err(ErrInvalidEvent)
    else if entry.id.Nil? || entry.createdAt == 0 || !IsPositive(entry.money) then Err(ErrInvalidEvent)
    else if entry.wallet != w.wallet || entry.transaction != w.id || entry.money != w.money then Err(ErrInvalidEvent)
    else if Some(entry.after) != w.result then Err(ErrInvalidEvent)
    else if !ValidMoney(entry.before) || !ValidMoney(entry.after) then Err(ErrInvalidEvent)
    else if entry.before.amount < 0 || entry.after.amount < 0 then Err(ErrInvalidEvent)
    else if ValidateLedgerBalance(entry.direction, entry.money, entry.before, entry.after).Some? then Err(ErrInvalidEvent)
    else if w.kind.Opening? && (version != 1 || !Finance.IsZero(entry.before)) then Err(ErrInvalidEvent)
    else if !DirectionFitsKind(w.kind, entry.direction) then Err(ErrInvalidEvent)
    else if version < 1 || (!w.kind.Opening? && version < 2) then Err(ErrInvalidEvent)
    else NewEvent(w, BalanceChanged(entry, version), trace, id)
  }
}
