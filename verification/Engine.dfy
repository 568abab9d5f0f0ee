/**
 * The wager engine over the stored data: what each use case answers and what it leaves in
 * the database, as one function of the database that it starts from.
 */
module Engine {
  import opened Core
  import opened Finance
  import opened Domain
  import opened Delays

  // ---- Stored data --------------------------------------------------------------------

  /** The columns that schedule the next look at a missing reference. */
  datatype Schedule = Schedule(attempts: nat, dueAt: Instant)

  /** The fields a provider sends for one operation, and its tracing. */
  datatype Request = Request(
    provider: string, externalId: string, key: string, player: Uuid, wallet: Uuid, round: string, game: string,
    kind: Kind, money: Money, reference: Option<string>, trace: Trace)

  /** The bytes of a message: they determine its identity and the request it carries. */
  datatype Body = Body(messageId: string, request: Request, rest: string)

  datatype Receipt = Receipt(body: Body, completed: bool)

  /**
   * The tables with their unique indexes. The ledger and the outbox are kept in the order of
   * insertion; all other tables are maps by primary key.
   */
  datatype Db = Db(
    wallets: map<Uuid, WalletRow>,
    byOwner: map<(Uuid, Currency), Uuid>,
    wagers: map<Uuid, Wager>,
    byKey: map<(string, string), Uuid>,
    byExternal: map<(string, string), Uuid>,
    reversals: map<Uuid, Uuid>,
    schedules: map<Uuid, Schedule>,
    ledger: seq<Entry>,
    inbox: map<string, Receipt>,
    outbox: seq<Event>)

  const EMPTY_DB: Db := Db(map[], map[], map[], map[], map[], map[], map[], [], map[], [])

  /** The identities that one execution draws, and the instant at which it reads the clock. */
  datatype Stamp = Stamp(ticket: nat, at: Instant)

  const ROW_SLOT: nat := 0
  const ENTRY_SLOT: nat := 1
  const OUTCOME_SLOT: nat := 2
  const CHANGE_SLOT: nat := 3

  function Fresh(stamp: Stamp, slot: nat): Uuid {
    Random(stamp.ticket, slot)
  }

  // ---- Lookups ------------------------------------------------------------------------

  function FindByKey(db: Db, provider: string, key: string): Option<Wager> {
    if (provider, key) in db.byKey && db.byKey[(provider, key)] in db.wagers then
      Some(db.wagers[db.byKey[(provider, key)]])
    else None
  }

  function FindByExternal(db: Db, provider: string, externalId: string): Option<Wager> {
    if (provider, externalId) in db.byExternal && db.byExternal[(provider, externalId)] in db.wagers then
      Some(db.wagers[db.byExternal[(provider, externalId)]])
    else None
  }

  /** The referenced operation as the financial step sees it: its own row is already stored. */
  function FindReference(db: Db, w: Wager): Option<Wager> {
    if w.reference.None? then None
    else if w.reference.value == w.externalId then Some(w)
    else FindByExternal(db, w.provider, w.reference.value)
  }

  predicate HasReversal(db: Db, found: Option<Wager>) {
    found.Some? && found.value.id in db.reversals
  }

  // ---- The financial step -------------------------------------------------------------

  datatype Movement = Movement(direction: Direction, moved: WalletRow)

  datatype Decision =
    | Wait
    | Refuse(code: FailureCode, resolved: Option<Uuid>)
    | Settle(resolved: Option<Uuid>, movement: Option<Movement>)
    | Abort(error: Error)

  function DirectionOf(kind: Kind, original: Option<Wager>): Direction {
    if kind.Bet? || (kind.Rollback? && original.Some? && !original.value.kind.Bet?) then Debit else Credit
  }

  function Move(w: Wager, wallet: WalletRow, original: Option<Wager>, at: Instant): Decision {
    var resolved := if original.Some? then Some(original.value.id) else w.referenceId;
    if w.kind.Loss? then Settle(resolved, None)
    else
      var direction := DirectionOf(w.kind, original);
      match (if direction.Debit? then Debited(wallet, w.money, at) else Credited(wallet, w.money, at))
      case Ok(moved) => Settle(resolved, Some(Movement(direction, moved)))
      case Err(ErrInsufficientBalance) =>
        Refuse(if w.kind.Rollback? then ReversalInsufficientBalance else InsufficientBalance, resolved)
      case Err(ErrMoneyOverflow) => Refuse(MoneyOverflow, resolved)
      case Err(e) => Abort(e)
  }

  /** What the step decides from the wager, the locked wallet and its two reads. */
  function Decide(w: Wager, wallet: WalletRow, found: Option<Wager>, reversed: bool, at: Instant): Decision {
    if !NeedsReference(w) then Move(w, wallet, None, at)
    else if found.None? then Wait
    else
      match ValidateReference(w, found.value)
      case Some(ErrReferenceNotProcessed) =>
        if !IsTerminal(found.value) then Wait else Refuse(ReferenceUnsuccessful, w.referenceId)
      case Some(_) => Refuse(InvalidReference, w.referenceId)
      case None =>
        if IsReversal(w.kind) && reversed then Refuse(AlreadyReversed, Some(found.value.id))
        else Move(w, wallet, found, at)
  }

  /** The wager once the decision is carried out; waiting again changes nothing. */
  function After(w: Wager, wallet: WalletRow, d: Decision, at: Instant): Wager {
    match d
    case Wait => if w.status.Pending? then w.(status := PendingReference, updatedAt := at) else w
    case Refuse(code, resolved) =>
      w.(referenceId := resolved, status := Rejected, failure := Some(code), updatedAt := at)
    case Settle(resolved, movement) =>
      var balance := if movement.Some? then movement.value.moved.balance else wallet.balance;
      w.(referenceId := resolved, status := Processed, result := Some(balance), updatedAt := at)
    case Abort(_) => w
  }

  function EntryOf(f: Wager, wallet: WalletRow, m: Movement, stamp: Stamp): Entry {
    Entry(Fresh(stamp, ENTRY_SLOT), wallet.id, f.id, m.direction, f.money, wallet.balance, m.moved.balance, stamp.at)
  }

  function EventsOf(w: Wager, f: Wager, wallet: WalletRow, d: Decision, stamp: Stamp, trace: Trace): seq<Event> {
    var outcome := (content: Content) => Event(Fresh(stamp, OUTCOME_SLOT), f.wallet, f.updatedAt, trace, content);
    match d
    case Wait => if w.status.Pending? then [outcome(TransactionPendingReference(f))] else []
    case Refuse(_, _) => [outcome(TransactionRejected(f))]
    case Settle(_, None) => [outcome(TransactionProcessed(f))]
    case Settle(_, Some(m)) =>
      [outcome(TransactionProcessed(f)),
       Event(Fresh(stamp, CHANGE_SLOT), f.wallet, f.updatedAt, trace,
             BalanceChanged(EntryOf(f, wallet, m, stamp), m.moved.version))]
    case Abort(_) => []
  }

  predicate Reverses(f: Wager) {
    f.status.Processed? && IsReversal(f.kind) && f.referenceId.Some?
  }

  /** Stores the row of a wager, under all the indexes that cover it. */
  function Recorded(db: Db, f: Wager): Db {
    db.(wagers := db.wagers[f.id := f],
        byKey := db.byKey[(f.provider, f.key) := f.id],
        byExternal := db.byExternal[(f.provider, f.externalId) := f.id],
        reversals := if Reverses(f) then db.reversals[f.referenceId.value := f.id] else db.reversals)
  }

  /** Stores a moved wallet and the entry that accounts for the movement. */
  function Posted(db: Db, moved: WalletRow, entry: Entry): Db {
    db.(wallets := db.wallets[moved.id := moved], ledger := db.ledger + [entry])
  }

  function Published(db: Db, events: seq<Event>): Db {
    db.(outbox := db.outbox + events)
  }

  /** The database once the decision is carried out. */
  function Enacted(db: Db, w: Wager, wallet: WalletRow, d: Decision, stamp: Stamp, trace: Trace): Db {
    var f := After(w, wallet, d, stamp.at);
    var recorded := Published(Recorded(db, f), EventsOf(w, f, wallet, d, stamp, trace));
    if d.Settle? && d.movement.Some? then
      Posted(recorded, d.movement.value.moved, EntryOf(f, wallet, d.movement.value, stamp))
    else recorded
  }

  function DecideIn(db: Db, w: Wager, at: Instant): Decision
    requires w.wallet in db.wallets
  {
    var found := FindReference(db, w);
    Decide(w, db.wallets[w.wallet], found, HasReversal(db, found), at)
  }

  // ---- Submitting an operation --------------------------------------------------------

  datatype Answer = Answer(
    id: Uuid, status: Status, balance: Option<Money>, failure: Option<FailureCode>, replayed: bool)

  function AnswerOf(w: Wager, replayed: bool): Answer {
    Answer(w.id, w.status, w.result, w.failure, replayed)
  }

  datatype Reply = Reply(outcome: Result<Answer>, db: Db)

  function PayloadOf(q: Request): Payload {
    Payload(q.externalId, q.game, q.kind, MoneyText(q.money), q.money.currency, q.player, q.provider, q.reference,
            q.round, q.wallet)
  }

  /** The checks before any storage is touched: the provider, the sizes and the operation itself. */
  function Admit(authorized: string, q: Request, id: Uuid, now: Instant): Result<Wager> {
    if Blank(authorized) || authorized != q.provider then Err(ErrProviderNotAuthorized)
    else if |q.provider| > 100 then Err(ErrInvalidWagerTransaction)
    else if |q.externalId| > 255 || |q.key| > 255 || |q.round| > 255 || |q.game| > 255 then
      Err(ErrInvalidWagerTransaction)
    else if q.reference.Some? && |q.reference.value| > 255 then Err(ErrInvalidWagerReference)
    else if !ValidMoney(q.money) then Err(ErrInvalidMoney)
    else NewWager(q.provider, q.externalId, q.key, Sha256(PayloadOf(q)), q.wallet, q.player, q.round, q.game, q.kind,
                  q.money, q.reference, id, now)
  }

  /** The stored operation that a submission repeats: first by its key, then by its external identity. */
  function FindExisting(db: Db, w: Wager): Option<Wager> {
    var byKey := FindByKey(db, w.provider, w.key);
    if byKey.Some? then byKey else FindByExternal(db, w.provider, w.externalId)
  }

  function Compare(existing: Wager, w: Wager): Result<Answer> {
    if existing.digest != w.digest || existing.key != w.key then Err(ErrIdempotencyConflict)
    else Ok(AnswerOf(existing, true))
  }

  predicate IdentityTaken(db: Db, w: Wager) {
    w.id in db.wagers || (w.provider, w.key) in db.byKey || (w.provider, w.externalId) in db.byExternal
  }

  /** One submission, with nothing running beside it; an error drops every write. */
  function Submit(db: Db, w: Wager, stamp: Stamp, trace: Trace): Reply {
    var existing := FindExisting(db, w);
    if existing.Some? then Reply(Compare(existing.value, w), db)
    else if w.wallet !in db.wallets then Reply(Err(ErrWalletNotFound), db)
    else
      var wallet := db.wallets[w.wallet];
      if wallet.player != w.player || wallet.balance.currency != w.money.currency then
        Reply(Err(ErrWalletIdentityMismatch), db)
      else if IdentityTaken(db, w) then Reply(Err(ErrIdempotencyConflict), db)
      else
        var d := DecideIn(db, w, stamp.at);
        if d.Abort? then Reply(Err(d.error), db)
        else
          var f := After(w, wallet, d, stamp.at);
          Reply(Ok(AnswerOf(f, false)), Enacted(Enrolled(db, w, stamp.at), w, wallet, d, stamp, trace))
  }

  /** A new row starts with no attempt made and is due at once. */
  function Enrolled(db: Db, w: Wager, at: Instant): Db {
    db.(schedules := db.schedules[w.id := Schedule(0, at)])
  }

  function Received(db: Db, body: Body, completed: bool): Db {
    db.(inbox := db.inbox[body.messageId := Receipt(body, completed)])
  }

  /** One message, registered, treated and completed in one transaction. */
  function Receive(db: Db, body: Body, w: Wager, stamp: Stamp): Reply {
    if body.messageId in db.inbox then
      var receipt := db.inbox[body.messageId];
      if receipt.body != body then Reply(Err(ErrInboxConflict), db)
      else if !receipt.completed then Reply(Err(ErrInboxIncomplete), db)
      else
        var existing := FindExisting(db, w);
        if existing.None? then Reply(Err(ErrInboxIncomplete), db)
        else Reply(Compare(existing.value, w), db)
    else
      var reply := Submit(Received(db, body, false), w, stamp, body.request.trace);
      if reply.outcome.Err? then Reply(reply.outcome, db)
      else Reply(reply.outcome, Received(reply.db, body, true))
  }

  // ---- Retrying references ------------------------------------------------------------

  function AttemptsOf(db: Db, id: Uuid): nat {
    if id in db.schedules then db.schedules[id].attempts else 0
  }

  /** The row waits, and its next attempt is due. */
  predicate Due(db: Db, id: Uuid, at: Instant) {
    && id in db.wagers && db.wagers[id].status.PendingReference? && db.wagers[id].wallet in db.wallets
    && id in db.schedules && db.schedules[id].dueAt <= at
  }

  predicate Claimable(db: Db, id: Uuid, at: Instant) {
    Due(db, id, at) && FirstPending(db.outbox, id).Some?
  }

  /** The tracing kept by the event that announced the wait. */
  function FirstPending(outbox: seq<Event>, id: Uuid): Option<Trace> {
    if outbox == [] then None
    else
      var earlier := FirstPending(outbox[..|outbox| - 1], id);
      var last := outbox[|outbox| - 1];
      if earlier.Some? then earlier
      else if last.content.TransactionPendingReference? && last.content.wager.id == id then Some(last.trace)
      else None
  }

  /** The decision of one claim: the limit turns a wait, and a row already past it, into a refusal. */
  function DecideRetry(db: Db, w: Wager, policy: ReferencePolicy, at: Instant): Decision
    requires w.wallet in db.wallets
  {
    if AttemptsOf(db, w.id) >= policy.maxAttempts then Refuse(ReferenceNotFound, w.referenceId)
    else
      var d := DecideIn(db, w, at);
      if d.Wait? && AttemptsOf(db, w.id) + 1 >= policy.maxAttempts then Refuse(ReferenceNotFound, w.referenceId)
      else d
  }

  function Rescheduled(db: Db, id: Uuid, policy: ReferencePolicy, at: Instant): Db
    requires ValidReferencePolicy(policy)
  {
    var attempts := AttemptsOf(db, id);
    if attempts >= policy.maxAttempts then db
    else
      var delay := Backoff(policy.initialDelay, policy.maxDelay, attempts + 1);
      BackoffIsMonotone(policy.initialDelay, policy.maxDelay, 1, attempts + 1);
      db.(schedules := db.schedules[id := Schedule(attempts + 1, at + delay / MICROSECOND)])
  }

  /** One claim of a pending operation. */
  function RetryOne(db: Db, id: Uuid, policy: ReferencePolicy, stamp: Stamp): Result<Db>
    requires ValidReferencePolicy(policy) && Claimable(db, id, stamp.at)
  {
    var w := db.wagers[id];
    var d := DecideRetry(db, w, policy, stamp.at);
    if d.Abort? then Err(d.error)
    else Ok(Enacted(Rescheduled(db, id, policy, stamp.at), w, db.wallets[w.wallet], d, stamp,
                    FirstPending(db.outbox, id).value))
  }

  // ---- Opening a wallet ---------------------------------------------------------------

  function OpeningOf(wallet: WalletRow, now: Instant): Wager {
    Wager(Named(wallet.id), "", "", "", NoDigest, wallet.id, wallet.player, "", "", Opening, wallet.balance, None,
          None, Processed, None, Some(wallet.balance), wallet.createdAt, now)
  }

  function OpeningEntry(wallet: WalletRow, stamp: Stamp): Entry {
    Entry(Fresh(stamp, ENTRY_SLOT), wallet.id, Named(wallet.id), Credit, wallet.balance,
          Money(0, wallet.balance.currency), wallet.balance, stamp.at)
  }

  function OpeningEvents(wallet: WalletRow, stamp: Stamp, trace: Trace): seq<Event> {
    [Event(Fresh(stamp, OUTCOME_SLOT), wallet.id, stamp.at, trace, TransactionProcessed(OpeningOf(wallet, stamp.at))),
     Event(Fresh(stamp, CHANGE_SLOT), wallet.id, stamp.at, trace, BalanceChanged(OpeningEntry(wallet, stamp), 1))]
  }

  /** A wallet with its opening operation; a zero balance opens nothing else. */
  function Opened(db: Db, wallet: WalletRow, stamp: Stamp, trace: Trace): Db {
    var created := db.(wallets := db.wallets[wallet.id := wallet],
                       byOwner := db.byOwner[(wallet.player, wallet.balance.currency) := wallet.id]);
    if wallet.balance.amount == 0 then created
    else
      var w := OpeningOf(wallet, stamp.at);
      var entry := OpeningEntry(wallet, stamp);
      created.(wagers := created.wagers[w.id := w],
               schedules := created.schedules[w.id := Schedule(0, stamp.at)],
               ledger := created.ledger + [entry],
               outbox := created.outbox + OpeningEvents(wallet, stamp, trace))
  }

  function Open(db: Db, player: Uuid, initial: Money, stamp: Stamp, trace: Trace): Result<Db> {
    match NewWallet(player, initial, Fresh(stamp, ROW_SLOT), stamp.at)
    case Err(e) => Err(e)
    case Ok(wallet) =>
      if wallet.id in db.wallets || (wallet.player, wallet.balance.currency) in db.byOwner then Err(ErrWalletConflict)
      else Ok(Opened(db, wallet, stamp, trace))
  }
}
