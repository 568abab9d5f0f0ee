/** Vocabulary shared by every module: optional values, failures, identities and text checks. */
module Core {

  datatype Option<+T> = None | Some(value: T)

  datatype Result<+T> = Ok(value: T) | Err(error: Error)

  function ErrorOf<T>(r: Result<T>): Option<Error> {
    match r
    case Ok(_) => None
    case Err(e) => Some(e)
  }

  /** The sentinel errors of the domain, the application and the storage ports. */
  datatype Error =
    | ErrInvalidMoney
    | ErrCurrencyMismatch
    | ErrMoneyOverflow
    | ErrInvalidWallet
    | ErrInsufficientBalance
    | ErrWalletCurrency
    | ErrInvalidWagerKind
    | ErrInvalidWagerStatus
    | ErrInvalidWagerTransaction
    | ErrInvalidWagerMoney
    | ErrReferenceRequired
    | ErrTerminalTransaction
    | ErrExternalOpening
    | ErrInvalidWagerReference
    | ErrReferenceNotProcessed
    | ErrInvalidLedgerDirection
    | ErrInvalidLedgerEntry
    | ErrInvalidLedgerBalance
    | ErrInvalidEvent
    | ErrProviderNotAuthorized
    | ErrIdempotencyConflict
    | ErrWalletIdentityMismatch
    | ErrInvalidMessage
    | ErrInvalidReferenceRetryPolicy
    | ErrInvalidOutboxPolicy
    | ErrWalletNotFound
    | ErrWalletConflict
    | ErrWalletConcurrentUpdate
    | ErrWagerNotFound
    | ErrWagerConflict
    | ErrWagerNotPending
    | ErrInboxConflict
    | ErrInboxIncomplete
    | ErrOutboxConflict
    | ErrOutboxLeaseLost
    | ErrInvalidLedgerPage
    | ErrInvalidFinancialState
    // A write that a check constraint, a foreign key or a trigger refuses.
    | ErrConstraint

  /**
   * Identities. A random identity is named by the execution that drew it and by its place
   * in that execution; a named identity is an injective function of its parent, and the
   * constructors keep the three sorts apart.
   */
  datatype Uuid = Nil | Random(ticket: nat, slot: nat) | Named(parent: Uuid)

  /** Instants in microseconds; the zero instant is the zero time. */
  type Instant = nat

  predicate IsSpace(c: char) {
    c == ' ' || c == '\t' || c == '\n' || c == '\r' || c == '\U{000B}' || c == '\U{000C}' ||
    c == '\U{0085}' || c == '\U{00A0}' || c == '\U{1680}' || '\U{2000}' <= c <= '\U{200A}' ||
    c == '\U{2028}' || c == '\U{2029}' || c == '\U{202F}' || c == '\U{205F}' || c == '\U{3000}'
  }

  /** The text is empty once its white space is trimmed. */
  predicate Blank(s: string) {
    forall i :: 0 <= i < |s| ==> IsSpace(s[i])
  }

  /** The storage trims plain spaces only. */
  predicate BlankToStorage(s: string) {
    forall i :: 0 <= i < |s| ==> s[i] == ' '
  }

  /** What is not blank to the program is not blank to the storage either. */
  lemma StorageAcceptsText(s: string)
    ensures !Blank(s) ==> !BlankToStorage(s)
  {
  }
  /** Some identity has the least number of all. */
  lemma {:induction false} SomeIsLeast(numbers: map<Uuid, nat>, among: set<Uuid>, some: Uuid) returns (least: Uuid)
    requires some in among && among <= numbers.Keys
    ensures least in among && forall id :: id in among ==> numbers[least] <= numbers[id]
    decreases |among|
  {
    least := some;
    if exists other :: other in among && numbers[other] < numbers[some] {
      var other :| other in among && numbers[other] < numbers[some];
      var fewer := set id | id in among && numbers[id] < numbers[some];
      assert among == fewer + (among - fewer) && some in among - fewer;
      least := SomeIsLeast(numbers, fewer, other);
    }
  }
}
