/** The two entities whose fields change in place: wallets and wager transactions. */
module Entities {
  import opened Core
  import opened Finance
  import opened Domain
  import Construction

  class Wallet {
    const id: Uuid
    const player: Uuid
    var balance: Money
    var version: int64
    const createdAt: Instant
    var updatedAt: Instant

    function Value(): WalletRow
      reads this
    {
      WalletRow(id, player, balance, version, createdAt, updatedAt)
    }

    /** A wallet read back from its row; the caller has checked the row. */
    constructor (row: WalletRow)
      ensures Value() == row
    {
      id, player, balance, version := row.id, row.player, row.balance, row.version;
      createdAt, updatedAt := row.createdAt, row.updatedAt;
    }

    /** Adds to the balance and counts one version, or fails and changes nothing. */
    method Credit(money: Money, now: Instant) returns (err: Option<Error>)
      modifies `balance, `version, `updatedAt
      ensures Construction.CreditedAs(old(Value()), money, now, err, Value())
      ensures match Credited(old(Value()), money, now)
              case Ok(moved) => err.None? && Value() == moved
              case Err(e) => err == Some(e) && Value() == old(Value())
    {
      err := ValidateMovement(Value(), money);
      if err.Some? {
        return;
      }
      if money.currency != balance.currency {
        return Some(ErrWalletCurrency);
      }
      var increased := Add(balance, money);
      err := ErrorOf(increased);
      if err.Some? {
        return;
      }
      balance := increased.value;
      version := version + 1;
      updatedAt := now;
    }

    /** Takes from the balance and counts one version, or fails and changes nothing. */
    method Debit(money: Money, now: Instant) returns (err: Option<Error>)
      modifies `balance, `version, `updatedAt
      ensures Construction.DebitedAs(old(Value()), money, now, err, Value())
      ensures match Debited(old(Value()), money, now)
              case Ok(moved) => err.None? && Value() == moved
              case Err(e) => err == Some(e) && Value() == old(Value())
    {
      err := ValidateMovement(Value(), money);
      if err.Some? {
        return;
      }
      if money.currency != balance.currency {
        return Some(ErrWalletCurrency);
      }
      if balance.amount < money.amount {
        return Some(ErrInsufficientBalance);
      }
      var decreased := Sub(balance, money);
      err := ErrorOf(decreased);
      if err.Some? {
        return;
      }
      balance := decreased.value;
      version := version + 1;
      updatedAt := now;
    }
  }

  class WagerTransaction {
    const id: Uuid
    const externalId: string
    const provider: string
    const key: string
    const digest: Digest
    const wallet: Uuid
    const player: Uuid
    const round: string
    const game: string
    const kind: Kind
    const money: Money
    const reference: Option<string>
    var referenceId: Option<Uuid>
    var status: Status
    var failure: Option<FailureCode>
    var result: Option<Money>
    const createdAt: Instant
    var updatedAt: Instant

    function Value(): Wager
      reads this
    {
      Wager(id, externalId, provider, key, digest, wallet, player, round, game, kind, money, reference, referenceId,
            status, failure, result, createdAt, updatedAt)
    }

    constructor (w: Wager)
      ensures Value() == w
    {
      id, externalId, provider, key, digest := w.id, w.externalId, w.provider, w.key, w.digest;
      wallet, player, round, game, kind, money := w.wallet, w.player, w.round, w.game, w.kind, w.money;
      reference, referenceId, status, failure, result := w.reference, w.referenceId, w.status, w.failure, w.result;
      createdAt, updatedAt := w.createdAt, w.updatedAt;
    }

    method MarkPendingReference(now: Instant) returns (err: Option<Error>)
      modifies this
      ensures match PendingReferenceMarked(old(Value()), now)
              case Ok(w) => err.None? && Value() == w
              case Err(e) => err == Some(e) && Value() == old(Value())
    {
      hide Validate;
      err := CanChange(Value());
      if err.Some? {
        return;
      }
      if !status.Pending? || !NeedsReference(Value()) || referenceId.Some? {
        return Some(ErrInvalidWagerStatus);
      }
      status := PendingReference;
      updatedAt := now;
    }

    method ResolveReference(original: Wager, now: Instant) returns (err: Option<Error>)
      modifies this
      ensures match ReferenceResolved(old(Value()), original, now)
              case Ok(w) => err.None? && Value() == w
              case Err(e) => err == Some(e) && Value() == old(Value())
    {
      hide Validate, ValidateReference;
      err := CanChange(Value());
      if err.Some? {
        return;
      }
      err := ValidateReference(Value(), original);
      if err.Some? {
        return;
      }
      referenceId := Some(original.id);
      updatedAt := now;
    }

    method MarkProcessed(balance: Money, now: Instant) returns (err: Option<Error>)
      modifies this
      ensures match ProcessedMarked(old(Value()), balance, now)
              case Ok(w) => err.None? && Value() == w
              case Err(e) => err == Some(e) && Value() == old(Value())
    {
      hide Validate;
      err := CanChange(Value());
      if err.Some? {
        return;
      }
      if !ValidMoney(balance) || balance.amount < 0 {
        return Some(ErrInvalidWagerMoney);
      }
      if NeedsReference(Value()) && referenceId.None? {
        return Some(ErrReferenceRequired);
      }
      if balance.currency != money.currency {
        return Some(ErrCurrencyMismatch);
      }
      if kind.Opening? && balance != money {
        return Some(ErrInvalidWagerMoney);
      }
      status := Processed;
      result := Some(balance);
      updatedAt := now;
    }

    method Reject(code: FailureCode, now: Instant) returns (err: Option<Error>)
      modifies this
      ensures match RejectedMarked(old(Value()), code, now)
              case Ok(w) => err.None? && Value() == w
              case Err(e) => err == Some(e) && Value() == old(Value())
    {
      hide Validate;
      err := CanChange(Value());
      if err.Some? {
        return;
      }
      if BlankCode(code) {
        return Some(ErrInvalidWagerTransaction);
      }
      status := Rejected;
      failure := Some(code);
      updatedAt := now;
    }
  }
}
