/** Which requests are admitted, and what each of the others is refused for. */
module Admission {
  import opened Core
  import opened Finance
  import opened Domain
  import opened Engine

  /** The texts and identities that a request has to have. */
  predicate Complete(q: Request) {
    && !Blank(q.provider) && !Blank(q.externalId) && !Blank(q.key) && !Blank(q.round) && !Blank(q.game)
    && q.player != Nil && q.wallet != Nil
  }

  predicate TooLong(q: Request) {
    |q.provider| > 100 || |q.externalId| > 255 || |q.key| > 255 || |q.round| > 255 || |q.game| > 255
  }

  /** A loss moves nothing, every other operation a positive amount. */
  predicate AmountFits(q: Request) {
    if q.kind == Loss then q.money.amount == 0 else q.money.amount > 0
  }

  /** Refunds and rollbacks name the operation that they take back, and no reference is left blank. */
  predicate ReferenceFits(q: Request) {
    if q.reference.None? then q.kind != Refund && q.kind != Rollback else !Blank(q.reference.value)
  }

  predicate Admissible(authorized: string, q: Request, now: Instant) {
    && authorized == q.provider && Complete(q) && !TooLong(q) && (q.reference.Some? ==> |q.reference.value| <= 255)
    && IsKnown(q.money.currency) && AmountFits(q) && ReferenceFits(q)
    && !q.kind.UnknownKind? && q.kind != Opening && now > 0
  }

  /** The operation of a request: every field as it was sent. */
  predicate Asks(q: Request, w: Wager) {
    && w.provider == q.provider && w.externalId == q.externalId && w.key == q.key
    && w.player == q.player && w.wallet == q.wallet && w.round == q.round && w.game == q.game
    && w.kind == q.kind && w.money == q.money && w.reference == q.reference
  }

  /** A request is admitted exactly under the stated conditions, as the operation that it asks for. */
  lemma AdmittedExactly(authorized: string, q: Request, id: Uuid, now: Instant)
    requires id.Random?
    ensures Admit(authorized, q, id, now).Ok? <==> Admissible(authorized, q, now)
    ensures Admit(authorized, q, id, now).Ok? ==>
              var w := Admit(authorized, q, id, now).value;
              && Asks(q, w) && w.id == id && w.createdAt == w.updatedAt == now
              && w.status == Pending && w.referenceId.None? && w.failure.None? && w.result.None?
  {
    hide MoneyText, IsSpace;
  }

  /** What is wrong with a request that is not admitted, in the order in which it is looked for. */
  function Fault(authorized: string, q: Request): Error {
    if Blank(authorized) || authorized != q.provider then ErrProviderNotAuthorized
    else if TooLong(q) then ErrInvalidWagerTransaction
    else if q.reference.Some? && |q.reference.value| > 255 then ErrInvalidWagerReference
    else if !IsKnown(q.money.currency) then ErrInvalidMoney
    else if q.kind.UnknownKind? then ErrInvalidWagerKind
    else if q.kind == Opening then ErrExternalOpening
    else if q.reference.Some? && Blank(q.reference.value) then ErrReferenceRequired
    else if !AmountFits(q) then ErrInvalidWagerMoney
    else if !ReferenceFits(q) then ErrReferenceRequired
    else ErrInvalidWagerTransaction
  }

  lemma RefusedExactly(authorized: string, q: Request, id: Uuid, now: Instant)
    requires id.Random? && !Admissible(authorized, q, now)
    ensures Admit(authorized, q, id, now) == Err(Fault(authorized, q))
  {
    hide MoneyText, IsSpace;
  }
}
