/** Runs of the engine: any sequence of openings, submissions, messages and retries. */
module Runs {
  import opened Core
  import opened Finance
  import opened Domain
  import opened Delays
  import opened Engine
  import opened Invariant
  import opened Decisions
  import opened Preservation
  import opened Steps
  import opened UseCases
  import opened Opening

  datatype Step =
    | OpenStep(player: Uuid, initial: Money, trace: Trace, stamp: Stamp)
    | SubmitStep(authorized: string, request: Request, created: Instant, stamp: Stamp)
    | ReceiveStep(authorized: string, body: Body, created: Instant, stamp: Stamp)
    | RetryStep(id: Uuid, policy: ReferencePolicy, stamp: Stamp)

  /** The operation a request asks for, under the identity that its execution draws. */
  function AdmittedWager(authorized: string, q: Request, created: Instant, stamp: Stamp): Result<Wager> {
    Admit(authorized, q, Fresh(stamp, ROW_SLOT), created)
  }

  function Execute(db: Db, authorized: string, q: Request, created: Instant, stamp: Stamp): Reply {
    match AdmittedWager(authorized, q, created, stamp)
    case Err(e) => Reply(Err(e), db)
    case Ok(w) => Submit(db, w, stamp, q.trace)
  }

  function ExecuteMessage(db: Db, authorized: string, body: Body, created: Instant, stamp: Stamp): Reply {
    if Blank(body.messageId) then Reply(Err(ErrInvalidMessage), db)
    else
      match AdmittedWager(authorized, body.request, created, stamp)
      case Err(e) => Reply(Err(e), db)
      case Ok(w) => Receive(db, body, w, stamp)
  }

  /** One operation, by request or by message. */
  function Arrive(db: Db, authorized: string, q: Request, message: Option<Body>, created: Instant, stamp: Stamp): Reply {
    match message
    case None => Execute(db, authorized, q, created, stamp)
    case Some(body) => ExecuteMessage(db, authorized, body, created, stamp)
  }

  /** Fresh identities, a clock that has not gone back and a tracing; a retry needs a claimable row. */
  ghost predicate Admissible(db: Db, step: Step) {
    && Unused(db, step.stamp.ticket)
    && match step
       case OpenStep(_, _, trace, stamp) => stamp.at > 0 && !Blank(trace.correlation)
       case SubmitStep(_, q, created, stamp) => OnTime(db, q, created, stamp.at)
       case ReceiveStep(_, body, created, stamp) => OnTime(db, body.request, created, stamp.at)
       case RetryStep(id, policy, stamp) => Retryable(db, id, policy, stamp)
  }

  predicate OnTime(db: Db, q: Request, created: Instant, at: Instant) {
    && created <= at && (q.wallet in db.wallets ==> db.wallets[q.wallet].createdAt <= at)
    && !Blank(q.trace.correlation)
  }

  ghost function Next(db: Db, step: Step): Db
    requires Admissible(db, step)
  {
    match step
    case OpenStep(player, initial, trace, stamp) =>
      (match Open(db, player, initial, stamp, trace) case Ok(after) => after case Err(_) => db)
    case SubmitStep(authorized, q, created, stamp) => Execute(db, authorized, q, created, stamp).db
    case ReceiveStep(authorized, body, created, stamp) => ExecuteMessage(db, authorized, body, created, stamp).db
    case RetryStep(id, policy, stamp) =>
      (match RetryOne(db, id, policy, stamp) case Ok(after) => after case Err(_) => db)
  }

  ghost predicate Runnable(db: Db, steps: seq<Step>)
    decreases |steps|
  {
    steps != [] ==> Admissible(db, steps[0]) && Runnable(Next(db, steps[0]), steps[1..])
  }

  /** The database after a run. */
  ghost function Run(db: Db, steps: seq<Step>): Db
    requires Runnable(db, steps)
    decreases |steps|
  {
    if steps == [] then db else Run(Next(db, steps[0]), steps[1..])
  }

  /** An admitted submission meets the circumstances that the engine's steps ask for. */
  lemma AdmittedIsSubmittable(db: Db, authorized: string, q: Request, created: Instant, stamp: Stamp)
    requires Unused(db, stamp.ticket) && OnTime(db, q, created, stamp.at)
    requires AdmittedWager(authorized, q, created, stamp).Ok?
    ensures Submittable(db, AdmittedWager(authorized, q, created, stamp).value, q, stamp, q.trace)
  {
    hide Admit, Unused, Admitted;
    AdmissionFacts(authorized, q, Fresh(stamp, ROW_SLOT), created);
    AdmittedNames(AdmittedWager(authorized, q, created, stamp).value, q);
  }

  lemma AdmittedNames(w: Wager, q: Request)
    requires Admitted(w, q)
    ensures w.provider == q.provider && w.key == q.key && w.externalId == q.externalId && w.wallet == q.wallet
    ensures w.digest == Sha256(PayloadOf(q)) && w.status.Pending? && !w.kind.Opening?
  {
    hide PayloadOf, PayloadOfWager, Validate;
  }

  /** Every admissible step keeps the invariant. */
  lemma NextKeepsInv(db: Db, step: Step)
    requires Inv(db) && Admissible(db, step)
    ensures Inv(Next(db, step))
  {
    hide Inv, Submittable, Unused, Retryable, OnTime, Admit, Submit, Receive, RetryOne, Open;
    match step
    case OpenStep(player, initial, trace, stamp) => OpenKeepsInv(db, player, initial, stamp, trace);
    case SubmitStep(authorized, q, created, stamp) =>
      if AdmittedWager(authorized, q, created, stamp).Ok? {
        AdmittedIsSubmittable(db, authorized, q, created, stamp);
        SubmitKeepsInv(db, AdmittedWager(authorized, q, created, stamp).value, q, stamp, q.trace);
      }
    case ReceiveStep(authorized, body, created, stamp) =>
      if AdmittedWager(authorized, body.request, created, stamp).Ok? {
        AdmittedIsSubmittable(db, authorized, body.request, created, stamp);
        ReceiveKeepsInv(db, body, AdmittedWager(authorized, body.request, created, stamp).value, stamp);
      }
    case RetryStep(id, policy, stamp) => RetryKeepsInv(db, id, policy, stamp);
  }

  lemma {:induction false} RunKeepsInv(db: Db, steps: seq<Step>)
    requires Inv(db) && Runnable(db, steps)
    ensures Inv(Run(db, steps))
    decreases |steps|
  {
    hide Inv, Admissible;
    if steps != [] {
      NextKeepsInv(db, steps[0]);
      RunKeepsInv(Next(db, steps[0]), steps[1..]);
    }
  }

  // ---- What later steps leave alone -------------------------------------------------------

  /** Rows stay, settled rows do not change, and the ledger, the events and the inbox only grow. */
  ghost predicate Extends(before: Db, after: Db) {
    && (forall id :: id in before.wagers ==>
          id in after.wagers && SameBusiness(before.wagers[id], after.wagers[id])
          && (IsTerminal(before.wagers[id]) ==> after.wagers[id] == before.wagers[id]))
    && (forall id :: id in before.wallets ==>
          id in after.wallets && Owner(after.wallets[id]) == Owner(before.wallets[id])
          && after.wallets[id].createdAt == before.wallets[id].createdAt
          && before.wallets[id].version <= after.wallets[id].version)
    && (forall k :: k in before.byKey ==> k in after.byKey && after.byKey[k] == before.byKey[k])
    && (forall k :: k in before.byExternal ==> k in after.byExternal && after.byExternal[k] == before.byExternal[k])
    && (forall m :: m in before.inbox ==> m in after.inbox && after.inbox[m] == before.inbox[m])
    && before.ledger <= after.ledger && before.outbox <= after.outbox
  }

  lemma ExtendsItself(db: Db)
    ensures Extends(db, db)
  {
  }

  lemma ExtendsFurther(a: Db, b: Db, c: Db)
    requires Extends(a, b) && Extends(b, c)
    ensures Extends(a, c)
  {
  }

  /** One row written, a wallet moved or not, and the rest only grown. */
  lemma WriteExtends(before: Db, after: Db, f: Wager, moved: WalletRow)
    requires Replaces(before.wagers, f) && after.wagers == before.wagers[f.id := f]
    requires (f.provider, f.key) in before.byKey ==> before.byKey[(f.provider, f.key)] == f.id
    requires (f.provider, f.externalId) in before.byExternal ==> before.byExternal[(f.provider, f.externalId)] == f.id
    requires after.byKey == before.byKey[(f.provider, f.key) := f.id]
    requires after.byExternal == before.byExternal[(f.provider, f.externalId) := f.id]
    requires after.wallets == before.wallets[moved.id := moved]
    requires moved.id in before.wallets && Owner(moved) == Owner(before.wallets[moved.id])
    requires moved.createdAt == before.wallets[moved.id].createdAt && before.wallets[moved.id].version <= moved.version
    requires after.inbox == before.inbox && before.ledger <= after.ledger && before.outbox <= after.outbox
    ensures Extends(before, after)
  {
  }

  lemma KeysBelongToRow(db: Db, f: Wager)
    requires IndexOk(db.wagers, db.byKey, db.byExternal) && Fits(db, f)
    ensures (f.provider, f.key) in db.byKey ==> db.byKey[(f.provider, f.key)] == f.id
    ensures (f.provider, f.externalId) in db.byExternal ==> db.byExternal[(f.provider, f.externalId)] == f.id
    ensures Replaces(db.wagers, f)
  {
    hide RowOk, Linked;
  }

  lemma EnactedExtends(db: Db, schedules: map<Uuid, Schedule>, w: Wager, d: Decision, stamp: Stamp, trace: Trace)
    requires Inv(db) && Enactable(db, w, d, stamp, trace)
    ensures Extends(db, Enacted(db.(schedules := schedules), w, db.wallets[w.wallet], d, stamp, trace))
  {
    hide WalletsOk, RowsOk, IndexOk, LinksOk, ReversalsOk, LedgerOk, AllBooked, BalancesOk, StreamOk, EventsOk,
         InboxOk, IdsOk, Validate, Decided, DecisionOk, Timely, Unused, PayloadOfWager, RowOk, Fits;
    StepFacts(db, w, d, stamp, trace);
    DecisionSummary(db, w, d, stamp.at);
    var wallet := db.wallets[w.wallet];
    var f := After(w, wallet, d, stamp.at);
    KeysBelongToRow(db, f);
    hide After, EventsOf, Ready, Replaces, Extends;
    assert db.wallets[wallet.id := wallet] == db.wallets;
    WriteExtends(db, Enacted(db.(schedules := schedules), w, wallet, d, stamp, trace), f,
                 if d.Settle? && d.movement.Some? then d.movement.value.moved else wallet);
  }

  lemma SubmitExtends(db: Db, w: Wager, q: Request, stamp: Stamp, trace: Trace)
    requires Inv(db) && Submittable(db, w, q, stamp, trace)
    ensures Extends(db, Submit(db, w, stamp, trace).db)
  {
    hide WalletsOk, RowsOk, IndexOk, LinksOk, ReversalsOk, LedgerOk, AllBooked, BalancesOk, StreamOk, EventsOk,
         InboxOk, IdsOk, Unused, Admitted, Submit, DecideIn, Enacted, Ready, After, IdentityTaken, Extends;
    if GoesThrough(db, w) {
      SubmissionIsReady(db, w, q, stamp, trace);
      SubmitUnfolds(db, w, stamp, trace);
      if !DecideIn(db, w, stamp.at).Abort? {
        EnactedExtends(db, Enrolled(db, w, stamp.at).schedules, w, DecideIn(db, w, stamp.at), stamp, trace);
      } else {
        ExtendsItself(db);
      }
    } else {
      StoppedChangesNothing(db, w, stamp, trace);
      ExtendsItself(db);
    }
  }

  lemma ReceiveExtends(db: Db, body: Body, w: Wager, stamp: Stamp)
    requires Inv(db) && Submittable(db, w, body.request, stamp, body.request.trace)
    ensures Extends(db, Receive(db, body, w, stamp).db)
  {
    hide Inv, Submittable, Submit, FindExisting;
    var after := Submit(db, w, stamp, body.request.trace).db;
    if body.messageId !in db.inbox {
      ReceiveUnfolds(db, body, w, stamp);
      SubmitExtends(db, w, body.request, stamp, body.request.trace);
    }
  }

  lemma RetryExtends(db: Db, id: Uuid, policy: ReferencePolicy, stamp: Stamp)
    requires Inv(db) && Retryable(db, id, policy, stamp)
    ensures RetryOne(db, id, policy, stamp).Ok? ==> Extends(db, RetryOne(db, id, policy, stamp).value)
  {
    hide WalletsOk, IndexOk, LinksOk, ReversalsOk, LedgerOk, AllBooked, BalancesOk, StreamOk,
         InboxOk, IdsOk, Unused, RowOk, Validate, DecideIn, Enacted, Backoff, SnapshotOk, Extends;
    var w := db.wagers[id];
    PendingIsReady(db, id);
    PendingHasTrace(db.wagers, db.outbox, id);
    var d := DecideRetry(db, w, policy, stamp.at);
    if !d.Abort? {
      hide Ready, EventsOk;
      EnactedExtends(db, Rescheduled(db, id, policy, stamp.at).schedules, w, d, stamp, FirstPending(db.outbox, id).value);
    }
  }

  lemma OpenedExtends(db: Db, wallet: WalletRow, stamp: Stamp, trace: Trace)
    requires wallet.id !in db.wallets && Named(wallet.id) !in db.wagers
    ensures Extends(db, Opened(db, wallet, stamp, trace))
  {
    OpeningIsNamed(wallet, stamp.at);
    hide OpeningOf, OpeningEntry, OpeningEvents;
  }

  lemma OpenExtends(db: Db, player: Uuid, initial: Money, stamp: Stamp, trace: Trace)
    requires Inv(db) && Unused(db, stamp.ticket)
    ensures Open(db, player, initial, stamp, trace).Ok? ==> Extends(db, Open(db, player, initial, stamp, trace).value)
  {
    hide WalletsOk, RowsOk, IndexOk, LinksOk, ReversalsOk, LedgerOk, AllBooked, BalancesOk, StreamOk, EventsOk,
         InboxOk, IdsOk, Opened, Extends;
    if Open(db, player, initial, stamp, trace).Ok? {
      NothingAbout(db, Fresh(stamp, ROW_SLOT));
      OpenedExtends(db, NewWallet(player, initial, Fresh(stamp, ROW_SLOT), stamp.at).value, stamp, trace);
    }
  }

  lemma OpeningIsNamed(wallet: WalletRow, at: Instant)
    ensures OpeningOf(wallet, at).id == Named(wallet.id)
  {
  }

  lemma NextExtends(db: Db, step: Step)
    requires Inv(db) && Admissible(db, step)
    ensures Extends(db, Next(db, step))
  {
    hide Inv, Submittable, Unused, Retryable, OnTime, Admit, Submit, Receive, RetryOne, Open, Extends;
    ExtendsItself(db);
    match step
    case OpenStep(player, initial, trace, stamp) => OpenExtends(db, player, initial, stamp, trace);
    case SubmitStep(authorized, q, created, stamp) =>
      if AdmittedWager(authorized, q, created, stamp).Ok? {
        AdmittedIsSubmittable(db, authorized, q, created, stamp);
        SubmitExtends(db, AdmittedWager(authorized, q, created, stamp).value, q, stamp, q.trace);
      }
    case ReceiveStep(authorized, body, created, stamp) =>
      if AdmittedWager(authorized, body.request, created, stamp).Ok? {
        AdmittedIsSubmittable(db, authorized, body.request, created, stamp);
        ReceiveExtends(db, body, AdmittedWager(authorized, body.request, created, stamp).value, stamp);
      }
    case RetryStep(id, policy, stamp) => RetryExtends(db, id, policy, stamp);
  }

  lemma {:induction false} RunExtends(db: Db, steps: seq<Step>)
    requires Inv(db) && Runnable(db, steps)
    ensures Extends(db, Run(db, steps))
    decreases |steps|
  {
    hide Inv, Admissible, Extends;
    if steps == [] {
      ExtendsItself(db);
    } else {
      NextKeepsInv(db, steps[0]);
      NextExtends(db, steps[0]);
      RunExtends(Next(db, steps[0]), steps[1..]);
      ExtendsFurther(db, Next(db, steps[0]), Run(db, steps));
    }
  }
}
