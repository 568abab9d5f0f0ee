/** Exactly-once effect: repeated operations, redelivered messages and bounded retries, over whole runs. */
module Idempotency {
  import opened Core
  import opened Finance
  import opened Domain
  import opened Delays
  import opened Engine
  import opened Invariant
  import opened Decisions
  import opened Steps
  import opened UseCases
  import opened Opening
  import opened Runs

  // ---- Repeated operations ----------------------------------------------------------------

  predicate SharesIdentity(e: Wager, provider: string, key: string, externalId: string) {
    !e.kind.Opening? && e.provider == provider && (e.key == key || e.externalId == externalId)
  }

  /** No two stored operations of a provider share a key or an external identity. */
  lemma AtMostOneOperation(db: Db, a: Uuid, b: Uuid)
    requires Inv(db) && a in db.wagers && b in db.wagers && !db.wagers[a].kind.Opening?
    requires SharesIdentity(db.wagers[b], db.wagers[a].provider, db.wagers[a].key, db.wagers[a].externalId)
    ensures a == b
  {
    hide WalletsOk, RowsOk, LinksOk, ReversalsOk, LedgerOk, AllBooked, BalancesOk, StreamOk, EventsOk, InboxOk, IdsOk;
  }

  /** The two lookups find a stored operation exactly when one shares an identity with the wager. */
  lemma LookupIsScan(db: Db, w: Wager)
    requires Inv(db)
    ensures FindExisting(db, w).Some? <==>
            exists id :: id in db.wagers && SharesIdentity(db.wagers[id], w.provider, w.key, w.externalId)
    ensures FindExisting(db, w).Some? ==>
              var e := FindExisting(db, w).value;
              e.id in db.wagers && db.wagers[e.id] == e && SharesIdentity(e, w.provider, w.key, w.externalId)
  {
    hide WalletsOk, LinksOk, ReversalsOk, LedgerOk, AllBooked, BalancesOk, StreamOk, EventsOk, InboxOk, IdsOk, RowOk;
    if FindExisting(db, w).Some? {
      var e := FindExisting(db, w).value;
      assert e.id in db.wagers && db.wagers[e.id] == e && SharesIdentity(e, w.provider, w.key, w.externalId);
    }
  }

  /** What the second look at a stored operation says: the same content under the same key, or a conflict. */
  function RepeatOf(e: Wager, w: Wager): Result<Answer> {
    if e.key == w.key && e.digest == w.digest then Ok(AnswerOf(e, true)) else Err(ErrIdempotencyConflict)
  }

  /** A submission that shares an identity with a stored operation replays it or conflicts, and writes nothing. */
  lemma RepeatsChangeNothing(db: Db, id: Uuid, w: Wager, stamp: Stamp, trace: Trace)
    requires Inv(db) && id in db.wagers && SharesIdentity(db.wagers[id], w.provider, w.key, w.externalId)
    requires w.digest == Sha256(PayloadOfWager(w))
    ensures Submit(db, w, stamp, trace) == Reply(RepeatOf(db.wagers[id], w), db)
  {
    hide WalletsOk, LinksOk, ReversalsOk, LedgerOk, AllBooked, BalancesOk, StreamOk, EventsOk, InboxOk, IdsOk,
         Validate, DecideIn, Enacted, After, MoneyText;
    LookupIsScan(db, w);
    var found := FindExisting(db, w).value;
    if found.id != id {
      // One row has the key and the other the external identity; neither can match in both.
      assert RowOk(db.wallets, found) && RowOk(db.wallets, db.wagers[id]);
      assert found.digest == Sha256(PayloadOfWager(found));
      assert found.key == w.key && found.externalId != w.externalId;
    }
  }

  /** An answer describes a stored operation with the content and the key of the submission. */
  lemma AnswerIsStored(db: Db, w: Wager, q: Request, stamp: Stamp, trace: Trace)
    requires Inv(db) && Submittable(db, w, q, stamp, trace) && Submit(db, w, stamp, trace).outcome.Ok?
    ensures var answer, after := Submit(db, w, stamp, trace).outcome.value, Submit(db, w, stamp, trace).db;
            StoredAs(after.wagers, answer, w) && (!answer.replayed ==> answer.id == w.id)
  {
    hide WalletsOk, RowsOk, IndexOk, LinksOk, ReversalsOk, LedgerOk, AllBooked, BalancesOk, StreamOk, EventsOk,
         InboxOk, IdsOk, Unused, Admitted, DecideIn, Enacted, IdentityTaken, FindExisting;
    if FindExisting(db, w).Some? {
      LookupIsScan(db, w);
    } else {
      var d, wallet := DecideIn(db, w, stamp.at), db.wallets[w.wallet];
      SubmissionIsReady(db, w, q, stamp, trace);
      SubmitUnfolds(db, w, stamp, trace);
      assert Ready(db, w);
      OutcomeIdentity(w, wallet, d, stamp.at);
      EnactedStores(Enrolled(db, w, stamp.at), w, wallet, d, stamp, trace);
      ReadyNames(db, w);
    }
  }

  lemma OutcomeIdentity(w: Wager, wallet: WalletRow, d: Decision, at: Instant)
    ensures var f := After(w, wallet, d, at);
            f.id == w.id && f.provider == w.provider && f.key == w.key && f.digest == w.digest && f.kind == w.kind
  {
  }

  lemma EnactedStores(db: Db, w: Wager, wallet: WalletRow, d: Decision, stamp: Stamp, trace: Trace)
    ensures Enacted(db, w, wallet, d, stamp, trace).wagers == db.wagers[w.id := After(w, wallet, d, stamp.at)]
    ensures Enacted(db, w, wallet, d, stamp, trace).schedules == db.schedules
  {
    OutcomeIdentity(w, wallet, d, stamp.at);
    hide After, EventsOf;
  }

  /** The answer is the stored one, for an operation with the content and the key of the wager. */
  predicate StoredAs(wagers: map<Uuid, Wager>, answer: Answer, w: Wager) {
    && answer.id in wagers
    && (var e := wagers[answer.id];
        && e.id == answer.id && AnswerOf(e, answer.replayed) == answer && !e.kind.Opening?
        && e.provider == w.provider && e.key == w.key && e.digest == w.digest)
  }

  lemma StoredAnswersRepeat(stored: Db, between: Db, answer: Answer, w: Wager, q: Request, v: Wager, again: Request,
                            stamp: Stamp, trace: Trace)
    requires Inv(stored) && Inv(between) && Extends(stored, between) && Admitted(w, q) && Admitted(v, again)
    requires StoredAs(stored.wagers, answer, w)
    requires again.provider == q.provider && (again.key == q.key || again.externalId == q.externalId)
    ensures var second := Submit(between, v, stamp, trace);
            && second.db == between
            && (if again.key == q.key && PayloadOf(again) == PayloadOf(q) then
                  && second.outcome.Ok? && second.outcome.value.replayed && second.outcome.value.id == answer.id
                  && (!answer.status.PendingReference? ==> second.outcome.value == answer.(replayed := true))
                else second.outcome == Err(ErrIdempotencyConflict))
  {
    hide WalletsOk, IndexOk, LinksOk, ReversalsOk, LedgerOk, AllBooked, BalancesOk, StreamOk, EventsOk, InboxOk, IdsOk,
         Validate, Submit, MoneyText;
    var e, e' := stored.wagers[answer.id], between.wagers[answer.id];
    assert SameBusiness(e, e') && e.id == answer.id && e'.id == answer.id;
    assert RowOk(stored.wallets, e);
    assert PayloadOfWager(e).externalId == PayloadOf(q).externalId;
    RepeatsChangeNothing(between, answer.id, v, stamp, trace);
  }

  // ---- Redelivered messages ---------------------------------------------------------------

  /** What is admitted once is admitted again under any identity and at any instant. */
  lemma AdmissionIsStable(authorized: string, q: Request, id: Uuid, now: Instant, id': Uuid, now': Instant)
    requires id.Random? && id'.Random? && now' > 0 && Admit(authorized, q, id, now).Ok?
    ensures Admit(authorized, q, id', now').Ok?
  {
    hide MoneyText;
  }

  /** The message was treated and its operation is stored. */
  ghost predicate Treated(db: Db, body: Body) {
    && body.messageId in db.inbox && db.inbox[body.messageId] == Receipt(body, true)
    && Answered(db.wagers, db.byKey, body.request)
  }

  lemma TreatedIsFound(db: Db, body: Body, w: Wager)
    requires InboxOk(db.wagers, db.byKey, db.inbox) && IndexOk(db.wagers, db.byKey, db.byExternal)
    requires Admitted(w, body.request)
    requires body.messageId in db.inbox && db.inbox[body.messageId].body == body
    ensures Treated(db, body)
    ensures var k := (body.request.provider, body.request.key);
            k in db.byKey && db.byKey[k] in db.wagers && FindExisting(db, w) == Some(db.wagers[db.byKey[k]])
            && Compare(db.wagers[db.byKey[k]], w) == Ok(AnswerOf(db.wagers[db.byKey[k]], true))
  {
    hide PayloadOf, PayloadOfWager, Validate;
  }

  lemma ReceiveOutcome(db: Db, body: Body, w: Wager, stamp: Stamp)
    requires Inv(db) && Submittable(db, w, body.request, stamp, body.request.trace)
    ensures var reply := Receive(db, body, w, stamp);
            reply.outcome != Err(ErrInboxIncomplete) && (reply.outcome.Ok? ==> Treated(reply.db, body))
  {
    hide Submit, WalletsOk, RowsOk, IndexOk, LinksOk, ReversalsOk, LedgerOk, AllBooked, BalancesOk, StreamOk, EventsOk,
         IdsOk, Admitted, Unused, Answered, FindExisting;
    if body.messageId in db.inbox {
      if db.inbox[body.messageId].body == body {
        TreatedIsFound(db, body, w);
      }
    } else {
      var trace := body.request.trace;
      ReceiveUnfolds(db, body, w, stamp);
      hide InboxOk, Receive;
      SubmissionsAreNotIncomplete(db, w, stamp, trace);
      if Submit(db, w, stamp, trace).outcome.Ok? {
        FreshIsNotStored(db, w, body.request, stamp, trace);
        AnsweredAfterSubmit(db, w, body.request, stamp, trace);
      }
    }
  }

  /** A success leaves the message treated; a registered message is never found incomplete. */
  lemma MessageOutcome(db: Db, authorized: string, body: Body, created: Instant, stamp: Stamp)
    requires Inv(db) && Admissible(db, ReceiveStep(authorized, body, created, stamp))
    ensures var reply := ExecuteMessage(db, authorized, body, created, stamp);
            && reply.outcome != Err(ErrInboxIncomplete)
            && (reply.outcome.Ok? ==> Treated(reply.db, body))
  {
    hide Inv, Unused, OnTime, Receive, Admit, Submittable, Treated;
    if AdmittedWager(authorized, body.request, created, stamp).Ok? {
      AdmittedIsSubmittable(db, authorized, body.request, created, stamp);
      ReceiveOutcome(db, body, AdmittedWager(authorized, body.request, created, stamp).value, stamp);
    } else {
      AdmissionErrors(authorized, body.request, Fresh(stamp, ROW_SLOT), created);
    }
  }

  lemma AdmissionErrors(authorized: string, q: Request, id: Uuid, now: Instant)
    ensures Admit(authorized, q, id, now) != Err(ErrInboxIncomplete)
  {
    hide MoneyText;
  }

  /** What stops a step is never the treatment of a message. */
  lemma AbortsAreNotIncomplete(db: Db, w: Wager, at: Instant)
    requires w.wallet in db.wallets && DecideIn(db, w, at).Abort?
    ensures DecideIn(db, w, at).error != ErrInboxIncomplete
  {
    hide ValidateReference, FindReference, HasReversal;
  }

  lemma SubmissionsAreNotIncomplete(db: Db, w: Wager, stamp: Stamp, trace: Trace)
    ensures Submit(db, w, stamp, trace).outcome != Err(ErrInboxIncomplete)
  {
    hide FindExisting, Enacted, DecideIn, IdentityTaken, Submit;
    SubmitNames(db, w, stamp, trace);
    if GoesThrough(db, w) && !IdentityTaken(db, w) {
      SubmitUnfolds(db, w, stamp, trace);
      if DecideIn(db, w, stamp.at).Abort? {
        AbortsAreNotIncomplete(db, w, stamp.at);
      }
    }
  }

  /** Every later delivery of a treated message replays its operation and changes nothing. */
  lemma RedeliveryReplays(db: Db, authorized: string, body: Body, created: Instant, stamp: Stamp)
    requires Inv(db) && body.messageId in db.inbox && db.inbox[body.messageId].body == body
    requires !Blank(body.messageId) && AdmittedWager(authorized, body.request, created, stamp).Ok?
    ensures var k := (body.request.provider, body.request.key);
            && k in db.byKey && db.byKey[k] in db.wagers
            && ExecuteMessage(db, authorized, body, created, stamp)
               == Reply(Ok(AnswerOf(db.wagers[db.byKey[k]], true)), db)
  {
    var w := AdmittedWager(authorized, body.request, created, stamp).value;
    AdmissionFacts(authorized, body.request, Fresh(stamp, ROW_SLOT), created);
    assert db.inbox[body.messageId].completed;
    hide Admit, WalletsOk, RowsOk, IndexOk, LinksOk, ReversalsOk, LedgerOk, AllBooked, BalancesOk, StreamOk, EventsOk,
         IdsOk, InboxOk, Admitted, FindExisting, Compare;
    TreatedIsFound(db, body, w);
  }

  // ---- Exactly once, by either entry ----------------------------------------------------------

  /** The serial step of an operation that arrives by request or by message. */
  function ArrivalStep(authorized: string, q: Request, message: Option<Body>, created: Instant, stamp: Stamp): Step {
    match message
    case None => SubmitStep(authorized, q, created, stamp)
    case Some(body) => ReceiveStep(authorized, body, created, stamp)
  }

  /** An answer by either entry describes a stored operation with the content and the key of the request. */
  lemma ArrivalIsStored(db: Db, authorized: string, q: Request, message: Option<Body>, created: Instant, stamp: Stamp)
    requires Inv(db) && Admissible(db, ArrivalStep(authorized, q, message, created, stamp))
    requires message.Some? ==> message.value.request == q
    requires Arrive(db, authorized, q, message, created, stamp).outcome.Ok?
    ensures AdmittedWager(authorized, q, created, stamp).Ok?
    ensures var first := Arrive(db, authorized, q, message, created, stamp);
            && Inv(first.db) && Admitted(AdmittedWager(authorized, q, created, stamp).value, q)
            && StoredAs(first.db.wagers, first.outcome.value, AdmittedWager(authorized, q, created, stamp).value)
  {
    hide Inv, Admit, Submit, Submittable, Receive, Unused, OnTime, StoredAs, Admitted;
    NextKeepsInv(db, ArrivalStep(authorized, q, message, created, stamp));
    var w := AdmittedWager(authorized, q, created, stamp).value;
    AdmittedIsSubmittable(db, authorized, q, created, stamp);
    AdmissionFacts(authorized, q, Fresh(stamp, ROW_SLOT), created);
    match message
    case None => AnswerIsStored(db, w, q, stamp, q.trace);
    case Some(body) => MessageIsStored(db, body, w, stamp);
  }

  lemma MessageIsStored(db: Db, body: Body, w: Wager, stamp: Stamp)
    requires Inv(db) && Submittable(db, w, body.request, stamp, body.request.trace)
    requires Receive(db, body, w, stamp).outcome.Ok?
    ensures StoredAs(Receive(db, body, w, stamp).db.wagers, Receive(db, body, w, stamp).outcome.value, w)
  {
    hide Inv, Submit, Submittable, StoredAs, FindExisting;
    if body.messageId in db.inbox {
      ReplayIsSubmission(db, w, stamp, body.request.trace);
      AnswerIsStored(db, w, body.request, stamp, body.request.trace);
    } else {
      ReceiveUnfolds(db, body, w, stamp);
      AnswerIsStored(db, w, body.request, stamp, body.request.trace);
    }
  }

  lemma ReplayIsSubmission(db: Db, w: Wager, stamp: Stamp, trace: Trace)
    ensures FindExisting(db, w).Some? ==> Submit(db, w, stamp, trace) == Reply(Compare(FindExisting(db, w).value, w), db)
  {
    hide FindExisting, Compare, DecideIn, Enacted, After;
  }

  /** A message is answered as its submission, unless its identity was used for another content. */
  lemma ReceivedAsSubmitted(db: Db, body: Body, w: Wager, stamp: Stamp)
    requires Inv(db) && Admitted(w, body.request)
    requires body.messageId in db.inbox ==> db.inbox[body.messageId].body == body
    requires Submit(db, w, stamp, body.request.trace).db == db
    ensures var reply, inner := Receive(db, body, w, stamp), Submit(db, w, stamp, body.request.trace);
            && reply.outcome == inner.outcome
            && reply.db == if reply.outcome.Ok? then Received(db, body, true) else db
  {
    hide WalletsOk, RowsOk, IndexOk, LinksOk, ReversalsOk, LedgerOk, AllBooked, BalancesOk, StreamOk, EventsOk, IdsOk,
         Submit, Admitted, FindExisting, Compare, Answered;
    if body.messageId in db.inbox {
      TreatedIsFound(db, body, w);
      ReplayIsSubmission(db, w, stamp, body.request.trace);
      assert db.inbox[body.messageId := Receipt(body, true)] == db.inbox;
    } else {
      ReceiveUnfolds(db, body, w, stamp);
    }
  }

  /**
   * Exactly once, by request or by message, over any run in between: the same content under the
   * same key gets the first operation again, unchanged once it is terminal; anything else that
   * shares an identity with it gets a conflict; and nothing is written but the registration of a
   * new message that was answered. A message identity used for another content is a conflict.
   */
  lemma ExactlyOnce(db: Db, authorized: string, q: Request, message: Option<Body>, created: Instant, stamp: Stamp,
                    steps: seq<Step>, again: Request, message': Option<Body>, later: Instant, stamp': Stamp)
    requires Inv(db) && Admissible(db, ArrivalStep(authorized, q, message, created, stamp))
    requires message.Some? ==> message.value.request == q
    requires Arrive(db, authorized, q, message, created, stamp).outcome.Ok?
    requires Runnable(Arrive(db, authorized, q, message, created, stamp).db, steps)
    requires AdmittedWager(again.provider, again, later, stamp').Ok?
    requires message'.Some? ==> message'.value.request == again && !Blank(message'.value.messageId)
    requires again.provider == q.provider && (again.key == q.key || again.externalId == q.externalId)
    ensures var first := Arrive(db, authorized, q, message, created, stamp);
            var between := Run(first.db, steps);
            var second := Arrive(between, again.provider, again, message', later, stamp');
            if message'.Some? && message'.value.messageId in between.inbox
               && between.inbox[message'.value.messageId].body != message'.value then
              second == Reply(Err(ErrInboxConflict), between)
            else
              && second.db == (if message'.Some? && second.outcome.Ok? then Received(between, message'.value, true) else between)
              && (if again.key == q.key && PayloadOf(again) == PayloadOf(q) then
                    && second.outcome.Ok? && second.outcome.value.replayed
                    && second.outcome.value.id == first.outcome.value.id
                    && (!first.outcome.value.status.PendingReference? ==>
                          second.outcome.value == first.outcome.value.(replayed := true))
                  else second.outcome == Err(ErrIdempotencyConflict))
  {
    hide Inv, Admit, Submit, Receive, Admissible, Arrive, Extends, StoredAs, Admitted, Runnable, Run;
    var first := Arrive(db, authorized, q, message, created, stamp);
    ArrivalIsStored(db, authorized, q, message, created, stamp);
    var w, v := AdmittedWager(authorized, q, created, stamp).value, AdmittedWager(again.provider, again, later, stamp').value;
    AdmissionFacts(again.provider, again, Fresh(stamp', ROW_SLOT), later);
    RunKeepsInv(first.db, steps);
    RunExtends(first.db, steps);
    var between := Run(first.db, steps);
    StoredAnswersRepeat(first.db, between, first.outcome.value, w, q, v, again, stamp', again.trace);
    ArrivesAgain(between, again, message', later, stamp');
  }

  lemma ArrivesAgain(db: Db, q: Request, message: Option<Body>, created: Instant, stamp: Stamp)
    requires Inv(db) && AdmittedWager(q.provider, q, created, stamp).Ok?
    requires Admitted(AdmittedWager(q.provider, q, created, stamp).value, q)
    requires message.Some? ==> message.value.request == q && !Blank(message.value.messageId)
    requires Submit(db, AdmittedWager(q.provider, q, created, stamp).value, stamp, q.trace).db == db
    ensures var inner := Submit(db, AdmittedWager(q.provider, q, created, stamp).value, stamp, q.trace);
            var reply := Arrive(db, q.provider, q, message, created, stamp);
            if message.Some? && message.value.messageId in db.inbox && db.inbox[message.value.messageId].body != message.value then
              reply == Reply(Err(ErrInboxConflict), db)
            else
              && reply.outcome == inner.outcome
              && reply.db == if message.Some? && reply.outcome.Ok? then Received(db, message.value, true) else db
  {
    hide Inv, Admit, Submit, Admitted, FindExisting, AdmittedWager, Blank;
    if message.Some? {
      if !(message.value.messageId in db.inbox && db.inbox[message.value.messageId].body != message.value) {
        hide Receive;
        ReceivedAsSubmitted(db, message.value, AdmittedWager(q.provider, q, created, stamp).value, stamp);
      }
    }
  }

  /** A broker that may deliver a message any number of times until it is told to delete it. */
  datatype Shop = Shop(db: Db, deleted: set<Body>)

  /** A delivery; the consumer deletes after a success unless it stops between the commit and the deletion. */
  datatype Happening =
    | Delivery(authorized: string, body: Body, created: Instant, stamp: Stamp, stops: bool)
    | Other(step: Step)

  ghost predicate MayHappen(shop: Shop, h: Happening) {
    match h
    case Delivery(authorized, body, created, stamp, _) =>
      Admissible(shop.db, ReceiveStep(authorized, body, created, stamp))
    case Other(step) => Admissible(shop.db, step)
  }

  ghost function Happened(shop: Shop, h: Happening): Shop
    requires MayHappen(shop, h)
  {
    match h
    case Delivery(authorized, body, created, stamp, stops) =>
      var reply := ExecuteMessage(shop.db, authorized, body, created, stamp);
      Shop(reply.db, if reply.outcome.Ok? && !stops then shop.deleted + {body} else shop.deleted)
    case Other(step) => Shop(Next(shop.db, step), shop.deleted)
  }

  ghost predicate MayAllHappen(shop: Shop, hs: seq<Happening>)
    decreases |hs|
  {
    hs != [] ==> MayHappen(shop, hs[0]) && MayAllHappen(Happened(shop, hs[0]), hs[1..])
  }

  ghost function AllHappened(shop: Shop, hs: seq<Happening>): Shop
    requires MayAllHappen(shop, hs)
    decreases |hs|
  {
    if hs == [] then shop else AllHappened(Happened(shop, hs[0]), hs[1..])
  }

  ghost predicate DeletedAreTreated(shop: Shop) {
    forall body :: body in shop.deleted ==> Treated(shop.db, body)
  }

  lemma TreatedStays(before: Db, after: Db, body: Body)
    requires Extends(before, after) && Treated(before, body)
    ensures Treated(after, body)
  {
  }

  /** However often messages are delivered and consumers stop, a deleted message has a committed outcome. */
  lemma {:induction false} DeletedHaveOutcome(shop: Shop, hs: seq<Happening>)
    requires Inv(shop.db) && DeletedAreTreated(shop) && MayAllHappen(shop, hs)
    ensures Inv(AllHappened(shop, hs).db) && DeletedAreTreated(AllHappened(shop, hs))
    decreases |hs|
  {
    hide Inv, Admissible, ExecuteMessage, Treated;
    if hs != [] {
      var h := hs[0];
      var step := if h.Delivery? then ReceiveStep(h.authorized, h.body, h.created, h.stamp) else h.step;
      var next := Happened(shop, h);
      assert next.db == Next(shop.db, step);
      NextKeepsInv(shop.db, step);
      NextExtends(shop.db, step);
      forall body | body in shop.deleted ensures Treated(next.db, body) {
        TreatedStays(shop.db, next.db, body);
      }
      if h.Delivery? {
        MessageOutcome(shop.db, h.authorized, h.body, h.created, h.stamp);
      }
      DeletedHaveOutcome(next, hs[1..]);
    }
  }

  // ---- Bounded retries --------------------------------------------------------------------

  predicate Waiting(db: Db, id: Uuid) {
    id in db.wagers && db.wagers[id].status.PendingReference?
  }

  /** The step is a claim of this operation that commits. */
  ghost predicate Claims(db: Db, step: Step, id: Uuid)
    requires Admissible(db, step)
  {
    step.RetryStep? && step.id == id && RetryOne(db, id, step.policy, step.stamp).Ok?
  }

  ghost function CountClaims(db: Db, steps: seq<Step>, id: Uuid): nat
    requires Runnable(db, steps)
    decreases |steps|
  {
    if steps == [] then 0
    else (if Claims(db, steps[0], id) then 1 else 0) + CountClaims(Next(db, steps[0]), steps[1..], id)
  }

  /** Every retry of the run follows the same policy. */
  predicate OnePolicy(steps: seq<Step>, policy: ReferencePolicy) {
    forall i :: 0 <= i < |steps| && steps[i].RetryStep? ==> steps[i].policy == policy
  }

  /** A claim ends the wait or adds one attempt, and the last attempt always ends it. */
  lemma ClaimAdvances(db: Db, id: Uuid, policy: ReferencePolicy, stamp: Stamp)
    requires ValidReferencePolicy(policy) && Claimable(db, id, stamp.at) && db.wagers[id].id == id
    requires RetryOne(db, id, policy, stamp).Ok?
    ensures var after := RetryOne(db, id, policy, stamp).value;
            && id in after.wagers
            && (Waiting(after, id) ==>
                  AttemptsOf(after, id) == AttemptsOf(db, id) + 1 < policy.maxAttempts && after.wagers[id] == db.wagers[id])
  {
    hide Backoff, DecideIn, EventsOf, EntryOf;
    var w := db.wagers[id];
    var d := DecideRetry(db, w, policy, stamp.at);
    EnactedStores(Rescheduled(db, id, policy, stamp.at), w, db.wallets[w.wallet], d, stamp,
                  FirstPending(db.outbox, id).value);
  }

  /** The same row, with the same schedule, in both databases. */
  predicate SameRow(before: Db, after: Db, id: Uuid) {
    && id in before.wagers && id in after.wagers && after.wagers[id] == before.wagers[id]
    && AttemptsOf(after, id) == AttemptsOf(before, id)
    && (id in before.schedules ==> id in after.schedules && after.schedules[id] == before.schedules[id])
  }

  lemma EnactedLeavesRow(db: Db, w: Wager, wallet: WalletRow, d: Decision, stamp: Stamp, trace: Trace, id: Uuid)
    requires id in db.wagers && id != w.id
    ensures SameRow(db, Enacted(db, w, wallet, d, stamp, trace), id)
  {
    OutcomeIdentity(w, wallet, d, stamp.at);
    hide After, EventsOf, EntryOf;
  }

  lemma SubmitLeavesRow(db: Db, w: Wager, stamp: Stamp, trace: Trace, id: Uuid)
    requires id in db.wagers && w.id !in db.wagers
    ensures SameRow(db, Submit(db, w, stamp, trace).db, id)
  {
    hide DecideIn, After, Enacted, FindExisting, Compare;
    if w.wallet in db.wallets {
      EnactedLeavesRow(Enrolled(db, w, stamp.at), w, db.wallets[w.wallet], DecideIn(db, w, stamp.at), stamp, trace, id);
    }
  }

  lemma RetryLeavesRow(db: Db, claimed: Uuid, policy: ReferencePolicy, stamp: Stamp, id: Uuid)
    requires ValidReferencePolicy(policy) && Claimable(db, claimed, stamp.at) && db.wagers[claimed].id == claimed
    requires id in db.wagers && id != claimed && RetryOne(db, claimed, policy, stamp).Ok?
    ensures SameRow(db, RetryOne(db, claimed, policy, stamp).value, id)
  {
    hide DecideRetry, After, Enacted, Backoff;
    var w := db.wagers[claimed];
    EnactedLeavesRow(Rescheduled(db, claimed, policy, stamp.at), w, db.wallets[w.wallet],
                     DecideRetry(db, w, policy, stamp.at), stamp, FirstPending(db.outbox, claimed).value, id);
  }

  lemma OpenedLeavesRow(db: Db, wallet: WalletRow, stamp: Stamp, trace: Trace, id: Uuid)
    requires id in db.wagers && Named(wallet.id) !in db.wagers
    ensures SameRow(db, Opened(db, wallet, stamp, trace), id)
  {
    OpeningIsNamed(wallet, stamp.at);
    hide OpeningOf, OpeningEntry, OpeningEvents;
  }

  lemma OpenLeavesRow(db: Db, player: Uuid, initial: Money, stamp: Stamp, trace: Trace, id: Uuid)
    requires id in db.wagers && Named(Fresh(stamp, ROW_SLOT)) !in db.wagers
    requires Open(db, player, initial, stamp, trace).Ok?
    ensures SameRow(db, Open(db, player, initial, stamp, trace).value, id)
  {
    hide Opened;
    OpenedLeavesRow(db, NewWallet(player, initial, Fresh(stamp, ROW_SLOT), stamp.at).value, stamp, trace, id);
  }

  /** A step writes no stored row but the one that it claims. */
  lemma OthersLeaveRow(db: Db, step: Step, id: Uuid)
    requires Inv(db) && Admissible(db, step) && id in db.wagers
    requires !(step.RetryStep? && step.id == id)
    ensures SameRow(db, Next(db, step), id)
  {
    hide WalletsOk, IndexOk, LinksOk, ReversalsOk, LedgerOk, AllBooked, BalancesOk, StreamOk, EventsOk, InboxOk,
         IdsOk, RowOk, SameRow, Submit, RetryOne, Open, Admit, OnTime, Unused, Claimable;
    assert SameRow(db, db, id) by {
      RowIsItself(db, id);
    }
    match step
    case OpenStep(player, initial, trace, stamp) =>
      if Open(db, player, initial, stamp, trace).Ok? {
        FreshWalletIsNew(db, stamp);
        OpenLeavesRow(db, player, initial, stamp, trace, id);
      }
    case SubmitStep(authorized, q, created, stamp) =>
      SubmitStepLeavesRow(db, authorized, q, created, stamp, id);
    case ReceiveStep(authorized, body, created, stamp) =>
      ReceiveStepLeavesRow(db, authorized, body, created, stamp, id);
    case RetryStep(claimed, policy, stamp) =>
      if RetryOne(db, claimed, policy, stamp).Ok? {
        ClaimableIsStored(db, claimed, stamp.at);
        RetryLeavesRow(db, claimed, policy, stamp, id);
      }
  }

  lemma RowIsItself(db: Db, id: Uuid)
    requires id in db.wagers
    ensures SameRow(db, db, id)
  {
  }

  lemma ClaimableIsStored(db: Db, id: Uuid, at: Instant)
    requires Claimable(db, id, at)
    ensures id in db.wagers
  {
  }

  lemma FreshWalletIsNew(db: Db, stamp: Stamp)
    requires RowsOk(db.wallets, db.wagers) && LedgerOk(db.wagers, db.ledger) && Unused(db, stamp.ticket)
    ensures Named(Fresh(stamp, ROW_SLOT)) !in db.wagers
  {
    assert Fresh(stamp, ROW_SLOT) !in db.wallets;
    hide RowsOk, LedgerOk, Unused;
    NothingAbout(db, Fresh(stamp, ROW_SLOT));
  }

  lemma SubmitStepLeavesRow(db: Db, authorized: string, q: Request, created: Instant, stamp: Stamp, id: Uuid)
    requires Unused(db, stamp.ticket) && OnTime(db, q, created, stamp.at) && id in db.wagers
    ensures SameRow(db, Execute(db, authorized, q, created, stamp).db, id)
  {
    hide Submit, Admit, OnTime, Unused, Submittable;
    if AdmittedWager(authorized, q, created, stamp).Ok? {
      var w := AdmittedWager(authorized, q, created, stamp).value;
      AdmittedIsSubmittable(db, authorized, q, created, stamp);
      FreshIsNotStored(db, w, q, stamp, q.trace);
      SubmitLeavesRow(db, w, stamp, q.trace, id);
    }
  }

  lemma ReceiveStepLeavesRow(db: Db, authorized: string, body: Body, created: Instant, stamp: Stamp, id: Uuid)
    requires Unused(db, stamp.ticket) && OnTime(db, body.request, created, stamp.at) && id in db.wagers
    ensures SameRow(db, ExecuteMessage(db, authorized, body, created, stamp).db, id)
  {
    hide Submit, Admit, OnTime, Unused, Submittable, FindExisting;
    if AdmittedWager(authorized, body.request, created, stamp).Ok? && body.messageId !in db.inbox {
      var w := AdmittedWager(authorized, body.request, created, stamp).value;
      AdmittedIsSubmittable(db, authorized, body.request, created, stamp);
      FreshIsNotStored(db, w, body.request, stamp, body.request.trace);
      SubmitLeavesRow(db, w, stamp, body.request.trace, id);
      ReceiveUnfolds(db, body, w, stamp);
    }
  }

  /**
   * Under one policy a waiting operation is claimed at most as often as it has attempts left, and
   * the last of them ends the wait, whatever its reference is: missing, waiting or part of a cycle.
   */
  lemma {:induction false} WaitsAreBounded(db: Db, steps: seq<Step>, id: Uuid, policy: ReferencePolicy)
    requires Inv(db) && Runnable(db, steps) && OnePolicy(steps, policy)
    requires Waiting(db, id) && AttemptsOf(db, id) < policy.maxAttempts
    ensures Waiting(Run(db, steps), id) ==>
              AttemptsOf(Run(db, steps), id) == AttemptsOf(db, id) + CountClaims(db, steps, id) < policy.maxAttempts
    ensures CountClaims(db, steps, id) <= policy.maxAttempts - AttemptsOf(db, id)
    ensures CountClaims(db, steps, id) == policy.maxAttempts - AttemptsOf(db, id) ==>
              id in Run(db, steps).wagers && IsTerminal(Run(db, steps).wagers[id])
    decreases |steps|
  {
    hide Inv, Admissible, RetryOne, Waiting, AttemptsOf, Extends;
    if steps != [] {
      var step, next := steps[0], Next(db, steps[0]);
      NextKeepsInv(db, step);
      WaitingStep(db, step, id, policy);
      if Waiting(next, id) {
        WaitsAreBounded(next, steps[1..], id, policy);
      } else {
        RunExtends(next, steps[1..]);
        SettledIsUnclaimed(next, steps[1..], id);
        TerminalStays(next, Run(next, steps[1..]), id);
      }
    }
  }

  lemma TerminalStays(before: Db, after: Db, id: Uuid)
    requires Extends(before, after) && id in before.wagers && IsTerminal(before.wagers[id])
    ensures id in after.wagers && IsTerminal(after.wagers[id]) && !Waiting(after, id)
  {
  }

  /** One step: a committed claim takes one attempt or ends the wait; any other step changes nothing here. */
  lemma WaitingStep(db: Db, step: Step, id: Uuid, policy: ReferencePolicy)
    requires Inv(db) && Admissible(db, step) && (step.RetryStep? ==> step.policy == policy)
    requires Waiting(db, id) && AttemptsOf(db, id) < policy.maxAttempts
    ensures var next := Next(db, step);
            && id in next.wagers
            && (Waiting(next, id) ==>
                  AttemptsOf(next, id) == AttemptsOf(db, id) + (if Claims(db, step, id) then 1 else 0)
                  && AttemptsOf(next, id) < policy.maxAttempts)
            && (!Waiting(next, id) ==> Claims(db, step, id) && IsTerminal(next.wagers[id]))
  {
    hide WalletsOk, IndexOk, LinksOk, ReversalsOk, LedgerOk, AllBooked, BalancesOk, StreamOk, EventsOk, InboxOk,
         IdsOk, RetryOne, Unused, AttemptsOf, Claimable, Execute, ExecuteMessage, Open, OnTime;
    if step.RetryStep? && step.id == id {
      if RetryOne(db, id, policy, step.stamp).Ok? {
        assert db.wagers[id].id == id;
        hide RowsOk;
        ClaimAdvances(db, id, policy, step.stamp);
        ClaimSettles(db, id, policy, step.stamp);
      }
    } else {
      hide RowsOk, Next;
      OthersLeaveRow(db, step, id);
    }
  }

  lemma ClaimSettles(db: Db, id: Uuid, policy: ReferencePolicy, stamp: Stamp)
    requires ValidReferencePolicy(policy) && Claimable(db, id, stamp.at) && db.wagers[id].id == id
    requires RetryOne(db, id, policy, stamp).Ok?
    ensures var after := RetryOne(db, id, policy, stamp).value;
            id in after.wagers && (Waiting(after, id) || IsTerminal(after.wagers[id]))
  {
    hide Backoff, DecideIn, EventsOf, EntryOf;
    var w := db.wagers[id];
    EnactedStores(Rescheduled(db, id, policy, stamp.at), w, db.wallets[w.wallet], DecideRetry(db, w, policy, stamp.at),
                  stamp, FirstPending(db.outbox, id).value);
  }

  /** What no longer waits is never claimed again. */
  lemma {:induction false} SettledIsUnclaimed(db: Db, steps: seq<Step>, id: Uuid)
    requires Inv(db) && Runnable(db, steps) && id in db.wagers && IsTerminal(db.wagers[id])
    ensures CountClaims(db, steps, id) == 0
    decreases |steps|
  {
    hide Inv, RetryOne, Execute, ExecuteMessage, Open, Unused, OnTime, Extends;
    if steps != [] {
      NextKeepsInv(db, steps[0]);
      NextExtends(db, steps[0]);
      TerminalStays(db, Next(db, steps[0]), id);
      SettledIsUnclaimed(Next(db, steps[0]), steps[1..], id);
    }
  }

  /** Giving up on a reference means that the last attempt found none, or found one still waiting. */
  lemma GivingUpExactly(db: Db, id: Uuid, policy: ReferencePolicy, stamp: Stamp)
    requires ValidReferencePolicy(policy) && Claimable(db, id, stamp.at) && db.wagers[id].id == id
    requires RetryOne(db, id, policy, stamp).Ok? && AttemptsOf(db, id) < policy.maxAttempts
    requires NeedsReference(db.wagers[id])
    ensures var after := RetryOne(db, id, policy, stamp).value;
            var found := FindReference(db, db.wagers[id]);
            id in after.wagers
            && (after.wagers[id].status.Rejected? && after.wagers[id].failure == Some(ReferenceNotFound) <==>
                && AttemptsOf(db, id) + 1 == policy.maxAttempts
                && (found.None? || (ValidateReference(db.wagers[id], found.value) == Some(ErrReferenceNotProcessed)
                                    && !IsTerminal(found.value))))
  {
    hide Backoff, EventsOf, EntryOf, ValidateReference, Credited, Debited, FindReference;
    var w := db.wagers[id];
    EnactedStores(Rescheduled(db, id, policy, stamp.at), w, db.wallets[w.wallet], DecideRetry(db, w, policy, stamp.at),
                  stamp, FirstPending(db.outbox, id).value);
    hide Enacted;
  }
}
