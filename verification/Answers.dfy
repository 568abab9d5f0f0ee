/** What an operation is answered, and what its answer says about the stored data. */
module Answers {
  import opened Core
  import opened Finance
  import opened Domain
  import opened Engine
  import opened Invariant
  import opened Decisions
  import opened UseCases
  import opened Runs
  import opened Idempotency
  import opened Effects
  import Admission

  /** The answer speaks of the row: its status, the balance that it left and the code of its failure. */
  predicate SpeaksOf(answer: Answer, row: Wager) {
    answer.id == row.id && answer.status == row.status && answer.balance == row.result && answer.failure == row.failure
  }

  /** An answered message is registered as completed; a request registers nothing. */
  function InboxAfter(inbox: map<string, Receipt>, message: Option<Body>): map<string, Receipt> {
    match message
    case None => inbox
    case Some(body) => inbox[body.messageId := Receipt(body, true)]
  }

  /** An operation that is answered for the first time: its new row, what its step leaves, and its answer. */
  ghost predicate FirstAnswer(before: Db, after: Db, answer: Answer, q: Request, message: Option<Body>, created: Instant,
                              stamp: Stamp)
  {
    && answer.id == Random(stamp.ticket, ROW_SLOT) && answer.id !in before.wagers && answer.id in after.wagers
    && (var row := after.wagers[answer.id];
        && SpeaksOf(answer, row) && Admission.Asks(q, row) && row.createdAt == created
        && StepLeaves(before, after, row, stamp.ticket, stamp.at, q.trace))
    && after.schedules == before.schedules[answer.id := Schedule(0, stamp.at)]
    && after.inbox == InboxAfter(before.inbox, message)
    && (answer.status == Processed ==>
          q.wallet in after.wallets && answer.balance == Some(after.wallets[q.wallet].balance))
  }

  /** An operation that is answered again: with its stored row, and nothing is written but the message. */
  ghost predicate RepeatedAnswer(before: Db, after: Db, answer: Answer, q: Request, message: Option<Body>) {
    && answer.id in before.wagers && SpeaksOf(answer, before.wagers[answer.id])
    && Admission.Asks(q, before.wagers[answer.id])
    && after == before.(inbox := InboxAfter(before.inbox, message))
  }

  lemma SamePayloadAsks(q: Request, w: Wager)
    requires PayloadOf(q) == PayloadOfWager(w) && w.key == q.key
    ensures Admission.Asks(q, w)
  {
    MoneyTextIsInjective(q.money, w.money);
    hide MoneyText;
  }

  lemma AdmittedAsks(w: Wager, q: Request)
    requires Admitted(w, q)
    ensures Admission.Asks(q, w) && w.digest == Sha256(PayloadOf(q)) && w.status.Pending?
  {
    hide Validate, PayloadOf, PayloadOfWager;
  }

  /** A submission that is answered, without and with a stored operation that it repeats. */
  lemma SubmissionAnswers(db: Db, w: Wager, q: Request, stamp: Stamp, trace: Trace)
    requires Inv(db) && Submittable(db, w, q, stamp, trace) && Submit(db, w, stamp, trace).outcome.Ok?
    ensures var answer, after := Submit(db, w, stamp, trace).outcome.value, Submit(db, w, stamp, trace).db;
            if FindExisting(db, w).Some? then
              && answer.replayed && after == db && answer.id in db.wagers && SpeaksOf(answer, db.wagers[answer.id])
              && Admission.Asks(q, db.wagers[answer.id])
            else
              && !answer.replayed && answer.id == w.id && w.id !in db.wagers && w.id in after.wagers
              && SpeaksOf(answer, after.wagers[w.id]) && SameBusiness(w, after.wagers[w.id])
              && StepLeaves(db, after, after.wagers[w.id], stamp.ticket, stamp.at, trace)
              && after.schedules == db.schedules[w.id := Schedule(0, stamp.at)] && after.inbox == db.inbox
  {
    hide Inv, Submittable, DecideIn, Enacted, After, StepLeaves, Submit, FindExisting, IdentityTaken;
    if FindExisting(db, w).Some? {
      ReplayIsSubmission(db, w, stamp, trace);
      RepeatSpeaks(db, w, q, stamp, trace);
    } else {
      FirstSpeaks(db, w, q, stamp, trace);
    }
  }

  lemma RepeatSpeaks(db: Db, w: Wager, q: Request, stamp: Stamp, trace: Trace)
    requires Inv(db) && Submittable(db, w, q, stamp, trace) && FindExisting(db, w).Some?
    requires Compare(FindExisting(db, w).value, w).Ok?
    ensures var answer := Compare(FindExisting(db, w).value, w).value;
            && answer.replayed && answer.id in db.wagers && SpeaksOf(answer, db.wagers[answer.id])
            && Admission.Asks(q, db.wagers[answer.id])
  {
    hide Inv, Unused, Timely, Admitted, FindExisting, PayloadOf, PayloadOfWager;
    LookupIsScan(db, w);
    var e := FindExisting(db, w).value;
    AdmittedAsks(w, q);
    RowIsKeyed(db, e.id);
    SamePayloadAsks(q, e);
  }

  lemma RowIsKeyed(db: Db, id: Uuid)
    requires Inv(db) && id in db.wagers && !db.wagers[id].kind.Opening?
    ensures db.wagers[id].digest == Sha256(PayloadOfWager(db.wagers[id]))
  {
    hide WalletsOk, IndexOk, LinksOk, ReversalsOk, LedgerOk, AllBooked, BalancesOk, StreamOk, EventsOk, InboxOk, IdsOk,
         Validate, PayloadOfWager;
  }

  lemma FirstSpeaks(db: Db, w: Wager, q: Request, stamp: Stamp, trace: Trace)
    requires Inv(db) && Submittable(db, w, q, stamp, trace) && FindExisting(db, w).None?
    requires Submit(db, w, stamp, trace).outcome.Ok?
    ensures var answer, after := Submit(db, w, stamp, trace).outcome.value, Submit(db, w, stamp, trace).db;
            && !answer.replayed && answer.id == w.id && w.id !in db.wagers && w.id in after.wagers
            && SpeaksOf(answer, after.wagers[w.id]) && SameBusiness(w, after.wagers[w.id])
            && StepLeaves(db, after, after.wagers[w.id], stamp.ticket, stamp.at, trace)
            && after.schedules == db.schedules[w.id := Schedule(0, stamp.at)] && after.inbox == db.inbox
  {
    hide WalletsOk, RowsOk, IndexOk, LinksOk, ReversalsOk, LedgerOk, AllBooked, BalancesOk, StreamOk, EventsOk, InboxOk,
         IdsOk, Unused, Admitted, DecideIn, Enacted, After, StepLeaves, Submit, FindExisting, IdentityTaken, Ready, Timely;
    SubmitNames(db, w, stamp, trace);
    SubmissionIsReady(db, w, q, stamp, trace);
    ReadyNames(db, w);
    SubmitUnfolds(db, w, stamp, trace);
    var d := DecideIn(db, w, stamp.at);
    hide Inv;
    EnactedLeaves(db, Enrolled(db, w, stamp.at).schedules, w, d, stamp, trace);
    EnactedStores(Enrolled(db, w, stamp.at), w, db.wallets[w.wallet], d, stamp, trace);
  }

  /** A processed operation of a step left the balance that its wallet has now. */
  lemma ProcessedHoldsBalance(before: Db, after: Db, row: Wager, ticket: nat, at: Instant, trace: Trace)
    requires StepLeaves(before, after, row, ticket, at, trace) && row.status == Processed
    ensures row.wallet in after.wallets && row.result == Some(after.wallets[row.wallet].balance)
  {
  }

  lemma AskedThrough(q: Request, w: Wager, row: Wager)
    requires Admission.Asks(q, w) && SameBusiness(w, row)
    ensures Admission.Asks(q, row) && row.createdAt == w.createdAt && row.id == w.id
  {
  }

  /**
   * A successful answer, by request or by message: it is a replay exactly if its operation was stored
   * before, and it says what the stored row says; what a first answer leaves is stated in full.
   */
  lemma AnswersExactly(db: Db, authorized: string, q: Request, message: Option<Body>, created: Instant, stamp: Stamp)
    requires Inv(db) && Admissible(db, ArrivalStep(authorized, q, message, created, stamp))
    requires message.Some? ==> message.value.request == q
    requires Arrive(db, authorized, q, message, created, stamp).outcome.Ok?
    ensures var reply := Arrive(db, authorized, q, message, created, stamp);
            var answer := reply.outcome.value;
            if answer.replayed then RepeatedAnswer(db, reply.db, answer, q, message)
            else FirstAnswer(db, reply.db, answer, q, message, created, stamp)
  {
    hide Inv, Admit, Submit, Submittable, Receive, Unused, OnTime, StepLeaves, Admitted, FindExisting;
    var w := AdmittedWager(authorized, q, created, stamp).value;
    AdmittedIsSubmittable(db, authorized, q, created, stamp);
    AdmissionFacts(authorized, q, Fresh(stamp, ROW_SLOT), created);
    AdmittedAsks(w, q);
    MessageAnswers(db, w, q, message, stamp);
    var after := Submit(db, w, stamp, q.trace).db;
    SubmissionAnswers(db, w, q, stamp, q.trace);
    if FindExisting(db, w).None? {
      AskedThrough(q, w, after.wagers[w.id]);
      if after.wagers[w.id].status == Processed {
        ProcessedHoldsBalance(db, after, after.wagers[w.id], stamp.ticket, stamp.at, q.trace);
      }
      InboxIsNotLeft(db, after, after.wagers[w.id], InboxAfter(db.inbox, message), stamp.ticket, stamp.at, q.trace);
    }
  }

  lemma InboxIsNotLeft(before: Db, after: Db, row: Wager, inbox: map<string, Receipt>, ticket: nat, at: Instant, trace: Trace)
    requires StepLeaves(before, after, row, ticket, at, trace)
    ensures StepLeaves(before, after.(inbox := inbox), row, ticket, at, trace)
  {
  }

  /** A message that is answered is answered as its submission, and completed. */
  lemma MessageAnswers(db: Db, w: Wager, q: Request, message: Option<Body>, stamp: Stamp)
    requires Inv(db) && Submittable(db, w, q, stamp, q.trace) && (message.Some? ==> message.value.request == q)
    requires message.Some? ==> Receive(db, message.value, w, stamp).outcome.Ok?
    ensures message.Some? ==>
              var reply, inner := Receive(db, message.value, w, stamp), Submit(db, w, stamp, q.trace);
              reply.outcome == inner.outcome && reply.db == inner.db.(inbox := InboxAfter(db.inbox, message))
  {
    hide WalletsOk, RowsOk, IndexOk, LinksOk, ReversalsOk, LedgerOk, AllBooked, BalancesOk, StreamOk, EventsOk, IdsOk,
         Unused, Submit, FindExisting, Admitted, Compare, Answered, Timely;
    if message.Some? {
      var body := message.value;
      if body.messageId in db.inbox {
        TreatedIsFound(db, body, w);
        ReplayIsSubmission(db, w, stamp, q.trace);
        assert InboxAfter(db.inbox, message) == db.inbox;
      } else {
        ReceiveUnfolds(db, body, w, stamp);
        InboxIsApart(db, db.inbox, w, stamp, q.trace);
      }
    }
  }
}
