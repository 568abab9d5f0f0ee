/** Every statement keeps what is known of the workers and of the commits. */
module Linearization {
  import opened Core
  import opened Finance
  import opened Domain
  import opened Delays
  import opened Engine
  import opened Invariant
  import opened Decisions
  import opened UseCases
  import opened Runs
  import opened Idempotency
  import opened Interleaving
  import opened Serialization
  import opened Commits
  import Confluence
  import Opening
  import Steps

  // ---- The commit of a submission ---------------------------------------------------------------------

  /** Under its lock and its keys, a submission still gets as far as its decision, and decides as it did. */
  lemma SubmissionGoes(db: Db, w: Wager)
    requires Ready(db, w) && w.id !in db.wagers
    ensures GoesThrough(db, w) && !IdentityTaken(db, w)
  {
    hide Validate, PayloadOfWager;
  }

  /** The serial step of a submission. */
  function StepOf(job: Job, ticket: nat, at: Instant): Step
    requires job.SubmitJob?
  {
    match job.message
    case None => SubmitStep(job.authorized, job.request, job.created, Stamp(ticket, at))
    case Some(body) => ReceiveStep(job.authorized, body, job.created, Stamp(ticket, at))
  }

  /** What a submission leaves once it has decided. */
  function Left(db: Db, job: Job, wallet: WalletRow, d: Decision, ticket: nat, at: Instant): Db
    requires job.SubmitJob?
  {
    var stored := Enacted(Enrolled(db, job.wager, at), job.wager, wallet, d, Stamp(ticket, at), job.request.trace);
    match job.message
    case None => stored
    case Some(body) => Received(stored, body, true)
  }

  /** The serial step of a submission, on the data of its commit. */
  lemma SerialSubmission(family: Family, clock: Instant, db: Db, worker: Worker, i: nat, w: Wager, at: Instant)
    requires Inv(db) && JobOk(family, clock, i, worker.job) && worker.job.SubmitJob? && w == worker.job.wager
    requires Ready(db, w) && w.id !in db.wagers && Timely(db, w, at) && Unused(db, i) && MessageUnseen(db, worker)
    ensures var job, d := worker.job, DecideIn(db, w, at);
            && w.wallet in db.wallets && Admissible(db, StepOf(job, i, at))
            && (!d.Abort? ==> Next(db, StepOf(job, i, at)) == Left(db, job, db.wallets[w.wallet], d, i, at))
            && Outcome(db, worker, i, at)
               == if d.Abort? then Err(d.error)
                  else Ok(AnswerOf(After(w, db.wallets[w.wallet], d, at), false))
  {
    hide Inv, JobOk, Unused, Submit, DecideIn, Enacted, After, Ready, Known, GoesThrough, IdentityTaken, Admitted,
         AdmittedWager, Outcome;
    JobFacts(family, clock, i, worker.job, at);
    KeyOfAdmitted(w, worker.job.request);
    SubmissionGoes(db, w);
    SubmitUnfolds(db, w, Stamp(i, at), worker.job.request.trace);
    OutcomeIsSubmission(family, clock, db, worker, i, at);
    ReadyNames(db, w);
    if worker.job.message.Some? {
      ReceiveUnfolds(db, worker.job.message.value, w, Stamp(i, at));
    }
  }

  /** A decision that stops the step stops it at any instant. */
  lemma AbortIsTimeless(db: Db, w: Wager, at: Instant, at': Instant)
    requires w.wallet in db.wallets && (w.status.Pending? || w.status.PendingReference?)
    requires DecideIn(db, w, at).Abort?
    ensures DecideIn(db, w, at') == DecideIn(db, w, at)
  {
    var found := FindReference(db, w);
    Confluence.DecideIgnoresTime(w, w, db.wallets[w.wallet], db.wallets[w.wallet], found, found, HasReversal(db, found), at,
                                 at');
    hide Decide;
  }

  lemma AbortedSubmissionKeeps(family: Family, world: World, i: nat)
    requires WorldOk(family, world) && i < |world.workers| && world.workers[i].job.SubmitJob?
    requires world.workers[i].pc.Write? && world.workers[i].pc.decision.Abort?
    ensures WorldOk(family, Finish(world, i, Err(world.workers[i].pc.decision.error), Latest(world)))
  {
    hide Inv, Extends, AllKnown, JobOk, Unused, WorldOk, Working, Ready, DecideIn, Outcome;
    Situation(family, world, i);
    SubmissionDecides(family, world, i);
    var db, worker, w := Committed(world), world.workers[i], world.workers[i].pc.wager;
    WorkNames(family, db, world.clock, worker, w);
    ReadyNames(db, w);
    AbortIsTimeless(db, w, worker.pc.at, world.clock);
    SerialSubmission(family, world.clock, db, worker, i, w, world.clock);
    FinishKeeps(family, world, i, Err(worker.pc.decision.error), Latest(world));
  }

  /** Another worker, beside the commit of a submission. */
  lemma SubmissionAside(family: Family, world: World, i: nat, j: nat, after: Db)
    requires WorldOk(family, world) && i < |world.workers| && j < |world.workers| && j != i
    requires world.workers[i].job.SubmitJob? && world.workers[i].pc.Write? && world.workers[i].held.Some?
    requires world.workers[i].held.value.id == world.workers[i].job.wager.wallet
    requires WritesRow(Committed(world), after, world.workers[i].job.wager)
    requires forall m :: m in after.inbox && m !in Committed(world).inbox ==>
               world.workers[i].job.message.Some? && world.workers[i].job.message.value.messageId == m
    requires family.Apart? && UnderWay(world.workers[j]).Some? ==>
               Quiet(Committed(world), after, UnderWay(world.workers[j]).value)
    ensures Aside(family, Committed(world), after, world.workers[i].job.wager.wallet, world.workers[j])
  {
    hide Inv, Extends, AllKnown, WithinClock, HistoryOk, WorkerOk, Unused, Uncrossed, Quiet, UnderWay;
    assert Exclusive(world.workers[i], world.workers[j]) && Exclusive(world.workers[j], world.workers[i]);
    hide WorldOk;
  }

  /** The decision of a submission under way, and the step that it stands for if it is not late. */
  lemma SubmissionDecides(family: Family, world: World, i: nat)
    requires WorldOk(family, world) && i < |world.workers| && world.workers[i].job.SubmitJob? && world.workers[i].pc.Write?
    ensures var db, worker, pc := Committed(world), world.workers[i], world.workers[i].pc;
            var w, d, at := pc.wager, pc.decision, pc.at;
            && w == worker.job.wager && w.wallet in db.wallets && worker.held == Some(db.wallets[w.wallet])
            && db.wallets[w.wallet].id == w.wallet && w.id !in db.wagers
            && Ready(db, w) && Timely(db, w, at) && Known(family, w) && Unused(db, i) && MessageUnseen(db, worker)
            && (d == DecideIn(db, w, at)
                || (family.Anything? && d.Wait? && NeedsReference(w) && CrossesStored(db, w)))
  {
    hide Inv, Extends, AllKnown, JobOk, Unused, WorldOk, Working, Ready, DecideIn, Timely, Known, Foreign, FoundBy;
    Situation(family, world, i);
    WorkNames(family, Committed(world), world.clock, world.workers[i], world.workers[i].pc.wager);
    ForeignCrosses(Committed(world), world.workers[i].pc.wager);
  }

  /** A reference found in another wallet is crossed. */
  lemma ForeignCrosses(db: Db, w: Wager)
    requires Inv(db)
    ensures NeedsReference(w) && Foreign(w, FoundBy(db, w)) ==> CrossesStored(db, w)
  {
    hide WalletsOk, LinksOk, ReversalsOk, LedgerOk, AllBooked, BalancesOk, StreamOk, EventsOk, InboxOk, IdsOk, RowOk;
    if NeedsReference(w) && Foreign(w, FoundBy(db, w)) {
      FoundIsStored(db, w);
      assert Crosses(w, db.wagers[FoundBy(db, w).value.id]);
    }
  }

  lemma SubmissionCommitKeeps(family: Family, world: World, i: nat)
    requires WorldOk(family, world) && i < |world.workers| && world.workers[i].job.SubmitJob?
    requires world.workers[i].pc.Write? && !world.workers[i].pc.decision.Abort?
    ensures world.workers[i].held.Some?
    ensures var pc := world.workers[i].pc; WorldOk(family, Stores(world, i, pc.wager, pc.decision, pc.at))
  {
    hide Inv, Extends, AllKnown, WithinClock, JobOk, Unused, WorldOk, Ready, DecideIn, Outcome, Timely, Known, Enacted, After,
         CommitsAlone, Admissible, Next, PcOk, PossessionsOk;
    Situation(family, world, i);
    SubmissionDecides(family, world, i);
    var db, worker, w, d, at := Committed(world), world.workers[i], world.workers[i].pc.wager,
                                world.workers[i].pc.decision, world.workers[i].pc.at;
    var job, after := worker.job, Left(db, worker.job, worker.held.value, d, i, at);
    var done := Done(Ok(AnswerOf(After(w, worker.held.value, d, at), false)), Latest(world), at);
    SerialSubmission(family, world.clock, db, worker, i, w, at);
    SubmissionAlone(family, world, i);
    SubmissionAnswers(family, world, i, after);
    CommitKeeps(family, world, i, after, StepOf(job, i, at), w.wallet, done);
  }

  lemma SubmissionAnswers(family: Family, world: World, i: nat, after: Db)
    requires WorldOk(family, world) && i < |world.workers| && world.workers[i].job.SubmitJob?
    requires world.workers[i].pc.Write? && !world.workers[i].pc.decision.Abort? && world.workers[i].held.Some?
    ensures var worker, pc := world.workers[i], world.workers[i].pc;
            var done := Done(Ok(AnswerOf(After(pc.wager, worker.held.value, pc.decision, pc.at), false)), Latest(world), pc.at);
            Serialized(family, world.history + [after], worker.(pc := done, held := None), i)
  {
    hide Inv, Extends, AllKnown, WithinClock, JobOk, Unused, WorldOk, Ready, DecideIn, Outcome, Timely, Known, Enacted,
         Admissible, Next, PcOk, PossessionsOk, Left;
    Situation(family, world, i);
    SubmissionDecides(family, world, i);
    var db, worker, w, d, at := Committed(world), world.workers[i], world.workers[i].pc.wager,
                                world.workers[i].pc.decision, world.workers[i].pc.at;
    var done := Done(Ok(AnswerOf(After(w, worker.held.value, d, at), false)), Latest(world), at);
    SerialSubmission(family, world.clock, db, worker, i, w, at);
    ReadyNames(db, w);
    SameOutcome(db, worker, worker.(pc := done, held := None), i, at);
    if d == DecideIn(db, w, at) {
      hide After;
    }
    AnswerIsSerialized(family, world.history, after, worker.(pc := done, held := None), i);
  }

  lemma SubmissionAlone(family: Family, world: World, i: nat)
    requires WorldOk(family, world) && i < |world.workers| && world.workers[i].job.SubmitJob?
    requires world.workers[i].pc.Write? && !world.workers[i].pc.decision.Abort? && world.workers[i].held.Some?
    ensures var pc, job := world.workers[i].pc, world.workers[i].job;
            var after := Left(Committed(world), job, world.workers[i].held.value, pc.decision, i, pc.at);
            Inv(after) && Extends(Committed(world), after) && CommitsAlone(family, world, i, after, job.wager.wallet)
  {
    hide Inv, Extends, AllKnown, WithinClock, JobOk, Unused, WorldOk, Ready, DecideIn, Outcome, Timely, Known, Enacted, After,
         Effect, DrawsOwn, Admissible, Next, Aside, Steps.Enactable, PcOk, PossessionsOk, WritesRow, Quiet, UnderWay;
    Situation(family, world, i);
    SubmissionDecides(family, world, i);
    var db, worker, w, d, at := Committed(world), world.workers[i], world.workers[i].pc.wager,
                                world.workers[i].pc.decision, world.workers[i].pc.at;
    var job := worker.job;
    JobFacts(family, world.clock, i, job, at);
    SubmissionEnacts(db, w, d, Stamp(i, at), job.request.trace);
    SubmissionLeaves(family, world.clock, db, job, d, i, at);
    var after := Left(db, job, db.wallets[w.wallet], d, i, at);
    hide Left;
    forall j | 0 <= j < |world.workers| && j != i && Active(world.workers[j])
      ensures Aside(family, db, after, w.wallet, world.workers[j])
    {
      if family.Apart? && UnderWay(world.workers[j]).Some? {
        UnderWayIsKnown(family, world, j);
        KnownIsQuiet(family, db, after, w, UnderWay(world.workers[j]).value);
      }
      SubmissionAside(family, world, i, j, after);
    }
  }

  /** What a decided submission leaves is consistent, about its own wallet and drawn from its own ticket. */
  lemma SubmissionLeaves(family: Family, clock: Instant, db: Db, job: Job, d: Decision, i: nat, at: Instant)
    requires Inv(db) && JobOk(family, clock, i, job) && job.SubmitJob? && job.wager.wallet in db.wallets
    requires Steps.Enactable(db, job.wager, d, Stamp(i, at), job.request.trace) && job.wager.id !in db.wagers
    requires job.message.Some? ==> job.message.value.messageId !in db.inbox
    ensures var after := Left(db, job, db.wallets[job.wager.wallet], d, i, at);
            && Inv(after) && Extends(db, after) && Effect(db, after, job.wager.wallet) && DrawsOwn(db, after, i)
            && (AllKnown(family, db) ==> AllKnown(family, after))
            && (WithinClock(db, clock) ==> WithinClock(after, clock))
            && WritesRow(db, after, job.wager)
            && (forall m :: m in after.inbox && m !in db.inbox ==> job.message.Some? && job.message.value.messageId == m)
  {
    hide Inv, Extends, AllKnown, WithinClock, JobOk, Unused, Known, Enacted, Effect, DrawsOwn, Steps.Enactable, WritesRow,
         Admitted;
    JobFacts(family, clock, i, job, at);
    var w, stamp, trace := job.wager, Stamp(i, at), job.request.trace;
    var stored := Enacted(Enrolled(db, w, at), w, db.wallets[w.wallet], d, stamp, trace);
    EnrolledApart(db.schedules, w.id, at);
    EnactedEffect(family, clock, db, Enrolled(db, w, at).schedules, w, d, stamp, trace);
    EnactedIsOk(db, Enrolled(db, w, at).schedules, w, d, stamp, trace);
    if job.message.Some? {
      StoredAnswers(db, w, job.request, d, stamp, trace);
      CompletedKeepsInv(stored, job.message.value);
      InboxAside(family, clock, db, stored, w.wallet, job.message.value, i);
      ReceivedParts(db, stored, job.message.value, w);
    }
  }

  lemma EnactedIsOk(db: Db, schedules: map<Uuid, Schedule>, w: Wager, d: Decision, stamp: Stamp, trace: Trace)
    requires Inv(db) && Steps.Enactable(db, w, d, stamp, trace) && w.wallet in db.wallets
    requires w.id in schedules && forall id :: id in db.schedules ==> id in schedules
    ensures var after := Enacted(db.(schedules := schedules), w, db.wallets[w.wallet], d, stamp, trace);
            Inv(after) && Extends(db, after)
  {
    hide WalletsOk, RowsOk, IndexOk, LinksOk, ReversalsOk, LedgerOk, AllBooked, BalancesOk, StreamOk, EventsOk, InboxOk,
         IdsOk, Steps.Enactable, Enacted, Extends;
    assert SchedulesOk(db.wagers, db.schedules);
    hide Inv;
    Steps.EnactedKeepsInv(db, schedules, w, d, stamp, trace);
    EnactedExtends(db, schedules, w, d, stamp, trace);
  }

  lemma StoredAnswers(db: Db, w: Wager, q: Request, d: Decision, stamp: Stamp, trace: Trace)
    requires Admitted(w, q) && w.wallet in db.wallets
    ensures var stored := Enacted(Enrolled(db, w, stamp.at), w, db.wallets[w.wallet], d, stamp, trace);
            Answered(stored.wagers, stored.byKey, q)
  {
    hide Validate, PayloadOf, PayloadOfWager, Enacted, Answered;
    StoredIsAnswered(Enrolled(db, w, stamp.at), w, q, db.wallets[w.wallet], d, stamp, trace);
  }

  lemma ReceivedParts(before: Db, after: Db, body: Body, w: Wager)
    requires Extends(before, after) && WritesRow(before, after, w) && after.inbox == before.inbox
    requires body.messageId !in before.inbox
    ensures Extends(before, Received(after, body, true)) && WritesRow(before, Received(after, body, true), w)
  {
  }

  /** An answer on the latest data, before and after a commit. */
  lemma AnswerIsSerialized(family: Family, history: seq<Db>, after: Db, worker: Worker, i: nat)
    requires history != [] && Answers(worker.pc) && worker.pc.mark == |history| - 1 && worker.since <= worker.pc.mark
    requires AnsweredOn(history[|history| - 1], worker, i) || (family.Anything? && AnsweredLate(history[|history| - 1], worker))
    ensures Serialized(family, history, worker, i) && Serialized(family, history + [after], worker, i)
  {
    hide AnsweredOn;
  }

  lemma EnrolledApart(schedules: map<Uuid, Schedule>, id: Uuid, at: Instant)
    ensures SchedulesApart(schedules, schedules[id := Schedule(0, at)], id)
  {
  }

  lemma SubmissionEnacts(db: Db, w: Wager, d: Decision, stamp: Stamp, trace: Trace)
    requires Ready(db, w) && Timely(db, w, stamp.at) && Unused(db, stamp.ticket) && !Blank(trace.correlation)
    requires w.wallet in db.wallets && !d.Abort?
    requires d == DecideIn(db, w, stamp.at) || (d.Wait? && NeedsReference(w))
    ensures Steps.Enactable(db, w, d, stamp, trace)
  {
    hide Ready, Timely, Unused, DecideIn;
  }

  /** The message of a commit is apart from all that the others look at. */
  lemma InboxAside(family: Family, clock: Instant, before: Db, after: Db, x: Uuid, body: Body, own: nat)
    ensures Effect(before, after, x) ==> Effect(before, Received(after, body, true), x)
    ensures DrawsOwn(before, after, own) ==> DrawsOwn(before, Received(after, body, true), own)
    ensures AllKnown(family, after) ==> AllKnown(family, Received(after, body, true))
    ensures WithinClock(after, clock) ==> WithinClock(Received(after, body, true), clock)
  {
    InboxKeepsEffect(before, after, x, body);
    InboxKeepsDraws(before, after, body, own);
    hide Effect, DrawsOwn;
  }

  lemma InboxKeepsEffect(before: Db, after: Db, x: Uuid, body: Body)
    ensures Effect(before, after, x) ==> Effect(before, Received(after, body, true), x)
  {
  }

  lemma InboxKeepsDraws(before: Db, after: Db, body: Body, own: nat)
    ensures DrawsOwn(before, after, own) ==> DrawsOwn(before, Received(after, body, true), own)
  {
    forall ticket ensures Unused(after, ticket) <==> Unused(Received(after, body, true), ticket) {
      InboxDrawsNothing(after, body, ticket);
    }
    hide Unused;
  }

  lemma InboxDrawsNothing(db: Db, body: Body, ticket: nat)
    ensures Unused(db, ticket) <==> Unused(Received(db, body, true), ticket)
  {
  }

  // ---- The commit of a claim and of an opening ----------------------------------------------------------

  /** A claim under way: the row that it works on, and its decision. */
  lemma ClaimDecides(family: Family, db: Db, worker: Worker, i: nat, w: Wager, clock: Instant, d: Decision, at: Instant)
    requires Inv(db) && JobOk(family, clock, i, worker.job) && worker.job.RetryJob?
    requires Working(family, db, clock, worker, w) && Timely(db, w, at) && Unused(db, i)
    requires w.wallet in db.wallets && Decides(family, db, worker, w, d, at)
    ensures ValidReferencePolicy(worker.job.policy) && Claimable(db, w.id, at) && Ready(db, w)
    ensures w.id in db.wagers && db.wagers[w.id] == w && FirstPending(db.outbox, w.id).Some?
    ensures Admissible(db, RetryStep(w.id, worker.job.policy, Stamp(i, at)))
    ensures !d.Abort? ==> Steps.Enactable(db, w, d, Stamp(i, at), FirstPending(db.outbox, w.id).value)
    ensures d == DecideRetry(db, w, worker.job.policy, at)
            || (family.Anything? && (d.Wait? || d == Refuse(ReferenceNotFound, w.referenceId)) && CrossesStored(db, w))
  {
    hide Inv, Unused, Ready, DecideIn, FirstPending, Known, Validate, Foreign, FoundBy;
    WorkNames(family, db, clock, worker, w);
    PendingTraced(db, w.id);
    ForeignCrosses(db, w);
    hide Working, CrossesStored;
  }

  lemma ClaimSteps(db: Db, w: Wager, policy: ReferencePolicy, stamp: Stamp)
    requires ValidReferencePolicy(policy) && Admissible(db, RetryStep(w.id, policy, stamp)) && Claimable(db, w.id, stamp.at)
    requires w.id in db.wagers && db.wagers[w.id] == w && w.wallet in db.wallets
    requires !DecideRetry(db, w, policy, stamp.at).Abort?
    ensures Next(db, RetryStep(w.id, policy, stamp))
            == Enacted(Rescheduled(db, w.id, policy, stamp.at), w, db.wallets[w.wallet], DecideRetry(db, w, policy, stamp.at),
                       stamp, FirstPending(db.outbox, w.id).value)
  {
    hide DecideRetry, Enacted, Rescheduled, FirstPending, Admissible;
  }

  lemma PendingTraced(db: Db, id: Uuid)
    requires Inv(db)
    ensures FirstPending(db.outbox, id).Some? ==> !Blank(FirstPending(db.outbox, id).value.correlation)
  {
    hide WalletsOk, RowsOk, IndexOk, LinksOk, ReversalsOk, LedgerOk, AllBooked, BalancesOk, StreamOk, InboxOk, IdsOk,
         SnapshotOk, EventsMatch, FirstPending, Blank;
    PendingHasTrace(db.wagers, db.outbox, id);
  }

  /** Another worker, beside a commit that adds no keyed row and no message. */
  lemma NothingAside(family: Family, world: World, i: nat, j: nat, x: Uuid, after: Db)
    requires WorldOk(family, world) && i < |world.workers| && j < |world.workers| && j != i
    requires family.Apart? && UnderWay(world.workers[j]).Some? ==>
               Quiet(Committed(world), after, UnderWay(world.workers[j]).value)
    requires Lock(world.workers[j]) != Some(x)
    requires Inserted(world.workers[j]).Some? ==> NewApart(Committed(world), after, Inserted(world.workers[j]).value)
    requires after.inbox == Committed(world).inbox
    ensures Aside(family, Committed(world), after, x, world.workers[j])
  {
    hide NewApart, WorldOk, Lock, Inserted, Registered, Quiet, UnderWay;
  }

  lemma RescheduledApart(db: Db, id: Uuid, policy: ReferencePolicy, at: Instant)
    requires ValidReferencePolicy(policy)
    ensures Rescheduled(db, id, policy, at) == db.(schedules := Rescheduled(db, id, policy, at).schedules)
    ensures SchedulesApart(db.schedules, Rescheduled(db, id, policy, at).schedules, id)
  {
    hide Backoff;
  }

  /** What a claim leaves once it has decided. */
  function ClaimLeft(db: Db, w: Wager, wallet: WalletRow, policy: ReferencePolicy, d: Decision, stamp: Stamp): Db
    requires ValidReferencePolicy(policy) && FirstPending(db.outbox, w.id).Some?
  {
    Enacted(Rescheduled(db, w.id, policy, stamp.at), w, wallet, d, stamp, FirstPending(db.outbox, w.id).value)
  }

  lemma ClaimIsUnderWay(family: Family, world: World, i: nat)
    requires WorldOk(family, world) && i < |world.workers| && world.workers[i].job.RetryJob? && world.workers[i].pc.Write?
    ensures var db, worker, pc := Committed(world), world.workers[i], world.workers[i].pc;
            var w, d, at, policy := pc.wager, pc.decision, pc.at, worker.job.policy;
            && w.wallet in db.wallets && worker.held == Some(db.wallets[w.wallet]) && db.wallets[w.wallet].id == w.wallet
            && ValidReferencePolicy(policy) && Claimable(db, w.id, at) && FirstPending(db.outbox, w.id).Some?
            && w.id in db.wagers && db.wagers[w.id] == w && Known(family, w) && Timely(db, w, world.clock)
            && Ready(db, w) && Admissible(db, RetryStep(w.id, policy, Stamp(i, at)))
            && (!d.Abort? ==> Steps.Enactable(db, w, d, Stamp(i, at), FirstPending(db.outbox, w.id).value))
            && (d == DecideRetry(db, w, policy, at)
                || (family.Anything? && (d.Wait? || d == Refuse(ReferenceNotFound, w.referenceId)) && CrossesStored(db, w)))
  {
    hide CrossesStored, Inv, Extends, AllKnown, WithinClock, JobOk, Unused, WorldOk, Working, Ready, Known, Decides, Timely, Steps.Enactable,
         Claimable, DecideRetry, FirstPending, Admissible;
    Situation(family, world, i);
    var db, worker, pc := Committed(world), world.workers[i], world.workers[i].pc;
    WorkNames(family, db, world.clock, worker, pc.wager);
    ClaimDecides(family, db, worker, i, pc.wager, world.clock, pc.decision, pc.at);
  }

  lemma ClaimCommitKeeps(family: Family, world: World, i: nat)
    requires WorldOk(family, world) && i < |world.workers| && world.workers[i].job.RetryJob?
    requires world.workers[i].pc.Write?
    ensures world.workers[i].held.Some?
    ensures var pc := world.workers[i].pc; WorldOk(family, Stores(world, i, pc.wager, pc.decision, pc.at))
  {
    hide Inv, Extends, AllKnown, WithinClock, JobOk, Unused, WorldOk, Ready, DecideIn, Timely, Known, Enacted, After,
         CommitsAlone, Admissible, Next, Steps.Enactable, Claimable, DecideRetry, Rescheduled, FirstPending, PcOk,
         PossessionsOk, AnsweredOn;
    Situation(family, world, i);
    ClaimIsUnderWay(family, world, i);
    var db, worker, w, d, at := Committed(world), world.workers[i], world.workers[i].pc.wager,
                                world.workers[i].pc.decision, world.workers[i].pc.at;
    var policy, stamp := worker.job.policy, Stamp(i, at);
    if d.Abort? {
      ClaimAnswers(family, world, i, db);
      EndKeeps(family, world, i, ClaimDone(w.id, Err(d.error), Latest(world), at));
    } else {
      var after := ClaimLeft(db, w, worker.held.value, policy, d, stamp);
      var done := ClaimDone(w.id, Ok(After(w, worker.held.value, d, at)), Latest(world), at);
      ClaimAlone(family, world, i);
      ClaimAnswers(family, world, i, after);
      if family.Apart? {
        ClaimSteps(db, w, policy, stamp);
      }
      CommitKeeps(family, world, i, after, RetryStep(w.id, policy, stamp), w.wallet, done);
    }
  }

  lemma ClaimAnswers(family: Family, world: World, i: nat, after: Db)
    requires WorldOk(family, world) && i < |world.workers| && world.workers[i].job.RetryJob?
    requires world.workers[i].pc.Write? && world.workers[i].held.Some?
    ensures var worker, pc := world.workers[i], world.workers[i].pc;
            var claim := if pc.decision.Abort? then Err(pc.decision.error)
                         else Ok(After(pc.wager, worker.held.value, pc.decision, pc.at));
            var done := ClaimDone(pc.wager.id, claim, Latest(world), pc.at);
            && Serialized(family, world.history, worker.(pc := done, held := None), i)
            && Serialized(family, world.history + [after], worker.(pc := done, held := None), i)
  {
    hide Inv, Extends, AllKnown, WithinClock, JobOk, Unused, WorldOk, Ready, DecideIn, Timely, Known, Enacted, Admissible,
         Steps.Enactable, Claimable, DecideRetry, FirstPending, PcOk, PossessionsOk, ClaimAnswer;
    Situation(family, world, i);
    ClaimIsUnderWay(family, world, i);
    var db, worker, w, d, at := Committed(world), world.workers[i], world.workers[i].pc.wager,
                                world.workers[i].pc.decision, world.workers[i].pc.at;
    var claim := if d.Abort? then Err(d.error) else Ok(After(w, worker.held.value, d, at));
    if d == DecideRetry(db, w, worker.job.policy, at) {
      ClaimIsAnswered(db, worker, i, w, d, at);
      hide After;
    } else {
      LateClaim(db, w, worker.held.value, d, at);
    }
    AnswerIsSerialized(family, world.history, after, worker.(pc := ClaimDone(w.id, claim, Latest(world), at), held := None), i);
  }

  lemma LateClaim(db: Db, w: Wager, wallet: WalletRow, d: Decision, at: Instant)
    requires Ready(db, w) && w.id in db.wagers && (d.Wait? || d == Refuse(ReferenceNotFound, w.referenceId))
    requires CrossesStored(db, w)
    ensures After(w, wallet, d, at).status.PendingReference? || After(w, wallet, d, at).failure == Some(ReferenceNotFound)
    ensures CrossesStored(db, After(w, wallet, d, at))
  {
    hide Validate, PayloadOfWager;
    var id :| id in db.wagers && Crosses(w, db.wagers[id]);
    assert Crosses(After(w, wallet, d, at), db.wagers[id]);
  }

  lemma ClaimAlone(family: Family, world: World, i: nat)
    requires WorldOk(family, world) && i < |world.workers| && world.workers[i].job.RetryJob?
    requires world.workers[i].pc.Write? && !world.workers[i].pc.decision.Abort? && world.workers[i].held.Some?
    requires ValidReferencePolicy(world.workers[i].job.policy)
    requires FirstPending(Committed(world).outbox, world.workers[i].pc.wager.id).Some?
    ensures var pc := world.workers[i].pc;
            var after := ClaimLeft(Committed(world), pc.wager, world.workers[i].held.value, world.workers[i].job.policy,
                                   pc.decision, Stamp(i, pc.at));
            Inv(after) && Extends(Committed(world), after) && CommitsAlone(family, world, i, after, pc.wager.wallet)
  {
    hide Inv, Extends, AllKnown, WithinClock, JobOk, Unused, WorldOk, Ready, DecideIn, Timely, Known, Enacted, After, Effect,
         DrawsOwn, Aside, Steps.Enactable, Claimable, DecideRetry, Rescheduled, FirstPending, NewApart, PcOk, PossessionsOk,
         WritesRow, Quiet, UnderWay, Admissible;
    Situation(family, world, i);
    ClaimIsUnderWay(family, world, i);
    var db, worker, w, d, at := Committed(world), world.workers[i], world.workers[i].pc.wager,
                                world.workers[i].pc.decision, world.workers[i].pc.at;
    var policy, stamp, trace := worker.job.policy, Stamp(i, at), FirstPending(db.outbox, w.id).value;
    RescheduledApart(db, w.id, policy, at);
    RescheduledCovers(db, w.id, policy, at);
    CreatedBefore(db, w, world.clock);
    EnactedEffect(family, world.clock, db, Rescheduled(db, w.id, policy, at).schedules, w, d, stamp, trace);
    EnactedIsOk(db, Rescheduled(db, w.id, policy, at).schedules, w, d, stamp, trace);
    var after := ClaimLeft(db, w, worker.held.value, policy, d, stamp);
    forall j | 0 <= j < |world.workers| && j != i && Active(world.workers[j])
      ensures Aside(family, db, after, w.wallet, world.workers[j])
    {
      LocksApart(family, world, i, j);
      NothingNewApart(db, after, w, world.workers[j]);
      if family.Apart? && UnderWay(world.workers[j]).Some? {
        UnderWayIsKnown(family, world, j);
        KnownIsQuiet(family, db, after, w, UnderWay(world.workers[j]).value);
      }
      NothingAside(family, world, i, j, w.wallet, after);
    }
  }

  lemma RescheduledCovers(db: Db, id: Uuid, policy: ReferencePolicy, at: Instant)
    requires Inv(db) && ValidReferencePolicy(policy) && id in db.wagers
    ensures var schedules := Rescheduled(db, id, policy, at).schedules;
            id in schedules && forall other :: other in db.schedules ==> other in schedules
  {
    hide WalletsOk, RowsOk, IndexOk, LinksOk, ReversalsOk, LedgerOk, AllBooked, BalancesOk, StreamOk, EventsOk, InboxOk,
         IdsOk, Backoff;
  }

  /** A claim is answered as the serial one on the data of its commit. */
  lemma ClaimIsAnswered(db: Db, worker: Worker, i: nat, w: Wager, d: Decision, at: Instant)
    requires worker.job.RetryJob? && ValidReferencePolicy(worker.job.policy) && Claimable(db, w.id, at)
    requires w.id in db.wagers && db.wagers[w.id] == w && w.wallet in db.wallets
    requires d == DecideRetry(db, w, worker.job.policy, at)
    ensures ClaimAnswer(db, w.id, worker.job.policy, Stamp(i, at))
            == if d.Abort? then Err(d.error) else Ok(After(w, db.wallets[w.wallet], d, at))
  {
    hide DecideRetry, After, Enacted, Rescheduled, FirstPending;
    if !d.Abort? {
      EnactedStores(Rescheduled(db, w.id, worker.job.policy, at), w, db.wallets[w.wallet], d, Stamp(i, at),
                    FirstPending(db.outbox, w.id).value);
    }
  }

  lemma CreatedBefore(db: Db, w: Wager, at: Instant)
    requires Timely(db, w, at)
    ensures w.createdAt <= at
  {
  }

  lemma LocksApart(family: Family, world: World, i: nat, j: nat)
    requires WorldOk(family, world) && i < |world.workers| && j < |world.workers| && i != j && Lock(world.workers[i]).Some?
    ensures Lock(world.workers[j]) != Lock(world.workers[i])
  {
    hide HistoryOk, AllKnown, WithinClock, WorkerOk, Lock, Inserted, Registered, Clash;
    assert Exclusive(world.workers[i], world.workers[j]);
  }

  lemma NothingNewApart(before: Db, after: Db, w: Wager, other: Worker)
    requires WritesRow(before, after, w) && w.id in before.wagers
    ensures Inserted(other).Some? ==> NewApart(before, after, Inserted(other).value)
  {
    hide Inserted, Clash;
  }

  /** No row changes, and each new one is an opening. */
  ghost predicate NewAreOpenings(before: Db, after: Db) {
    && (forall id :: id in before.wagers && id in after.wagers ==> after.wagers[id] == before.wagers[id])
    && (forall id :: id in after.wagers && id !in before.wagers ==>
          id.Named? && after.wagers[id].provider == "" && after.wagers[id].id == id)
  }

  lemma OpeningIsQuiet(before: Db, after: Db, v: Wager)
    requires NewAreOpenings(before, after) && ValidWager(v) && !v.kind.Opening?
    ensures Quiet(before, after, v)
  {
    assert !Blank(v.provider);
    hide Validate;
  }

  /** An opening writes a new wallet and, at most, its own operation. */
  lemma OpenEffect(family: Family, clock: Instant, db: Db, player: Uuid, initial: Money, trace: Trace, stamp: Stamp)
    requires Inv(db) && Unused(db, stamp.ticket) && stamp.at <= clock
    requires Open(db, player, initial, stamp, trace).Ok?
    ensures var after, x := Open(db, player, initial, stamp, trace).value, Fresh(stamp, ROW_SLOT);
            && x !in db.wallets
            && Effect(db, after, x) && DrawsOwn(db, after, stamp.ticket)
            && (AllKnown(family, db) ==> AllKnown(family, after))
            && (WithinClock(db, clock) ==> WithinClock(after, clock))
            && NewAreOpenings(db, after)
            && after.inbox == db.inbox
  {
    hide Inv, Unused, Opened, DrawsOwn, Effect, AllKnown, WithinClock, OpeningOf;
    var x := Fresh(stamp, ROW_SLOT);
    OpenIsFresh(db, stamp);
    var wallet := NewWallet(player, initial, x, stamp.at).value;
    OpenedParts(db, wallet, stamp, trace);
    OpenedEffect(family, clock, db, Opened(db, wallet, stamp, trace), wallet, OpeningOf(wallet, stamp.at), stamp.at);
    OpenDraws(db, wallet, stamp, trace);
  }

  predicate OneRowMore(before: Db, after: Db, w: Wager, at: Instant) {
    || (after.wagers == before.wagers && after.schedules == before.schedules)
    || (after.wagers == before.wagers[w.id := w] && after.schedules == before.schedules[w.id := Schedule(0, at)])
  }

  lemma OpenedEffect(family: Family, clock: Instant, before: Db, after: Db, wallet: WalletRow, w: Wager, at: Instant)
    requires w.id == Named(wallet.id) && w.kind.Opening? && w.wallet == wallet.id && w.createdAt == wallet.createdAt <= clock
    requires after.wallets == before.wallets[wallet.id := wallet] && after.reversals == before.reversals
    requires OneRowMore(before, after, w, at) && w.id !in before.wagers && wallet.id !in before.wallets
    ensures Effect(before, after, wallet.id)
    ensures AllKnown(family, before) ==> AllKnown(family, after)
    ensures WithinClock(before, clock) ==> WithinClock(after, clock)
  {
    hide Known;
  }

  /** What an opening writes, table by table. */
  lemma OpenedParts(db: Db, wallet: WalletRow, stamp: Stamp, trace: Trace)
    ensures var after, w := Opened(db, wallet, stamp, trace), OpeningOf(wallet, stamp.at);
            && w.id == Named(wallet.id) && w.kind.Opening? && w.wallet == wallet.id && w.provider == ""
            && w.createdAt == wallet.createdAt
            && after.wallets == db.wallets[wallet.id := wallet] && after.reversals == db.reversals
            && after.inbox == db.inbox
            && OneRowMore(db, after, w, stamp.at)
            && (after.ledger == db.ledger || after.ledger == db.ledger + [OpeningEntry(wallet, stamp)])
            && (after.outbox == db.outbox || after.outbox == db.outbox + OpeningEvents(wallet, stamp, trace))
  {
    hide OpeningEntry, OpeningEvents, OpeningOf;
    OpeningNames(wallet, stamp.at);
    if wallet.balance.amount == 0 {
      assert Opened(db, wallet, stamp, trace).wagers == db.wagers;
    } else {
      assert Opened(db, wallet, stamp, trace).ledger == db.ledger + [OpeningEntry(wallet, stamp)];
    }
  }

  lemma OpeningNames(wallet: WalletRow, at: Instant)
    ensures var w := OpeningOf(wallet, at);
            w.id == Named(wallet.id) && w.kind.Opening? && w.wallet == wallet.id && w.provider == ""
            && w.createdAt == wallet.createdAt
  {
  }

  lemma OpenIsFresh(db: Db, stamp: Stamp)
    requires Inv(db) && Unused(db, stamp.ticket)
    ensures Fresh(stamp, ROW_SLOT) !in db.wallets && Named(Fresh(stamp, ROW_SLOT)) !in db.wagers
  {
    hide WalletsOk, RowsOk, IndexOk, LinksOk, ReversalsOk, LedgerOk, AllBooked, BalancesOk, StreamOk, EventsOk, InboxOk,
         IdsOk;
    assert Fresh(stamp, ROW_SLOT) !in db.wallets;
    Opening.NothingAbout(db, Fresh(stamp, ROW_SLOT));
  }

  lemma OpenDraws(db: Db, wallet: WalletRow, stamp: Stamp, trace: Trace)
    requires wallet.id == Fresh(stamp, ROW_SLOT)
    ensures DrawsOwn(db, Opened(db, wallet, stamp, trace), stamp.ticket)
  {
    hide Opened;
    OpenedParts(db, wallet, stamp, trace);
    var after := Opened(db, wallet, stamp, trace);
    forall ticket | ticket != stamp.ticket && Unused(db, ticket) ensures Unused(after, ticket) {
      forall k | 0 <= k < |after.outbox| ensures !Draws(after.outbox[k].id, ticket) {
        if k < |db.outbox| {
          assert after.outbox[k] == db.outbox[k];
        }
      }
    }
  }

  lemma OpenKeeps(family: Family, world: World, i: nat)
    requires WorldOk(family, world) && i < |world.workers| && world.workers[i].job.OpenJob? && world.workers[i].pc.Begin?
    ensures WorldOk(family, Begins(world, i, Nil))
  {
    hide Inv, Extends, AllKnown, WithinClock, Unused, WorldOk, Effect, DrawsOwn, Aside, Open, NewApart, Quiet, UnderWay,
         PcOk;
    Situation(family, world, i);
    var db, job, stamp := Committed(world), world.workers[i].job, Stamp(i, world.clock);
    var done := OpenDone(OpenAnswer(db, job.player, job.initial, stamp, job.trace), Latest(world), world.clock);
    AnswerIsSerialized(family, world.history, db, world.workers[i].(pc := done, held := None), i);
    if Open(db, job.player, job.initial, stamp, job.trace).Ok? {
      var x, step := Fresh(stamp, ROW_SLOT), OpenStep(job.player, job.initial, job.trace, stamp);
      var after := Next(db, step);
      OpenEffect(family, world.clock, db, job.player, job.initial, job.trace, stamp);
      NextKeepsInv(db, step);
      NextExtends(db, step);
      AnswerIsSerialized(family, world.history, after, world.workers[i].(pc := done, held := None), i);
      forall j | 0 <= j < |world.workers| && j != i && Active(world.workers[j])
        ensures Aside(family, db, after, x, world.workers[j])
      {
        Situation(family, world, j);
        OpeningApart(family, world.clock, db, after, world.workers[j], j);
        if family.Apart? && UnderWay(world.workers[j]).Some? {
          UnderWayIsKnown(family, world, j);
          OpeningIsQuiet(db, after, UnderWay(world.workers[j]).value);
        }
        NothingAside(family, world, i, j, x, after);
      }
      CommitKeeps(family, world, i, after, step, x, done);
    } else {
      EndKeeps(family, world, i, done);
    }
  }

  lemma OpeningApart(family: Family, clock: Instant, before: Db, after: Db, other: Worker, j: nat)
    requires JobOk(family, clock, j, other.job)
    requires NewAreOpenings(before, after)
    ensures Inserted(other).Some? ==> NewApart(before, after, Inserted(other).value)
  {
    hide JobOk, Validate, PayloadOf, PayloadOfWager;
    if Inserted(other).Some? {
      JobFacts(family, clock, j, other.job, 0);
      ProviderIsFilled(other.job.wager, other.job.request);
    }
  }

  lemma ProviderIsFilled(w: Wager, q: Request)
    requires Admitted(w, q)
    ensures w.provider != ""
  {
    hide PayloadOf, PayloadOfWager;
    assert !Blank(w.provider);
  }

  // ---- Every action ---------------------------------------------------------------------------------------

  lemma StatementKeeps(family: Family, world: World, i: nat, pick: Uuid)
    requires WorldOk(family, world) && i < |world.workers| && Active(world.workers[i]) && !Blocked(world, i)
    ensures WorldOk(family, Advance(world, i, pick))
  {
    hide Inv, Extends, AllKnown, WithinClock, JobOk, Unused, WorldOk, Blocked, Submits, Stores, Working, ConflictSeen,
         Serially, NoTwin, NoTwinByKey, FindExisting, Open;
    Situation(family, world, i);
    var worker := world.workers[i];
    match worker.pc
    case Begin =>
      if worker.job.OpenJob? {
        OpenKeeps(family, world, i);
      } else if worker.job.SubmitJob? {
        BeginSubmissionKeeps(family, world, i);
      } else {
        BeginRetryKeeps(family, world, i, pick);
      }
    case LookKey(_, _) => LookKeyKeeps(family, world, i);
    case LookExternal(_, _) => LookExternalKeeps(family, world, i);
    case Acquire(_) => AcquireKeeps(family, world, i);
    case Check(_) => CheckKeeps(family, world, i);
    case Insert => InsertKeeps(family, world, i);
    case Pick => PickKeeps(family, world, i, pick);
    case Reference(_) => ReferenceKeeps(family, world, i);
    case Reversal(_, _) => ReversalKeeps(family, world, i);
    case Write(w, d, at) => WriteKeeps(family, world, i);
  }

  lemma WriteKeeps(family: Family, world: World, i: nat)
    requires WorldOk(family, world) && i < |world.workers| && world.workers[i].pc.Write?
    ensures world.workers[i].held.Some?
    ensures var pc := world.workers[i].pc; WorldOk(family, Stores(world, i, pc.wager, pc.decision, pc.at))
  {
    hide Inv, Extends, AllKnown, WithinClock, JobOk, Unused, WorldOk, Working, Serially, Enacted;
    Situation(family, world, i);
    WorkNames(family, Committed(world), world.clock, world.workers[i], world.workers[i].pc.wager);
    if world.workers[i].job.RetryJob? {
      ClaimCommitKeeps(family, world, i);
    } else if world.workers[i].pc.decision.Abort? {
      AbortedSubmissionKeeps(family, world, i);
    } else {
      SubmissionCommitKeeps(family, world, i);
    }
  }

  lemma LaterIsOk(family: Family, history: seq<Db>, clock: Instant, later: Instant, worker: Worker, i: nat)
    requires history != [] && WorkerOk(family, history, clock, worker, i) && clock <= later
    ensures WorkerOk(family, history, later, worker, i)
  {
    hide Ready, Known, ConflictSeen, Serially, NoTwin, NoTwinByKey, FindExisting, Unused, Serialized, PossessionsOk,
         FirstPending, AdmittedWager, Blank;
  }

  lemma TickKeeps(family: Family, world: World, later: Instant)
    requires WorldOk(family, world) && world.clock <= later
    ensures WorldOk(family, world.(clock := later))
  {
    hide HistoryOk, AllKnown, WorkerOk, AllExclusive, Inv;
    forall i | 0 <= i < |world.workers| ensures WorkerOk(family, world.history, later, world.workers[i], i) {
      LaterIsOk(family, world.history, world.clock, later, world.workers[i], i);
    }
  }

  lemma StartKeeps(family: Family, world: World, job: Job)
    requires WorldOk(family, world) && JobOk(family, world.clock, |world.workers|, job)
    ensures WorldOk(family, world.(workers := world.workers + [Worker(job, Begin, None, Latest(world))]))
  {
    hide HistoryOk, AllKnown, WithinClock, JobOk, Inv, Unused, PcOk, PossessionsOk, Serialized;
    var worker := Worker(job, Begin, None, Latest(world));
    assert PcOk(family, world.history, world.clock, worker) && PossessionsOk(Committed(world), worker)
           && Serialized(family, world.history, worker, |world.workers|) by {
      NewcomerIsOk(family, world.history, world.clock, worker, |world.workers|);
    }
    var workers := world.workers + [worker];
    hide WorkerOk, Exclusive;
    assert WorkerOk(family, world.history, world.clock, worker, |world.workers|) by {
      NewcomerFits(family, world.history, world.clock, worker, |world.workers|);
    }
    forall j, k | 0 <= j < |workers| && 0 <= k < |workers| && j != k ensures Exclusive(workers[j], workers[k]) {
      if j == |world.workers| || k == |world.workers| {
        CommitterHasNothing(worker.(pc := Idle), if j == |world.workers| then workers[k] else workers[j]);
        BeginnerHasNothing(worker, if j == |world.workers| then workers[k] else workers[j]);
      }
    }
  }

  lemma BeginnerHasNothing(worker: Worker, other: Worker)
    requires worker.pc.Begin? && worker.held.None?
    ensures Exclusive(worker, other) && Exclusive(other, worker)
  {
  }

  lemma NewcomerIsOk(family: Family, history: seq<Db>, clock: Instant, worker: Worker, i: nat)
    requires history != [] && worker.pc.Begin? && worker.held.None?
    ensures PcOk(family, history, clock, worker) && PossessionsOk(history[|history| - 1], worker)
    ensures Serialized(family, history, worker, i)
  {
    hide Working, ConflictSeen, Serially, NoTwin, NoTwinByKey, FindExisting, Outcome;
  }

  lemma NewcomerFits(family: Family, history: seq<Db>, clock: Instant, worker: Worker, i: nat)
    requires history != [] && JobOk(family, clock, i, worker.job) && worker.since < |history|
    requires PcOk(family, history, clock, worker) && PossessionsOk(history[|history| - 1], worker)
    requires Serialized(family, history, worker, i) && Unused(history[|history| - 1], i)
    ensures WorkerOk(family, history, clock, worker, i)
  {
    hide JobOk, PcOk, PossessionsOk, Serialized, Unused;
  }

  lemma ActionKeeps(family: Family, world: World, action: Action)
    requires Wellformed(world) && WorldOk(family, world) && May(world, action)
    requires action.Start? ==> Belongs(family, action.job)
    ensures WorldOk(family, Does(world, action))
  {
    hide WorldOk, Startable, Belongs, Blocked, Advance;
    match action
    case Tick(clock) => TickKeeps(family, world, clock);
    case Start(job) => StartKeeps(family, world, job);
    case Statement(i, pick) => StatementKeeps(family, world, i, pick);
    case Crash(i) => DropKeeps(family, world, i);
  }
}
