/** What is known of the data and of the workers of a concurrent execution, whatever its operations refer to. */
module Serialization {
  import opened Core
  import opened Finance
  import opened Domain
  import opened Delays
  import opened Engine
  import opened Invariant
  import opened Decisions
  import opened UseCases
  import opened Runs
  import opened Idempotency
  import opened Interleaving
  import Confluence

  // ---- The operations of an execution -----------------------------------------------------------

  /**
   * The operations of an execution: any at all, or the submitted ones, none of which refers to
   * another across wallets. With claims, whatever is stored is one of them.
   */
  datatype Family = Anything | Apart(submitted: set<Wager>, claims: bool)

  ghost predicate Uncrossed(family: Family) {
    family.Apart? ==> forall x, y :: x in family.submitted && y in family.submitted ==> !Crosses(x, y)
  }

  ghost predicate Known(family: Family, w: Wager) {
    family.Apart? ==> exists x :: x in family.submitted && SameBusiness(x, w)
  }

  predicate Belongs(family: Family, job: Job) {
    family.Apart? ==> (job.SubmitJob? ==> job.wager in family.submitted) && (job.RetryJob? ==> family.claims)
  }

  predicate JobOk(family: Family, clock: Instant, i: nat, job: Job) {
    Startable(clock, i, job) && Belongs(family, job)
  }

  /** Known operations do not refer to each other across wallets. */
  lemma KnownAreUncrossed(family: Family, x: Wager, y: Wager)
    requires family.Apart? && Uncrossed(family) && Known(family, x) && Known(family, y)
    ensures !Crosses(x, y)
  {
    var a :| a in family.submitted && SameBusiness(a, x);
    var b :| b in family.submitted && SameBusiness(b, y);
    assert !Crosses(a, b);
  }

  lemma AnythingIsKnown(family: Family, w: Wager)
    ensures family.Anything? ==> Known(family, w)
  {
  }

  lemma KnownAlike(family: Family, x: Wager, y: Wager)
    requires Known(family, x) && SameBusiness(x, y)
    ensures Known(family, y)
  {
    if family.Apart? {
      var a :| a in family.submitted && SameBusiness(a, x);
      assert SameBusiness(a, y);
    }
  }

  // ---- What holds of the committed data and of each worker ------------------------------------

  /** No stored operation of this wallet has the key of the wager. */
  ghost predicate NoTwinByKey(db: Db, w: Wager) {
    forall id :: id in db.wagers && SharesKey(db.wagers[id], w) ==> db.wagers[id].wallet != w.wallet
  }

  predicate SharesKey(e: Wager, w: Wager) {
    !e.kind.Opening? && e.provider == w.provider && e.key == w.key
  }

  /** No stored operation of this wallet shares an identity with the wager. */
  ghost predicate NoTwin(db: Db, w: Wager) {
    forall id :: id in db.wagers && SharesIdentity(db.wagers[id], w.provider, w.key, w.externalId) ==>
      db.wagers[id].wallet != w.wallet
  }

  ghost predicate AllKnown(family: Family, db: Db) {
    family.Apart? && family.claims ==>
      forall id :: id in db.wagers && !db.wagers[id].kind.Opening? ==> Known(family, db.wagers[id])
  }

  ghost predicate WithinClock(db: Db, clock: Instant) {
    && (forall id :: id in db.wagers ==> db.wagers[id].createdAt <= clock)
    && (forall id :: id in db.wallets ==> db.wallets[id].createdAt <= clock)
  }

  /** The wager of a step that is under way, under the lock of its wallet. */
  ghost predicate Working(family: Family, db: Db, clock: Instant, worker: Worker, w: Wager) {
    && worker.held.Some? && worker.held.value.id == w.wallet && w.wallet in db.wallets
    && Ready(db, w) && Timely(db, w, clock) && Known(family, w)
    && match worker.job
       case SubmitJob(_, _, _, _, wager) => w == wager && w.id !in db.wagers
       case RetryJob(_) => Claimable(db, w.id, clock) && db.wagers[w.id] == w
       case OpenJob(_, _, _) => false
  }

  function FoundBy(db: Db, w: Wager): Option<Wager> {
    if NeedsReference(w) then FindReference(db, w) else None
  }

  /** The decision that the serial step would take on the same data at this instant. */
  ghost predicate Serially(db: Db, worker: Worker, w: Wager, d: Decision, at: Instant)
    requires w.wallet in db.wallets
  {
    match worker.job
    case RetryJob(policy) => Claimable(db, w.id, at) && d == DecideRetry(db, w, policy, at)
    case _ => d == DecideIn(db, w, at)
  }

  /** An operation of another wallet, which is no valid reference. */
  predicate Foreign(w: Wager, found: Option<Wager>) {
    found.Some? && found.value.wallet != w.wallet
  }

  /** What was read for the reference: what is there now, or, before another wallet changed it, something as useless. */
  predicate Read(family: Family, db: Db, w: Wager, found: Option<Wager>) {
    || found == FoundBy(db, w)
    || (family.Anything? && NeedsReference(w) && Foreign(w, FoundBy(db, w)) && (found.None? || Foreign(w, found)))
  }

  /** A decision to wait, or to give up waiting, taken before an operation of another wallet took the reference. */
  predicate Late(db: Db, worker: Worker, w: Wager, d: Decision, at: Instant) {
    && NeedsReference(w) && Foreign(w, FoundBy(db, w))
    && match worker.job
       case RetryJob(_) => Claimable(db, w.id, at) && (d.Wait? || d == Refuse(ReferenceNotFound, w.referenceId))
       case _ => d.Wait?
  }

  ghost predicate Decides(family: Family, db: Db, worker: Worker, w: Wager, d: Decision, at: Instant)
    requires w.wallet in db.wallets
  {
    Serially(db, worker, w, d, at) || (family.Anything? && Late(db, worker, w, d, at))
  }

  predicate HasWallet(worker: Worker) {
    worker.job.SubmitJob? && worker.held.Some? && worker.held.value.id == worker.job.wager.wallet
  }

  /** What is known of a worker from the statements that it has already run. */
  ghost predicate PcOk(family: Family, history: seq<Db>, clock: Instant, worker: Worker)
    requires history != []
  {
    var db := history[|history| - 1];
    match worker.pc
    case Begin => worker.held.None?
    case LookKey(round, m) =>
      && worker.job.SubmitJob?
      && (match round
          case Duplicate =>
            worker.held.None? && worker.job.message.Some?
            && worker.job.message.value.messageId in db.inbox
            && db.inbox[worker.job.message.value.messageId].body == worker.job.message.value
          case Unlocked => worker.held.None?
          case Locked => HasWallet(worker)
          case Conflicted => ConflictSeen(history, worker, m))
    case LookExternal(round, m) =>
      && worker.job.SubmitJob? && worker.since <= m < |history|
      && (match round
          case Duplicate => false
          case Unlocked => worker.held.None? && FindByKey(history[m], worker.job.wager.provider, worker.job.wager.key).None?
          case Locked =>
            && HasWallet(worker) && FindByKey(history[m], worker.job.wager.provider, worker.job.wager.key).None?
            && NoTwinByKey(db, worker.job.wager) && HeldSince(history, worker, m)
          case Conflicted => ConflictSeen(history, worker, m))
    case Acquire(m) =>
      && worker.job.SubmitJob? && worker.since <= m < |history| && worker.held.None?
      && FindExisting(history[m], worker.job.wager).None?
    case Check(m) =>
      && HasWallet(worker) && worker.since <= m < |history| && FindExisting(history[m], worker.job.wager).None?
      && NoTwin(db, worker.job.wager) && HeldSince(history, worker, m)
    case Insert => HasWallet(worker) && NoTwin(db, worker.job.wager) && BelongsTo(worker.job.wager, worker.held.value)
    case Pick => worker.job.RetryJob? && worker.held.Some?
    case Reference(w) => Working(family, db, clock, worker, w) && Attempting(db, worker, w)
    case Reversal(w, found) =>
      Working(family, db, clock, worker, w) && Attempting(db, worker, w) && Read(family, db, w, found)
    case Write(w, d, at) =>
      Working(family, db, clock, worker, w) && at <= clock && Timely(db, w, at) && Decides(family, db, worker, w, d, at)
    case Done(_, _, _) | OpenDone(_, _, _) | ClaimDone(_, _, _, _) | Idle => worker.held.None?
  }

  predicate Attempting(db: Db, worker: Worker, w: Wager) {
    worker.job.RetryJob? ==> AttemptsOf(db, w.id) < worker.job.policy.maxAttempts
  }

  /** The new row was refused for an identity in use, which only another wallet can have taken. */
  ghost predicate ConflictSeen(history: seq<Db>, worker: Worker, m: nat)
    requires history != []
  {
    && HasWallet(worker) && worker.since <= m < |history| && IdentityTaken(history[m], worker.job.wager)
    && NoTwin(history[|history| - 1], worker.job.wager)
  }

  /** The wallet was stored, with its owner, when the mark was made. */
  predicate HeldSince(history: seq<Db>, worker: Worker, m: nat)
    requires m < |history|
  {
    && worker.held.Some? && worker.held.value.id in history[m].wallets
    && Owner(history[m].wallets[worker.held.value.id]) == Owner(worker.held.value)
  }

  function Outcome(db: Db, worker: Worker, i: nat, at: Instant): Result<Answer> {
    match worker.job
    case SubmitJob(authorized, q, None, created, _) => Execute(db, authorized, q, created, Stamp(i, at)).outcome
    case SubmitJob(authorized, _, Some(body), created, _) =>
      ExecuteMessage(db, authorized, body, created, Stamp(i, at)).outcome
    case _ => Err(ErrWagerNotFound)
  }

  /** What one claim of this row leaves of it. */
  function ClaimAnswer(db: Db, id: Uuid, policy: ReferencePolicy, stamp: Stamp): Result<Wager>
    requires ValidReferencePolicy(policy) && Claimable(db, id, stamp.at)
  {
    match RetryOne(db, id, policy, stamp)
    case Ok(after) => if id in after.wagers then Ok(after.wagers[id]) else Err(ErrWagerNotFound)
    case Err(e) => Err(e)
  }

  /** The answer of a worker is the one of the serial execution on these data. */
  predicate AnsweredOn(db: Db, worker: Worker, i: nat) {
    match worker.pc
    case Done(outcome, _, at) => worker.job.SubmitJob? && Outcome(db, worker, i, at) == outcome
    case OpenDone(opening, _, at) =>
      && worker.job.OpenJob?
      && OpenAnswer(db, worker.job.player, worker.job.initial, Stamp(i, at), worker.job.trace) == opening
    case ClaimDone(id, claim, _, at) =>
      && worker.job.RetryJob? && ValidReferencePolicy(worker.job.policy) && Claimable(db, id, at)
      && ClaimAnswer(db, id, worker.job.policy, Stamp(i, at)) == claim
    case _ => true
  }

  predicate Answers(pc: Pc) {
    pc.Done? || pc.OpenDone? || pc.ClaimDone?
  }

  /** The operation refers to a stored one of another wallet. */
  ghost predicate CrossesStored(db: Db, w: Wager) {
    exists id :: id in db.wagers && Crosses(w, db.wagers[id])
  }

  /** The answer of a late decision: it concerns an operation that refers to a stored one of another wallet. */
  ghost predicate AnsweredLate(db: Db, worker: Worker) {
    match worker.pc
    case Done(outcome, _, _) =>
      && outcome.Ok? && outcome.value.status.PendingReference?
      && worker.job.SubmitJob? && CrossesStored(db, worker.job.wager)
    case ClaimDone(_, claim, _, _) =>
      && claim.Ok? && (claim.value.status.PendingReference? || claim.value.failure == Some(ReferenceNotFound))
      && CrossesStored(db, claim.value)
    case _ => false
  }

  /** The answer is the one of the serial execution at a moment of the worker's life. */
  ghost predicate Serialized(family: Family, history: seq<Db>, worker: Worker, i: nat) {
    Answers(worker.pc) ==>
      && worker.since <= worker.pc.mark < |history|
      && (AnsweredOn(history[worker.pc.mark], worker, i)
          || (family.Anything? && AnsweredLate(history[worker.pc.mark], worker)))
  }

  // ---- What holds of every world ----------------------------------------------------------------

  /** Each commit leaves consistent data, and operations that stay apart commit as in a serial run. */
  ghost predicate HistoryOk(family: Family, history: seq<Db>, steps: seq<Step>) {
    && |history| == |steps| + 1
    && (forall k :: 0 <= k < |history| ==> Inv(history[k]))
    && (family.Apart? ==>
          forall k :: 0 <= k < |steps| ==> Admissible(history[k], steps[k]) && history[k + 1] == Next(history[k], steps[k]))
    && (forall k :: 0 <= k < |history| ==> Extends(history[k], history[|history| - 1]))
  }

  /** No two workers have the same lock, the same new key or the same message. */
  ghost predicate Exclusive(a: Worker, b: Worker) {
    && (Lock(a).Some? ==> Lock(a) != Lock(b))
    && (Inserted(a).Some? && Inserted(b).Some? ==> !Clash(Inserted(a).value, Inserted(b).value))
    && (Registered(a).Some? ==> Registered(a) != Registered(b))
  }

  ghost predicate AllExclusive(workers: seq<Worker>) {
    forall i, j :: 0 <= i < |workers| && 0 <= j < |workers| && i != j ==> Exclusive(workers[i], workers[j])
  }

  /** What a worker has of the stored data: its wallet as it is, and a message that is not there yet. */
  predicate PossessionsOk(db: Db, worker: Worker) {
    && (worker.held.Some? ==>
          worker.held.value.id in db.wallets && db.wallets[worker.held.value.id] == worker.held.value)
    && (Registered(worker).Some? ==> Registered(worker).value !in db.inbox)
  }

  ghost predicate WorkerOk(family: Family, history: seq<Db>, clock: Instant, worker: Worker, i: nat)
    requires history != []
  {
    && JobOk(family, clock, i, worker.job) && worker.since < |history|
    && PcOk(family, history, clock, worker) && PossessionsOk(history[|history| - 1], worker)
    && Serialized(family, history, worker, i)
    && (Active(worker) ==> Unused(history[|history| - 1], i))
  }

  ghost predicate WorldOk(family: Family, world: World) {
    && Wellformed(world) && HistoryOk(family, world.history, world.steps) && Uncrossed(family)
    && AllKnown(family, Committed(world)) && WithinClock(Committed(world), world.clock) && world.clock > 0
    && (forall ticket :: ticket >= |world.workers| ==> Unused(Committed(world), ticket))
    && AllExclusive(world.workers)
    && (forall i :: 0 <= i < |world.workers| ==> WorkerOk(family, world.history, world.clock, world.workers[i], i))
  }

  // ---- Steps that commit nothing ------------------------------------------------------------------

  lemma LatestFacts(family: Family, world: World)
    requires WorldOk(family, world)
    ensures Wellformed(world) && Inv(Committed(world))
    ensures forall k :: 0 <= k < |world.history| ==> Inv(world.history[k]) && Extends(world.history[k], Committed(world))
  {
    hide Inv, Extends, AllKnown, WithinClock, AllExclusive, WorkerOk;
  }

  /** One worker changes its place; it takes no lock, key or message but those that no other worker has. */
  lemma PutKeeps(family: Family, world: World, i: nat, worker: Worker)
    requires WorldOk(family, world) && i < |world.workers|
    requires WorkerOk(family, world.history, world.clock, worker, i)
    requires forall j :: 0 <= j < |world.workers| && j != i ==>
               Exclusive(worker, world.workers[j]) && Exclusive(world.workers[j], worker)
    ensures WorldOk(family, Put(world, i, worker))
  {
    hide HistoryOk, AllKnown, WithinClock, WorkerOk, Exclusive;
    var workers := world.workers[i := worker];
    forall j | 0 <= j < |workers| ensures WorkerOk(family, world.history, world.clock, workers[j], j) {
    }
    forall j, k | 0 <= j < |workers| && 0 <= k < |workers| && j != k ensures Exclusive(workers[j], workers[k]) {
    }
  }

  /** The worker has nothing that it did not have before. */
  predicate NoMore(before: Worker, after: Worker) {
    && (Lock(after).Some? ==> Lock(after) == Lock(before))
    && (Inserted(after).Some? ==> Inserted(after) == Inserted(before))
    && (Registered(after).Some? ==> Registered(after) == Registered(before))
  }

  lemma MovesOn(family: Family, world: World, i: nat, worker: Worker)
    requires WorldOk(family, world) && i < |world.workers| && NoMore(world.workers[i], worker)
    requires WorkerOk(family, world.history, world.clock, worker, i)
    ensures WorldOk(family, Put(world, i, worker))
  {
    hide HistoryOk, AllKnown, WithinClock, WorkerOk, Lock, Inserted, Registered, Clash;
    forall j | 0 <= j < |world.workers| && j != i
      ensures Exclusive(worker, world.workers[j]) && Exclusive(world.workers[j], worker)
    {
      assert Exclusive(world.workers[i], world.workers[j]) && Exclusive(world.workers[j], world.workers[i]);
    }
    PutKeeps(family, world, i, worker);
  }

  lemma WorkerKnown(family: Family, world: World, i: nat)
    requires WorldOk(family, world) && i < |world.workers|
    ensures WorkerOk(family, world.history, world.clock, world.workers[i], i)
    ensures JobOk(family, world.clock, i, world.workers[i].job) && world.workers[i].since < |world.history|
  {
    hide Inv, Extends, HistoryOk, AllKnown, WithinClock, AllExclusive, PcOk, JobOk, PossessionsOk, Serialized, Unused;
  }

  lemma DroppedIsOk(family: Family, history: seq<Db>, clock: Instant, worker: Worker, i: nat)
    requires JobOk(family, clock, i, worker.job) && worker.since < |history|
    ensures WorkerOk(family, history, clock, worker.(pc := Idle, held := None), i)
  {
    hide JobOk, Unused, AnsweredOn, Working, Serially, NoTwin, NoTwinByKey, ConflictSeen;
  }

  lemma DoneIsOk(family: Family, history: seq<Db>, clock: Instant, worker: Worker)
    requires history != [] && Answers(worker.pc) && worker.held.None?
    ensures PcOk(family, history, clock, worker) && PossessionsOk(history[|history| - 1], worker) && !Active(worker)
  {
    hide Working, ConflictSeen, Serially, NoTwin, NoTwinByKey, FindExisting, HeldSince, HasWallet, Attempting, FoundBy,
         FindByKey;
  }

  lemma FinishedIsOk(family: Family, history: seq<Db>, clock: Instant, worker: Worker, i: nat, outcome: Result<Answer>,
                     mark: nat, at: Instant)
    requires JobOk(family, clock, i, worker.job) && worker.since < |history| && worker.job.SubmitJob?
    requires worker.since <= mark < |history| && Outcome(history[mark], worker, i, at) == outcome
    ensures WorkerOk(family, history, clock, worker.(pc := Done(outcome, mark, at), held := None), i)
  {
    hide JobOk, Unused, Outcome, Working, ConflictSeen, Serially, NoTwin, NoTwinByKey, FindExisting, HeldSince, HasWallet,
         Attempting, FoundBy, FindByKey;
    var ended := worker.(pc := Done(outcome, mark, at), held := None);
    SameOutcome(history[mark], worker, ended, i, at);
    DoneIsOk(family, history, clock, ended);
    hide PcOk, PossessionsOk, ClaimAnswer, OpenAnswer, Claimable;
  }

  lemma DropKeeps(family: Family, world: World, i: nat)
    requires WorldOk(family, world) && i < |world.workers|
    ensures WorldOk(family, Drop(world, i))
  {
    hide Inv, Extends, HistoryOk, AllKnown, WithinClock, AllExclusive, JobOk, Unused, WorldOk;
    WorkerKnown(family, world, i);
    DroppedIsOk(family, world.history, world.clock, world.workers[i], i);
    MovesOn(family, world, i, world.workers[i].(pc := Idle, held := None));
  }

  /** A worker that ends with an answer of the serial execution on the latest data. */
  lemma EndKeeps(family: Family, world: World, i: nat, pc: Pc)
    requires WorldOk(family, world) && i < |world.workers| && Answers(pc)
    requires Serialized(family, world.history, world.workers[i].(pc := pc, held := None), i)
    ensures WorldOk(family, End(world, i, pc))
  {
    hide Inv, Extends, HistoryOk, AllKnown, WithinClock, AllExclusive, JobOk, Unused, WorldOk, AnsweredOn, PcOk,
         PossessionsOk, Serialized;
    WorkerKnown(family, world, i);
    var ended := world.workers[i].(pc := pc, held := None);
    DoneIsOk(family, world.history, world.clock, ended);
    MovesOn(family, world, i, ended);
  }

  /** A worker that ends with an answer of the serial execution. */
  lemma FinishKeeps(family: Family, world: World, i: nat, outcome: Result<Answer>, mark: nat)
    requires WorldOk(family, world) && i < |world.workers| && world.workers[i].job.SubmitJob?
    requires world.workers[i].since <= mark < |world.history|
    requires Outcome(world.history[mark], world.workers[i], i, world.clock) == outcome
    ensures WorldOk(family, Finish(world, i, outcome, mark))
  {
    hide Inv, Extends, HistoryOk, AllKnown, WithinClock, AllExclusive, JobOk, Unused, WorldOk, Outcome;
    WorkerKnown(family, world, i);
    FinishedIsOk(family, world.history, world.clock, world.workers[i], i, outcome, mark, world.clock);
    MovesOn(family, world, i, world.workers[i].(pc := Done(outcome, mark, world.clock), held := None));
  }

  lemma SameOutcome(db: Db, a: Worker, b: Worker, i: nat, at: Instant)
    requires a.job == b.job
    ensures Outcome(db, a, i, at) == Outcome(db, b, i, at)
  {
  }

  /** What is known of a submission's job. */
  lemma JobFacts(family: Family, clock: Instant, i: nat, job: Job, at: Instant)
    requires JobOk(family, clock, i, job) && job.SubmitJob?
    ensures Admitted(job.wager, job.request) && job.wager.id == Random(i, ROW_SLOT) && job.wager.createdAt == job.created
    ensures AdmittedWager(job.authorized, job.request, job.created, Stamp(i, at)) == Ok(job.wager)
    ensures (family.Apart? ==> job.wager in family.submitted) && Known(family, job.wager) && job.created <= clock && !Blank(job.request.trace.correlation)
    ensures job.message.Some? ==> job.message.value.request == job.request && !Blank(job.message.value.messageId)
    ensures job.wager.digest == Sha256(PayloadOfWager(job.wager))
  {
    AdmissionFacts(job.authorized, job.request, Fresh(Stamp(i, 0), ROW_SLOT), job.created);
    hide Admit, Blank;
    assert SameBusiness(job.wager, job.wager);
    assert Fresh(Stamp(i, at), ROW_SLOT) == Fresh(Stamp(i, 0), ROW_SLOT);
    hide PayloadOf, PayloadOfWager, Validate;
  }

  /** On data that has not seen its message, a job is answered as its submission. */
  lemma OutcomeIsSubmission(family: Family, clock: Instant, db: Db, worker: Worker, i: nat, at: Instant)
    requires JobOk(family, clock, i, worker.job) && worker.job.SubmitJob?
    requires worker.job.message.Some? ==> worker.job.message.value.messageId !in db.inbox
    ensures Outcome(db, worker, i, at) == Submit(db, worker.job.wager, Stamp(i, at), worker.job.request.trace).outcome
  {
    JobFacts(family, clock, i, worker.job, at);
    hide JobOk, Submit, Admitted, AdmittedWager;
    if worker.job.message.Some? {
      ReceiveUnfolds(db, worker.job.message.value, worker.job.wager, Stamp(i, at));
    }
  }

  /** On data that has its message, a job is answered from what is stored. */
  lemma OutcomeIsReplay(family: Family, clock: Instant, db: Db, worker: Worker, i: nat, at: Instant)
    requires JobOk(family, clock, i, worker.job) && worker.job.SubmitJob? && worker.job.message.Some?
    requires worker.job.message.value.messageId in db.inbox
    ensures var receipt, found := db.inbox[worker.job.message.value.messageId], FindExisting(db, worker.job.wager);
            Outcome(db, worker, i, at)
            == if receipt.body != worker.job.message.value then Err(ErrInboxConflict)
               else if !receipt.completed || found.None? then Err(ErrInboxIncomplete)
               else Compare(found.value, worker.job.wager)
  {
    JobFacts(family, clock, i, worker.job, at);
    hide JobOk, Submit, Admitted, AdmittedWager, FindExisting, Compare;
  }

  // ---- What the lookups tell ------------------------------------------------------------------------

  /** A row found under the key or under the external identity answers as the serial submission. */
  lemma FoundAnswers(db: Db, w: Wager, e: Wager, stamp: Stamp, trace: Trace)
    requires Inv(db) && w.digest == Sha256(PayloadOfWager(w))
    requires FindByKey(db, w.provider, w.key) == Some(e) || FindByExternal(db, w.provider, w.externalId) == Some(e)
    ensures Submit(db, w, stamp, trace).outcome == Compare(e, w)
  {
    FoundShares(db, w, e);
    hide Inv, Submit, PayloadOfWager, FindByKey, FindByExternal;
    RepeatsChangeNothing(db, e.id, w, stamp, trace);
  }

  lemma FoundShares(db: Db, w: Wager, e: Wager)
    requires Inv(db)
    requires FindByKey(db, w.provider, w.key) == Some(e) || FindByExternal(db, w.provider, w.externalId) == Some(e)
    ensures e.id in db.wagers && db.wagers[e.id] == e && SharesIdentity(e, w.provider, w.key, w.externalId)
  {
    hide WalletsOk, LinksOk, ReversalsOk, LedgerOk, AllBooked, BalancesOk, StreamOk, EventsOk, InboxOk, IdsOk, RowOk;
  }

  /** What neither of two lookups found, the earlier data did not have. */
  lemma NothingBefore(before: Db, after: Db, w: Wager)
    requires Inv(before) && Extends(before, after)
    requires FindByKey(before, w.provider, w.key).None? && FindByExternal(after, w.provider, w.externalId).None?
    ensures FindExisting(before, w).None?
  {
    hide WalletsOk, RowsOk, LinksOk, ReversalsOk, LedgerOk, AllBooked, BalancesOk, StreamOk, EventsOk, InboxOk, IdsOk;
  }

  lemma NoTwinNow(db: Db, w: Wager)
    requires Inv(db) && NoTwinByKey(db, w) && FindByExternal(db, w.provider, w.externalId).None?
    ensures NoTwin(db, w)
  {
    hide WalletsOk, RowsOk, LinksOk, ReversalsOk, LedgerOk, AllBooked, BalancesOk, StreamOk, EventsOk, InboxOk, IdsOk;
    forall id | id in db.wagers && SharesIdentity(db.wagers[id], w.provider, w.key, w.externalId)
      ensures db.wagers[id].wallet != w.wallet
    {
      assert db.wagers[id].externalId == w.externalId ==> (w.provider, w.externalId) in db.byExternal;
    }
  }

  lemma NoTwinByKeyNow(db: Db, w: Wager)
    requires Inv(db) && FindByKey(db, w.provider, w.key).None?
    ensures NoTwinByKey(db, w)
  {
    hide WalletsOk, RowsOk, LinksOk, ReversalsOk, LedgerOk, AllBooked, BalancesOk, StreamOk, EventsOk, InboxOk, IdsOk;
  }

  /** An identity taken by another wallet is a conflict, whatever the content. */
  lemma TakenConflicts(before: Db, after: Db, w: Wager, stamp: Stamp, trace: Trace)
    requires Inv(before) && Extends(before, after) && w.digest == Sha256(PayloadOfWager(w))
    requires IdentityTaken(before, w) && w.id !in before.wagers && NoTwin(after, w)
    ensures Submit(before, w, stamp, trace).outcome == Err(ErrIdempotencyConflict)
  {
    var id := TakenBy(before, w);
    var e := before.wagers[id];
    assert SameBusiness(e, after.wagers[id]);
    assert e.wallet != w.wallet;
    RowDigest(before, id);
    hide Inv, Submit, Extends, NoTwin, IdentityTaken, MoneyText;
    RepeatsChangeNothing(before, id, w, stamp, trace);
    assert PayloadOfWager(e).wallet != PayloadOfWager(w).wallet;
  }

  lemma RowDigest(db: Db, id: Uuid)
    requires Inv(db) && id in db.wagers && !db.wagers[id].kind.Opening?
    ensures db.wagers[id].digest == Sha256(PayloadOfWager(db.wagers[id])) && db.wagers[id].id == id
  {
    hide WalletsOk, IndexOk, LinksOk, ReversalsOk, LedgerOk, AllBooked, BalancesOk, StreamOk, EventsOk, InboxOk, IdsOk,
         Validate, PayloadOfWager;
  }

  lemma TakenBy(db: Db, w: Wager) returns (id: Uuid)
    requires Inv(db) && IdentityTaken(db, w) && w.id !in db.wagers
    ensures id in db.wagers && SharesIdentity(db.wagers[id], w.provider, w.key, w.externalId)
  {
    hide WalletsOk, RowsOk, LinksOk, ReversalsOk, LedgerOk, AllBooked, BalancesOk, StreamOk, EventsOk, InboxOk, IdsOk;
    id := if (w.provider, w.key) in db.byKey then db.byKey[(w.provider, w.key)] else db.byExternal[(w.provider, w.externalId)];
  }

  // ---- A submission up to its new row -----------------------------------------------------------------

  /** What is known when a worker takes its next statement. */
  lemma Situation(family: Family, world: World, i: nat)
    requires WorldOk(family, world) && i < |world.workers|
    ensures Wellformed(world) && Inv(Committed(world)) && AllKnown(family, Committed(world)) && Uncrossed(family)
    ensures WithinClock(Committed(world), world.clock) && world.clock > 0
    ensures var worker := world.workers[i];
            && PcOk(family, world.history, world.clock, worker) && PossessionsOk(Committed(world), worker)
            && JobOk(family, world.clock, i, worker.job) && worker.since < |world.history|
            && (Active(worker) ==> Unused(Committed(world), i))
    ensures forall k :: 0 <= k < |world.history| ==> Inv(world.history[k]) && Extends(world.history[k], Committed(world))
  {
    LatestFacts(family, world);
    hide Inv, Extends, HistoryOk, AllKnown, WithinClock, AllExclusive, PcOk, JobOk, PossessionsOk, Serialized, Unused;
    assert WorkerOk(family, world.history, world.clock, world.workers[i], i);
  }

  /** An active worker that goes on to another statement. */
  lemma GoesOn(family: Family, world: World, i: nat, worker: Worker)
    requires WorldOk(family, world) && i < |world.workers| && Active(world.workers[i]) && Active(worker)
    requires worker.job == world.workers[i].job && worker.since == world.workers[i].since
    requires PcOk(family, world.history, world.clock, worker) && PossessionsOk(Committed(world), worker)
    ensures WorkerOk(family, world.history, world.clock, worker, i)
  {
    hide Inv, Extends, AllKnown, WithinClock, JobOk, PcOk, PossessionsOk, Unused, WorldOk;
    Situation(family, world, i);
  }

  /** The job of a submission, on committed data that its message has not reached. */
  predicate MessageUnseen(db: Db, worker: Worker) {
    worker.job.SubmitJob? && worker.job.message.Some? ==> worker.job.message.value.messageId !in db.inbox
  }

  lemma UnseenBefore(before: Db, after: Db, worker: Worker)
    requires Extends(before, after) && MessageUnseen(after, worker)
    ensures MessageUnseen(before, worker)
  {
  }

  lemma UnseenIsSubmission(family: Family, clock: Instant, db: Db, worker: Worker, i: nat)
    requires JobOk(family, clock, i, worker.job) && worker.job.SubmitJob? && MessageUnseen(db, worker)
    ensures Outcome(db, worker, i, clock)
            == Submit(db, worker.job.wager, Stamp(i, clock), worker.job.request.trace).outcome
  {
    hide JobOk, Outcome, Submit;
    OutcomeIsSubmission(family, clock, db, worker, i, clock);
  }

  lemma FoundOutcome(family: Family, clock: Instant, db: Db, worker: Worker, i: nat, e: Wager)
    requires Inv(db) && JobOk(family, clock, i, worker.job) && worker.job.SubmitJob? && MessageUnseen(db, worker)
    requires var w := worker.job.wager;
             FindByKey(db, w.provider, w.key) == Some(e) || FindByExternal(db, w.provider, w.externalId) == Some(e)
    ensures Outcome(db, worker, i, clock) == Compare(e, worker.job.wager)
  {
    hide Inv, JobOk, Submit, Compare, Outcome, FindByKey, FindByExternal, MessageUnseen, Admitted, Known, AdmittedWager,
         PayloadOfWager, Blank;
    JobFacts(family, clock, i, worker.job, clock);
    UnseenIsSubmission(family, clock, db, worker, i);
    FoundAnswers(db, worker.job.wager, e, Stamp(i, clock), worker.job.request.trace);
  }

  /** A row found ends the submission with the serial answer. */
  lemma FoundEnds(family: Family, world: World, i: nat, e: Wager)
    requires WorldOk(family, world) && i < |world.workers| && world.workers[i].job.SubmitJob?
    requires var db, w := Committed(world), world.workers[i].job.wager;
             FindByKey(db, w.provider, w.key) == Some(e) || FindByExternal(db, w.provider, w.externalId) == Some(e)
    requires MessageUnseen(Committed(world), world.workers[i])
    ensures WorldOk(family, Finish(world, i, Compare(e, world.workers[i].job.wager), Latest(world)))
  {
    hide Inv, Extends, AllKnown, WithinClock, JobOk, PcOk, PossessionsOk, Unused, WorldOk, Compare, Outcome, FindByKey,
         FindByExternal, MessageUnseen;
    Situation(family, world, i);
    FoundOutcome(family, world.clock, Committed(world), world.workers[i], i, e);
    FinishKeeps(family, world, i, Compare(e, world.workers[i].job.wager), Latest(world));
  }

  /** An end with the answer of the serial submission on earlier data. */
  lemma EndsAsBefore(family: Family, world: World, i: nat, outcome: Result<Answer>, m: nat)
    requires WorldOk(family, world) && i < |world.workers| && world.workers[i].job.SubmitJob?
    requires world.workers[i].since <= m < |world.history| && MessageUnseen(Committed(world), world.workers[i])
    requires Submit(world.history[m], world.workers[i].job.wager, Stamp(i, world.clock), world.workers[i].job.request.trace)
             .outcome == outcome
    ensures WorldOk(family, Finish(world, i, outcome, m))
  {
    hide Inv, Extends, AllKnown, WithinClock, JobOk, PcOk, PossessionsOk, Unused, WorldOk, Submit, Outcome;
    Situation(family, world, i);
    UnseenBefore(world.history[m], Committed(world), world.workers[i]);
    OutcomeIsSubmission(family, world.clock, world.history[m], world.workers[i], i, world.clock);
    FinishKeeps(family, world, i, outcome, m);
  }

  lemma LookKeyKeeps(family: Family, world: World, i: nat)
    requires WorldOk(family, world) && i < |world.workers| && world.workers[i].job.SubmitJob?
    requires world.workers[i].pc.LookKey?
    ensures WorldOk(family, Submits(world, i))
  {
    hide Inv, Extends, AllKnown, WithinClock, JobOk, Unused, WorldOk, Submit, Compare, Outcome, FindByKey, FindByExternal,
         NoTwin, NoTwinByKey, IdentityTaken, Working, Admitted;
    Situation(family, world, i);
    var db, worker, w := Committed(world), world.workers[i], world.workers[i].job.wager;
    var round, found := worker.pc.round, FindByKey(db, w.provider, w.key);
    if round.Duplicate? {
      DuplicateIsFound(family, world, i);
      DuplicateEnds(family, world, i, found.value);
    } else if found.Some? {
      FoundEnds(family, world, i, found.value);
    } else {
      NoTwinByKeyNow(db, w);
      var next := worker.(pc := LookExternal(round, if round.Conflicted? then worker.pc.mark else Latest(world)));
      GoesOn(family, world, i, next);
      MovesOn(family, world, i, next);
    }
  }

  /** A duplicate message finds its operation under its key: it is never incomplete. */
  lemma DuplicateIsFound(family: Family, world: World, i: nat)
    requires WorldOk(family, world) && i < |world.workers| && world.workers[i].job.SubmitJob?
    requires world.workers[i].pc.LookKey? && world.workers[i].pc.round.Duplicate?
    ensures FindByKey(Committed(world), world.workers[i].job.wager.provider, world.workers[i].job.wager.key).Some?
    ensures FindExisting(Committed(world), world.workers[i].job.wager).Some?
    ensures world.workers[i].job.message.Some?
    ensures var body := world.workers[i].job.message.value;
            body.messageId in Committed(world).inbox && Committed(world).inbox[body.messageId] == Receipt(body, true)
  {
    hide Extends, AllKnown, WithinClock, JobOk, Unused, WorldOk, Admitted, WalletsOk, RowsOk, LinksOk, ReversalsOk,
         LedgerOk, AllBooked, BalancesOk, StreamOk, EventsOk, IdsOk, Known, Answered;
    Situation(family, world, i);
    var db, worker := Committed(world), world.workers[i];
    JobFacts(family, world.clock, i, worker.job, world.clock);
    TreatedIsFound(db, worker.job.message.value, worker.job.wager);
    KeyOfAdmitted(worker.job.wager, worker.job.request);
  }

  lemma KeyOfAdmitted(w: Wager, q: Request)
    requires Admitted(w, q)
    ensures w.provider == q.provider && w.key == q.key && w.wallet == q.wallet
  {
    hide Validate, PayloadOf, PayloadOfWager;
  }

  lemma DuplicateEnds(family: Family, world: World, i: nat, e: Wager)
    requires WorldOk(family, world) && i < |world.workers| && world.workers[i].job.SubmitJob?
    requires world.workers[i].pc.LookKey? && world.workers[i].pc.round.Duplicate?
    requires FindByKey(Committed(world), world.workers[i].job.wager.provider, world.workers[i].job.wager.key) == Some(e)
    ensures WorldOk(family, Finish(world, i, Compare(e, world.workers[i].job.wager), Latest(world)))
  {
    hide Inv, Extends, AllKnown, WithinClock, JobOk, Unused, WorldOk, PcOk, PossessionsOk, Compare, Outcome;
    Situation(family, world, i);
    DuplicateIsFound(family, world, i);
    OutcomeIsReplay(family, world.clock, Committed(world), world.workers[i], i, world.clock);
    FinishKeeps(family, world, i, Compare(e, world.workers[i].job.wager), Latest(world));
  }

  lemma LookExternalKeeps(family: Family, world: World, i: nat)
    requires WorldOk(family, world) && i < |world.workers| && world.workers[i].job.SubmitJob?
    requires world.workers[i].pc.LookExternal?
    ensures WorldOk(family, Submits(world, i))
  {
    hide Inv, Extends, AllKnown, WithinClock, JobOk, Unused, WorldOk, Submit, Compare, Outcome, FindByKey, FindByExternal,
         FindExisting, NoTwin, NoTwinByKey, IdentityTaken, Working, Admitted, Exclusive;
    Situation(family, world, i);
    var db, worker, w := Committed(world), world.workers[i], world.workers[i].job.wager;
    var round, m, found := worker.pc.round, worker.pc.mark, FindByExternal(db, w.provider, w.externalId);
    if found.Some? {
      FoundEnds(family, world, i, found.value);
    } else if round.Conflicted? {
      ConflictEnds(family, world, i, m);
    } else {
      NothingBefore(world.history[m], db, w);
      if round.Locked? {
        NoTwinNow(db, w);
      }
      var next := worker.(pc := if round.Locked? then Check(m) else Acquire(m));
      GoesOn(family, world, i, next);
      MovesOn(family, world, i, next);
    }
  }

  lemma ConflictEnds(family: Family, world: World, i: nat, m: nat)
    requires WorldOk(family, world) && i < |world.workers| && ConflictSeen(world.history, world.workers[i], m)
    requires MessageUnseen(Committed(world), world.workers[i]) && Active(world.workers[i])
    ensures WorldOk(family, Finish(world, i, Err(ErrIdempotencyConflict), m))
  {
    hide Inv, Extends, AllKnown, WithinClock, JobOk, Unused, WorldOk, Submit, Outcome, PcOk, PossessionsOk, NoTwin, Admitted,
         IdentityTaken;
    Situation(family, world, i);
    var worker := world.workers[i];
    JobFacts(family, world.clock, i, worker.job, world.clock);
    NotStoredBefore(world.history[m], Committed(world), worker.job.wager.id, i);
    TakenConflicts(world.history[m], Committed(world), worker.job.wager, Stamp(i, world.clock), worker.job.request.trace);
    EndsAsBefore(family, world, i, Err(ErrIdempotencyConflict), m);
  }

  lemma NotStoredBefore(before: Db, after: Db, id: Uuid, ticket: nat)
    requires Extends(before, after) && Unused(after, ticket) && id == Random(ticket, ROW_SLOT)
    ensures id !in before.wagers && id !in after.wagers
  {
  }

  /** A new lock, key or message that no other worker has keeps the workers apart. */
  lemma TakesKeeps(family: Family, world: World, i: nat, worker: Worker)
    requires WorldOk(family, world) && i < |world.workers|
    requires WorkerOk(family, world.history, world.clock, worker, i)
    requires forall j :: 0 <= j < |world.workers| && j != i ==> TakesFrom(world.workers[i], worker, world.workers[j])
    ensures WorldOk(family, Put(world, i, worker))
  {
    hide Inv, Extends, HistoryOk, AllKnown, WithinClock, WorkerOk, Lock, Inserted, Registered, Clash;
    forall j | 0 <= j < |world.workers| && j != i
      ensures Exclusive(worker, world.workers[j]) && Exclusive(world.workers[j], worker)
    {
      assert Exclusive(world.workers[i], world.workers[j]) && Exclusive(world.workers[j], world.workers[i]);
      ClashIsMutual(worker, world.workers[j]);
    }
    PutKeeps(family, world, i, worker);
  }

  /** Whatever the worker has after its statement it had before, or the other has not. */
  predicate TakesFrom(before: Worker, after: Worker, other: Worker) {
    && (Lock(after).Some? ==> Lock(after) == Lock(before) || Lock(after) != Lock(other))
    && (Inserted(after).Some? && Inserted(other).Some? ==>
          Inserted(after) == Inserted(before) || !Clash(Inserted(after).value, Inserted(other).value))
    && (Registered(after).Some? ==> Registered(after) == Registered(before) || Registered(after) != Registered(other))
  }

  lemma ClashIsMutual(a: Worker, b: Worker)
    ensures Inserted(a).Some? && Inserted(b).Some? ==>
              (Clash(Inserted(a).value, Inserted(b).value) <==> Clash(Inserted(b).value, Inserted(a).value))
  {
  }

  lemma NotBlocked(world: World, i: nat, j: nat)
    requires Wellformed(world) && i < |world.workers| && j < |world.workers| && j != i && !Blocked(world, i)
    ensures !WaitsFor(world, i, j)
  {
  }

  lemma AcquireKeeps(family: Family, world: World, i: nat)
    requires WorldOk(family, world) && i < |world.workers| && world.workers[i].job.SubmitJob?
    requires world.workers[i].pc.Acquire? && !Blocked(world, i)
    ensures WorldOk(family, Submits(world, i))
  {
    hide Inv, AllKnown, WithinClock, JobOk, Unused, WorldOk, Compare, Outcome, FindExisting, Working, Admitted, Exclusive,
         Blocked, DecideIn, Enacted, IdentityTaken, Extends;
    Situation(family, world, i);
    var db, worker, w, m := Committed(world), world.workers[i], world.workers[i].job.wager, world.workers[i].pc.mark;
    if w.wallet !in db.wallets {
      NoWalletBefore(world.history[m], db, w.wallet);
      hide Submit;
      SubmitNames(world.history[m], w, Stamp(i, world.clock), worker.job.request.trace);
      EndsAsBefore(family, world, i, Err(ErrWalletNotFound), m);
    } else {
      hide Submit;
      WalletIsItself(db, w.wallet);
      var next := worker.(pc := LookKey(Locked, 0), held := Some(db.wallets[w.wallet]));
      forall j | 0 <= j < |world.workers| && j != i ensures TakesFrom(worker, next, world.workers[j]) {
        NotBlocked(world, i, j);
      }
      GoesOn(family, world, i, next);
      TakesKeeps(family, world, i, next);
    }
  }

  lemma NoWalletBefore(before: Db, after: Db, id: Uuid)
    requires Extends(before, after) && id !in after.wallets
    ensures id !in before.wallets
  {
  }

  lemma WalletIsItself(db: Db, id: Uuid)
    requires Inv(db) && id in db.wallets
    ensures db.wallets[id].id == id && ValidWallet(db.wallets[id])
  {
    hide RowsOk, IndexOk, LinksOk, ReversalsOk, LedgerOk, AllBooked, BalancesOk, StreamOk, EventsOk, InboxOk, IdsOk;
  }

  lemma CheckKeeps(family: Family, world: World, i: nat)
    requires WorldOk(family, world) && i < |world.workers| && world.workers[i].job.SubmitJob?
    requires world.workers[i].pc.Check?
    ensures WorldOk(family, Submits(world, i))
  {
    hide Inv, AllKnown, WithinClock, JobOk, Unused, WorldOk, Compare, Outcome, FindExisting, Working, Admitted, Exclusive,
         DecideIn, Enacted, IdentityTaken, Extends, Submit, NoTwin;
    Situation(family, world, i);
    var db, worker, w, m := Committed(world), world.workers[i], world.workers[i].job.wager, world.workers[i].pc.mark;
    if !BelongsTo(w, worker.held.value) {
      SubmitNames(world.history[m], w, Stamp(i, world.clock), worker.job.request.trace);
      EndsAsBefore(family, world, i, Err(ErrWalletIdentityMismatch), m);
    } else {
      var next := worker.(pc := Insert);
      GoesOn(family, world, i, next);
      MovesOn(family, world, i, next);
    }
  }

  /** A new row whose identity is free, under the lock of its wallet, may be worked on. */
  lemma NewRowWorks(family: Family, world: World, i: nat)
    requires WorldOk(family, world) && i < |world.workers| && world.workers[i].job.SubmitJob?
    requires world.workers[i].pc.Insert? && !IdentityTaken(Committed(world), world.workers[i].job.wager)
    ensures Working(family, Committed(world), world.clock, world.workers[i], world.workers[i].job.wager)
  {
    hide Inv, AllKnown, JobOk, Unused, WorldOk, Known, Extends, NoTwin, Validate, PayloadOfWager, PayloadOf;
    Situation(family, world, i);
    JobFacts(family, world.clock, i, world.workers[i].job, world.clock);
  }

  lemma InsertKeeps(family: Family, world: World, i: nat)
    requires WorldOk(family, world) && i < |world.workers| && world.workers[i].job.SubmitJob?
    requires world.workers[i].pc.Insert? && !Blocked(world, i)
    ensures WorldOk(family, Submits(world, i))
  {
    hide Inv, AllKnown, WithinClock, JobOk, Unused, WorldOk, Working, Admitted, Exclusive, IdentityTaken, Extends, NoTwin,
         Blocked, Clash;
    Situation(family, world, i);
    var db, worker, w := Committed(world), world.workers[i], world.workers[i].job.wager;
    if IdentityTaken(db, w) {
      var next := worker.(pc := LookKey(Conflicted, Latest(world)));
      GoesOn(family, world, i, next);
      MovesOn(family, world, i, next);
    } else {
      NewRowWorks(family, world, i);
      var next := worker.(pc := Reference(w));
      forall j | 0 <= j < |world.workers| && j != i ensures TakesFrom(worker, next, world.workers[j]) {
        NotBlocked(world, i, j);
      }
      SameWork(family, db, world.clock, worker, next, w);
      GoesOn(family, world, i, next);
      TakesKeeps(family, world, i, next);
    }
  }

  lemma SameWork(family: Family, db: Db, clock: Instant, a: Worker, b: Worker, w: Wager)
    requires Working(family, db, clock, a, w) && a.job == b.job && a.held == b.held
    ensures Working(family, db, clock, b, w)
  {
    hide Ready, Timely, Known, Claimable;
  }

  // ---- Beginning, claiming, deciding ------------------------------------------------------------------

  lemma BeginSubmissionKeeps(family: Family, world: World, i: nat)
    requires WorldOk(family, world) && i < |world.workers| && world.workers[i].job.SubmitJob?
    requires world.workers[i].pc.Begin? && !Blocked(world, i)
    ensures WorldOk(family, Begins(world, i, Nil))
  {
    hide Inv, AllKnown, WithinClock, JobOk, Unused, WorldOk, Working, Admitted, Exclusive, Extends, Blocked, Outcome,
         FindExisting, Compare, Enacted, Open;
    Situation(family, world, i);
    var db, worker := Committed(world), world.workers[i];
    if worker.job.message.None? {
      var next := worker.(pc := LookKey(Unlocked, 0));
      GoesOn(family, world, i, next);
      MovesOn(family, world, i, next);
    } else {
      var body := worker.job.message.value;
      if body.messageId !in db.inbox {
        var next := worker.(pc := LookKey(Unlocked, 0));
        forall j | 0 <= j < |world.workers| && j != i ensures TakesFrom(worker, next, world.workers[j]) {
          NotBlocked(world, i, j);
        }
        GoesOn(family, world, i, next);
        TakesKeeps(family, world, i, next);
      } else {
        OutcomeIsReplay(family, world.clock, db, worker, i, world.clock);
        if db.inbox[body.messageId].body != body {
          FinishKeeps(family, world, i, Err(ErrInboxConflict), Latest(world));
        } else if !db.inbox[body.messageId].completed {
          FinishKeeps(family, world, i, Err(ErrInboxIncomplete), Latest(world));
        } else {
          var next := worker.(pc := LookKey(Duplicate, 0));
          GoesOn(family, world, i, next);
          MovesOn(family, world, i, next);
        }
      }
    }
  }

  lemma BeginRetryKeeps(family: Family, world: World, i: nat, pick: Uuid)
    requires WorldOk(family, world) && i < |world.workers| && world.workers[i].job.RetryJob?
    requires world.workers[i].pc.Begin?
    ensures WorldOk(family, Begins(world, i, pick))
  {
    hide Inv, AllKnown, WithinClock, JobOk, Unused, WorldOk, Working, Exclusive, Extends, Enacted, Open;
    Situation(family, world, i);
    var db, worker := Committed(world), world.workers[i];
    if Due(db, pick, world.clock) && Free(world, db.wagers[pick].wallet) {
      WalletIsItself(db, db.wagers[pick].wallet);
      var next := worker.(pc := Pick, held := Some(db.wallets[db.wagers[pick].wallet]));
      GoesOn(family, world, i, next);
      TakesKeeps(family, world, i, next);
    } else {
      DropKeeps(family, world, i);
    }
  }

  /** A waiting row of a locked wallet may be worked on. */
  lemma ClaimedRowWorks(family: Family, world: World, i: nat, pick: Uuid)
    requires WorldOk(family, world) && i < |world.workers| && world.workers[i].job.RetryJob?
    requires world.workers[i].held.Some? && Due(Committed(world), pick, world.clock)
    requires Committed(world).wagers[pick].wallet == world.workers[i].held.value.id
    ensures var w := Committed(world).wagers[pick];
            w.id == pick && Working(family, Committed(world), world.clock, world.workers[i], w)
  {
    hide Inv, WorldOk, PcOk, PossessionsOk, Startable, Unused, Extends, Known, Ready, Claimable;
    Situation(family, world, i);
    AnythingIsKnown(family, Committed(world).wagers[pick]);
    PendingRow(Committed(world), pick, world.clock);
  }

  lemma PendingRow(db: Db, id: Uuid, at: Instant)
    requires Inv(db) && Due(db, id, at)
    ensures var w := db.wagers[id]; w.id == id && !w.kind.Opening? && Ready(db, w) && Claimable(db, id, at)
  {
    hide WalletsOk, IndexOk, LinksOk, ReversalsOk, LedgerOk, AllBooked, BalancesOk, StreamOk, EventsOk, InboxOk, IdsOk,
         RowOk, Ready, Claimable;
    PendingIsReady(db, id);
    PendingIsClaimable(db, id, at);
    ReadyNames(db, db.wagers[id]);
  }

  lemma PickKeeps(family: Family, world: World, i: nat, pick: Uuid)
    requires WorldOk(family, world) && i < |world.workers| && world.workers[i].pc.Pick?
    ensures WorldOk(family, Advance(world, i, pick))
  {
    hide Inv, AllKnown, WithinClock, JobOk, Unused, WorldOk, Exclusive, Extends, Working, DecideIn, Ready, Begins, Submits,
         Stores;
    Situation(family, world, i);
    var db, worker := Committed(world), world.workers[i];
    if worker.held.Some? && Due(db, pick, world.clock) && db.wagers[pick].wallet == worker.held.value.id {
      ClaimedRowWorks(family, world, i, pick);
      var w := db.wagers[pick];
      WorkNames(family, db, world.clock, worker, w);
      var next := worker.(pc := if AttemptsOf(db, pick) >= worker.job.policy.maxAttempts
                                then Write(w, Refuse(ReferenceNotFound, w.referenceId), world.clock) else Reference(w));
      SameWork(family, db, world.clock, worker, next, w);
      GoesOn(family, world, i, next);
      MovesOn(family, world, i, next);
    } else {
      DropKeeps(family, world, i);
    }
  }

  lemma WorkNames(family: Family, db: Db, clock: Instant, worker: Worker, w: Wager)
    requires Working(family, db, clock, worker, w)
    ensures w.wallet in db.wallets && worker.held.Some? && worker.held.value.id == w.wallet && Timely(db, w, clock)
    ensures Known(family, w) && Ready(db, w)
    ensures worker.job.RetryJob? ==> Claimable(db, w.id, clock) && db.wagers[w.id] == w
    ensures worker.job.SubmitJob? ==> w == worker.job.wager && w.id !in db.wagers
    ensures !worker.job.OpenJob?
  {
    hide Ready, Timely, Known, Claimable;
  }

  lemma ReferenceKeeps(family: Family, world: World, i: nat)
    requires WorldOk(family, world) && i < |world.workers| && world.workers[i].pc.Reference?
    ensures WorldOk(family, Advance(world, i, Nil))
  {
    hide Inv, AllKnown, WithinClock, JobOk, Unused, WorldOk, Exclusive, Extends, Working, FindReference, Begins, Submits,
         Stores;
    Situation(family, world, i);
    var db, worker, w := Committed(world), world.workers[i], world.workers[i].pc.wager;
    var next := worker.(pc := Reversal(w, FoundBy(db, w)));
    SameWork(family, db, world.clock, worker, next, w);
    GoesOn(family, world, i, next);
    MovesOn(family, world, i, next);
  }

  /** The reads of a worker decide what the serial step decides on the same data. */
  lemma ReadsDecide(db: Db, w: Wager, held: WalletRow, at: Instant)
    requires w.wallet in db.wallets && db.wallets[w.wallet] == held
    ensures Decide(w, held, FoundBy(db, w), HasReversal(db, FoundBy(db, w)), at) == DecideIn(db, w, at)
  {
    hide Move, ValidateReference;
  }

  /** The reference of an operation in another wallet is invalid, reversed or not. */
  lemma ForeignIsInvalid(w: Wager, wallet: WalletRow, r: Wager, reversed: bool, at: Instant)
    requires NeedsReference(w) && r.wallet != w.wallet
    ensures Decide(w, wallet, Some(r), reversed, at) == Refuse(InvalidReference, w.referenceId)
  {
    hide Validate;
  }

  /** What was read decides what the serial step decides now, or to wait too late. */
  lemma ReadDecides(family: Family, db: Db, w: Wager, held: WalletRow, found: Option<Wager>, at: Instant)
    requires w.wallet in db.wallets && db.wallets[w.wallet] == held && Read(family, db, w, found)
    ensures var d := Decide(w, held, found, HasReversal(db, found), at);
            d == DecideIn(db, w, at) || (family.Anything? && NeedsReference(w) && Foreign(w, FoundBy(db, w)) && d == Wait)
  {
    hide DecideIn, FoundBy, HasReversal, Decide;
    ReadsDecide(db, w, held, at);
    if found != FoundBy(db, w) {
      ForeignIsInvalid(w, held, FoundBy(db, w).value, HasReversal(db, FoundBy(db, w)), at);
      if found.Some? {
        ForeignIsInvalid(w, held, found.value, HasReversal(db, found), at);
      } else {
        NothingFoundWaits(w, held, HasReversal(db, found), at);
      }
    }
  }

  lemma NothingFoundWaits(w: Wager, held: WalletRow, reversed: bool, at: Instant)
    requires NeedsReference(w)
    ensures Decide(w, held, None, reversed, at) == Wait
  {
  }

  lemma ReversalKeeps(family: Family, world: World, i: nat)
    requires WorldOk(family, world) && i < |world.workers| && world.workers[i].pc.Reversal?
    ensures WorldOk(family, Advance(world, i, Nil))
  {
    hide Inv, AllKnown, WithinClock, JobOk, Unused, WorldOk, Exclusive, Extends, Working, FoundBy, Decide, DecideIn,
         HasReversal, Claimable, Timely, Begins, Submits, Stores, Ready, Read, Foreign;
    Situation(family, world, i);
    var db, worker, w, found := Committed(world), world.workers[i], world.workers[i].pc.wager, world.workers[i].pc.found;
    WorkNames(family, db, world.clock, worker, w);
    ReadDecides(family, db, w, worker.held.value, found, world.clock);
    var d := Decide(w, worker.held.value, found, HasReversal(db, found), world.clock);
    var next := worker.(pc := Write(w, if worker.job.RetryJob? then GivenUp(db, w, worker.job.policy, d) else d,
                                    world.clock));
    SameWork(family, db, world.clock, worker, next, w);
    GoesOn(family, world, i, next);
    MovesOn(family, world, i, next);
  }
}
