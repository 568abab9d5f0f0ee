/**
 * Concurrent executions. Each worker runs one transaction statement by statement; a read sees the
 * latest committed data and the worker's own writes, a wallet is locked from its first read until
 * the end, and an inserted key or message keeps others waiting until the end.
 */
module Interleaving {
  import opened Core
  import opened Finance
  import opened Domain
  import opened Delays
  import opened Engine
  import opened Invariant
  import opened Decisions
  import opened Runs

  datatype Job =
    | OpenJob(player: Uuid, initial: Money, trace: Trace)
    | SubmitJob(authorized: string, request: Request, message: Option<Body>, created: Instant, wager: Wager)
    | RetryJob(policy: ReferencePolicy)

  /** Which pair of lookups: of a duplicate message, before the lock, under the lock, after a conflict. */
  datatype Round = Duplicate | Unlocked | Locked | Conflicted

  /** The next statement of a worker, or its answer; a mark is a place in the history of commits. */
  datatype Pc =
    | Begin
    | LookKey(round: Round, mark: nat)
    | LookExternal(round: Round, mark: nat)
    | Acquire(mark: nat)
    | Check(mark: nat)
    | Insert
    | Pick
    | Reference(wager: Wager)
    | Reversal(wager: Wager, found: Option<Wager>)
    | Write(wager: Wager, decision: Decision, at: Instant)
    | Done(outcome: Result<Answer>, mark: nat, at: Instant)
    | OpenDone(opening: Result<WalletRow>, mark: nat, at: Instant)
    | ClaimDone(id: Uuid, claim: Result<Wager>, mark: nat, at: Instant)
    | Idle

  /** A worker with the wallet that it has locked, as it read it then. */
  datatype Worker = Worker(job: Job, pc: Pc, held: Option<WalletRow>, since: nat)

  /** All commits so far, the serial steps that they stand for, a clock, and the workers. */
  datatype World = World(history: seq<Db>, steps: seq<Step>, clock: Instant, workers: seq<Worker>)

  predicate Wellformed(world: World) {
    world.history != []
  }

  function Committed(world: World): Db
    requires Wellformed(world)
  {
    world.history[|world.history| - 1]
  }

  function Latest(world: World): nat
    requires Wellformed(world)
  {
    |world.history| - 1
  }

  predicate Active(worker: Worker) {
    !worker.pc.Done? && !worker.pc.OpenDone? && !worker.pc.ClaimDone? && !worker.pc.Idle?
  }

  // ---- What a worker keeps from the others ----------------------------------------------------

  /** The wallet whose lock the worker has. */
  function Lock(worker: Worker): Option<Uuid> {
    if worker.held.Some? then Some(worker.held.value.id) else None
  }

  /** The new row whose keys the worker has inserted and not committed yet. */
  function Inserted(worker: Worker): Option<Wager> {
    if !worker.job.SubmitJob? then None
    else
      match worker.pc
      case Reference(_) | Reversal(_, _) | Write(_, _, _) => Some(worker.job.wager)
      case _ => None
  }

  /** The message that the worker has registered and not committed yet. */
  function Registered(worker: Worker): Option<string> {
    if !worker.job.SubmitJob? || worker.job.message.None? then None
    else
      match worker.pc
      case Begin | Done(_, _, _) | OpenDone(_, _, _) | ClaimDone(_, _, _, _) | Idle => None
      case LookKey(round, _) => if round.Duplicate? then None else Some(worker.job.message.value.messageId)
      case LookExternal(round, _) => if round.Duplicate? then None else Some(worker.job.message.value.messageId)
      case _ => Some(worker.job.message.value.messageId)
  }

  predicate Clash(a: Wager, b: Wager) {
    a.id == b.id || (a.provider == b.provider && (a.key == b.key || a.externalId == b.externalId))
  }

  /** Worker i has to wait for worker j. */
  predicate WaitsFor(world: World, i: nat, j: nat)
    requires Wellformed(world) && i < |world.workers| && j < |world.workers|
  {
    var worker, other := world.workers[i], world.workers[j];
    && i != j
    && match worker.pc
       case Begin =>
         worker.job.SubmitJob? && worker.job.message.Some?
         && Registered(other) == Some(worker.job.message.value.messageId)
       case Acquire(_) => worker.job.SubmitJob? && Lock(other) == Some(worker.job.wager.wallet)
       case Insert => worker.job.SubmitJob? && Inserted(other).Some? && Clash(worker.job.wager, Inserted(other).value)
       case _ => false
  }

  predicate Blocked(world: World, i: nat)
    requires Wellformed(world) && i < |world.workers|
  {
    exists j :: 0 <= j < |world.workers| && WaitsFor(world, i, j)
  }

  predicate Free(world: World, wallet: Uuid) {
    forall j :: 0 <= j < |world.workers| ==> Lock(world.workers[j]) != Some(wallet)
  }

  // ---- One statement ----------------------------------------------------------------------------

  function Put(world: World, i: nat, worker: Worker): World
    requires i < |world.workers|
  {
    world.(workers := world.workers[i := worker])
  }

  function Goto(world: World, i: nat, pc: Pc): World
    requires i < |world.workers|
  {
    Put(world, i, world.workers[i].(pc := pc))
  }

  /** The end of a transaction without a commit: every lock and every uncommitted key is released. */
  function End(world: World, i: nat, pc: Pc): World
    requires i < |world.workers|
  {
    Put(world, i, world.workers[i].(pc := pc, held := None))
  }

  function Finish(world: World, i: nat, outcome: Result<Answer>, mark: nat): World
    requires i < |world.workers|
  {
    End(world, i, Done(outcome, mark, world.clock))
  }

  /** A crash, or a claim that finds nothing to claim. */
  function Drop(world: World, i: nat): World
    requires i < |world.workers|
  {
    End(world, i, Idle)
  }

  /** A commit, with the serial step that it stands for. */
  function Commit(world: World, i: nat, db: Db, step: Step, pc: Pc): World
    requires i < |world.workers|
  {
    world.(history := world.history + [db], steps := world.steps + [step],
           workers := world.workers[i := world.workers[i].(pc := pc, held := None)])
  }

  function AfterLookup(world: World, i: nat, found: Option<Wager>, otherwise: Pc): World
    requires Wellformed(world) && i < |world.workers| && world.workers[i].job.SubmitJob?
  {
    match found
    case Some(e) => Finish(world, i, Compare(e, world.workers[i].job.wager), Latest(world))
    case None => Goto(world, i, otherwise)
  }

  /** The decision of a claim, given what its reads decide. */
  function GivenUp(db: Db, w: Wager, policy: ReferencePolicy, d: Decision): Decision {
    if d.Wait? && AttemptsOf(db, w.id) + 1 >= policy.maxAttempts then Refuse(ReferenceNotFound, w.referenceId) else d
  }

  function OpenAnswer(db: Db, player: Uuid, initial: Money, stamp: Stamp, trace: Trace): Result<WalletRow> {
    match Open(db, player, initial, stamp, trace)
    case Ok(_) => NewWallet(player, initial, Fresh(stamp, ROW_SLOT), stamp.at)
    case Err(e) => Err(e)
  }

  function Begins(world: World, i: nat, pick: Uuid): World
    requires Wellformed(world) && i < |world.workers|
  {
    var db, worker := Committed(world), world.workers[i];
    match worker.job
    case OpenJob(player, initial, trace) =>
      var stamp := Stamp(i, world.clock);
      var done := OpenDone(OpenAnswer(db, player, initial, stamp, trace), Latest(world), world.clock);
      (match Open(db, player, initial, stamp, trace)
       case Ok(after) => Commit(world, i, after, OpenStep(player, initial, trace, stamp), done)
       case Err(_) => End(world, i, done))
    case SubmitJob(_, _, None, _, _) => Goto(world, i, LookKey(Unlocked, 0))
    case SubmitJob(_, _, Some(body), _, _) =>
      if body.messageId !in db.inbox then Goto(world, i, LookKey(Unlocked, 0))
      else if db.inbox[body.messageId].body != body then Finish(world, i, Err(ErrInboxConflict), Latest(world))
      else if !db.inbox[body.messageId].completed then Finish(world, i, Err(ErrInboxIncomplete), Latest(world))
      else Goto(world, i, LookKey(Duplicate, 0))
    case RetryJob(_) =>
      // Locked wallets are skipped.
      if Due(db, pick, world.clock) && Free(world, db.wagers[pick].wallet) then
        Put(world, i, worker.(pc := Pick, held := Some(db.wallets[db.wagers[pick].wallet])))
      else Drop(world, i)
  }

  function Stores(world: World, i: nat, w: Wager, d: Decision, at: Instant): World
    requires Wellformed(world) && i < |world.workers| && world.workers[i].held.Some?
  {
    var db, worker, stamp := Committed(world), world.workers[i], Stamp(i, at);
    match worker.job
    case SubmitJob(authorized, q, message, created, _) =>
      if d.Abort? then Finish(world, i, Err(d.error), Latest(world))
      else
        var stored := Enacted(Enrolled(db, w, at), w, worker.held.value, d, stamp, q.trace);
        var done := Done(Ok(AnswerOf(After(w, worker.held.value, d, at), false)), Latest(world), at);
        (match message
         case None => Commit(world, i, stored, SubmitStep(authorized, q, created, stamp), done)
         case Some(body) =>
           Commit(world, i, Received(stored, body, true), ReceiveStep(authorized, body, created, stamp), done))
    case RetryJob(policy) =>
      if !ValidReferencePolicy(policy) || FirstPending(db.outbox, w.id).None? then Drop(world, i)
      else if d.Abort? then End(world, i, ClaimDone(w.id, Err(d.error), Latest(world), at))
      else
        Commit(world, i,
               Enacted(Rescheduled(db, w.id, policy, at), w, worker.held.value, d, stamp,
                       FirstPending(db.outbox, w.id).value),
               RetryStep(w.id, policy, stamp),
               ClaimDone(w.id, Ok(After(w, worker.held.value, d, at)), Latest(world), at))
    case OpenJob(_, _, _) => Drop(world, i)
  }

  /** The effect of the next statement of a worker; a claim may pick any row that is due. */
  function Advance(world: World, i: nat, pick: Uuid): World
    requires Wellformed(world) && i < |world.workers|
  {
    var db, worker, mark := Committed(world), world.workers[i], Latest(world);
    match worker.pc
    case Begin => Begins(world, i, pick)
    case Pick =>
      if !worker.job.RetryJob? || worker.held.None? || !Due(db, pick, world.clock)
         || db.wagers[pick].wallet != worker.held.value.id then Drop(world, i)
      else if AttemptsOf(db, pick) >= worker.job.policy.maxAttempts then
        Goto(world, i, Write(db.wagers[pick], Refuse(ReferenceNotFound, db.wagers[pick].referenceId), world.clock))
      else Goto(world, i, Reference(db.wagers[pick]))
    case Reference(w) => Goto(world, i, Reversal(w, if NeedsReference(w) then FindReference(db, w) else None))
    case Reversal(w, found) =>
      if worker.held.None? then Drop(world, i)
      else
        var d := Decide(w, worker.held.value, found, HasReversal(db, found), world.clock);
        Goto(world, i, Write(w, if worker.job.RetryJob? then GivenUp(db, w, worker.job.policy, d) else d, world.clock))
    case Write(w, d, at) => if worker.held.None? then Drop(world, i) else Stores(world, i, w, d, at)
    case Done(_, _, _) | OpenDone(_, _, _) | ClaimDone(_, _, _, _) | Idle => world
    case _ => if worker.job.SubmitJob? then Submits(world, i) else Drop(world, i)
  }

  /** The statements of a submission up to its new row. */
  function Submits(world: World, i: nat): World
    requires Wellformed(world) && i < |world.workers| && world.workers[i].job.SubmitJob?
  {
    var db, worker, w := Committed(world), world.workers[i], world.workers[i].job.wager;
    match worker.pc
    case LookKey(round, m) =>
      AfterLookup(world, i, FindByKey(db, w.provider, w.key),
                  LookExternal(round, if round.Conflicted? then m else Latest(world)))
    case LookExternal(round, m) =>
      var found := FindByExternal(db, w.provider, w.externalId);
      (match round
       case Duplicate =>
         if found.None? then Finish(world, i, Err(ErrInboxIncomplete), m) else AfterLookup(world, i, found, Idle)
       case Unlocked => AfterLookup(world, i, found, Acquire(m))
       case Locked => AfterLookup(world, i, found, Check(m))
       case Conflicted =>
         if found.None? then Finish(world, i, Err(ErrIdempotencyConflict), m) else AfterLookup(world, i, found, Idle))
    case Acquire(m) =>
      if w.wallet !in db.wallets then Finish(world, i, Err(ErrWalletNotFound), m)
      else Put(world, i, worker.(pc := LookKey(Locked, 0), held := Some(db.wallets[w.wallet])))
    case Check(m) =>
      if worker.held.None? || !BelongsTo(w, worker.held.value) then
        Finish(world, i, Err(ErrWalletIdentityMismatch), m)
      else Goto(world, i, Insert)
    case Insert =>
      if IdentityTaken(db, w) then Goto(world, i, LookKey(Conflicted, Latest(world))) else Goto(world, i, Reference(w))
    case _ => world
  }

  // ---- Worlds -----------------------------------------------------------------------------------

  datatype Action =
    | Tick(clock: Instant)
    | Start(job: Job)
    | Statement(worker: nat, pick: Uuid)
    | Crash(worker: nat)

  const START: World := World([EMPTY_DB], [], 1, [])

  /** The job may be given to a new worker, whose place is its ticket. */
  predicate Startable(clock: Instant, i: nat, job: Job) {
    match job
    case OpenJob(_, _, trace) => !Blank(trace.correlation)
    case SubmitJob(authorized, q, message, created, w) =>
      && AdmittedWager(authorized, q, created, Stamp(i, 0)) == Ok(w) && created <= clock
      && !Blank(q.trace.correlation)
      && (message.Some? ==> message.value.request == q && !Blank(message.value.messageId))
    case RetryJob(policy) => ValidReferencePolicy(policy)
  }

  predicate May(world: World, action: Action)
    requires Wellformed(world)
  {
    match action
    case Tick(clock) => world.clock <= clock
    case Start(job) => Startable(world.clock, |world.workers|, job)
    case Statement(i, _) => i < |world.workers| && Active(world.workers[i]) && !Blocked(world, i)
    case Crash(i) => i < |world.workers| && Active(world.workers[i])
  }

  function Does(world: World, action: Action): World
    requires Wellformed(world) && May(world, action)
  {
    match action
    case Tick(clock) => world.(clock := clock)
    case Start(job) => world.(workers := world.workers + [Worker(job, Begin, None, Latest(world))])
    case Statement(i, pick) => Advance(world, i, pick)
    case Crash(i) => Drop(world, i)
  }

  ghost predicate AllMay(world: World, actions: seq<Action>)
    requires Wellformed(world)
    decreases |actions|
  {
    actions != [] ==>
      && May(world, actions[0]) && Wellformed(Does(world, actions[0]))
      && AllMay(Does(world, actions[0]), actions[1..])
  }

  /** The world after any interleaving of any number of workers, crashes and ticks of the clock. */
  ghost function Interleaved(world: World, actions: seq<Action>): (after: World)
    requires Wellformed(world) && AllMay(world, actions)
    ensures Wellformed(after)
    decreases |actions|
  {
    if actions == [] then world else Interleaved(Does(world, actions[0]), actions[1..])
  }

  // ---- References from one wallet to another ---------------------------------------------------------

  /** The first operation has to refer to the second, which is about another wallet. */
  predicate Crosses(x: Wager, y: Wager) {
    NeedsReference(x) && x.provider == y.provider && x.reference == Some(y.externalId) && x.wallet != y.wallet
  }
}
