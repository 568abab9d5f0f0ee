/** Submissions that refer to each other across wallets: when concurrent executions are serial, exactly. */
module Crossing {
  import opened Core
  import opened Finance
  import opened Domain
  import opened Engine
  import opened Invariant
  import opened Decisions
  import opened UseCases
  import opened Runs
  import opened Idempotency
  import opened Interleaving
  import opened Serialization
  import opened Concurrency
  import opened Linearization

  // ---- Sequences of actions -----------------------------------------------------------------------

  ghost predicate Leads(world: World, actions: seq<Action>, after: World) {
    Wellformed(world) && AllMay(world, actions) && Interleaved(world, actions) == after
  }

  lemma Prepend(world: World, action: Action, rest: seq<Action>, after: World)
    requires Wellformed(world) && May(world, action) && Leads(Does(world, action), rest, after)
    ensures Leads(world, [action] + rest, after)
  {
    hide May, Does;
    assert ([action] + rest)[1..] == rest;
  }

  lemma {:induction false} Compose(world: World, actions: seq<Action>, between: World, more: seq<Action>, after: World)
    requires Leads(world, actions, between) && Leads(between, more, after)
    ensures Leads(world, actions + more, after)
    decreases |actions|
  {
    hide May, Does;
    if actions == [] {
      assert actions + more == more;
    } else {
      Compose(Does(world, actions[0]), actions[1..], between, more, after);
      Prepend(world, actions[0], actions[1..] + more, after);
      assert [actions[0]] + (actions[1..] + more) == actions + more;
    }
  }

  // ---- One submission, statement by statement -----------------------------------------------------

  /** Nothing that the worker asks for is with another worker. */
  ghost predicate Undisturbed(world: World, i: nat, job: Job)
    requires job.SubmitJob?
  {
    forall j :: 0 <= j < |world.workers| && j != i ==>
      var other := world.workers[j];
      && Lock(other) != Some(job.wager.wallet)
      && (Inserted(other).Some? ==> !Clash(job.wager, Inserted(other).value))
      && (job.message.Some? ==> Registered(other) != Some(job.message.value.messageId))
  }

  /** The submission gets as far as its decision on these data. */
  ghost predicate Unhindered(db: Db, job: Job) {
    && job.SubmitJob? && GoesThrough(db, job.wager) && !IdentityTaken(db, job.wager)
    && (job.message.Some? ==> job.message.value.messageId !in db.inbox)
  }

  /** The worker after so many of the statements that lead a submission to its decision. */
  function Stage(db: Db, mark: nat, clock: Instant, job: Job, since: nat, k: nat): Worker
    requires job.SubmitJob? && job.wager.wallet in db.wallets
  {
    var w, wallet := job.wager, db.wallets[job.wager.wallet];
    match k
    case 0 => Worker(job, Begin, None, since)
    case 1 => Worker(job, LookKey(Unlocked, 0), None, since)
    case 2 => Worker(job, LookExternal(Unlocked, mark), None, since)
    case 3 => Worker(job, Acquire(mark), None, since)
    case 4 => Worker(job, LookKey(Locked, 0), Some(wallet), since)
    case 5 => Worker(job, LookExternal(Locked, mark), Some(wallet), since)
    case 6 => Worker(job, Check(mark), Some(wallet), since)
    case 7 => Worker(job, Insert, Some(wallet), since)
    case 8 => Worker(job, Reference(w), Some(wallet), since)
    case 9 => Worker(job, Reversal(w, FoundBy(db, w)), Some(wallet), since)
    case _ => Worker(job, Write(w, DecideIn(db, w, clock), clock), Some(wallet), since)
  }

  function StageOf(world: World, i: nat, k: nat): Worker
    requires Wellformed(world) && i < |world.workers| && world.workers[i].job.SubmitJob?
    requires world.workers[i].job.wager.wallet in Committed(world).wallets
  {
    Stage(Committed(world), Latest(world), world.clock, world.workers[i].job, world.workers[i].since, k)
  }

  lemma StageMay(world: World, i: nat, k: nat)
    requires Wellformed(world) && i < |world.workers| && k < 10
    requires Unhindered(Committed(world), world.workers[i].job) && Undisturbed(world, i, world.workers[i].job)
    ensures May(Put(world, i, StageOf(world, i, k)), Statement(i, Nil))
  {
    hide Clash, Inserted, Registered, Lock, FoundBy, DecideIn, IdentityTaken, FindExisting;
    var at := Put(world, i, StageOf(world, i, k));
    forall j | 0 <= j < |at.workers| ensures !WaitsFor(at, i, j) {
      if j != i {
        assert at.workers[j] == world.workers[j];
      }
    }
  }

  lemma StageGoesOn(world: World, i: nat, k: nat)
    requires Wellformed(world) && i < |world.workers| && k < 10
    requires Unhindered(Committed(world), world.workers[i].job)
    requires Committed(world).wallets[world.workers[i].job.wager.wallet].id == world.workers[i].job.wager.wallet
    ensures Advance(Put(world, i, StageOf(world, i, k)), i, Nil) == Put(world, i, StageOf(world, i, k + 1))
  {
    hide FindByKey, FindByExternal, IdentityTaken, Decide, FindReference, HasReversal, DecideIn, FoundBy, Begins, Submits;
    var at, db, w := Put(world, i, StageOf(world, i, k)), Committed(world), world.workers[i].job.wager;
    assert Committed(at) == db && Latest(at) == Latest(world);
    if k == 0 {
      assert Begins(at, i, Nil) == Put(world, i, StageOf(world, i, 1)) by {
        BeginsLooking(at, i);
      }
    } else if k < 8 {
      SubmitsOn(world, i, k);
    } else if k == 8 {
      assert FoundBy(db, w) == if NeedsReference(w) then FindReference(db, w) else None by {
        FoundByIs(db, w);
      }
    } else {
      ReadsDecide(db, w, db.wallets[w.wallet], world.clock);
    }
  }

  lemma FoundByIs(db: Db, w: Wager)
    ensures FoundBy(db, w) == if NeedsReference(w) then FindReference(db, w) else None
  {
  }

  lemma BeginsLooking(world: World, i: nat)
    requires Wellformed(world) && i < |world.workers| && Unhindered(Committed(world), world.workers[i].job)
    ensures Begins(world, i, Nil) == Goto(world, i, LookKey(Unlocked, 0))
  {
    hide GoesThrough, IdentityTaken;
  }

  lemma SubmitsOn(world: World, i: nat, k: nat)
    requires Wellformed(world) && i < |world.workers| && 0 < k < 8
    requires Unhindered(Committed(world), world.workers[i].job)
    ensures Submits(Put(world, i, StageOf(world, i, k)), i) == Put(world, i, StageOf(world, i, k + 1))
  {
    hide FindByKey, FindByExternal, IdentityTaken, DecideIn, FoundBy, Compare;
    var at := Put(world, i, StageOf(world, i, k));
    assert Committed(at) == Committed(world) && Latest(at) == Latest(world);
  }

  function Times(i: nat, k: nat): seq<Action> {
    if k == 0 then [] else [Statement(i, Nil)] + Times(i, k - 1)
  }

  lemma {:induction false} StagesLead(world: World, i: nat, k: nat)
    requires Wellformed(world) && i < |world.workers| && k <= 10
    requires Unhindered(Committed(world), world.workers[i].job) && Undisturbed(world, i, world.workers[i].job)
    requires Committed(world).wallets[world.workers[i].job.wager.wallet].id == world.workers[i].job.wager.wallet
    ensures Leads(Put(world, i, StageOf(world, i, k)), Times(i, 10 - k), Put(world, i, StageOf(world, i, 10)))
    decreases 10 - k
  {
    hide May, Advance, StageOf, Undisturbed, FindExisting, IdentityTaken, Leads;
    var at := Put(world, i, StageOf(world, i, k));
    if k == 10 {
      LeadsNowhere(at);
    } else {
      StageMay(world, i, k);
      StageGoesOn(world, i, k);
      StagesLead(world, i, k + 1);
      Prepend(at, Statement(i, Nil), Times(i, 10 - (k + 1)), Put(world, i, StageOf(world, i, 10)));
    }
  }

  lemma LeadsNowhere(world: World)
    requires Wellformed(world)
    ensures Leads(world, [], world)
  {
  }
  // ---- Two submissions that decide before either commits --------------------------------------------

  /** Two submissions that are about to begin, of different operations in different wallets, while no one else is active. */
  ghost predicate Beginning(world: World, i: nat, j: nat) {
    && Wellformed(world) && i < |world.workers| && j < |world.workers| && i != j
    && (forall k :: 0 <= k < |world.workers| && k != i && k != j ==> !Active(world.workers[k]) && world.workers[k].held.None?)
    && (var db, a, b := Committed(world), world.workers[i], world.workers[j];
        && Unhindered(db, a.job) && Unhindered(db, b.job) && Separate(a.job, b.job)
        && a == StageOf(world, i, 0) && b == StageOf(world, j, 0)
        && db.wallets[a.job.wager.wallet].id == a.job.wager.wallet
        && db.wallets[b.job.wager.wallet].id == b.job.wager.wallet)
  }

  predicate Separate(a: Job, b: Job) {
    && a.SubmitJob? && b.SubmitJob? && a.wager.wallet != b.wager.wallet && !Clash(a.wager, b.wager)
    && (a.message.Some? && b.message.Some? ==> a.message.value.messageId != b.message.value.messageId)
  }

  /** Both have decided on the data that they began with. */
  function BothDecided(world: World, i: nat, j: nat): World
    requires Beginning(world, i, j)
  {
    Put(Put(world, i, StageOf(world, i, 10)), j, StageOf(world, j, 10))
  }

  lemma BothDecide(world: World, i: nat, j: nat)
    requires Beginning(world, i, j)
    ensures Leads(world, Times(i, 10) + Times(j, 10), BothDecided(world, i, j))
  {
    hide FindExisting, IdentityTaken, FoundBy, DecideIn, Leads, Times, Clash;
    var one := Put(world, i, StageOf(world, i, 10));
    assert world == Put(world, i, StageOf(world, i, 0));
    StagesLead(world, i, 0);
    assert Committed(one) == Committed(world) && Latest(one) == Latest(world);
    assert one == Put(one, j, StageOf(one, j, 0));
    assert !Clash(world.workers[j].job.wager, world.workers[i].job.wager) by {
      ClashIsMutual(world.workers[i].job.wager, world.workers[j].job.wager);
    }
    StagesLead(one, j, 0);
    assert StageOf(one, j, 10) == StageOf(world, j, 10);
    Compose(world, Times(i, 10), one, Times(j, 10), BothDecided(world, i, j));
  }

  lemma ClashIsMutual(a: Wager, b: Wager)
    ensures Clash(a, b) <==> Clash(b, a)
  {
  }

  /** A worker that has decided, and its commit. */
  lemma DecidedCommits(world: World, i: nat, job: Job, wallet: WalletRow, d: Decision, at: Instant, since: nat)
    requires Wellformed(world) && i < |world.workers| && job.SubmitJob? && !d.Abort?
    requires world.workers[i] == Worker(job, Write(job.wager, d, at), Some(wallet), since)
    ensures May(world, Statement(i, Nil))
    ensures var after := Does(world, Statement(i, Nil));
            && after.history == world.history + [Left(Committed(world), job, wallet, d, i, at)]
            && after.steps == world.steps + [StepOf(job, i, at)]
            && |after.workers| == |world.workers| && after.workers == world.workers[i := after.workers[i]]
  {
    hide Enacted, Enrolled, After;
    assert !Blocked(world, i);
  }

  /** Both workers decide, and the second one commits first. */
  function DecideThenCommit(i: nat, j: nat): seq<Action> {
    Times(i, 10) + Times(j, 10) + [Statement(j, Nil), Statement(i, Nil)]
  }

  lemma BothCommit(world: World, i: nat, j: nat) returns (after: World)
    requires Beginning(world, i, j)
    requires var db, at := Committed(world), world.clock;
             !DecideIn(db, world.workers[i].job.wager, at).Abort? && !DecideIn(db, world.workers[j].job.wager, at).Abort?
    ensures Leads(world, DecideThenCommit(i, j), after) && NoOneJoins(DecideThenCommit(i, j))
    ensures var db, at, a, b := Committed(world), world.clock, world.workers[i].job, world.workers[j].job;
            var first := Left(db, b, db.wallets[b.wager.wallet], DecideIn(db, b.wager, at), j, at);
            && after.history
               == world.history + [first, Left(first, a, db.wallets[a.wager.wallet], DecideIn(db, a.wager, at), i, at)]
            && after.steps == world.steps + [StepOf(b, j, at), StepOf(a, i, at)]
  {
    hide FindExisting, IdentityTaken, FoundBy, DecideIn, Leads, Clash, Left, StepOf, Does, May;
    var db, at, a, b := Committed(world), world.clock, world.workers[i].job, world.workers[j].job;
    var decided := BothDecided(world, i, j);
    BothDecide(world, i, j);
    assert Committed(decided) == db;
    DecidedCommits(decided, j, b, db.wallets[b.wager.wallet], DecideIn(db, b.wager, at), at, world.workers[j].since);
    var between := Does(decided, Statement(j, Nil));
    DecidedCommits(between, i, a, db.wallets[a.wager.wallet], DecideIn(db, a.wager, at), at, world.workers[i].since);
    after := Does(between, Statement(i, Nil));
    LeadsNowhere(after);
    Prepend(between, Statement(i, Nil), [], after);
    Prepend(decided, Statement(j, Nil), [Statement(i, Nil)] + [], after);
    assert [Statement(j, Nil)] + ([Statement(i, Nil)] + []) == [Statement(j, Nil), Statement(i, Nil)];
    Compose(world, Times(i, 10) + Times(j, 10), decided, [Statement(j, Nil), Statement(i, Nil)], after);
    TimesAreStatements(i, 10);
    TimesAreStatements(j, 10);
  }

  /** No further worker starts. */
  ghost predicate NoOneJoins(actions: seq<Action>) {
    forall k :: 0 <= k < |actions| ==> !actions[k].Start?
  }

  lemma {:induction false} TimesAreStatements(i: nat, k: nat)
    ensures NoOneJoins(Times(i, k))
  {
    if k > 0 {
      TimesAreStatements(i, k - 1);
    }
  }
  // ---- Two submissions on consistent data -----------------------------------------------------------

  /** The submission may start, gets as far as its decision, and is not stopped there by an exhausted wallet. */
  ghost predicate Proceeding(db: Db, clock: Instant, ticket: nat, job: Job) {
    && job.SubmitJob? && Startable(clock, ticket, job) && GoesThrough(db, job.wager) && Unused(db, ticket)
    && (job.message.Some? ==> job.message.value.messageId !in db.inbox)
    && db.wallets[job.wager.wallet].version < MAX_INT64
  }

  lemma ProceedingFacts(db: Db, clock: Instant, ticket: nat, job: Job)
    requires Inv(db) && WithinClock(db, clock) && Proceeding(db, clock, ticket, job)
    ensures Unhindered(db, job) && Ready(db, job.wager) && Timely(db, job.wager, clock)
    ensures db.wallets[job.wager.wallet].id == job.wager.wallet
    ensures job.wager.id == Random(ticket, ROW_SLOT) && job.wager.id !in db.wagers && Admitted(job.wager, job.request)
    ensures !DecideIn(db, job.wager, clock).Abort?
    ensures AdmittedWager(job.authorized, job.request, job.created, Stamp(ticket, clock)) == Ok(job.wager)
  {
    hide WalletsOk, RowsOk, IndexOk, LinksOk, ReversalsOk, LedgerOk, AllBooked, BalancesOk, StreamOk, EventsOk, InboxOk,
         IdsOk, Unused, Admit, Startable, FindExisting, Submittable, Ready, DecideIn, Admitted, IdentityTaken, Known;
    var family, w, stamp := Apart({job.wager}, false), job.wager, Stamp(ticket, clock);
    JobFacts(family, clock, ticket, job, clock);
    KeyOfAdmitted(w, job.request);
    assert OnTime(db, job.request, job.created, clock);
    AdmittedIsSubmittable(db, job.authorized, job.request, job.created, stamp);
    SubmissionIsReady(db, w, job.request, stamp, job.request.trace);
    SubmittableIsTimely(db, w, job.request, stamp, job.request.trace);
    WalletIsItself(db, w.wallet);
    if DecideIn(db, w, clock).Abort? {
      OnlyExhaustedWalletsAbort(db, w, clock);
    }
  }

  lemma SubmittableIsTimely(db: Db, w: Wager, q: Request, stamp: Stamp, trace: Trace)
    requires Submittable(db, w, q, stamp, trace)
    ensures Timely(db, w, stamp.at)
  {
    hide Unused, Admitted;
  }

  /** The serial step of a job that its message has not reached. */
  lemma StepSubmits(db: Db, clock: Instant, ticket: nat, job: Job, at: Instant)
    requires job.SubmitJob? && Startable(clock, ticket, job) && Admissible(db, StepOf(job, ticket, at))
    requires job.message.Some? ==> job.message.value.messageId !in db.inbox
    ensures var reply := Submit(db, job.wager, Stamp(ticket, at), job.request.trace);
            Next(db, StepOf(job, ticket, at))
            == match job.message
               case None => reply.db
               case Some(body) => if reply.outcome.Err? then db else Received(reply.db, body, true)
  {
    hide Admit, Submit, Admissible, Known, Admitted, Startable;
    JobFacts(Apart({job.wager}, false), clock, ticket, job, at);
    if job.message.Some? {
      ReceiveUnfolds(db, job.message.value, job.wager, Stamp(ticket, at));
    }
  }

  /** A job that goes through leaves, in its serial step, what its decision leaves. */
  lemma StepLeaves(db: Db, clock: Instant, ticket: nat, job: Job, at: Instant)
    requires Unhindered(db, job) && Startable(clock, ticket, job) && Admissible(db, StepOf(job, ticket, at))
    requires !DecideIn(db, job.wager, at).Abort?
    ensures Next(db, StepOf(job, ticket, at))
            == Left(db, job, db.wallets[job.wager.wallet], DecideIn(db, job.wager, at), ticket, at)
  {
    hide Startable, Admissible, Next, DecideIn, Enacted, Enrolled, After, Submit, StepOf, FindExisting, IdentityTaken;
    StepSubmits(db, clock, ticket, job, at);
    SubmitUnfolds(db, job.wager, Stamp(ticket, at), job.request.trace);
  }

  /** What a decided submission leaves: its row, under its keys, and wallets of the same owners. */
  lemma LeftParts(db: Db, job: Job, d: Decision, ticket: nat, at: Instant)
    requires Inv(db) && Unhindered(db, job) && Ready(db, job.wager) && d == DecideIn(db, job.wager, at) && !d.Abort?
    ensures var w, wallet := job.wager, db.wallets[job.wager.wallet];
            var after := Left(db, job, wallet, d, ticket, at);
            && after.wagers == db.wagers[w.id := After(w, wallet, d, at)] && SameBusiness(w, After(w, wallet, d, at))
            && after.byKey == db.byKey[(w.provider, w.key) := w.id]
            && after.byExternal == db.byExternal[(w.provider, w.externalId) := w.id]
            && (forall id :: id in db.wallets ==> id in after.wallets && Owner(after.wallets[id]) == Owner(db.wallets[id]))
            && (forall m :: m in after.inbox && m !in db.inbox ==> job.message.Some? && m == job.message.value.messageId)
  {
    hide Inv, Ready, DecideIn, After, IdentityTaken, FindExisting, Reverses;
    var w, wallet := job.wager, db.wallets[job.wager.wallet];
    AfterIsSame(w, wallet, d, at);
    MovedKeepsOwner(db, w, at);
    WalletIsItself(db, w.wallet);
  }

  lemma AfterIsSame(w: Wager, wallet: WalletRow, d: Decision, at: Instant)
    ensures SameBusiness(w, After(w, wallet, d, at))
  {
  }

  lemma MovedKeepsOwner(db: Db, w: Wager, at: Instant)
    requires Inv(db) && Ready(db, w)
    ensures var d := DecideIn(db, w, at);
            d.Settle? && d.movement.Some? ==>
              d.movement.value.moved.id == w.wallet && Owner(d.movement.value.moved) == Owner(db.wallets[w.wallet])
  {
    hide WalletsOk, RowsOk, IndexOk, LinksOk, ReversalsOk, LedgerOk, AllBooked, BalancesOk, StreamOk, EventsOk, InboxOk,
         IdsOk, DecideIn, Validate, PayloadOfWager;
    WalletIsItself(db, w.wallet);
    var found := FindReference(db, w);
    DecideFacts(w, db.wallets[w.wallet], found, HasReversal(db, found), at);
    assert DecideIn(db, w, at) == Decide(w, db.wallets[w.wallet], found, HasReversal(db, found), at) by {
      DecidesIn(db, w, at);
    }
  }

  lemma DecidesIn(db: Db, w: Wager, at: Instant)
    requires w.wallet in db.wallets
    ensures DecideIn(db, w, at)
            == Decide(w, db.wallets[w.wallet], FindReference(db, w), HasReversal(db, FindReference(db, w)), at)
  {
  }
  // ---- A reference across wallets ---------------------------------------------------------------------

  /** Before the other is stored, an operation that refers to it waits. */
  lemma MissedReferenceWaits(db: Db, a: Wager, b: Wager, at: Instant)
    requires Crosses(a, b) && !Clash(a, b) && !IdentityTaken(db, b) && a.wallet in db.wallets
    ensures DecideIn(db, a, at) == Wait
  {
    assert FindReference(db, a).None?;
    hide FindReference;
  }

  /** Once the other is stored in its wallet, an operation that refers to it is rejected. */
  lemma ForeignReferenceIsRefused(db: Db, a: Wager, b: Wager, at: Instant)
    requires Crosses(a, b) && !Clash(a, b) && a.wallet in db.wallets
    requires b.id in db.wagers && db.wagers[b.id].wallet == b.wallet
    requires (b.provider, b.externalId) in db.byExternal && db.byExternal[(b.provider, b.externalId)] == b.id
    ensures DecideIn(db, a, at) == Refuse(InvalidReference, a.referenceId)
  {
    var r := db.wagers[b.id];
    assert FindReference(db, a) == Some(r);
    ForeignIsInvalid(a, db.wallets[a.wallet], r, HasReversal(db, Some(r)), at);
    hide FindReference, Decide;
  }

  /** The second of two jobs still goes through on what the first one left. */
  lemma SecondGoesThrough(db: Db, after: Db, a: Job, b: Wager)
    requires Unhindered(db, a) && !Clash(a.wager, b)
    requires b.id in after.wagers && after.wagers == db.wagers[b.id := after.wagers[b.id]]
    requires after.byKey == db.byKey[(b.provider, b.key) := b.id]
    requires after.byExternal == db.byExternal[(b.provider, b.externalId) := b.id]
    requires forall id :: id in db.wallets ==> id in after.wallets && Owner(after.wallets[id]) == Owner(db.wallets[id])
    requires forall m :: m in after.inbox && m !in db.inbox ==> a.message.Some? ==> m != a.message.value.messageId
    ensures Unhindered(after, a)
  {
  }

  lemma ReadyIsUnlinked(w: Wager, db: Db)
    requires Ready(db, w)
    ensures w.referenceId.None?
  {
    hide Validate, PayloadOfWager;
  }

  lemma RejectedRow(db: Db, job: Job, wallet: WalletRow, code: FailureCode, ticket: nat, at: Instant)
    requires job.SubmitJob?
    ensures var after := Left(db, job, wallet, Refuse(code, None), ticket, at);
            job.wager.id in after.wagers && after.wagers[job.wager.id].status.Rejected?
  {
    hide Enacted;
    EnactedStores(Enrolled(db, job.wager, at), job.wager, wallet, Refuse(code, None), Stamp(ticket, at), job.request.trace);
  }

  lemma WaitingRow(db: Db, job: Job, wallet: WalletRow, ticket: nat, at: Instant)
    requires job.SubmitJob? && job.wager.status.Pending?
    ensures var after := Left(db, job, wallet, Wait, ticket, at);
            && after.wagers == db.wagers[job.wager.id := job.wager.(status := PendingReference, updatedAt := at)]
            && job.wager.id in after.wagers && after.wagers[job.wager.id].status.PendingReference?
  {
    hide Enacted;
    EnactedStores(Enrolled(db, job.wager, at), job.wager, wallet, Wait, Stamp(ticket, at), job.request.trace);
  }

  /** The serial run in commit order rejects the operation that the concurrent one made to wait. */
  lemma SerialRunRejects(db: Db, clock: Instant, i: nat, j: nat, a: Job, b: Job, at: Instant)
    requires Inv(db) && WithinClock(db, at) && Proceeding(db, at, i, a) && Proceeding(db, at, j, b)
    requires Separate(a, b) && Crosses(a.wager, b.wager)
    requires Runnable(db, [StepOf(b, j, at), StepOf(a, i, at)])
    ensures var after := Run(db, [StepOf(b, j, at), StepOf(a, i, at)]);
            a.wager.id in after.wagers && after.wagers[a.wager.id].status.Rejected?
  {
    hide Inv, WithinClock, Admissible, Next, StepOf, Unhindered, Ready, Timely, DecideIn, Admitted, Left, After, Crosses,
         Clash, AdmittedWager;
    ProceedingFacts(db, at, i, a);
    ProceedingFacts(db, at, j, b);
    RunsOfTwo(db, StepOf(b, j, at), StepOf(a, i, at));
    StepLeaves(db, at, j, b, at);
    var between := Next(db, StepOf(b, j, at));
    SecondIsRejected(db, between, i, j, a, b, at);
  }

  lemma RunsOfTwo(db: Db, x: Step, y: Step)
    requires Runnable(db, [x, y])
    ensures Admissible(db, x) && Admissible(Next(db, x), y) && Run(db, [x, y]) == Next(Next(db, x), y)
  {
    hide Admissible, Next;
    assert [x, y][1..] == [y] && [y][1..] == [];
    assert Runnable(Next(db, x), [y]);
    var last := Next(Next(db, x), y);
    assert Runnable(last, []) && Run(last, []) == last;
    assert Run(Next(db, x), [y]) == last;
  }

  lemma SecondIsRejected(db: Db, between: Db, i: nat, j: nat, a: Job, b: Job, at: Instant)
    requires Inv(db) && Unhindered(db, a) && Unhindered(db, b) && Ready(db, b.wager) && Ready(db, a.wager)
    requires !DecideIn(db, b.wager, at).Abort? && Startable(at, i, a)
    requires between == Left(db, b, db.wallets[b.wager.wallet], DecideIn(db, b.wager, at), j, at)
    requires Separate(a, b) && Crosses(a.wager, b.wager) && Admissible(between, StepOf(a, i, at))
    ensures var after := Next(between, StepOf(a, i, at));
            a.wager.id in after.wagers && after.wagers[a.wager.id].status.Rejected?
  {
    hide Inv, Admissible, Next, StepOf, IdentityTaken, FindExisting, Ready, DecideIn, Left, After, Crosses, Clash, Startable;
    LeftParts(db, b, DecideIn(db, b.wager, at), j, at);
    var row := between.wagers[b.wager.id];
    assert row.wallet == b.wager.wallet;
    SecondGoesThrough(db, between, a, b.wager);
    ReadyIsUnlinked(a.wager, db);
    ForeignReferenceIsRefused(between, a.wager, b.wager, at);
    StepLeaves(between, at, i, a, at);
    RejectedRow(between, a, between.wallets[a.wager.wallet], InvalidReference, i, at);
  }
  // ---- The exact condition ------------------------------------------------------------------------------

  /** Two jobs about to begin on the committed data, after so many executions that have ended. */
  function Pair(db: Db, clock: Instant, n: nat, a: Job, b: Job): World {
    World([db], [], clock, Ended(n) + [Worker(a, Begin, None, 0), Worker(b, Begin, None, 0)])
  }

  function Ended(n: nat): (workers: seq<Worker>)
    ensures |workers| == n
  {
    seq(n, _ => Worker(OpenJob(Nil, Money(0, BRL), Trace("ended", "")), Idle, None, 0))
  }

  /** Two submissions of different operations by different messages, each of which goes through on the data. */
  ghost predicate Joint(db: Db, clock: Instant, n: nat, a: Job, b: Job) {
    && Inv(db) && WithinClock(db, clock) && clock > 0 && (forall ticket :: ticket >= n ==> Unused(db, ticket))
    && Proceeding(db, clock, n, a) && Proceeding(db, clock, n + 1, b)
    && !Clash(a.wager, b.wager)
    && (a.message.Some? && b.message.Some? ==> a.message.value.messageId != b.message.value.messageId)
  }

  /** The committed data are those of the serial run in commit order. */
  ghost predicate CommitsSerially(db: Db, world: World)
    requires Wellformed(world)
  {
    Runnable(db, world.steps) && Run(db, world.steps) == Committed(world)
  }

  /** However the two are interleaved, stopped and delayed. */
  ghost predicate AlwaysSerial(db: Db, world: World)
    requires Wellformed(world)
  {
    forall actions :: AllMay(world, actions) && NoOneJoins(actions) ==> CommitsSerially(db, Interleaved(world, actions))
  }

  /** The second worker commits between the reads and the commit of the first, which refers to it. */
  lemma CrossedIsNotSerial(db: Db, world: World, i: nat, j: nat)
    requires Inv(db) && WithinClock(db, world.clock) && world.history == [db] && world.steps == [] && Beginning(world, i, j)
    requires Crosses(world.workers[i].job.wager, world.workers[j].job.wager)
    requires Proceeding(db, world.clock, i, world.workers[i].job) && Proceeding(db, world.clock, j, world.workers[j].job)
    ensures !AlwaysSerial(db, world)
  {
    hide Inv, WithinClock, Unused, Proceeding, Clash, Crosses, Unhindered, Ready, Timely, DecideIn, Admitted, AdmittedWager,
         Leads, CommitsSerially, DecideThenCommit;
    var clock, a, b := world.clock, world.workers[i].job, world.workers[j].job;
    ProceedingFacts(db, clock, i, a);
    ProceedingFacts(db, clock, j, b);
    ReadyNames(db, a.wager);
    ReadyNames(db, b.wager);
    hide Beginning, Left, StepOf;
    CrossedWaits(db, a, b, clock);
    var after := BothCommit(world, i, j);
    if AlwaysSerial(db, world) {
      LeadsTo(world, DecideThenCommit(i, j), after);
      assert CommitsSerially(db, after);
      NotTheSerialRun(db, clock, i, j, a, b, after);
    }
  }

  lemma LeadsTo(world: World, actions: seq<Action>, after: World)
    requires Leads(world, actions, after)
    ensures Wellformed(world) && AllMay(world, actions) && Interleaved(world, actions) == after && Wellformed(after)
  {
    hide AllMay, Interleaved;
  }

  lemma CrossedWaits(db: Db, a: Job, b: Job, at: Instant)
    requires Unhindered(db, a) && Unhindered(db, b) && Crosses(a.wager, b.wager) && !Clash(a.wager, b.wager)
    ensures DecideIn(db, a.wager, at) == Wait
  {
    hide Crosses, Clash, DecideIn, IdentityTaken, FindExisting;
    MissedReferenceWaits(db, a.wager, b.wager, at);
  }

  lemma PairBegins(db: Db, clock: Instant, n: nat, a: Job, b: Job, i: nat, j: nat)
    requires Joint(db, clock, n, a, b) && ((i == n && j == n + 1) || (i == n + 1 && j == n))
    requires var world := Pair(db, clock, n, a, b); Crosses(world.workers[i].job.wager, world.workers[j].job.wager)
    ensures var world := Pair(db, clock, n, a, b);
            && Beginning(world, i, j) && Separate(world.workers[i].job, world.workers[j].job)
            && Proceeding(db, clock, i, world.workers[i].job) && Proceeding(db, clock, j, world.workers[j].job)
  {
    hide Inv, WithinClock, Unused, Ready, Timely, DecideIn, Admitted, AdmittedWager, GoesThrough, IdentityTaken, Proceeding,
         Clash;
    ProceedingFacts(db, clock, n, a);
    ProceedingFacts(db, clock, n + 1, b);
    ClashIsMutual(a.wager, b.wager);
    var world := Pair(db, clock, n, a, b);
    assert world.workers[n] == Worker(a, Begin, None, 0) && world.workers[n + 1] == Worker(b, Begin, None, 0);
    forall k | 0 <= k < |world.workers| && k != i && k != j ensures !Active(world.workers[k]) && world.workers[k].held.None? {
      assert world.workers[k] == Ended(n)[k];
    }
  }

  lemma NotTheSerialRun(db: Db, clock: Instant, i: nat, j: nat, a: Job, b: Job, after: World)
    requires Inv(db) && WithinClock(db, clock) && Proceeding(db, clock, i, a) && Proceeding(db, clock, j, b)
    requires Separate(a, b) && Crosses(a.wager, b.wager) && a.wager.status.Pending? && DecideIn(db, a.wager, clock) == Wait
    requires a.wager.wallet in db.wallets && b.wager.wallet in db.wallets
    requires var first := Left(db, b, db.wallets[b.wager.wallet], DecideIn(db, b.wager, clock), j, clock);
             after.history == [db] + [first, Left(first, a, db.wallets[a.wager.wallet], Wait, i, clock)]
    requires after.steps == [] + [StepOf(b, j, clock), StepOf(a, i, clock)]
    ensures !CommitsSerially(db, after)
  {
    hide Inv, WithinClock, Proceeding, Crosses, DecideIn, Left, StepOf, Runnable, Run;
    if CommitsSerially(db, after) {
      assert after.steps == [StepOf(b, j, clock), StepOf(a, i, clock)];
      SerialRunRejects(db, clock, i, j, a, b, clock);
      WaitingRow(after.history[1], a, db.wallets[a.wager.wallet], i, clock);
      assert false;
    }
  }

  lemma CrossedPairIsNotSerial(db: Db, clock: Instant, n: nat, a: Job, b: Job, i: nat, j: nat)
    requires Joint(db, clock, n, a, b) && ((i == n && j == n + 1) || (i == n + 1 && j == n))
    requires var workers := Pair(db, clock, n, a, b).workers; Crosses(workers[i].job.wager, workers[j].job.wager)
    ensures !AlwaysSerial(db, Pair(db, clock, n, a, b))
  {
    hide Inv, WithinClock, Unused, Proceeding, Clash, Crosses, AlwaysSerial, Beginning, Ended;
    PairBegins(db, clock, n, a, b, i, j);
    CrossedIsNotSerial(db, Pair(db, clock, n, a, b), i, j);
  }

  lemma PairIsOk(db: Db, clock: Instant, n: nat, a: Job, b: Job)
    requires Joint(db, clock, n, a, b) && !Crosses(a.wager, b.wager) && !Crosses(b.wager, a.wager)
    ensures WorldOk(Apart({a.wager, b.wager}, false), Pair(db, clock, n, a, b))
  {
    hide Inv, WithinClock, Unused, GoesThrough, Clash, Startable, Exclusive, WorkerOk;
    var family, world := Apart({a.wager, b.wager}, false), Pair(db, clock, n, a, b);
    ExtendsItself(db);
    hide Extends;
    forall k | 0 <= k < |world.workers| ensures WorkerOk(family, world.history, clock, world.workers[k], k) {
      PairWorkerIsOk(family, db, clock, n, a, b, k);
    }
    forall k, l | 0 <= k < |world.workers| && 0 <= l < |world.workers| && k != l
      ensures Exclusive(world.workers[k], world.workers[l])
    {
      StartsWithNothing(world.workers[k], world.workers[l]);
    }
    assert Uncrossed(family) by {
      OneIsUncrossed(a.wager);
      OneIsUncrossed(b.wager);
      hide Crosses;
    }
  }

  lemma OneIsUncrossed(w: Wager)
    ensures !Crosses(w, w)
  {
  }

  lemma StartsWithNothing(worker: Worker, other: Worker)
    requires worker.held.None? && (worker.pc.Idle? || worker.pc.Begin?)
    ensures Exclusive(worker, other)
  {
  }

  lemma PairWorkerIsOk(family: Family, db: Db, clock: Instant, n: nat, a: Job, b: Job, k: nat)
    requires Joint(db, clock, n, a, b) && family == Apart({a.wager, b.wager}, false) && k < n + 2
    ensures WorkerOk(family, [db], clock, Pair(db, clock, n, a, b).workers[k], k)
  {
    hide Inv, WithinClock, Unused, GoesThrough, Clash, PcOk, PossessionsOk, Serialized, WorkerOk;
    var worker := Pair(db, clock, n, a, b).workers[k];
    if k < n {
      assert worker == Ended(n)[k];
      EndedMayStart(clock, k);
      DroppedIsOk(family, [db], clock, worker, k);
    } else {
      hide Startable;
      assert worker == if k == n then Worker(a, Begin, None, 0) else Worker(b, Begin, None, 0);
      NewcomerIsOk(family, [db], clock, worker, k);
      NewcomerFits(family, [db], clock, worker, k);
    }
  }

  lemma EndedMayStart(clock: Instant, k: nat)
    ensures Startable(clock, k, OpenJob(Nil, Money(0, BRL), Trace("ended", "")))
  {
    assert !IsSpace("ended"[0]);
  }

  lemma UncrossedIsSerial(db: Db, clock: Instant, n: nat, a: Job, b: Job, actions: seq<Action>)
    requires Joint(db, clock, n, a, b) && !Crosses(a.wager, b.wager) && !Crosses(b.wager, a.wager)
    requires AllMay(Pair(db, clock, n, a, b), actions) && NoOneJoins(actions)
    ensures IsSerial(db, Interleaved(Pair(db, clock, n, a, b), actions))
  {
    hide Joint, WorldOk, AllMay, Interleaved, Crosses, IsSerial;
    JointSubmits(db, clock, n, a, b);
    var family, world := Apart({a.wager, b.wager}, false), Pair(db, clock, n, a, b);
    PairIsOk(db, clock, n, a, b);
    InterleavingIsOk(family, world, actions);
    WorldIsSerial(family, Interleaved(world, actions));
  }

  lemma JointSubmits(db: Db, clock: Instant, n: nat, a: Job, b: Job)
    requires Joint(db, clock, n, a, b)
    ensures a.SubmitJob? && b.SubmitJob?
  {
    hide Inv, WithinClock, Unused, Clash, Startable, GoesThrough;
  }

  /**
   * Two submissions commit serially in every interleaving exactly when neither needs a reference
   * to the other from another wallet; their answers are the serial ones then, too.
   */
  lemma SerialExactly(db: Db, clock: Instant, n: nat, a: Job, b: Job)
    requires Joint(db, clock, n, a, b)
    ensures AlwaysSerial(db, Pair(db, clock, n, a, b)) <==> !Crosses(a.wager, b.wager) && !Crosses(b.wager, a.wager)
    ensures !Crosses(a.wager, b.wager) && !Crosses(b.wager, a.wager) ==>
              forall actions :: AllMay(Pair(db, clock, n, a, b), actions) && NoOneJoins(actions) ==>
                IsSerial(db, Interleaved(Pair(db, clock, n, a, b), actions))
  {
    hide Joint, AllMay, Interleaved, Crosses, NoOneJoins, AnsweredSerially, Runnable, Run;
    var world := Pair(db, clock, n, a, b);
    JointSubmits(db, clock, n, a, b);
    if Crosses(a.wager, b.wager) {
      CrossedPairIsNotSerial(db, clock, n, a, b, n, n + 1);
    } else if Crosses(b.wager, a.wager) {
      CrossedPairIsNotSerial(db, clock, n, a, b, n + 1, n);
    } else {
      forall actions | AllMay(world, actions) && NoOneJoins(actions) ensures IsSerial(db, Interleaved(world, actions)) {
        UncrossedIsSerial(db, clock, n, a, b, actions);
      }
    }
  }
}
