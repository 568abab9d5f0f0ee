/** What concurrent executions guarantee: serial equivalence, answers, conflicts and progress. */
module Concurrency {
  import opened Core
  import opened Finance
  import opened Domain
  import opened Engine
  import opened Invariant
  import opened Decisions
  import opened UseCases
  import opened Runs
  import opened Idempotency
  import opened Interleaving
  import opened Serialization
  import opened Linearization
  import Confluence
  import Consumer
  import Opening

  /** No operation that is submitted refers across wallets to another one that is submitted. */
  ghost predicate StaysInWallets(actions: seq<Action>) {
    forall k, l :: 0 <= k < |actions| && 0 <= l < |actions| && Submission(actions[k]) && Submission(actions[l]) ==>
      !Crosses(actions[k].job.wager, actions[l].job.wager)
  }

  predicate Submission(action: Action) {
    action.Start? && action.job.SubmitJob?
  }

  function FamilyOf(actions: seq<Action>): Family {
    Apart(set k | 0 <= k < |actions| && Submission(actions[k]) :: actions[k].job.wager, true)
  }

  lemma StartIsOk(family: Family)
    requires Uncrossed(family)
    ensures WorldOk(family, START)
  {
    EmptyIsConsistent();
    ExtendsItself(EMPTY_DB);
    hide Inv, Extends, Uncrossed;
  }

  ghost predicate AllBelong(family: Family, actions: seq<Action>) {
    forall k :: 0 <= k < |actions| && actions[k].Start? ==> Belongs(family, actions[k].job)
  }

  lemma {:induction false} InterleavingIsOk(family: Family, world: World, actions: seq<Action>)
    requires Wellformed(world) && WorldOk(family, world) && AllMay(world, actions) && AllBelong(family, actions)
    ensures WorldOk(family, Interleaved(world, actions))
    ensures Interleaved(world, actions).history[0] == world.history[0]
    decreases |actions|
  {
    hide WorldOk, May, Does, Belongs;
    if actions != [] {
      ActionKeeps(family, world, actions[0]);
      HistoryOnlyGrows(world, actions[0]);
      assert forall k :: 0 <= k < |actions[1..]| ==> actions[1..][k] == actions[k + 1];
      InterleavingIsOk(family, Does(world, actions[0]), actions[1..]);
    }
  }

  lemma HistoryOnlyGrows(world: World, action: Action)
    requires Wellformed(world) && May(world, action)
    ensures Wellformed(Does(world, action)) && Does(world, action).history[0] == world.history[0]
  {
    hide Blocked, Startable, Enacted, Open, Compare, Decide, FindReference, FindByKey, FindByExternal, Free;
  }

  /** Any interleaving of any operations. */
  lemma AnythingIsOk(actions: seq<Action>)
    requires AllMay(START, actions)
    ensures WorldOk(Anything, Interleaved(START, actions))
  {
    hide WorldOk, AllMay, Interleaved;
    StartIsOk(Anything);
    InterleavingIsOk(Anything, START, actions);
  }

  /** Any interleaving of operations that stay in their wallets. */
  lemma WalletwiseIsOk(actions: seq<Action>)
    requires AllMay(START, actions) && StaysInWallets(actions)
    ensures WorldOk(FamilyOf(actions), Interleaved(START, actions))
    ensures Interleaved(START, actions).history[0] == EMPTY_DB
  {
    hide WorldOk, AllMay, Interleaved, Crosses;
    StartIsOk(FamilyOf(actions));
    InterleavingIsOk(FamilyOf(actions), START, actions);
  }

  // ---- The serial run ---------------------------------------------------------------------------------

  /** The data between two places of the history come from the serial steps in between. */
  lemma {:induction false} HistoryIsRun(family: Family, history: seq<Db>, steps: seq<Step>, k: nat, m: nat)
    requires HistoryOk(family, history, steps) && family.Apart? && k <= m < |history|
    ensures Runnable(history[k], steps[k..m]) && Run(history[k], steps[k..m]) == history[m]
    decreases m - k
  {
    hide Inv, Extends, Admissible, Next;
    if k < m {
      HistoryIsRun(family, history, steps, k + 1, m);
      assert steps[k..m][1..] == steps[k + 1..m] && steps[k..m][0] == steps[k];
    }
  }

  // ---- Whose steps they are -----------------------------------------------------------------------------

  /** The answer of a commit: not a replay, and not an error. */
  predicate Accomplished(pc: Pc) {
    match pc
    case Done(outcome, _, _) => outcome.Ok? && !outcome.value.replayed
    case OpenDone(opening, _, _) => opening.Ok?
    case ClaimDone(_, claim, _, _) => claim.Ok?
    case _ => false
  }

  /** The step does the worker's own job, and the worker answered at its commit. */
  predicate Owns(worker: Worker, k: nat, step: Step) {
    && Accomplished(worker.pc) && worker.since <= k == worker.pc.mark && worker.pc.at == step.stamp.at
    && match step
       case OpenStep(player, initial, trace, _) => worker.job == OpenJob(player, initial, trace) && worker.pc.OpenDone?
       case SubmitStep(authorized, q, created, _) =>
         && worker.job.SubmitJob? && worker.job == SubmitJob(authorized, q, None, created, worker.job.wager)
         && worker.pc.Done?
       case ReceiveStep(authorized, body, created, _) =>
         && worker.job.SubmitJob?
         && worker.job == SubmitJob(authorized, worker.job.request, Some(body), created, worker.job.wager)
         && worker.pc.Done?
       case RetryStep(id, policy, _) => worker.job == RetryJob(policy) && worker.pc.ClaimDone? && worker.pc.id == id
  }

  /** Each step is the work of one worker, and each worker that accomplished something has its one step. */
  ghost predicate StepsOwned(world: World) {
    && |world.history| == |world.steps| + 1
    && (forall k :: 0 <= k < |world.steps| ==>
          var ticket := world.steps[k].stamp.ticket;
          ticket < |world.workers| && Owns(world.workers[ticket], k, world.steps[k]))
    && (forall i :: 0 <= i < |world.workers| ==>
          var worker := world.workers[i];
          && worker.since <= |world.steps|
          && (Accomplished(worker.pc) ==>
                worker.pc.mark < |world.steps| && world.steps[worker.pc.mark].stamp.ticket == i))
  }

  /** One worker moves and nothing is committed. */
  predicate Proceeds(before: World, after: World, i: nat) {
    && i < |before.workers| && |after.workers| == |before.workers|
    && after == Put(before, i, after.workers[i]) && after.workers[i].since == before.workers[i].since
    && !Accomplished(after.workers[i].pc)
  }

  /** One worker commits its step. */
  predicate CommitsStep(before: World, after: World, i: nat) {
    && i < |before.workers| && |after.workers| == |before.workers| && |after.steps| == |before.steps| + 1
    && |after.history| == |before.history| + 1
    && after.steps == before.steps + [after.steps[|before.steps|]]
    && after.steps[|before.steps|].stamp.ticket == i
    && after.workers == before.workers[i := after.workers[i]] && after.workers[i].since == before.workers[i].since
    && (|before.history| == |before.steps| + 1 && before.workers[i].since <= |before.steps| ==>
          Owns(after.workers[i], |before.steps|, after.steps[|before.steps|]))
  }

  lemma BeginsShape(world: World, i: nat, pick: Uuid)
    requires Wellformed(world) && i < |world.workers|
    ensures Proceeds(world, Begins(world, i, pick), i) || CommitsStep(world, Begins(world, i, pick), i)
  {
    hide Opened, Due, Free, NewWallet;
  }

  lemma SubmitsShape(world: World, i: nat)
    requires Wellformed(world) && i < |world.workers| && world.workers[i].job.SubmitJob? && Active(world.workers[i])
    ensures Proceeds(world, Submits(world, i), i)
  {
    hide FindByKey, FindByExternal, IdentityTaken, BelongsTo;
  }

  lemma StoresShape(world: World, i: nat, w: Wager, d: Decision, at: Instant)
    requires Wellformed(world) && i < |world.workers| && world.workers[i].held.Some?
    ensures Proceeds(world, Stores(world, i, w, d, at), i) || CommitsStep(world, Stores(world, i, w, d, at), i)
  {
    hide Enacted, Enrolled, Rescheduled, After, FirstPending;
  }

  lemma AdvanceShape(world: World, i: nat, pick: Uuid)
    requires Wellformed(world) && i < |world.workers| && Active(world.workers[i])
    ensures Proceeds(world, Advance(world, i, pick), i) || CommitsStep(world, Advance(world, i, pick), i)
  {
    hide Begins, Submits, Stores, CommitsStep, Due, FindReference, Decide, GivenUp, HasReversal;
    match world.workers[i].pc
    case Begin => BeginsShape(world, i, pick);
    case Pick | Reference(_) | Reversal(_, _) =>
    case Write(w, d, at) =>
      if world.workers[i].held.Some? {
        StoresShape(world, i, w, d, at);
      }
    case LookKey(_, _) | LookExternal(_, _) | Acquire(_) | Check(_) | Insert =>
      if world.workers[i].job.SubmitJob? {
        SubmitsShape(world, i);
      }
  }

  lemma OwnersStay(before: World, after: World, i: nat)
    requires StepsOwned(before) && (Proceeds(before, after, i) || CommitsStep(before, after, i))
    requires i < |before.workers| && !Accomplished(before.workers[i].pc)
    ensures StepsOwned(after)
  {
  }

  /** Whatever the interleaving, references across wallets or not. */
  lemma {:induction false} StepsAreOwned(world: World, actions: seq<Action>)
    requires Wellformed(world) && AllMay(world, actions) && StepsOwned(world)
    ensures StepsOwned(Interleaved(world, actions))
    decreases |actions|
  {
    hide StepsOwned, Advance, Blocked, Startable, Proceeds, CommitsStep;
    if actions != [] {
      var next := Does(world, actions[0]);
      assert StepsOwned(next) by {
        match actions[0] {
          case Tick(_) => SameOwners(world, next);
          case Start(job) => NewcomerOwnsNothing(world, Worker(job, Begin, None, Latest(world)));
          case Statement(i, pick) =>
            AdvanceShape(world, i, pick);
            OwnersStay(world, next, i);
          case Crash(i) =>
            DropProceeds(world, i);
            OwnersStay(world, next, i);
        }
      }
      StepsAreOwned(next, actions[1..]);
    }
  }

  lemma DropProceeds(world: World, i: nat)
    requires i < |world.workers|
    ensures Proceeds(world, Drop(world, i), i)
  {
  }

  lemma SameOwners(before: World, after: World)
    requires StepsOwned(before) && after == before.(clock := after.clock)
    ensures StepsOwned(after)
  {
  }

  lemma StartIsOwned()
    ensures StepsOwned(START)
  {
  }

  lemma NewcomerOwnsNothing(world: World, worker: Worker)
    requires StepsOwned(world) && worker.pc.Begin? && worker.since < |world.history|
    ensures StepsOwned(world.(workers := world.workers + [worker]))
  {
  }

  // ---- Serial equivalence ---------------------------------------------------------------------------------

  /** The answer of a worker is the serial one, on data that was committed while it ran. */
  ghost predicate AnsweredSerially(first: Db, world: World, i: nat)
    requires i < |world.workers|
  {
    var worker := world.workers[i];
    Answers(worker.pc) ==>
      && worker.since <= worker.pc.mark <= |world.steps|
      && Runnable(first, world.steps[..worker.pc.mark])
      && AnsweredOn(Run(first, world.steps[..worker.pc.mark]), worker, i)
  }

  /** The committed data are those of the serial run of the steps, and so are all answers. */
  ghost predicate IsSerial(first: Db, world: World)
    requires Wellformed(world)
  {
    && Runnable(first, world.steps) && Run(first, world.steps) == Committed(world)
    && forall i :: 0 <= i < |world.workers| ==> AnsweredSerially(first, world, i)
  }

  /**
   * Whatever the interleaving, unless a submission refers to another across wallets, the committed
   * data are those of a serial run: one step for each worker that committed, of its own job, in
   * commit order. Every answer is the one that the serial execution gives at a moment between the
   * beginning and the end of its worker.
   */
  lemma SerialEquivalence(actions: seq<Action>)
    requires AllMay(START, actions) && StaysInWallets(actions)
    ensures var world := Interleaved(START, actions);
            IsSerial(EMPTY_DB, world) && StepsOwned(world) && Inv(Committed(world))
  {
    hide WorldOk, AllMay, Interleaved, IsSerial, StepsOwned, Inv;
    WalletwiseIsOk(actions);
    WorldIsSerial(FamilyOf(actions), Interleaved(START, actions));
    StartIsOwned();
    StepsAreOwned(START, actions);
  }

  lemma WorldIsSerial(family: Family, world: World)
    requires WorldOk(family, world) && family.Apart?
    ensures IsSerial(world.history[0], world) && Inv(Committed(world))
  {
    hide Inv, Extends, Admissible, Next, AllKnown, WithinClock, AllExclusive, PcOk, PossessionsOk, JobOk, Unused,
         AnsweredOn, Uncrossed;
    var first := world.history[0];
    HistoryIsRun(family, world.history, world.steps, 0, |world.steps|);
    assert world.steps[0..|world.steps|] == world.steps;
    forall i | 0 <= i < |world.workers| ensures AnsweredSerially(first, world, i) {
      var worker := world.workers[i];
      assert WorkerOk(family, world.history, world.clock, worker, i);
      if Answers(worker.pc) {
        HistoryIsRun(family, world.history, world.steps, 0, worker.pc.mark);
        assert world.steps[0..worker.pc.mark] == world.steps[..worker.pc.mark];
      }
    }
  }

  // ---- Every interleaving -------------------------------------------------------------------------------

  /**
   * The answer is the serial one on data that was committed while the worker ran; or it was decided
   * too late, for an operation that refers to a stored one of another wallet.
   */
  ghost predicate AnsweredSoundly(world: World, i: nat)
    requires i < |world.workers|
  {
    var worker := world.workers[i];
    Answers(worker.pc) ==>
      && worker.since <= worker.pc.mark < |world.history|
      && (AnsweredOn(world.history[worker.pc.mark], worker, i) || AnsweredLate(world.history[worker.pc.mark], worker))
  }

  /**
   * Whatever the interleaving and whatever the operations refer to, every commit leaves consistent
   * data that later commits only extend, each step is the work of one worker, and every answer is
   * serial but for a late wait on an operation of another wallet.
   */
  lemma EveryInterleavingIsSafe(actions: seq<Action>)
    requires AllMay(START, actions)
    ensures var world := Interleaved(START, actions);
            && StepsOwned(world)
            && (forall k :: 0 <= k < |world.history| ==> Inv(world.history[k]) && Extends(world.history[k], Committed(world)))
            && (forall i :: 0 <= i < |world.workers| ==> AnsweredSoundly(world, i))
  {
    hide WorldOk, AllMay, Interleaved, StepsOwned, Inv, Extends, AnsweredSoundly;
    AnythingIsOk(actions);
    var world := Interleaved(START, actions);
    StartIsOwned();
    StepsAreOwned(START, actions);
    LatestFacts(Anything, world);
    forall i | 0 <= i < |world.workers| ensures AnsweredSoundly(world, i) {
      AnswerIsSound(world, i);
    }
  }

  lemma AnswerIsSound(world: World, i: nat)
    requires WorldOk(Anything, world) && i < |world.workers|
    ensures AnsweredSoundly(world, i)
  {
    hide WorldOk, AnsweredOn, AnsweredLate, PcOk, PossessionsOk, JobOk, Unused;
    WorkerKnown(Anything, world, i);
  }

  /** The answer of an opening is the wallet that it stored. */
  lemma OpeningIsAnswered(db: Db, player: Uuid, initial: Money, stamp: Stamp, trace: Trace)
    requires Inv(db) && Unused(db, stamp.ticket)
    ensures OpenAnswer(db, player, initial, stamp, trace)
            == match Open(db, player, initial, stamp, trace)
               case Ok(after) =>
                 var id := Random(stamp.ticket, ROW_SLOT);
                 if id in after.wallets then Ok(after.wallets[id]) else Err(ErrWalletNotFound)
               case Err(e) => Err(e)
  {
    hide Inv, Unused;
    Opening.OpensExactly(db, player, initial, stamp, trace);
  }

  // ---- Conflicts and duplicates -----------------------------------------------------------------------

  /** The next place of a submission that has no new row yet. */
  function NextPc(world: World, i: nat): Pc
    requires Wellformed(world) && i < |world.workers| && world.workers[i].job.SubmitJob?
  {
    Submits(world, i).workers[i].pc
  }

  predicate Looking(world: World, i: nat, round: Round) {
    && Wellformed(world) && i < |world.workers| && world.workers[i].job.SubmitJob?
    && match world.workers[i].pc
       case LookKey(r, _) => r == round
       case LookExternal(r, _) => r == round
       case _ => false
  }

  predicate Conflicting(pc: Pc) {
    match pc
    case Done(outcome, _, _) => outcome == Err(ErrIdempotencyConflict)
    case LookExternal(round, _) => round.Conflicted?
    case _ => false
  }

  /** What the worker looks up next. */
  function LookedUp(world: World, i: nat): Option<Wager>
    requires Looking(world, i, Conflicted)
  {
    var db, w := Committed(world), world.workers[i].job.wager;
    if world.workers[i].pc.LookKey? then FindByKey(db, w.provider, w.key)
    else FindByExternal(db, w.provider, w.externalId)
  }

  lemma LookingGoesOn(world: World, i: nat)
    requires Looking(world, i, Conflicted)
    requires LookedUp(world, i).Some? ==>
               Compare(LookedUp(world, i).value, world.workers[i].job.wager) == Err(ErrIdempotencyConflict)
    ensures Conflicting(NextPc(world, i))
  {
    hide FindByKey, FindByExternal, Compare;
  }

  /** A new row refused under the lock always ends in an idempotency conflict: never in a replay. */
  lemma RefusedRowsConflict(family: Family, world: World, i: nat)
    requires Looking(world, i, Conflicted) && WorldOk(family, world)
    ensures Conflicting(NextPc(world, i))
  {
    hide Inv, Extends, AllKnown, WithinClock, JobOk, Unused, WorldOk, FindByKey, FindByExternal, IdentityTaken, Working,
         Admitted, Known, Compare, NextPc, Submits;
    Situation(family, world, i);
    JobFacts(family, world.clock, i, world.workers[i].job, 0);
    if LookedUp(world, i).Some? {
      FoundConflicts(Committed(world), world.workers[i].job.wager, LookedUp(world, i).value);
    }
    LookingGoesOn(world, i);
  }

  lemma FoundConflicts(db: Db, w: Wager, e: Wager)
    requires Inv(db) && NoTwin(db, w) && w.digest == Sha256(PayloadOfWager(w))
    requires FindByKey(db, w.provider, w.key) == Some(e) || FindByExternal(db, w.provider, w.externalId) == Some(e)
    ensures Compare(e, w) == Err(ErrIdempotencyConflict)
  {
    hide Inv, FindByKey, FindByExternal, PayloadOfWager;
    FoundShares(db, w, e);
    RowDigest(db, e.id);
    OthersContentDiffers(e, w);
  }

  lemma OthersContentDiffers(e: Wager, w: Wager)
    requires e.wallet != w.wallet
    requires e.digest == Sha256(PayloadOfWager(e)) && w.digest == Sha256(PayloadOfWager(w))
    ensures Compare(e, w) == Err(ErrIdempotencyConflict)
  {
    hide MoneyText;
    assert PayloadOfWager(e).wallet != PayloadOfWager(w).wallet;
  }

  /** A duplicate message finds its operation: under any interleaving no registered message is found incomplete. */
  lemma DuplicatesAreAnswered(family: Family, world: World, i: nat)
    requires Looking(world, i, Duplicate) && world.workers[i].pc.LookKey? && WorldOk(family, world)
    ensures NextPc(world, i).Done? && NextPc(world, i).outcome != Err(ErrInboxIncomplete)
  {
    hide WorldOk, FindByKey, FindExisting, Inv;
    DuplicateIsFound(family, world, i);
  }

  lemma OutcomesAreNotIncomplete(family: Family, clock: Instant, db: Db, worker: Worker, i: nat, at: Instant)
    requires Inv(db) && JobOk(family, clock, i, worker.job) && worker.job.SubmitJob?
    ensures Outcome(db, worker, i, at) != Err(ErrInboxIncomplete)
  {
    hide Inv, JobOk, Submit, FindExisting, Outcome, Known, AdmittedWager, Admitted, Blank;
    if worker.job.message.Some? && worker.job.message.value.messageId in db.inbox {
      OutcomeIsReplay(family, clock, db, worker, i, at);
      JobFacts(family, clock, i, worker.job, at);
      if db.inbox[worker.job.message.value.messageId].body == worker.job.message.value {
        Consumer.TreatedReplays(db, worker.job.message.value, worker.job.wager);
      }
    } else {
      OutcomeIsSubmission(family, clock, db, worker, i, at);
      SubmissionsAreNotIncomplete(db, worker.job.wager, Stamp(i, at), worker.job.request.trace);
    }
  }

  /** Under any interleaving no message is ever answered as incomplete. */
  lemma NoMessageIsIncomplete(actions: seq<Action>, i: nat)
    requires AllMay(START, actions) && i < |Interleaved(START, actions).workers|
    ensures var pc := Interleaved(START, actions).workers[i].pc;
            pc.Done? ==> pc.outcome != Err(ErrInboxIncomplete)
  {
    hide WorldOk, AllMay, Interleaved;
    AnythingIsOk(actions);
    if Interleaved(START, actions).workers[i].pc.Done? {
      AnswersAreNotIncomplete(Anything, Interleaved(START, actions), i);
    }
  }

  lemma AnswersAreNotIncomplete(family: Family, world: World, i: nat)
    requires WorldOk(family, world) && i < |world.workers| && world.workers[i].pc.Done?
    ensures world.workers[i].pc.outcome != Err(ErrInboxIncomplete)
  {
    hide Inv, Extends, HistoryOk, AllKnown, WithinClock, AllExclusive, PcOk, PossessionsOk, JobOk, Unused, Outcome, WorldOk;
    Situation(family, world, i);
    WorkerKnown(family, world, i);
    var worker := world.workers[i];
    if AnsweredOn(world.history[worker.pc.mark], worker, i) {
      OutcomesAreNotIncomplete(family, world.clock, world.history[worker.pc.mark], worker, i, worker.pc.at);
    }
  }
}
