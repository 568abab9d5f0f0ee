/** Waiting and progress of concurrent executions, whatever their operations refer to. */
module Progress {
  import opened Core
  import opened Engine
  import opened Interleaving

  /** Only an active worker past its lock has a wallet. */
  predicate Placed(worker: Worker) {
    worker.held.Some? ==>
      match worker.pc
      case Begin | Acquire(_) | Done(_, _, _) | OpenDone(_, _, _) | ClaimDone(_, _, _, _) | Idle => false
      case LookKey(round, _) => round.Locked? || round.Conflicted?
      case LookExternal(round, _) => round.Locked? || round.Conflicted?
      case _ => true
  }

  ghost predicate AllPlaced(world: World) {
    forall i :: 0 <= i < |world.workers| ==> Placed(world.workers[i])
  }

  /** One worker has moved, and only past its lock with a wallet. */
  predicate MovedInPlace(before: World, after: World, i: nat) {
    && i < |before.workers| == |after.workers| && after.workers == before.workers[i := after.workers[i]]
    && Placed(after.workers[i])
  }

  lemma SubmitsPlace(world: World, i: nat)
    requires Wellformed(world) && i < |world.workers| && world.workers[i].job.SubmitJob? && Placed(world.workers[i])
    ensures MovedInPlace(world, Submits(world, i), i)
  {
    hide FindByKey, FindByExternal, IdentityTaken, Compare;
  }

  lemma BeginsPlace(world: World, i: nat, pick: Uuid)
    requires Wellformed(world) && i < |world.workers| && world.workers[i].pc.Begin? && Placed(world.workers[i])
    ensures MovedInPlace(world, Begins(world, i, pick), i)
  {
    hide Open, OpenAnswer, Due, Free;
  }

  lemma AdvancePlaces(world: World, i: nat, pick: Uuid)
    requires Wellformed(world) && i < |world.workers| && Placed(world.workers[i])
    ensures MovedInPlace(world, Advance(world, i, pick), i)
  {
    hide Begins, Submits, Due, FindReference, Decide, GivenUp, HasReversal, Enacted, Enrolled, Rescheduled, After,
         FirstPending;
    if world.workers[i].pc.Begin? {
      BeginsPlace(world, i, pick);
    } else if world.workers[i].job.SubmitJob? {
      SubmitsPlace(world, i);
    }
  }

  lemma {:induction false} InterleavingIsPlaced(world: World, actions: seq<Action>)
    requires Wellformed(world) && AllMay(world, actions) && AllPlaced(world)
    ensures AllPlaced(Interleaved(world, actions))
    decreases |actions|
  {
    hide Placed, Advance, Blocked, Startable;
    if actions != [] {
      match actions[0] {
        case Tick(_) =>
        case Start(job) => BeginnerIsPlaced(job, Latest(world));
        case Statement(i, pick) => AdvancePlaces(world, i, pick);
        case Crash(i) => IdleIsPlaced(world.workers[i]);
      }
      InterleavingIsPlaced(Does(world, actions[0]), actions[1..]);
    }
  }

  lemma BeginnerIsPlaced(job: Job, since: nat)
    ensures Placed(Worker(job, Begin, None, since))
  {
  }

  lemma IdleIsPlaced(worker: Worker)
    ensures Placed(worker.(pc := Idle, held := None))
  {
  }

  /** Where a worker stands in the order in which all of them take what others may hold. */
  function Level(worker: Worker): nat {
    match worker.pc
    case Begin => 0
    case Acquire(_) => 1
    case Insert => 2
    case _ => 3
  }

  /** A worker that makes another wait is active and has gone further. */
  lemma WaitsGoUp(actions: seq<Action>, i: nat, j: nat)
    requires AllMay(START, actions) && i < |Interleaved(START, actions).workers| && j < |Interleaved(START, actions).workers|
    requires WaitsFor(Interleaved(START, actions), i, j)
    ensures var workers := Interleaved(START, actions).workers;
            Active(workers[j]) && Level(workers[i]) < Level(workers[j])
  {
    hide AllMay, Interleaved;
    InterleavingIsPlaced(START, actions);
    assert Placed(Interleaved(START, actions).workers[j]);
  }

  /** No wait can close a cycle: whoever is active, someone active can take its next statement. */
  lemma SomeoneMoves(actions: seq<Action>, i: nat) returns (mover: nat)
    requires AllMay(START, actions) && i < |Interleaved(START, actions).workers|
    requires Active(Interleaved(START, actions).workers[i])
    ensures var world := Interleaved(START, actions);
            mover < |world.workers| && Active(world.workers[mover]) && !Blocked(world, mover)
    decreases 3 - Level(Interleaved(START, actions).workers[i])
  {
    hide WaitsFor, AllMay, Interleaved;
    var world := Interleaved(START, actions);
    if Blocked(world, i) {
      var j :| 0 <= j < |world.workers| && WaitsFor(world, i, j);
      WaitsGoUp(actions, i, j);
      mover := SomeoneMoves(actions, j);
    } else {
      mover := i;
    }
  }
}
