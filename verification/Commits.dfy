/** A commit of one worker, seen by the others. */
module Commits {
  import opened Core
  import opened Finance
  import opened Domain
  import opened Delays
  import opened Engine
  import opened Invariant
  import opened Decisions
  import opened UseCases
  import opened Runs
  import opened Idempotency
  import opened Interleaving
  import opened Serialization
  import Confluence
  import Steps

  /** A commit under the lock of one wallet writes about that wallet only. */
  ghost predicate Effect(before: Db, after: Db, x: Uuid) {
    && (forall id :: id in after.wagers ==>
          (id in before.wagers && after.wagers[id] == before.wagers[id]) || after.wagers[id].wallet == x)
    && (forall id :: id in before.wallets && id != x ==> id in after.wallets && after.wallets[id] == before.wallets[id])
    && (forall id :: id in before.wagers && before.wagers[id].wallet != x ==>
          (id in before.schedules <==> id in after.schedules)
          && (id in before.schedules ==> after.schedules[id] == before.schedules[id]))
    && (forall r :: r in after.reversals && r !in before.reversals ==> r in before.wagers && before.wagers[r].wallet == x)
    && (forall r :: r in before.reversals ==> r in after.reversals)
  }

  /** No new row clashes with the wager. */
  ghost predicate NewApart(before: Db, after: Db, w: Wager) {
    forall id :: id in after.wagers && id !in before.wagers ==> !Clash(after.wagers[id], w)
  }

  /** The wager does not refer across wallets to any row that is new or changed. */
  ghost predicate Quiet(before: Db, after: Db, w: Wager) {
    forall id :: id in after.wagers && !(id in before.wagers && before.wagers[id] == after.wagers[id]) ==>
      !Crosses(w, after.wagers[id])
  }

  /** The operation on which the worker has to decide, or has decided. */
  function UnderWay(worker: Worker): Option<Wager> {
    match worker.pc
    case Reference(w) => Some(w)
    case Reversal(w, _) => Some(w)
    case Write(w, _, _) => Some(w)
    case _ => None
  }

  // ---- The others' facts ------------------------------------------------------------------------------

  lemma StoredRowStays(before: Db, after: Db, x: Uuid, id: Uuid)
    requires Extends(before, after) && Effect(before, after, x) && id in before.wagers && before.wagers[id].wallet != x
    ensures id in after.wagers && after.wagers[id] == before.wagers[id]
  {
  }

  lemma TwinsStay(before: Db, after: Db, x: Uuid, w: Wager)
    requires Extends(before, after) && Effect(before, after, x) && w.wallet != x
    ensures NoTwin(before, w) ==> NoTwin(after, w)
    ensures NoTwinByKey(before, w) ==> NoTwinByKey(after, w)
  {
  }

  /** A lookup of the reference finds the same row, although its wallet is not locked. */
  lemma LookupStays(before: Db, after: Db, x: Uuid, w: Wager)
    requires IndexOk(before.wagers, before.byKey, before.byExternal) && IndexOk(after.wagers, after.byKey, after.byExternal)
    requires Extends(before, after) && Effect(before, after, x) && Quiet(before, after, w) && w.wallet != x
    requires NeedsReference(w) && w.reference.Some?
    ensures FindByExternal(after, w.provider, w.reference.value) == FindByExternal(before, w.provider, w.reference.value)
  {
    var k := (w.provider, w.reference.value);
    if k in after.byExternal {
      var id := after.byExternal[k];
      assert after.wagers[id].provider == w.provider && w.reference == Some(after.wagers[id].externalId);
      assert id in before.wagers && before.wagers[id] == after.wagers[id];
      assert k in before.byExternal && before.byExternal[k] == id;
    }
  }

  lemma FoundStays(before: Db, after: Db, x: Uuid, w: Wager)
    requires Inv(before) && Inv(after)
    requires Extends(before, after) && Effect(before, after, x) && Quiet(before, after, w) && w.wallet != x
    ensures FoundBy(after, w) == FoundBy(before, w)
  {
    hide WalletsOk, RowsOk, LinksOk, ReversalsOk, LedgerOk, AllBooked, BalancesOk, StreamOk, EventsOk, InboxOk, IdsOk;
    if NeedsReference(w) && w.reference.Some? && w.reference.value != w.externalId {
      LookupStays(before, after, x, w);
    }
    hide IndexOk, Extends, Effect, Quiet;
  }

  lemma FoundIsOwnOrStored(db: Db, w: Wager)
    requires RowsOk(db.wallets, db.wagers) && FoundBy(db, w).Some?
    ensures FoundBy(db, w).value == w || (FoundBy(db, w).value.id in db.wagers && db.wagers[FoundBy(db, w).value.id] == FoundBy(db, w).value)
  {
    hide RowOk;
  }

  /** Whether the reference was reversed is settled by the commits of its own wallet. */
  lemma ReversedStays(before: Db, after: Db, x: Uuid, w: Wager)
    requires Inv(before) && Effect(before, after, x) && w.wallet != x
    requires w.id in before.wagers ==> before.wagers[w.id] == w
    requires FoundBy(before, w).Some? ==> FoundBy(before, w).value.wallet == w.wallet
    ensures HasReversal(after, FoundBy(before, w)) == HasReversal(before, FoundBy(before, w))
  {
    hide WalletsOk, IndexOk, LinksOk, ReversalsOk, LedgerOk, AllBooked, BalancesOk, StreamOk, EventsOk, InboxOk, IdsOk,
         RowsOk, FoundBy;
    if FoundBy(before, w).Some? {
      FoundIsOwnOrStored(before, w);
    }
  }

  lemma FoundIsNeeded(db: Db, w: Wager)
    requires FoundBy(db, w).Some?
    ensures NeedsReference(w)
  {
  }

  /** What a worker would decide under the lock of its own wallet does not change. */
  lemma DecisionStays(before: Db, after: Db, x: Uuid, w: Wager, at: Instant)
    requires Inv(before) && Inv(after) && Extends(before, after) && Effect(before, after, x) && Quiet(before, after, w)
    requires w.wallet != x && w.wallet in before.wallets
    requires w.id in before.wagers ==> before.wagers[w.id] == w
    ensures w.wallet in after.wallets && after.wallets[w.wallet] == before.wallets[w.wallet]
    ensures DecideIn(after, w, at) == DecideIn(before, w, at)
  {
    hide Inv, Extends, FoundBy, DecideIn, Quiet;
    FoundStays(before, after, x, w);
    FoundDecides(before, after, x, w, at);
  }

  /** The same reference found decides the same, although its wallet is not locked. */
  lemma FoundDecides(before: Db, after: Db, x: Uuid, w: Wager, at: Instant)
    requires Inv(before) && Effect(before, after, x) && FoundBy(after, w) == FoundBy(before, w)
    requires w.wallet != x && w.wallet in before.wallets
    requires w.id in before.wagers ==> before.wagers[w.id] == w
    ensures w.wallet in after.wallets && after.wallets[w.wallet] == before.wallets[w.wallet]
    ensures DecideIn(after, w, at) == DecideIn(before, w, at)
  {
    hide Inv, Extends, FoundBy, HasReversal, Decide, DecideIn;
    var wallet, found := before.wallets[w.wallet], FoundBy(before, w);
    ReadsDecide(before, w, wallet, at);
    ReadsDecide(after, w, wallet, at);
    if found.Some? && found.value.wallet != w.wallet {
      FoundIsNeeded(before, w);
      ForeignIsInvalid(w, wallet, found.value, HasReversal(before, found), at);
      ForeignIsInvalid(w, wallet, found.value, HasReversal(after, found), at);
    } else {
      ReversedStays(before, after, x, w);
    }
  }

  // ---- Without the assumption that operations stay apart --------------------------------------------

  /** The reference found stays, unless an operation of the other wallet takes its place. */
  lemma FoundStaysOrIsForeign(before: Db, after: Db, x: Uuid, w: Wager)
    requires Inv(before) && Inv(after) && Extends(before, after) && Effect(before, after, x) && w.wallet != x
    ensures || FoundBy(after, w) == FoundBy(before, w)
            || (NeedsReference(w) && Foreign(w, FoundBy(after, w))
                && (FoundBy(before, w).None? || Foreign(w, FoundBy(before, w))))
  {
    hide WalletsOk, RowsOk, LinksOk, ReversalsOk, LedgerOk, AllBooked, BalancesOk, StreamOk, EventsOk, InboxOk, IdsOk;
    if NeedsReference(w) && w.reference.Some? && w.reference.value != w.externalId {
      var k := (w.provider, w.reference.value);
      if k in after.byExternal {
        var id := after.byExternal[k];
        if id in before.wagers && before.wagers[id] == after.wagers[id] {
          assert k in before.byExternal && before.byExternal[k] == id;
        } else {
          assert after.wagers[id].wallet == x;
          if k in before.byExternal {
            assert SameBusiness(before.wagers[id], after.wagers[id]);
          }
        }
      }
    }
  }

  lemma ReadStays(family: Family, before: Db, after: Db, x: Uuid, w: Wager, found: Option<Wager>)
    requires Inv(before) && Inv(after) && Extends(before, after) && Effect(before, after, x) && w.wallet != x
    requires Read(family, before, w, found) && (family.Apart? ==> Quiet(before, after, w))
    ensures Read(family, after, w, found)
  {
    hide Inv, Extends, Effect, Quiet, FoundBy;
    if family.Apart? {
      FoundStays(before, after, x, w);
    } else {
      FoundStaysOrIsForeign(before, after, x, w);
    }
  }

  /** A decision taken too late to be serial was to wait, or to give up waiting. */
  lemma DecisionStaysOrIsLate(before: Db, after: Db, x: Uuid, w: Wager, at: Instant)
    requires Inv(before) && Inv(after) && Extends(before, after) && Effect(before, after, x)
    requires w.wallet != x && w.wallet in before.wallets
    requires w.id in before.wagers ==> before.wagers[w.id] == w
    ensures w.wallet in after.wallets && after.wallets[w.wallet] == before.wallets[w.wallet]
    ensures || DecideIn(after, w, at) == DecideIn(before, w, at)
            || (NeedsReference(w) && Foreign(w, FoundBy(after, w)) && DecideIn(before, w, at) == Wait)
  {
    hide Inv, Extends, FoundBy, HasReversal, Decide, DecideIn;
    var wallet, found := before.wallets[w.wallet], FoundBy(before, w);
    FoundStaysOrIsForeign(before, after, x, w);
    if FoundBy(after, w) == found {
      FoundDecides(before, after, x, w, at);
    } else {
      ReadsDecide(before, w, wallet, at);
      ReadsDecide(after, w, wallet, at);
      ForeignIsInvalid(w, wallet, FoundBy(after, w).value, HasReversal(after, FoundBy(after, w)), at);
      if found.Some? {
        ForeignIsInvalid(w, wallet, found.value, HasReversal(before, found), at);
      } else {
        NothingFoundWaits(w, wallet, HasReversal(before, found), at);
      }
    }
  }

  lemma ReadyStays(before: Db, after: Db, x: Uuid, w: Wager)
    requires Inv(before) && Inv(after) && Extends(before, after) && Effect(before, after, x)
    requires Ready(before, w) && w.wallet != x
    requires w.id in before.wagers || NewApart(before, after, w)
    ensures Ready(after, w) && (w.id !in before.wagers ==> w.id !in after.wagers)
  {
    hide WalletsOk, LinksOk, ReversalsOk, LedgerOk, AllBooked, BalancesOk, StreamOk, EventsOk, InboxOk, IdsOk, RowOk,
         Validate, PayloadOfWager;
    if w.id !in before.wagers {
      assert w.id !in after.wagers by {
        assert forall id :: id in after.wagers ==> after.wagers[id].id == id;
      }
      if IdentityTaken(after, w) {
        IdentityWasTaken(before, after, w);
      }
    } else {
      StoredRowStays(before, after, x, w.id);
    }
    hide IndexOk, RowsOk;
  }

  lemma IdentityWasTaken(before: Db, after: Db, w: Wager)
    requires IndexOk(before.wagers, before.byKey, before.byExternal) && IndexOk(after.wagers, after.byKey, after.byExternal)
    requires Extends(before, after) && NewApart(before, after, w) && w.id !in after.wagers
    requires IdentityTaken(after, w)
    ensures IdentityTaken(before, w)
  {
    var id := if (w.provider, w.key) in after.byKey then after.byKey[(w.provider, w.key)]
              else after.byExternal[(w.provider, w.externalId)];
    assert id in after.wagers && Clash(after.wagers[id], w);
    assert SameBusiness(before.wagers[id], after.wagers[id]);
  }

  lemma ClaimStays(before: Db, after: Db, x: Uuid, id: Uuid, at: Instant)
    requires Extends(before, after) && Effect(before, after, x)
    requires Claimable(before, id, at) && before.wagers[id].wallet != x
    ensures Claimable(after, id, at) && AttemptsOf(after, id) == AttemptsOf(before, id)
  {
    StoredRowStays(before, after, x, id);
    assert before.outbox <= after.outbox;
    var more := after.outbox[|before.outbox|..];
    assert before.outbox + more == after.outbox;
    Confluence.FirstPendingStays(before.outbox, more, id);
    hide FirstPending;
  }

  lemma WorkStays(family: Family, before: Db, after: Db, x: Uuid, clock: Instant, worker: Worker, w: Wager)
    requires Inv(before) && Inv(after) && Extends(before, after) && Effect(before, after, x)
    requires Working(family, before, clock, worker, w) && w.wallet != x
    requires worker.job.SubmitJob? ==> NewApart(before, after, w)
    ensures Working(family, after, clock, worker, w)
    ensures Attempting(before, worker, w) ==> Attempting(after, worker, w)
  {
    hide Inv, Extends, Effect, Ready, Claimable, Known, NewApart, AttemptsOf;
    WorkNames(family, before, clock, worker, w);
    WalletStays(before, after, x, w.wallet);
    if worker.job.RetryJob? {
      RowOfClaim(before, w.id, clock);
      ClaimStays(before, after, x, w.id, clock);
      StoredRowStays(before, after, x, w.id);
    }
    ReadyStays(before, after, x, w);
  }

  lemma WalletStays(before: Db, after: Db, x: Uuid, id: Uuid)
    requires Effect(before, after, x) && id in before.wallets && id != x
    ensures id in after.wallets && after.wallets[id] == before.wallets[id]
  {
  }

  lemma RowOfClaim(db: Db, id: Uuid, at: Instant)
    requires Claimable(db, id, at)
    ensures id in db.wagers && db.wagers[id].wallet in db.wallets
  {
  }

  lemma SeriallyStays(before: Db, after: Db, x: Uuid, worker: Worker, w: Wager, d: Decision, at: Instant)
    requires Extends(before, after) && Effect(before, after, x) && Ready(before, w)
    requires w.wallet in before.wallets && w.wallet in after.wallets && w.wallet != x
    requires DecideIn(after, w, at) == DecideIn(before, w, at) && Serially(before, worker, w, d, at)
    ensures Serially(after, worker, w, d, at)
  {
    hide Extends, Effect, Ready, DecideIn, Claimable;
    ReadyNames(before, w);
    if worker.job.RetryJob? {
      RowOfClaim(before, w.id, at);
      ClaimStays(before, after, x, w.id, at);
    }
  }

  lemma LateStays(before: Db, after: Db, x: Uuid, worker: Worker, w: Wager, d: Decision, at: Instant)
    requires Extends(before, after) && Effect(before, after, x) && Ready(before, w) && w.wallet != x
    requires Late(before, worker, w, d, at) && Foreign(w, FoundBy(after, w))
    ensures Late(after, worker, w, d, at)
  {
    hide Extends, Effect, Ready, Claimable, FoundBy;
    ReadyNames(before, w);
    if worker.job.RetryJob? {
      RowOfClaim(before, w.id, at);
      ClaimStays(before, after, x, w.id, at);
    }
  }

  /** A decision to wait, made serially, is late once the reference is foreign. */
  lemma BecomesLate(before: Db, after: Db, x: Uuid, worker: Worker, w: Wager, d: Decision, at: Instant)
    requires Extends(before, after) && Effect(before, after, x) && Ready(before, w) && w.wallet != x
    requires w.wallet in before.wallets && Serially(before, worker, w, d, at) && DecideIn(before, w, at) == Wait
    requires NeedsReference(w) && Foreign(w, FoundBy(after, w))
    ensures Late(after, worker, w, d, at)
  {
    hide Extends, Effect, Ready, Claimable, FoundBy, DecideIn;
    ReadyNames(before, w);
    if worker.job.RetryJob? {
      RowOfClaim(before, w.id, at);
      ClaimStays(before, after, x, w.id, at);
    }
  }

  lemma DecidesStays(family: Family, before: Db, after: Db, x: Uuid, clock: Instant, worker: Worker, w: Wager, d: Decision,
                     at: Instant)
    requires Inv(before) && Inv(after) && Extends(before, after) && Effect(before, after, x)
    requires Working(family, before, clock, worker, w) && w.wallet != x && (family.Apart? ==> Quiet(before, after, w))
    requires Decides(family, before, worker, w, d, at)
    ensures w.wallet in after.wallets && Decides(family, after, worker, w, d, at)
  {
    hide Inv, Extends, Effect, Known, Ready, Working, DecideIn, Claimable, Quiet, Serially, Late, FoundBy, Foreign;
    WorkNames(family, before, clock, worker, w);
    ReadyNames(before, w);
    if family.Apart? {
      DecisionStays(before, after, x, w, at);
      SeriallyStays(before, after, x, worker, w, d, at);
    } else {
      DecisionStaysOrIsLate(before, after, x, w, at);
      FoundStaysOrIsForeign(before, after, x, w);
      if Serially(before, worker, w, d, at) {
        if DecideIn(after, w, at) == DecideIn(before, w, at) {
          SeriallyStays(before, after, x, worker, w, d, at);
        } else {
          BecomesLate(before, after, x, worker, w, d, at);
        }
      } else {
        LateIsForeign(before, worker, w, d, at);
        LateStays(before, after, x, worker, w, d, at);
      }
    }
  }

  lemma LateIsForeign(db: Db, worker: Worker, w: Wager, d: Decision, at: Instant)
    requires Late(db, worker, w, d, at)
    ensures NeedsReference(w) && Foreign(w, FoundBy(db, w))
  {
  }

  // ---- The others after a commit ------------------------------------------------------------------------

  /** The worker has neither the lock nor a key nor the message of the commit, and looks for nothing of it. */
  ghost predicate Aside(family: Family, before: Db, after: Db, x: Uuid, worker: Worker) {
    && Lock(worker) != Some(x)
    && (family.Apart? && UnderWay(worker).Some? ==> Quiet(before, after, UnderWay(worker).value))
    && (Inserted(worker).Some? ==> NewApart(before, after, Inserted(worker).value))
    && (Registered(worker).Some? ==>
          Registered(worker).value in after.inbox ==> Registered(worker).value in before.inbox)
  }

  lemma PossessionsStay(family: Family, before: Db, after: Db, x: Uuid, worker: Worker)
    requires Effect(before, after, x) && PossessionsOk(before, worker) && Aside(family, before, after, x, worker)
    ensures PossessionsOk(after, worker)
  {
    hide NewApart, Inserted, Registered, UnderWay, Quiet;
  }

  lemma PcStays(family: Family, history: seq<Db>, after: Db, x: Uuid, clock: Instant, worker: Worker)
    requires history != [] && PcOk(family, history, clock, worker) && Aside(family, history[|history| - 1], after, x, worker)
    requires var before := history[|history| - 1];
             && Inv(before) && Inv(after) && Extends(before, after) && Effect(before, after, x)
    ensures PcOk(family, history + [after], clock, worker)
  {
    hide Inv, Effect, NewApart, Registered, Working, Decides, Read, Quiet, Claimable, Ready, Timely, FindByKey,
         FindByExternal, IdentityTaken, NoTwin, NoTwinByKey, FoundBy, Attempting;
    var before, longer := history[|history| - 1], history + [after];
    assert forall k :: 0 <= k < |history| ==> longer[k] == history[k];
    assert longer[|longer| - 1] == after;
    match worker.pc
    case Reference(w) =>
      WorkOf(family, before, clock, worker, w);
      WorkStays(family, before, after, x, clock, worker, w);
    case Reversal(w, found) =>
      WorkOf(family, before, clock, worker, w);
      WorkStays(family, before, after, x, clock, worker, w);
      ReadStays(family, before, after, x, w, worker.pc.found);
    case Write(w, d, at) =>
      WorkOf(family, before, clock, worker, w);
      WorkStays(family, before, after, x, clock, worker, w);
      DecidesStays(family, before, after, x, clock, worker, w, d, at);
      TimelyStays(before, after, x, w, at);
    case Done(_, _, _) | OpenDone(_, _, _) | ClaimDone(_, _, _, _) | Idle | Begin =>
    case Pick =>
    case Acquire(_) =>
    case LookKey(_, _) => SubmissionStays(before, after, x, worker);
    case LookExternal(_, _) => SubmissionStays(before, after, x, worker);
    case Check(_) => SubmissionStays(before, after, x, worker);
    case Insert => SubmissionStays(before, after, x, worker);
  }

  lemma TimelyStays(before: Db, after: Db, x: Uuid, w: Wager, at: Instant)
    requires Effect(before, after, x) && Timely(before, w, at) && w.wallet in before.wallets && w.wallet != x
    ensures Timely(after, w, at)
  {
  }

  lemma WorkOf(family: Family, db: Db, clock: Instant, worker: Worker, w: Wager)
    requires Working(family, db, clock, worker, w)
    ensures worker.held.Some? && worker.held.value.id == w.wallet && w.wallet in db.wallets && Known(family, w)
    ensures w.id in db.wagers ==> db.wagers[w.id] == w
    ensures worker.job.SubmitJob? ==> w == worker.job.wager
  {
    WorkNames(family, db, clock, worker, w);
    ReadyNames(db, w);
    hide Working, Ready;
  }

  lemma SubmissionStays(before: Db, after: Db, x: Uuid, worker: Worker)
    requires Extends(before, after) && Effect(before, after, x) && worker.job.SubmitJob?
    ensures HasWallet(worker) && Lock(worker) != Some(x) && NoTwin(before, worker.job.wager) ==> NoTwin(after, worker.job.wager)
    ensures HasWallet(worker) && Lock(worker) != Some(x) && NoTwinByKey(before, worker.job.wager) ==>
              NoTwinByKey(after, worker.job.wager)
    ensures forall m :: m in before.inbox ==> m in after.inbox && after.inbox[m] == before.inbox[m]
  {
    if worker.job.wager.wallet != x {
      TwinsStay(before, after, x, worker.job.wager);
    }
    hide Effect, NoTwin, NoTwinByKey;
  }

  lemma SerializedStays(family: Family, history: seq<Db>, after: Db, worker: Worker, i: nat)
    requires Serialized(family, history, worker, i)
    ensures Serialized(family, history + [after], worker, i)
  {
    hide AnsweredOn;
  }

  /** The step draws its identities from its own ticket. */
  ghost predicate DrawsOwn(before: Db, after: Db, own: nat) {
    forall ticket :: ticket != own && Unused(before, ticket) ==> Unused(after, ticket)
  }

  lemma OtherStays(family: Family, world: World, after: Db, x: Uuid, i: nat, j: nat)
    requires WorldOk(family, world) && i < |world.workers| && j < |world.workers| && j != i
    requires Inv(after) && Extends(Committed(world), after) && Effect(Committed(world), after, x)
    requires DrawsOwn(Committed(world), after, i)
    requires Active(world.workers[j]) ==> Aside(family, Committed(world), after, x, world.workers[j])
    ensures WorkerOk(family, world.history + [after], world.clock, world.workers[j], j)
  {
    hide Inv, Extends, Effect, AllKnown, WithinClock, JobOk, Unused, WorldOk, PcOk, PossessionsOk, Aside, Outcome;
    Situation(family, world, j);
    WorkerKnown(family, world, j);
    var worker := world.workers[j];
    SerializedStays(family, world.history, after, worker, j);
    if Active(worker) {
      PcStays(family, world.history, after, x, world.clock, worker);
      PossessionsStay(family, Committed(world), after, x, worker);
    } else {
      EndedStays(family, world.history, after, world.clock, worker);
    }
  }

  lemma EndedStays(family: Family, history: seq<Db>, after: Db, clock: Instant, worker: Worker)
    requires history != [] && !Active(worker) && PcOk(family, history, clock, worker)
    ensures PcOk(family, history + [after], clock, worker) && PossessionsOk(after, worker)
  {
    hide Working, ConflictSeen, Serially, NoTwin, NoTwinByKey, FindExisting;
  }

  lemma HistoryGrows(family: Family, history: seq<Db>, steps: seq<Step>, step: Step, after: Db)
    requires HistoryOk(family, history, steps) && Inv(after) && Extends(history[|history| - 1], after)
    requires family.Apart? ==> Admissible(history[|history| - 1], step) && after == Next(history[|history| - 1], step)
    ensures HistoryOk(family, history + [after], steps + [step])
  {
    hide Inv, Extends, Admissible, Next;
    var before := history[|history| - 1];
    ExtendsItself(after);
    var longer, more := history + [after], steps + [step];
    forall k | 0 <= k < |longer| ensures Inv(longer[k]) && Extends(longer[k], after) {
      if k < |history| {
        ExtendsFurther(history[k], before, after);
      }
    }
    forall k | 0 <= k < |more| && family.Apart? ensures Admissible(longer[k], more[k]) && longer[k + 1] == Next(longer[k], more[k]) {
      if k < |steps| {
        assert longer[k] == history[k] && longer[k + 1] == history[k + 1];
      }
    }
  }

  /** A commit that keeps to one wallet, and to what no other worker has, keeps the whole world in order. */
  lemma CommitKeeps(family: Family, world: World, i: nat, after: Db, step: Step, x: Uuid, pc: Pc)
    requires WorldOk(family, world) && i < |world.workers| && Active(world.workers[i])
    requires Inv(after) && Extends(Committed(world), after)
    requires family.Apart? ==> Admissible(Committed(world), step) && after == Next(Committed(world), step)
    requires CommitsAlone(family, world, i, after, x)
    requires pc.Idle? || Answers(pc)
    requires Serialized(family, world.history + [after], world.workers[i].(pc := pc, held := None), i)
    ensures WorldOk(family, Commit(world, i, after, step, pc))
  {
    hide Inv, Extends, Effect, AllKnown, WithinClock, JobOk, Unused, PcOk, PossessionsOk, Aside, Serialized, Admissible, Next,
         DrawsOwn, HistoryOk;
    var before := Committed(world);
    Situation(family, world, i);
    HistoryGrows(family, world.history, world.steps, step, after);
    var worker := world.workers[i].(pc := pc, held := None);
    var next := Commit(world, i, after, step, pc);
    CommitterIsOk(family, next.history, world.clock, world.workers[i], i, pc);
    forall j | 0 <= j < |next.workers| ensures WorkerOk(family, next.history, next.clock, next.workers[j], j) {
      if j != i {
        OtherStays(family, world, after, x, i, j);
      }
    }
    forall j, k | 0 <= j < |next.workers| && 0 <= k < |next.workers| && j != k
      ensures Exclusive(next.workers[j], next.workers[k])
    {
      CommitterHasNothing(worker, if j == i then next.workers[k] else next.workers[j]);
    }
    forall ticket | ticket >= |next.workers| ensures Unused(after, ticket) {
      TicketStays(before, after, i, ticket);
    }
  }

  /** The commit is about one wallet, draws its own identities and touches nothing of the other workers. */
  ghost predicate CommitsAlone(family: Family, world: World, i: nat, after: Db, x: Uuid)
    requires Wellformed(world) && i < |world.workers|
  {
    && Effect(Committed(world), after, x) && AllKnown(family, after) && WithinClock(after, world.clock)
    && DrawsOwn(Committed(world), after, i)
    && forall j :: 0 <= j < |world.workers| && j != i && Active(world.workers[j]) ==>
         Aside(family, Committed(world), after, x, world.workers[j])
  }

  lemma TicketStays(before: Db, after: Db, own: nat, ticket: nat)
    requires DrawsOwn(before, after, own) && ticket != own && Unused(before, ticket)
    ensures Unused(after, ticket)
  {
    hide Unused;
  }

  lemma CommitterIsOk(family: Family, history: seq<Db>, clock: Instant, worker: Worker, i: nat, pc: Pc)
    requires JobOk(family, clock, i, worker.job) && worker.since < |history| && (pc.Idle? || Answers(pc))
    requires Serialized(family, history, worker.(pc := pc, held := None), i)
    ensures WorkerOk(family, history, clock, worker.(pc := pc, held := None), i)
  {
    hide JobOk, Unused, Serialized, Working, ConflictSeen, Serially, NoTwin, NoTwinByKey, FindExisting;
  }

  lemma CommitterHasNothing(worker: Worker, other: Worker)
    requires worker.held.None? && (worker.pc.Idle? || Answers(worker.pc))
    ensures Exclusive(worker, other) && Exclusive(other, worker)
  {
  }

  // ---- What each commit writes --------------------------------------------------------------------------

  /** The schedules differ in one row at most. */
  predicate SchedulesApart(before: map<Uuid, Schedule>, after: map<Uuid, Schedule>, x: Uuid) {
    forall id :: id in after.Keys + before.Keys && id != x ==>
      id in before && id in after && after[id] == before[id]
  }

  /** Only this operation's row is new or changed. */
  ghost predicate WritesRow(before: Db, after: Db, w: Wager) {
    forall id :: id in after.wagers && !(id in before.wagers && before.wagers[id] == after.wagers[id]) ==>
      id == w.id && SameBusiness(w, after.wagers[id])
  }

  /** Nothing refers across wallets to a known operation that is written. */
  lemma KnownIsQuiet(family: Family, before: Db, after: Db, w: Wager, v: Wager)
    requires family.Apart? && Uncrossed(family) && Known(family, w) && Known(family, v) && WritesRow(before, after, w)
    ensures Quiet(before, after, v)
  {
    hide Uncrossed, Known;
    forall id | id in after.wagers && !(id in before.wagers && before.wagers[id] == after.wagers[id])
      ensures !Crosses(v, after.wagers[id])
    {
      KnownAlike(family, w, after.wagers[id]);
      KnownAreUncrossed(family, v, after.wagers[id]);
    }
  }

  lemma UnderWayIsKnown(family: Family, world: World, j: nat)
    requires WorldOk(family, world) && j < |world.workers| && UnderWay(world.workers[j]).Some?
    ensures var v := UnderWay(world.workers[j]).value;
            Known(family, v) && ValidWager(v) && !v.kind.Opening?
  {
    hide WorldOk, Inv, Extends, AllKnown, WithinClock, JobOk, Unused, Uncrossed, Known, Validate, PayloadOfWager, Serially,
         FoundBy, Claimable;
    Situation(family, world, j);
    ReadyNames(Committed(world), UnderWay(world.workers[j]).value);
  }

  lemma EnactedEffect(family: Family, clock: Instant, db: Db, schedules: map<Uuid, Schedule>, w: Wager, d: Decision,
                      stamp: Stamp, trace: Trace)
    requires Inv(db) && Steps.Enactable(db, w, d, stamp, trace) && w.wallet in db.wallets
    requires SchedulesApart(db.schedules, schedules, w.id) && Known(family, w) && w.createdAt <= clock
    requires w.id in db.wagers || w.id.ticket == stamp.ticket
    ensures var after := Enacted(db.(schedules := schedules), w, db.wallets[w.wallet], d, stamp, trace);
            && Effect(db, after, w.wallet) && DrawsOwn(db, after, stamp.ticket)
            && (AllKnown(family, db) ==> AllKnown(family, after))
            && (WithinClock(db, clock) ==> WithinClock(after, clock))
            && WritesRow(db, after, w)
            && after.inbox == db.inbox
  {
    hide Inv, Steps.Enactable, Unused, After, Enacted, DrawsOwn, Effect, AllKnown, Known, WithinClock, SchedulesApart;
    EnactedParts(db, w, d, stamp, trace);
    var wallet := db.wallets[w.wallet];
    var f := After(w, wallet, d, stamp.at);
    var after := Enacted(db.(schedules := schedules), w, wallet, d, stamp, trace);
    var moved := if d.Settle? && d.movement.Some? then d.movement.value.moved else wallet;
    EnactedDraws(db, schedules, w, wallet, d, stamp, trace);
    EnactedWrites(db, schedules, w, wallet, d, f, stamp, trace);
    WriteEffect(db, after, f, moved);
    WriteKnown(family, clock, db, after, w, f, moved);
  }

  lemma EnactedWrites(db: Db, schedules: map<Uuid, Schedule>, w: Wager, wallet: WalletRow, d: Decision, f: Wager,
                      stamp: Stamp, trace: Trace)
    requires f == After(w, wallet, d, stamp.at) && wallet.id in db.wallets && db.wallets[wallet.id] == wallet
    ensures var after := Enacted(db.(schedules := schedules), w, wallet, d, stamp, trace);
            && after.wagers == db.wagers[f.id := f] && after.schedules == schedules && after.inbox == db.inbox
            && after.wallets == (var moved := if d.Settle? && d.movement.Some? then d.movement.value.moved else wallet;
                                 db.wallets[moved.id := moved])
            && after.reversals == if Reverses(f) then db.reversals[f.referenceId.value := f.id] else db.reversals
  {
    hide After, EventsOf;
    assert db.wallets[wallet.id := wallet] == db.wallets;
  }

  lemma WriteEffect(before: Db, after: Db, f: Wager, moved: WalletRow)
    requires after.wagers == before.wagers[f.id := f] && after.wallets == before.wallets[moved.id := moved]
    requires moved.id == f.wallet && SchedulesApart(before.schedules, after.schedules, f.id)
    requires f.id in before.wagers ==> before.wagers[f.id].wallet == f.wallet
    requires after.reversals == if Reverses(f) then before.reversals[f.referenceId.value := f.id] else before.reversals
    requires Reverses(f) ==> f.referenceId.value in before.wagers && before.wagers[f.referenceId.value].wallet == f.wallet
    ensures Effect(before, after, f.wallet)
  {
  }

  lemma WriteKnown(family: Family, clock: Instant, before: Db, after: Db, w: Wager, f: Wager, moved: WalletRow)
    requires after.wagers == before.wagers[f.id := f] && after.wallets == before.wallets[moved.id := moved]
    requires SameBusiness(w, f) && Known(family, w) && w.createdAt <= clock
    requires moved.id in before.wallets && moved.createdAt == before.wallets[moved.id].createdAt
    ensures AllKnown(family, before) ==> AllKnown(family, after)
    ensures WithinClock(before, clock) ==> WithinClock(after, clock)
  {
  }

  lemma EnactedParts(db: Db, w: Wager, d: Decision, stamp: Stamp, trace: Trace)
    requires Inv(db) && Steps.Enactable(db, w, d, stamp, trace)
    ensures w.wallet in db.wallets
    ensures var wallet := db.wallets[w.wallet];
            var f := After(w, wallet, d, stamp.at);
            && SameBusiness(w, f) && wallet.id == w.wallet && w.id.Random? && !w.kind.Opening?
            && (w.id in db.wagers ==> db.wagers[w.id] == w)
            && (f.referenceId.Some? ==>
                  f.referenceId.value in db.wagers && db.wagers[f.referenceId.value].wallet == w.wallet)
            && (d.Settle? && d.movement.Some? ==>
                  d.movement.value.moved.id == w.wallet && d.movement.value.moved.createdAt == wallet.createdAt)
  {
    hide WalletsOk, IndexOk, LinksOk, ReversalsOk, LedgerOk, AllBooked, BalancesOk, StreamOk, EventsOk, InboxOk, IdsOk,
         DecideIn, Validate, PayloadOfWager, Unused, RowOk, DecisionOk;
    Steps.StepFacts(db, w, d, stamp, trace);
    Steps.DecisionSummary(db, w, d, stamp.at);
    OutcomeShape(w, db.wallets[w.wallet], d, stamp.at);
    assert Steps.Fits(db, After(w, db.wallets[w.wallet], d, stamp.at));
  }

  lemma EnactedDraws(db: Db, schedules: map<Uuid, Schedule>, w: Wager, wallet: WalletRow, d: Decision, stamp: Stamp,
                     trace: Trace)
    requires wallet.id in db.wallets && SameBusiness(w, After(w, wallet, d, stamp.at))
    requires d.Settle? && d.movement.Some? ==> d.movement.value.moved.id == wallet.id
    requires w.id in db.wagers || (w.id.Random? && w.id.ticket == stamp.ticket)
    ensures DrawsOwn(db, Enacted(db.(schedules := schedules), w, wallet, d, stamp, trace), stamp.ticket)
  {
    var after := Enacted(db.(schedules := schedules), w, wallet, d, stamp, trace);
    var f := After(w, wallet, d, stamp.at);
    assert after.wagers == db.wagers[f.id := f];
    forall ticket | ticket != stamp.ticket && Unused(db, ticket) ensures Unused(after, ticket) {
      forall k | 0 <= k < |after.outbox| ensures !Draws(after.outbox[k].id, ticket) {
        if k < |db.outbox| {
          assert after.outbox[k] == db.outbox[k];
        }
      }
    }
  }
}
