/** Two operations that refer to each other across wallets: both wait concurrently, and in no serial run. */
module MissedReferences {
  import opened Core
  import opened Finance
  import opened Domain
  import opened Engine
  import opened Invariant
  import opened Decisions
  import opened UseCases
  import opened Opening
  import opened Runs
  import opened Idempotency
  import opened Interleaving
  import opened Linearization
  import opened Crossing
  import Guarantees

  // ---- In no serial run -------------------------------------------------------------------------------

  /** No two operations that wait refer to each other across wallets. */
  ghost predicate NoMutualWait(db: Db) {
    forall x, y :: Waiting(db, x) && Waiting(db, y) ==> !(Crosses(db.wagers[x], db.wagers[y]) && Crosses(db.wagers[y], db.wagers[x]))
  }

  /** A new operation that waits refers across wallets to no other one that waits. */
  ghost predicate NewSeesAll(before: Db, after: Db) {
    forall x, y :: x !in before.wagers && Waiting(after, x) && Waiting(after, y) ==> !Crosses(after.wagers[x], after.wagers[y])
  }

  lemma WaitingSeesAll(db: Db, w: Wager, id: Uuid, at: Instant)
    requires Inv(db) && ValidWager(w) && !w.kind.Opening? && GoesThrough(db, w) && !IdentityTaken(db, w)
    requires DecideIn(db, w, at).Wait? && id in db.wagers
    ensures !Crosses(w, db.wagers[id])
  {
    hide Inv, FindExisting, DecideIn, Validate;
    var r := db.wagers[id];
    if Crosses(w, r) {
      StoredUnderKeys(db, id);
      OpeningHasNoProvider(w, r);
      ForeignReferenceIsRefused(db, w, r, at);
    }
  }

  lemma StoredUnderKeys(db: Db, id: Uuid)
    requires Inv(db) && id in db.wagers
    ensures ValidWager(db.wagers[id]) && db.wagers[id].id == id
    ensures var r := db.wagers[id];
            !r.kind.Opening? ==>
              && (r.provider, r.key) in db.byKey
              && (r.provider, r.externalId) in db.byExternal && db.byExternal[(r.provider, r.externalId)] == id
  {
    hide WalletsOk, LinksOk, ReversalsOk, LedgerOk, AllBooked, BalancesOk, StreamOk, EventsOk, InboxOk, IdsOk, Validate,
         PayloadOfWager;
  }

  lemma OpeningHasNoProvider(w: Wager, r: Wager)
    requires ValidWager(w) && !w.kind.Opening? && ValidWager(r) && w.provider == r.provider
    ensures !r.kind.Opening?
  {
    assert !Blank(w.provider);
  }

  lemma SubmitSeesAll(db: Db, w: Wager, q: Request, stamp: Stamp, trace: Trace)
    requires Inv(db) && Submittable(db, w, q, stamp, trace)
    ensures NewSeesAll(db, Submit(db, w, stamp, trace).db)
  {
    hide Inv, Submittable, Submit, DecideIn, Enacted, After, FindExisting, IdentityTaken, Crosses, Ready;
    var after := Submit(db, w, stamp, trace).db;
    if GoesThrough(db, w) {
      IndexesOk(db);
      SubmissionIsReady(db, w, q, stamp, trace);
      ReadyNames(db, w);
      SubmitUnfolds(db, w, stamp, trace);
      var d := DecideIn(db, w, stamp.at);
      if !d.Abort? {
        EnactedStores(Enrolled(db, w, stamp.at), w, db.wallets[w.wallet], d, stamp, trace);
        OutcomeWaits(w, db.wallets[w.wallet], d, stamp.at);
        forall x, y | x !in db.wagers && Waiting(after, x) && Waiting(after, y)
          ensures !Crosses(after.wagers[x], after.wagers[y])
        {
          SeesOther(db, w, after.wagers[w.id], y, after, stamp.at);
        }
      }
    } else {
      StoppedChangesNothing(db, w, stamp, trace);
    }
  }

  lemma IndexesOk(db: Db)
    requires Inv(db)
    ensures IndexOk(db.wagers, db.byKey, db.byExternal)
  {
    hide WalletsOk, RowsOk, IndexOk, LinksOk, ReversalsOk, LedgerOk, AllBooked, BalancesOk, StreamOk, EventsOk, InboxOk, IdsOk;
  }

  lemma OutcomeWaits(w: Wager, wallet: WalletRow, d: Decision, at: Instant)
    requires w.status.Pending? && !d.Abort?
    ensures SameBusiness(w, After(w, wallet, d, at)) && (After(w, wallet, d, at).status.PendingReference? ==> d.Wait?)
  {
  }

  lemma SeesOther(db: Db, w: Wager, f: Wager, y: Uuid, after: Db, at: Instant)
    requires Inv(db) && ValidWager(w) && !w.kind.Opening? && GoesThrough(db, w) && !IdentityTaken(db, w)
    requires w.id !in db.wagers && SameBusiness(w, f) && DecideIn(db, w, at).Wait?
    requires after.wagers == db.wagers[w.id := f] && y in after.wagers
    ensures !Crosses(f, after.wagers[y])
  {
    hide Inv, Validate, GoesThrough, IdentityTaken, DecideIn;
    if y != w.id {
      WaitingSeesAll(db, w, y, at);
    }
  }

  lemma ReceiveSeesAll(db: Db, body: Body, w: Wager, stamp: Stamp)
    requires Inv(db) && Submittable(db, w, body.request, stamp, body.request.trace)
    ensures NewSeesAll(db, Receive(db, body, w, stamp).db)
  {
    hide Inv, Submittable, Submit, FindExisting, Crosses;
    if body.messageId !in db.inbox {
      SubmitSeesAll(db, w, body.request, stamp, body.request.trace);
      ReceiveUnfolds(db, body, w, stamp);
    }
  }

  lemma NextSeesAll(db: Db, step: Step)
    requires Inv(db) && Admissible(db, step)
    ensures NewSeesAll(db, Next(db, step))
  {
    hide Inv, Unused, OnTime, Admit, Submit, RetryOne, Open, Receive, Claimable, Submittable, Crosses;
    match step
    case OpenStep(player, initial, trace, stamp) =>
      if Open(db, player, initial, stamp, trace).Ok? {
        forall x | x !in db.wagers ensures !Waiting(Next(db, step), x) {
          Guarantees.OpeningsDoNotWait(db, player, initial, stamp, trace, x);
        }
      }
    case SubmitStep(authorized, q, created, stamp) =>
      if AdmittedWager(authorized, q, created, stamp).Ok? {
        AdmittedIsSubmittable(db, authorized, q, created, stamp);
        SubmitSeesAll(db, AdmittedWager(authorized, q, created, stamp).value, q, stamp, q.trace);
      }
    case ReceiveStep(authorized, body, created, stamp) =>
      if AdmittedWager(authorized, body.request, created, stamp).Ok? {
        AdmittedIsSubmittable(db, authorized, body.request, created, stamp);
        ReceiveSeesAll(db, body, AdmittedWager(authorized, body.request, created, stamp).value, stamp);
      }
    case RetryStep(claimed, policy, stamp) =>
      forall x | x !in db.wagers ensures !Waiting(Next(db, step), x) {
        Guarantees.RetriesAddNothing(db, claimed, policy, stamp, x);
      }
  }

  lemma NextKeepsApart(db: Db, step: Step)
    requires Inv(db) && Admissible(db, step) && NoMutualWait(db)
    ensures NoMutualWait(Next(db, step))
  {
    hide Inv, Admissible, Next, Extends, Crosses;
    var after := Next(db, step);
    NextSeesAll(db, step);
    NextExtends(db, step);
    forall x, y | Waiting(after, x) && Waiting(after, y)
      ensures !(Crosses(after.wagers[x], after.wagers[y]) && Crosses(after.wagers[y], after.wagers[x]))
    {
      if x in db.wagers && y in db.wagers {
        WaitedBefore(db, after, x);
        WaitedBefore(db, after, y);
        CrossesAlike(db.wagers[x], after.wagers[x], db.wagers[y], after.wagers[y]);
        CrossesAlike(db.wagers[y], after.wagers[y], db.wagers[x], after.wagers[x]);
      }
    }
  }

  lemma WaitedBefore(before: Db, after: Db, id: Uuid)
    requires Inv(before) && Extends(before, after) && id in before.wagers && Waiting(after, id)
    ensures Waiting(before, id) && SameBusiness(before.wagers[id], after.wagers[id])
  {
    hide Inv;
    Guarantees.StatusesOfRows(before, id);
  }

  lemma CrossesAlike(x: Wager, x': Wager, y: Wager, y': Wager)
    requires SameBusiness(x, x') && SameBusiness(y, y')
    ensures Crosses(x, y) <==> Crosses(x', y')
  {
  }

  /** After any serial run, at least one of two operations that refer to each other across wallets is settled. */
  lemma {:induction false} SerialRunsKeepApart(db: Db, steps: seq<Step>)
    requires Inv(db) && NoMutualWait(db) && Runnable(db, steps)
    ensures NoMutualWait(Run(db, steps))
    decreases |steps|
  {
    hide Inv, NoMutualWait, Admissible, Next;
    if steps != [] {
      NextKeepsInv(db, steps[0]);
      NextKeepsApart(db, steps[0]);
      SerialRunsKeepApart(Next(db, steps[0]), steps[1..]);
    }
  }
  // ---- In a concurrent run ----------------------------------------------------------------------------

  const TRACING := Trace("correlation", "")

  function PlayerOf(k: nat): Uuid {
    Random(k, 9)
  }

  function WalletOf(k: nat): WalletRow {
    WalletRow(Random(k, ROW_SLOT), PlayerOf(k), Money(0, BRL), 1, 1, 1)
  }

  function Opener(k: nat): Job {
    OpenJob(PlayerOf(k), Money(0, BRL), TRACING)
  }

  /** A refund, in the wallet of the k-th player, of the operation with the other identity. */
  function RefundRequest(k: nat, mine: string, other: string): Request {
    Request("provider", mine, mine, PlayerOf(k), Random(k, ROW_SLOT), "round", "game", Refund, Money(1, BRL), Some(other),
            TRACING)
  }

  function RefundWager(k: nat, ticket: nat, mine: string, other: string): Wager {
    Wager(Random(ticket, ROW_SLOT), mine, "provider", mine, Sha256(PayloadOf(RefundRequest(k, mine, other))),
          Random(k, ROW_SLOT), PlayerOf(k), "round", "game", Refund, Money(1, BRL), Some(other), None, Pending, None, None,
          1, 1)
  }

  function Refunder(k: nat, ticket: nat, mine: string, other: string): Job {
    SubmitJob("provider", RefundRequest(k, mine, other), None, 1, RefundWager(k, ticket, mine, other))
  }

  lemma TextsAreFilled()
    ensures !Blank("correlation") && !Blank("provider") && !Blank("round") && !Blank("game") && !Blank("one") && !Blank("two")
  {
    assert !IsSpace("correlation"[0]) && !IsSpace("provider"[0]) && !IsSpace("round"[0]) && !IsSpace("game"[0]);
    assert !IsSpace("one"[0]) && !IsSpace("two"[0]);
    hide IsSpace;
  }

  lemma RefundIsAdmitted(k: nat, ticket: nat, mine: string, other: string)
    requires !Blank(mine) && !Blank(other) && |mine| <= 255 && |other| <= 255
    ensures Startable(1, ticket, Refunder(k, ticket, mine, other))
  {
    TextsAreFilled();
    hide Blank, MoneyText;
  }

  function OneOpened(): Db {
    EMPTY_DB.(wallets := map[WalletOf(0).id := WalletOf(0)], byOwner := map[Owner(WalletOf(0)) := WalletOf(0).id])
  }

  function TwoOpened(): Db {
    EMPTY_DB.(wallets := map[WalletOf(0).id := WalletOf(0), WalletOf(1).id := WalletOf(1)],
              byOwner := map[Owner(WalletOf(0)) := WalletOf(0).id, Owner(WalletOf(1)) := WalletOf(1).id])
  }

  lemma OpensOneMore(db: Db, k: nat)
    requires WalletOf(k).id !in db.wallets && Owner(WalletOf(k)) !in db.byOwner
    ensures Open(db, PlayerOf(k), Money(0, BRL), Stamp(k, 1), TRACING)
            == Ok(db.(wallets := db.wallets[WalletOf(k).id := WalletOf(k)],
                      byOwner := db.byOwner[Owner(WalletOf(k)) := WalletOf(k).id]))
    ensures OpenAnswer(db, PlayerOf(k), Money(0, BRL), Stamp(k, 1), TRACING) == Ok(WalletOf(k))
  {
  }

  function OpenerDone(k: nat): Worker {
    Worker(Opener(k), OpenDone(Ok(WalletOf(k)), k, 1), None, k)
  }

  function OpenerStep(k: nat): Step {
    OpenStep(PlayerOf(k), Money(0, BRL), TRACING, Stamp(k, 1))
  }

  /** The two openings have ended and the two refunds, each of the other, are about to begin. */
  function Prepared(): World {
    World([EMPTY_DB, OneOpened(), TwoOpened()], [OpenerStep(0), OpenerStep(1)], 1,
          [OpenerDone(0), OpenerDone(1), Worker(Refunder(0, 2, "one", "two"), Begin, None, 2),
           Worker(Refunder(1, 3, "two", "one"), Begin, None, 2)])
  }

  function Preparation(): seq<Action> {
    [Start(Opener(0))] + ([Statement(0, Nil)] + ([Start(Opener(1))] + ([Statement(1, Nil)]
    + ([Start(Refunder(0, 2, "one", "two"))] + ([Start(Refunder(1, 3, "two", "one"))] + [])))))
  }

  /** One more wallet is opened by the next worker. */
  lemma OpenerRuns(world: World, k: nat)
    requires Wellformed(world) && |world.workers| == k && |world.history| == k + 1 && world.clock == 1
    requires WalletOf(k).id !in Committed(world).wallets && Owner(WalletOf(k)) !in Committed(world).byOwner
    ensures var db := Committed(world);
            var larger := db.(wallets := db.wallets[WalletOf(k).id := WalletOf(k)],
                              byOwner := db.byOwner[Owner(WalletOf(k)) := WalletOf(k).id]);
            var began := world.(workers := world.workers + [Worker(Opener(k), Begin, None, k)]);
            && May(world, Start(Opener(k))) && Does(world, Start(Opener(k))) == began
            && May(began, Statement(k, Nil))
            && Does(began, Statement(k, Nil))
               == World(world.history + [larger], world.steps + [OpenerStep(k)], 1, world.workers + [OpenerDone(k)])
  {
    TextsAreFilled();
    OpensOneMore(Committed(world), k);
    hide Blank, Open, OpenAnswer;
    var began := world.(workers := world.workers + [Worker(Opener(k), Begin, None, k)]);
    assert Committed(began) == Committed(world) && began.workers[k] == Worker(Opener(k), Begin, None, k);
    assert !Blocked(began, k);
    assert began.workers[k := OpenerDone(k)] == world.workers + [OpenerDone(k)];
  }

  lemma JobStarts(world: World, job: Job)
    requires Wellformed(world) && Startable(world.clock, |world.workers|, job)
    ensures May(world, Start(job))
    ensures Does(world, Start(job)) == world.(workers := world.workers + [Worker(job, Begin, None, Latest(world))])
  {
    hide Startable;
  }

  lemma PreparationLeads()
    ensures Leads(START, Preparation(), Prepared())
  {
    hide May, Does, Leads, Refunder, Opener, OpenerStep, WalletOf, OpenerDone, Blank, Startable;
    WalletsDiffer();
    var one := World([EMPTY_DB, OneOpened()], [OpenerStep(0)], 1, [OpenerDone(0)]);
    var two := World([EMPTY_DB, OneOpened(), TwoOpened()], [OpenerStep(0), OpenerStep(1)], 1, [OpenerDone(0), OpenerDone(1)]);
    var a, b := Refunder(0, 2, "one", "two"), Refunder(1, 3, "two", "one");
    OpenerRuns(START, 0);
    assert Does(Does(START, Start(Opener(0))), Statement(0, Nil)) == one;
    OpenerRuns(one, 1);
    assert Does(Does(one, Start(Opener(1))), Statement(1, Nil)) == two;
    TextsAreFilled();
    RefundIsAdmitted(0, 2, "one", "two");
    RefundIsAdmitted(1, 3, "two", "one");
    JobStarts(two, a);
    var three := two.(workers := two.workers + [Worker(a, Begin, None, 2)]);
    JobStarts(three, b);
    assert Does(three, Start(b)) == Prepared();
    LeadsNowhere(Prepared());
    Prepend(three, Start(b), [], Prepared());
    Prepend(two, Start(a), [Start(b)] + [], Prepared());
    var rest := [Start(a)] + ([Start(b)] + []);
    Prepend(Does(one, Start(Opener(1))), Statement(1, Nil), rest, Prepared());
    Prepend(one, Start(Opener(1)), [Statement(1, Nil)] + rest, Prepared());
    Prepend(Does(START, Start(Opener(0))), Statement(0, Nil), [Start(Opener(1))] + ([Statement(1, Nil)] + rest), Prepared());
    Prepend(START, Start(Opener(0)), [Statement(0, Nil)] + ([Start(Opener(1))] + ([Statement(1, Nil)] + rest)), Prepared());
  }

  lemma WalletsDiffer()
    ensures WalletOf(0).id != WalletOf(1).id && Owner(WalletOf(0)) != Owner(WalletOf(1))
  {
  }

  // ---- Both wait ----------------------------------------------------------------------------------------

  lemma RefundsCross()
    ensures var a, b := RefundWager(0, 2, "one", "two"), RefundWager(1, 3, "two", "one");
            && Crosses(a, b) && Crosses(b, a) && !Clash(a, b) && a.wallet != b.wallet && a.id != b.id
            && a.status.Pending? && b.status.Pending?
  {
    assert "one"[0] != "two"[0];
  }

  lemma RefundsBegin()
    ensures Beginning(Prepared(), 2, 3)
    ensures Unhindered(TwoOpened(), Refunder(0, 2, "one", "two")) && Unhindered(TwoOpened(), Refunder(1, 3, "two", "one"))
  {
    RefundsCross();
    hide PayloadOf, MoneyText, Clash, Crosses;
    assert Committed(Prepared()) == TwoOpened();
  }

  /** A run of statements from the empty data, two openings and two refunds, that leaves both refunds waiting. */
  function CrossedRun(): seq<Action> {
    Preparation() + DecideThenCommit(2, 3)
  }

  /**
   * Two refunds that refer to each other across wallets are both left waiting by one interleaving;
   * no serial run of any steps, in any order, leaves these data.
   */
  lemma CrossedRefundsBothWait() returns (after: World)
    ensures AllMay(START, CrossedRun()) && Interleaved(START, CrossedRun()) == after && Wellformed(after)
    ensures var db, a, b := Committed(after), RefundWager(0, 2, "one", "two"), RefundWager(1, 3, "two", "one");
            && Waiting(db, a.id) && SameBusiness(a, db.wagers[a.id])
            && Waiting(db, b.id) && SameBusiness(b, db.wagers[b.id])
            && Crosses(a, b) && Crosses(b, a)
    ensures forall steps :: Runnable(EMPTY_DB, steps) ==> Run(EMPTY_DB, steps) != Committed(after)
  {
    hide Leads, Beginning, Preparation, Prepared, DecideThenCommit, Crosses, Clash, PayloadOf, Runnable, Run, Inv;
    RefundsCross();
    RefundsBegin();
    PreparationLeads();
    after := RefundsWait();
    Compose(START, Preparation(), Prepared(), DecideThenCommit(2, 3), after);
    LeadsTo(START, CrossedRun(), after);
    var a, b := RefundWager(0, 2, "one", "two"), RefundWager(1, 3, "two", "one");
    hide RefundWager, CrossedRun, Interleaved, AllMay, NoMutualWait;
    MutualWait(Committed(after), a, b);
    forall steps | Runnable(EMPTY_DB, steps) ensures Run(EMPTY_DB, steps) != Committed(after) {
      EmptyIsConsistent();
      NothingWaits();
      SerialRunsKeepApart(EMPTY_DB, steps);
    }
  }

  lemma NothingWaits()
    ensures NoMutualWait(EMPTY_DB)
  {
  }

  lemma MutualWait(db: Db, a: Wager, b: Wager)
    requires Waiting(db, a.id) && SameBusiness(a, db.wagers[a.id]) && Waiting(db, b.id) && SameBusiness(b, db.wagers[b.id])
    requires Crosses(a, b) && Crosses(b, a)
    ensures !NoMutualWait(db)
  {
    hide Crosses;
    CrossesAlike(a, db.wagers[a.id], b, db.wagers[b.id]);
    CrossesAlike(b, db.wagers[b.id], a, db.wagers[a.id]);
  }

  lemma RefundsWait() returns (after: World)
    ensures Leads(Prepared(), DecideThenCommit(2, 3), after) && Wellformed(after)
    ensures var db, a, b := Committed(after), RefundWager(0, 2, "one", "two"), RefundWager(1, 3, "two", "one");
            && Waiting(db, a.id) && SameBusiness(a, db.wagers[a.id])
            && Waiting(db, b.id) && SameBusiness(b, db.wagers[b.id])
  {
    hide Leads, Beginning, DecideThenCommit, Crosses, Clash, PayloadOf, DecideIn, Left, RefundWager, StepOf, FindExisting,
         IdentityTaken;
    RefundsCross();
    RefundsBegin();
    var db, a, b := TwoOpened(), Refunder(0, 2, "one", "two"), Refunder(1, 3, "two", "one");
    assert Committed(Prepared()) == db && Prepared().clock == 1;
    CrossedWaits(db, a, b, 1);
    ClashIsMutual(a.wager, b.wager);
    CrossedWaits(db, b, a, 1);
    after := BothCommit(Prepared(), 2, 3);
    var first := Left(db, b, db.wallets[b.wager.wallet], Wait, 3, 1);
    WaitingRow(db, b, db.wallets[b.wager.wallet], 3, 1);
    WaitingRow(first, a, db.wallets[a.wager.wallet], 2, 1);
  }
}
