/** The guarantees of the engine over every run from an empty database. */
module Guarantees {
  import opened Core
  import opened Finance
  import opened Domain
  import opened Delays
  import opened Engine
  import opened Invariant
  import opened UseCases
  import opened Runs
  import opened Idempotency
  import EventStream
  import NetEffect
  import Opening
  import Pagination
  import Preservation
  import Schema

  lemma ReachableIsConsistent(steps: seq<Step>)
    requires Runnable(EMPTY_DB, steps)
    ensures Inv(Run(EMPTY_DB, steps))
  {
    hide Inv, Runnable, Run;
    EmptyIsConsistent();
    RunKeepsInv(EMPTY_DB, steps);
  }

  // ---- Books ----------------------------------------------------------------------------------------

  /** How many entries account for an operation. */
  function EntriesOf(ledger: seq<Entry>, transaction: Uuid): nat {
    if ledger == [] then 0
    else EntriesOf(ledger[..|ledger| - 1], transaction) + (if ledger[|ledger| - 1].transaction == transaction then 1 else 0)
  }

  lemma {:induction false} BookedOnce(wagers: map<Uuid, Wager>, ledger: seq<Entry>, n: nat, id: Uuid)
    requires LedgerOk(wagers, ledger) && n <= |ledger|
    ensures EntriesOf(ledger[..n], id) == if id in Booked(ledger[..n]) then 1 else 0
  {
    if n > 0 {
      BookedOnce(wagers, ledger, n - 1, id);
      assert ledger[..n][..n - 1] == ledger[..n - 1];
      assert InOrder(wagers, ledger[..n - 1], ledger[n - 1]);
    }
  }

  /** Exactly the processed operations other than losses have an entry, and each has one. */
  lemma OneEntryEach(db: Db, id: Uuid)
    requires Inv(db) && id in db.wagers
    ensures EntriesOf(db.ledger, id) == if Financial(db.wagers[id]) then 1 else 0
  {
    hide WalletsOk, RowsOk, IndexOk, LinksOk, ReversalsOk, BalancesOk, StreamOk, EventsOk, InboxOk, IdsOk, InOrder;
    assert db.ledger[..|db.ledger|] == db.ledger;
    BookedOnce(db.wagers, db.ledger, |db.ledger|, id);
    Preservation.BookedIsListed(db.ledger);
    if id in Booked(db.ledger) {
      var k :| 0 <= k < |db.ledger| && db.ledger[k].transaction == id;
      assert EntryOk(db.wagers, db.ledger[k]);
    }
  }

  /** In order, the entries of a wallet lead from zero to its balance, each from where the one before ended. */
  lemma EntriesChain(db: Db, k: nat)
    requires Inv(db) && k < |db.ledger|
    ensures var e := db.ledger[k];
            && e.before.amount == Sum(db.ledger[..k], e.wallet) && e.after.amount == Sum(db.ledger[..k + 1], e.wallet)
            && e.before.amount >= 0 && e.after.amount >= 0
  {
    hide WalletsOk, RowsOk, IndexOk, LinksOk, ReversalsOk, BalancesOk, StreamOk, EventsOk, InboxOk, IdsOk, AllBooked;
    assert EntryOk(db.wagers, db.ledger[k]) && InOrder(db.wagers, db.ledger[..k], db.ledger[k]);
    EventStream.PrefixStep(db.ledger, k, db.ledger[k].wallet);
  }

  /**
   * After any run, each wallet holds the signed sum of its entries and one version more than its
   * movements, passes the checks of the storage at the commit, and reconciles.
   */
  lemma BooksAgree(steps: seq<Step>, wallet: Uuid)
    requires Runnable(EMPTY_DB, steps) && wallet in Run(EMPTY_DB, steps).wallets
    ensures var db := Run(EMPTY_DB, steps);
            var row := db.wallets[wallet];
            && row.balance.amount == Sum(db.ledger, wallet) && row.version == 1 + Moves(db.ledger, wallet)
            && Schema.CommitChecks(db)
            && Pagination.Reconcile(db, wallet).Ok? && Pagination.Reconcile(db, wallet).value.consistent
  {
    hide Runnable, Run, WalletsOk, RowsOk, IndexOk, LinksOk, ReversalsOk, LedgerOk, AllBooked, StreamOk, EventsOk, InboxOk,
         IdsOk, Schema.CommitChecks, Pagination.Reconcile;
    ReachableIsConsistent(steps);
    Schema.ConsistentPasses(Run(EMPTY_DB, steps));
    Pagination.AlwaysReconciles(Run(EMPTY_DB, steps), wallet);
  }

  /** After any run, a balance is the opening and the effective wins less the effective bets. */
  lemma BalancesAreNetEffects(steps: seq<Step>, wallet: Uuid)
    requires Runnable(EMPTY_DB, steps) && wallet in Run(EMPTY_DB, steps).wallets
    ensures var db := Run(EMPTY_DB, steps);
            db.wallets[wallet].balance.amount as int == NetEffect.NetTotal(db.wagers, db.wagers.Keys, wallet)
  {
    hide Runnable, Run, Inv, NetEffect.NetTotal;
    ReachableIsConsistent(steps);
    NetEffect.BalanceIsNetEffect(Run(EMPTY_DB, steps), wallet);
  }

  /** After any run, the balance changes of a wallet rebuild its balance at its version. */
  lemma StreamsRebuildWallets(steps: seq<Step>, wallet: Uuid)
    requires Runnable(EMPTY_DB, steps) && wallet in Run(EMPTY_DB, steps).wallets
    ensures var db := Run(EMPTY_DB, steps);
            EventStream.Rebuilt(Changes(db.outbox), wallet, EventStream.FirstVersion(db.wagers, wallet),
                                db.wallets[wallet].version)
            == Some(db.wallets[wallet].balance.amount as int)
  {
    hide Runnable, Run, Inv, EventStream.Rebuilt;
    ReachableIsConsistent(steps);
    EventStream.StreamRebuildsBalance(Run(EMPTY_DB, steps), wallet);
  }

  // ---- The graph of references --------------------------------------------------------------------------

  predicate RefersTo(db: Db, a: Uuid, b: Uuid) {
    a in db.wagers && b in db.wagers && db.wagers[a].referenceId == Some(b)
  }

  /** What a link joins: a processed operation of the same provider, wallet, player, currency and round, of a fitting kind. */
  lemma LinksJoin(db: Db, a: Uuid)
    requires Inv(db) && a in db.wagers && db.wagers[a].referenceId.Some?
    ensures var b := db.wagers[a].referenceId.value;
            RefersTo(db, a, b) && a != b && Linked(db.wagers[a], db.wagers[b])
    ensures var b := db.wagers[a].referenceId.value;
            && (db.wagers[a].kind.Win? || db.wagers[a].kind.Refund? ==> db.wagers[b].kind.Bet?)
            && (db.wagers[a].kind.Rollback? ==> db.wagers[b].kind.Bet? || db.wagers[b].kind.Win? || db.wagers[b].kind.Refund?)
  {
    hide WalletsOk, IndexOk, ReversalsOk, LedgerOk, AllBooked, BalancesOk, StreamOk, EventsOk, InboxOk, IdsOk, RowOk;
  }

  /** A chain of links has at most two, from a rollback by a win or a refund to a bet. */
  lemma ChainsAreShort(db: Db, a: Uuid, b: Uuid, c: Uuid)
    requires Inv(db) && RefersTo(db, a, b) && RefersTo(db, b, c)
    ensures db.wagers[c].kind.Bet? && db.wagers[c].referenceId.None?
    ensures db.wagers[a].kind.Rollback? && (db.wagers[b].kind.Win? || db.wagers[b].kind.Refund?)
  {
    hide Inv, Linked;
    LinksJoin(db, a);
    LinksJoin(db, b);
    BetsRefer(db, a);
    BetsRefer(db, b);
    BetsRefer(db, c);
  }

  lemma BetsRefer(db: Db, id: Uuid)
    requires Inv(db) && id in db.wagers
    ensures db.wagers[id].kind.Bet? ==> db.wagers[id].referenceId.None?
    ensures db.wagers[id].referenceId.Some? ==> NeedsReference(db.wagers[id])
  {
    hide WalletsOk, IndexOk, ReversalsOk, LedgerOk, AllBooked, BalancesOk, StreamOk, EventsOk, InboxOk, IdsOk, RowOk;
    if db.wagers[id].referenceId.Some? {
      assert Linked(db.wagers[id], db.wagers[db.wagers[id].referenceId.value]);
    }
  }

  /** No operation is reversed twice. */
  lemma OneReversalEach(db: Db, a: Uuid, b: Uuid, r: Uuid)
    requires Inv(db) && RefersTo(db, a, r) && RefersTo(db, b, r) && Reverses(db.wagers[a]) && Reverses(db.wagers[b])
    ensures a == b
  {
    hide WalletsOk, RowsOk, IndexOk, LinksOk, LedgerOk, AllBooked, BalancesOk, StreamOk, EventsOk, InboxOk, IdsOk;
    assert db.reversals[r] == a && db.reversals[r] == b;
  }

  /** What an entry's operation refers to has its own entry earlier in the ledger. */
  lemma LinksPointBack(db: Db, k: nat) returns (j: nat)
    requires Inv(db) && k < |db.ledger| && db.wagers[db.ledger[k].transaction].referenceId.Some?
    ensures j < k && Some(db.ledger[j].transaction) == db.wagers[db.ledger[k].transaction].referenceId
  {
    hide WalletsOk, RowsOk, IndexOk, LinksOk, ReversalsOk, AllBooked, BalancesOk, StreamOk, EventsOk, InboxOk, IdsOk;
    assert EntryOk(db.wagers, db.ledger[k]) && InOrder(db.wagers, db.ledger[..k], db.ledger[k]);
    Preservation.BookedIsListed(db.ledger[..k]);
    j :| 0 <= j < |db.ledger[..k]| && Some(db.ledger[..k][j].transaction) == db.wagers[db.ledger[k].transaction].referenceId;
  }

  /** A stored operation waits without a link, or is settled; none is pending or failed. */
  lemma StatusesOfRows(db: Db, id: Uuid)
    requires Inv(db) && id in db.wagers
    ensures var w := db.wagers[id];
            && (Waiting(db, id) || w.status.Processed? || w.status.Rejected?)
            && (Waiting(db, id) ==> w.referenceId.None? && NeedsReference(w))
            && (w.status.Processed? && NeedsReference(w) ==> w.referenceId.Some?)
  {
    hide WalletsOk, IndexOk, LinksOk, ReversalsOk, LedgerOk, AllBooked, BalancesOk, StreamOk, EventsOk, InboxOk, IdsOk,
         PayloadOfWager;
    assert RowOk(db.wallets, db.wagers[id]);
  }

  // ---- Reading while others write -------------------------------------------------------------------------

  /** Some run leads from the first database to the second. */
  ghost predicate Later(before: Db, after: Db) {
    exists steps :: Runnable(before, steps) && Run(before, steps) == after
  }

  /** The data at the moments of several reads, the first of them after some run from the empty database. */
  ghost predicate Moments(dbs: seq<Db>) {
    && dbs != [] && Later(EMPTY_DB, dbs[0])
    && forall k :: 0 < k < |dbs| ==> Later(dbs[k - 1], dbs[k])
  }

  function LedgersOf(dbs: seq<Db>): (ledgers: seq<seq<Entry>>)
    ensures |ledgers| == |dbs| && forall k :: 0 <= k < |dbs| ==> ledgers[k] == dbs[k].ledger
  {
    seq(|dbs|, k requires 0 <= k < |dbs| => dbs[k].ledger)
  }

  lemma LaterExtends(before: Db, after: Db)
    requires Inv(before) && Later(before, after)
    ensures Inv(after) && Extends(before, after)
  {
    hide Inv, Extends, Runnable, Run;
    var steps :| Runnable(before, steps) && Run(before, steps) == after;
    RunKeepsInv(before, steps);
    RunExtends(before, steps);
  }

  lemma {:induction false} MomentsExtend(dbs: seq<Db>, k: nat)
    requires Moments(dbs) && k < |dbs|
    ensures Inv(dbs[k]) && Extends(dbs[0], dbs[k])
  {
    hide Inv, Extends, Later;
    if k == 0 {
      EmptyIsConsistent();
      LaterExtends(EMPTY_DB, dbs[0]);
      ExtendsItself(dbs[0]);
    } else {
      MomentsExtend(dbs, k - 1);
      LaterExtends(dbs[k - 1], dbs[k]);
      ExtendsFurther(dbs[0], dbs[k - 1], dbs[k]);
    }
  }

  lemma LedgerGrows(before: Db, after: Db)
    requires Extends(before, after)
    ensures before.ledger <= after.ledger
  {
  }

  /**
   * Whatever runs between the pages that a client reads, its cursors are accepted, and each entry
   * of the wallet that was there at the start is read exactly once.
   */
  lemma ReadersMissNothing(rank: Pagination.Rank, dbs: seq<Db>, wallet: Uuid, limit: nat, pages: seq<Pagination.Page>, e: Entry)
    returns (place: nat)
    requires Moments(dbs) && Pagination.Followed(rank, LedgersOf(dbs), wallet, None, limit, pages)
    requires e in dbs[0].ledger && e.wallet == wallet
    ensures place < |Pagination.Items(pages)| && Pagination.Items(pages)[place] == e
    ensures forall k :: 0 <= k < |Pagination.Items(pages)| && Pagination.Items(pages)[k] == e ==> k == place
    ensures forall k :: 0 <= k < |pages| && pages[k].next.Encoded? ==>
              pages[k].items != []
              && Pagination.DecodeCursor(wallet, pages[k].next)
                 == Ok(Some(Pagination.PlaceOf(pages[k].items[|pages[k].items| - 1])))
  {
    hide Inv, Extends, Moments, Pagination.Items, Pagination.Following, Pagination.DecodeCursor;
    var ledgers := LedgersOf(dbs);
    assert |dbs| == |pages| > 0 by {
      FollowingIsLong(rank, ledgers, wallet, limit, pages);
    }
    forall k | 0 <= k < |dbs| ensures ledgers[0] <= ledgers[k] && Pagination.DistinctIds(ledgers[k]) && Listed(ledgers[k]) {
      MomentsExtend(dbs, k);
      LedgerGrows(dbs[0], dbs[k]);
      Pagination.ConsistentLedgersList(dbs[k]);
    }
    place := Pagination.EachEntryOnce(rank, ledgers, wallet, limit, pages, e);
    forall k | 0 <= k < |pages| && pages[k].next.Encoded?
      ensures pages[k].items != []
              && Pagination.DecodeCursor(wallet, pages[k].next)
                 == Ok(Some(Pagination.PlaceOf(pages[k].items[|pages[k].items| - 1])))
    {
      Pagination.CursorsAreAccepted(rank, ledgers, wallet, None, limit, pages, k);
    }
  }

  ghost predicate Listed(ledger: seq<Entry>) {
    forall e :: e in ledger ==> e.id.Random? && e.createdAt > 0
  }

  lemma FollowingIsLong(rank: Pagination.Rank, ledgers: seq<seq<Entry>>, wallet: Uuid, limit: nat, pages: seq<Pagination.Page>)
    requires Pagination.Followed(rank, ledgers, wallet, None, limit, pages)
    ensures |ledgers| == |pages| > 0
  {
  }

  // ---- Waiting ------------------------------------------------------------------------------------------

  /** Every waiting operation has attempts left. */
  ghost predicate AttemptsLeft(db: Db, policy: ReferencePolicy) {
    forall id :: id in db.wagers && Waiting(db, id) ==> AttemptsOf(db, id) < policy.maxAttempts
  }

  /** A row that a step creates starts with no attempt made. */
  lemma NewRowsStartAtZero(db: Db, step: Step, id: Uuid)
    requires Inv(db) && Admissible(db, step) && id !in db.wagers && Waiting(Next(db, step), id)
    ensures AttemptsOf(Next(db, step), id) == 0
  {
    hide Inv, Unused, OnTime, Admit, Submit, RetryOne, Open, Receive, Claimable, AttemptsOf;
    match step
    case OpenStep(player, initial, trace, stamp) => OpeningsDoNotWait(db, player, initial, stamp, trace, id);
    case SubmitStep(authorized, q, created, stamp) =>
      if AdmittedWager(authorized, q, created, stamp).Ok? {
        SubmittedStartsAtZero(db, AdmittedWager(authorized, q, created, stamp).value, stamp, q.trace, id);
      }
    case ReceiveStep(authorized, body, created, stamp) =>
      if AdmittedWager(authorized, body.request, created, stamp).Ok? {
        ReceivedStartsAtZero(db, body, AdmittedWager(authorized, body.request, created, stamp).value, stamp, id);
      }
    case RetryStep(claimed, policy, stamp) => RetriesAddNothing(db, claimed, policy, stamp, id);
  }

  lemma SubmittedStartsAtZero(db: Db, w: Wager, stamp: Stamp, trace: Trace, id: Uuid)
    requires id !in db.wagers
    ensures id in Submit(db, w, stamp, trace).db.wagers ==> AttemptsOf(Submit(db, w, stamp, trace).db, id) == 0
  {
    hide DecideIn, After, FindExisting, Compare, IdentityTaken, EventsOf, EntryOf;
    if w.wallet in db.wallets {
      OutcomeIdentity(w, db.wallets[w.wallet], DecideIn(db, w, stamp.at), stamp.at);
    }
  }

  lemma ReceivedStartsAtZero(db: Db, body: Body, w: Wager, stamp: Stamp, id: Uuid)
    requires id !in db.wagers
    ensures id in Receive(db, body, w, stamp).db.wagers ==> AttemptsOf(Receive(db, body, w, stamp).db, id) == 0
  {
    hide Submit, FindExisting, Compare;
    SubmittedStartsAtZero(db, w, stamp, body.request.trace, id);
    if body.messageId !in db.inbox {
      ReceiveUnfolds(db, body, w, stamp);
    }
  }

  lemma RetriesAddNothing(db: Db, claimed: Uuid, policy: ReferencePolicy, stamp: Stamp, id: Uuid)
    requires Inv(db) && ValidReferencePolicy(policy) && Claimable(db, claimed, stamp.at) && id !in db.wagers
    ensures RetryOne(db, claimed, policy, stamp).Ok? ==> id !in RetryOne(db, claimed, policy, stamp).value.wagers
  {
    hide WalletsOk, IndexOk, LinksOk, ReversalsOk, LedgerOk, AllBooked, BalancesOk, StreamOk, EventsOk, InboxOk, IdsOk,
         RowOk, DecideRetry, After, Backoff, FirstPending, EventsOf, EntryOf;
    var w := db.wagers[claimed];
    assert w.id == claimed;
    OutcomeIdentity(w, db.wallets[w.wallet], DecideRetry(db, w, policy, stamp.at), stamp.at);
  }

  lemma OpeningsDoNotWait(db: Db, player: Uuid, initial: Money, stamp: Stamp, trace: Trace, id: Uuid)
    requires id !in db.wagers && Open(db, player, initial, stamp, trace).Ok?
    ensures !Waiting(Open(db, player, initial, stamp, trace).value, id)
  {
    hide Opened;
    OpenedIsProcessed(db, NewWallet(player, initial, Fresh(stamp, ROW_SLOT), stamp.at).value, stamp, trace, id);
  }

  lemma OpenedIsProcessed(db: Db, wallet: WalletRow, stamp: Stamp, trace: Trace, id: Uuid)
    requires id !in db.wagers
    ensures id in Opened(db, wallet, stamp, trace).wagers ==> Opened(db, wallet, stamp, trace).wagers[id].status.Processed?
  {
    assert OpeningOf(wallet, stamp.at).status.Processed?;
    hide OpeningOf, OpeningEntry, OpeningEvents;
  }

  lemma StepLeavesAttempts(db: Db, step: Step, policy: ReferencePolicy)
    requires Inv(db) && Admissible(db, step) && AttemptsLeft(db, policy) && ValidReferencePolicy(policy)
    requires step.RetryStep? ==> step.policy == policy
    ensures AttemptsLeft(Next(db, step), policy)
  {
    hide Inv, Admissible, Next, AttemptsOf, Waiting, Extends;
    var next := Next(db, step);
    NextExtends(db, step);
    forall id | id in next.wagers && Waiting(next, id) ensures AttemptsOf(next, id) < policy.maxAttempts {
      if id in db.wagers {
        StatusesOfRows(db, id);
        TerminalDoesNotWait(db, next, id);
        WaitingStep(db, step, id, policy);
      } else {
        NewRowsStartAtZero(db, step, id);
      }
    }
  }

  lemma TerminalDoesNotWait(before: Db, after: Db, id: Uuid)
    requires Extends(before, after) && id in before.wagers && Waiting(after, id)
    ensures !IsTerminal(before.wagers[id])
  {
  }

  /** Under one policy, no run leaves an operation waiting with its attempts used up. */
  lemma {:induction false} WaitsHaveAttemptsLeft(db: Db, steps: seq<Step>, policy: ReferencePolicy)
    requires Inv(db) && Runnable(db, steps) && OnePolicy(steps, policy) && ValidReferencePolicy(policy)
    requires AttemptsLeft(db, policy)
    ensures AttemptsLeft(Run(db, steps), policy)
    decreases |steps|
  {
    hide Inv, Admissible, Next, AttemptsLeft;
    if steps != [] {
      NextKeepsInv(db, steps[0]);
      StepLeavesAttempts(db, steps[0], policy);
      assert forall i :: 0 <= i < |steps[1..]| ==> steps[1..][i] == steps[i + 1];
      WaitsHaveAttemptsLeft(Next(db, steps[0]), steps[1..], policy);
    }
  }

  /** From the empty database on, every operation that waits is terminal after at most the policy's number of claims. */
  lemma EveryWaitEnds(steps: seq<Step>, more: seq<Step>, policy: ReferencePolicy, id: Uuid)
    requires Runnable(EMPTY_DB, steps) && OnePolicy(steps, policy) && ValidReferencePolicy(policy)
    requires Runnable(Run(EMPTY_DB, steps), more) && OnePolicy(more, policy) && Waiting(Run(EMPTY_DB, steps), id)
    ensures CountClaims(Run(EMPTY_DB, steps), more, id) <= policy.maxAttempts
    ensures CountClaims(Run(EMPTY_DB, steps), more, id) == policy.maxAttempts ==>
              !Waiting(Run(Run(EMPTY_DB, steps), more), id)
  {
    hide Inv, Runnable, Run, CountClaims;
    EmptyIsConsistent();
    ReachableIsConsistent(steps);
    assert AttemptsLeft(EMPTY_DB, policy);
    WaitsHaveAttemptsLeft(EMPTY_DB, steps, policy);
    assert id in Run(EMPTY_DB, steps).wagers;
    WaitsAreBounded(Run(EMPTY_DB, steps), more, id, policy);
  }

  // ---- The guarantees are not empty -----------------------------------------------------------------------

  /** A bet of one provider on a wallet opened by the first execution. */
  function SampleBet(stake: int64): Request {
    Request("provider", "external", "key", Random(9, 9), Fresh(Stamp(0, 1), ROW_SLOT), "round", "game", Bet,
            Money(stake, BRL), None, Trace("correlation", ""))
  }

  function SampleRun(initial: int64, stake: int64): seq<Step> {
    [OpenStep(Random(9, 9), Money(initial, BRL), Trace("correlation", ""), Stamp(0, 1)),
     SubmitStep("provider", SampleBet(stake), 2, Stamp(1, 3))]
  }

  lemma SampleIsAdmitted(stake: int64)
    requires stake > 0
    ensures AdmittedWager("provider", SampleBet(stake), 2, Stamp(1, 3)).Ok?
  {
    assert !IsSpace("provider"[0]) && !IsSpace("external"[0]) && !IsSpace("key"[0]);
    assert !IsSpace("round"[0]) && !IsSpace("game"[0]);
    hide MoneyText, IsSpace;
  }

  /** Runs exist: a wallet is opened with some money, and a bet that it covers leaves the difference. */
  lemma SampleRuns(initial: int64, stake: int64)
    requires 0 < stake <= initial
    ensures var steps, wallet := SampleRun(initial, stake), Fresh(Stamp(0, 1), ROW_SLOT);
            && Runnable(EMPTY_DB, steps) && wallet in Run(EMPTY_DB, steps).wallets
            && Run(EMPTY_DB, steps).wallets[wallet].balance == Money(initial - stake, BRL)
  {
    var steps := SampleRun(initial, stake);
    hide Runnable, Run, MoneyText, Inv, Admissible, Next, Unused;
    SampleOpens(initial);
    var first := Next(EMPTY_DB, steps[0]);
    EmptyIsConsistent();
    NextKeepsInv(EMPTY_DB, steps[0]);
    SampleBets(first, initial, stake);
    RunOfTwo(EMPTY_DB, steps[0], steps[1]);
    assert steps == [steps[0], steps[1]];
  }

  lemma RunOfTwo(db: Db, a: Step, b: Step)
    requires Admissible(db, a) && Admissible(Next(db, a), b)
    ensures Runnable(db, [a, b]) && Run(db, [a, b]) == Next(Next(db, a), b)
  {
    hide Admissible, Next;
    var next := Next(db, a);
    assert [a, b][1..] == [b] && [b][1..] == [] && [a, b][0] == a && [b][0] == b;
    assert Runnable(Next(next, b), []) && Run(Next(next, b), []) == Next(next, b);
    assert Runnable(next, [b]) && Run(next, [b]) == Next(next, b);
  }

  lemma SampleOpens(initial: int64)
    requires initial > 0
    ensures var step, wallet := SampleRun(initial, 1)[0], Fresh(Stamp(0, 1), ROW_SLOT);
            && Admissible(EMPTY_DB, step)
            && (var db := Next(EMPTY_DB, step);
                && Unused(db, 1) && wallet in db.wallets && db.byKey == map[] && db.byExternal == map[]
                && db.wallets[wallet] == WalletRow(wallet, Random(9, 9), Money(initial, BRL), 1, 1, 1))
  {
    assert !IsSpace("correlation"[0]);
    hide IsSpace;
  }

  lemma SampleBets(db: Db, initial: int64, stake: int64)
    requires 0 < stake <= initial && Inv(db) && Unused(db, 1) && db.byKey == map[] && db.byExternal == map[]
    requires var wallet := Fresh(Stamp(0, 1), ROW_SLOT);
             wallet in db.wallets
             && db.wallets[wallet] == WalletRow(wallet, Random(9, 9), Money(initial, BRL), 1, 1, 1)
    ensures var step, wallet := SampleRun(initial, stake)[1], Fresh(Stamp(0, 1), ROW_SLOT);
            && Admissible(db, step) && wallet in Next(db, step).wallets
            && Next(db, step).wallets[wallet].balance == Money(initial - stake, BRL)
  {
    hide Inv, Unused, MoneyText, Blank, Admit, Submit, Admitted, Validate, AdmittedWager;
    var q, stamp := SampleBet(stake), Stamp(1, 3);
    CorrelationIsFilled();
    SampleIsAdmitted(stake);
    var w := AdmittedWager("provider", q, 2, stamp).value;
    AdmittedIsSubmittable(db, "provider", q, 2, stamp);
    AdmittedFields(w, q);
    FreshIsNotStored(db, w, q, stamp, q.trace);
    SampleSettles(db, w, initial, stake, stamp, q.trace);
  }

  lemma CorrelationIsFilled()
    ensures !Blank("correlation")
  {
    assert !IsSpace("correlation"[0]);
  }

  lemma AdmittedFields(w: Wager, q: Request)
    requires Admitted(w, q)
    ensures w.kind == q.kind && w.money == q.money && w.wallet == q.wallet && w.player == q.player
    ensures w.reference == q.reference && w.referenceId.None? && ValidWager(w) && w.provider == q.provider
    ensures w.status.Pending?
  {
    hide Validate, PayloadOf, PayloadOfWager;
  }

  lemma SampleSettles(db: Db, w: Wager, initial: int64, stake: int64, stamp: Stamp, trace: Trace)
    requires 0 < stake <= initial && db.byKey == map[] && db.byExternal == map[] && w.id !in db.wagers
    requires w.wallet in db.wallets
    requires db.wallets[w.wallet] == WalletRow(w.wallet, Random(9, 9), Money(initial, BRL), 1, 1, 1)
    requires w.kind == Bet && w.money == Money(stake, BRL) && w.player == Random(9, 9) && ValidWager(w)
    requires w.referenceId.None? && !w.wallet.Nil?
    ensures w.wallet in Submit(db, w, stamp, trace).db.wallets
    ensures Submit(db, w, stamp, trace).db.wallets[w.wallet].balance == Money(initial - stake, BRL)
  {
    hide Validate;
    var row := db.wallets[w.wallet];
    SubmitUnfolds(db, w, stamp, trace);
    assert DecideIn(db, w, stamp.at) == Move(w, row, None, stamp.at);
    hide DecideIn, Submit, EventsOf;
  }
}
