/** The balance changes of a wallet, in version order, rebuild the wallet. */
module EventStream {
  import opened Core
  import opened Finance
  import opened Domain
  import opened Engine
  import opened Invariant
  import opened Preservation

  /** The first version that a balance change of the wallet can carry. */
  function FirstVersion(wagers: map<Uuid, Wager>, wallet: Uuid): int {
    if Named(wallet) in wagers then 1 else 2
  }

  predicate ChangeOf(event: Event, wallet: Uuid, version: int) {
    event.content.BalanceChanged? && event.content.entry.wallet == wallet && event.content.version as int == version
  }

  function VersionAt(ledger: seq<Entry>, k: nat): nat
    requires k < |ledger|
  {
    1 + Moves(ledger[..k + 1], ledger[k].wallet)
  }

  lemma PrefixStep(ledger: seq<Entry>, k: nat, wallet: Uuid)
    requires k < |ledger|
    ensures Moves(ledger[..k + 1], wallet)
            == Moves(ledger[..k], wallet) + (if ledger[k].wallet == wallet && !ledger[k].transaction.Named? then 1 else 0)
    ensures Sum(ledger[..k + 1], wallet)
            == Sum(ledger[..k], wallet)
               + (if ledger[k].wallet == wallet then Signed(ledger[k].direction, ledger[k].money.amount) else 0)
    ensures Booked(ledger[..k + 1]) == Booked(ledger[..k]) + {ledger[k].transaction}
  {
    assert ledger[..k + 1] == ledger[..k] + [ledger[k]];
    Appended(ledger[..k], ledger[k], wallet);
  }

  lemma {:induction false} MovesGrow(ledger: seq<Entry>, j: nat, k: nat, wallet: Uuid)
    requires j <= k <= |ledger|
    ensures Moves(ledger[..j], wallet) <= Moves(ledger[..k], wallet)
    ensures Booked(ledger[..j]) <= Booked(ledger[..k])
  {
    if j < k {
      MovesGrow(ledger, j, k - 1, wallet);
      PrefixStep(ledger, k - 1, wallet);
    }
  }

  /** A later entry of a wallet is not its opening, and carries a later version. */
  lemma VersionsIncrease(wagers: map<Uuid, Wager>, ledger: seq<Entry>, j: nat, k: nat)
    requires LedgerOk(wagers, ledger) && j < k < |ledger| && ledger[j].wallet == ledger[k].wallet
    ensures VersionAt(ledger, j) < VersionAt(ledger, k) && !ledger[k].transaction.Named?
  {
    var wallet := ledger[k].wallet;
    assert InOrder(wagers, ledger[..k], ledger[k]) && InOrder(wagers, ledger[..j], ledger[j]);
    PrefixStep(ledger, j, wallet);
    PrefixStep(ledger, k, wallet);
    MovesGrow(ledger, j + 1, k, wallet);
  }

  /** The sum of a wallet does not move while none of its entries is added. */
  lemma {:induction false} SumRests(ledger: seq<Entry>, j: nat, k: nat, wallet: Uuid)
    requires j <= k <= |ledger| && forall i :: j <= i < k ==> ledger[i].wallet != wallet
    ensures Sum(ledger[..j], wallet) == Sum(ledger[..k], wallet)
    ensures Moves(ledger[..j], wallet) == Moves(ledger[..k], wallet)
  {
    if j < k {
      SumRests(ledger, j, k - 1, wallet);
      PrefixStep(ledger, k - 1, wallet);
    }
  }

  /** Every version up to the stored one was reached by some movement. */
  lemma {:induction false} SomeEntryReached(ledger: seq<Entry>, m: nat, wallet: Uuid, n: nat) returns (k: nat)
    requires m <= |ledger| && 2 <= n <= 1 + Moves(ledger[..m], wallet)
    ensures k < m && ledger[k].wallet == wallet && VersionAt(ledger, k) == n
  {
    assert m > 0;
    PrefixStep(ledger, m - 1, wallet);
    if n <= 1 + Moves(ledger[..m - 1], wallet) {
      k := SomeEntryReached(ledger, m - 1, wallet, n);
    } else {
      k := m - 1;
    }
  }

  /** Two entries of a wallet with successive versions have no entry of the wallet between them. */
  lemma SuccessiveChain(wagers: map<Uuid, Wager>, ledger: seq<Entry>, j: nat, k: nat)
    requires LedgerOk(wagers, ledger) && j < |ledger| && k < |ledger| && ledger[j].wallet == ledger[k].wallet
    requires VersionAt(ledger, k) == VersionAt(ledger, j) + 1
    ensures j < k && ledger[k].before.amount == ledger[j].after.amount
  {
    var wallet := ledger[k].wallet;
    if k < j {
      VersionsIncrease(wagers, ledger, k, j);
    }
    forall i | j + 1 <= i < k ensures ledger[i].wallet != wallet {
      if ledger[i].wallet == wallet {
        VersionsIncrease(wagers, ledger, j, i);
        VersionsIncrease(wagers, ledger, i, k);
      }
    }
    SumRests(ledger, j + 1, k, wallet);
    PrefixStep(ledger, j, wallet);
    assert EntryOk(wagers, ledger[j]) && InOrder(wagers, ledger[..j], ledger[j]);
    assert InOrder(wagers, ledger[..k], ledger[k]);
  }

  lemma EntryAt(wagers: map<Uuid, Wager>, ledger: seq<Entry>, k: nat)
    requires LedgerOk(wagers, ledger) && k < |ledger|
    ensures ledger[k].before.amount == Sum(ledger[..k], ledger[k].wallet)
    ensures ledger[k].after.amount as int
            == ledger[k].before.amount as int + Signed(ledger[k].direction, ledger[k].money.amount)
  {
    assert EntryOk(wagers, ledger[k]) && InOrder(wagers, ledger[..k], ledger[k]);
  }

  /** No entry carries a version above the one that the whole ledger reaches. */
  lemma VersionsEnd(ledger: seq<Entry>, i: nat)
    requires i < |ledger|
    ensures VersionAt(ledger, i) <= 1 + Moves(ledger, ledger[i].wallet)
  {
    MovesGrow(ledger, i + 1, |ledger|, ledger[i].wallet);
    assert ledger[..|ledger|] == ledger;
  }

  /** The last version of a wallet holds its balance. */
  lemma LastHoldsSum(wagers: map<Uuid, Wager>, ledger: seq<Entry>, k: nat)
    requires LedgerOk(wagers, ledger) && k < |ledger|
    requires VersionAt(ledger, k) == 1 + Moves(ledger, ledger[k].wallet)
    ensures ledger[k].after.amount == Sum(ledger, ledger[k].wallet)
  {
    var wallet := ledger[k].wallet;
    assert ledger[..|ledger|] == ledger;
    EntryAt(wagers, ledger, k);
    hide LedgerOk, Moves, Sum, Booked, VersionAt;
    forall i | k + 1 <= i < |ledger| ensures ledger[i].wallet != wallet {
      if ledger[i].wallet == wallet {
        VersionsIncrease(wagers, ledger, k, i);
        VersionsEnd(ledger, i);
      }
    }
    SumRests(ledger, k + 1, |ledger|, wallet);
    PrefixStep(ledger, k, wallet);
  }

  /** Openings are the operations with a named identity, and they are processed. */
  ghost predicate OpeningsNamed(wagers: map<Uuid, Wager>) {
    && (forall id :: id in wagers ==> wagers[id].id == id && (wagers[id].kind.Opening? <==> id.Named?))
    && (forall id :: id in wagers && id.Named? ==> wagers[id].status.Processed?)
  }

  /** An entry has version one exactly when it is an opening, and the first version starts from zero. */
  lemma FirstStartsAtZero(wagers: map<Uuid, Wager>, ledger: seq<Entry>, k: nat)
    requires LedgerOk(wagers, ledger) && AllBooked(wagers, ledger) && k < |ledger|
    requires OpeningsNamed(wagers)
    ensures VersionAt(ledger, k) >= FirstVersion(wagers, ledger[k].wallet)
    ensures VersionAt(ledger, k) == FirstVersion(wagers, ledger[k].wallet) ==> ledger[k].before.amount == 0
  {
    var wallet := ledger[k].wallet;
    PrefixStep(ledger, k, wallet);
    assert EntryOk(wagers, ledger[k]) && InOrder(wagers, ledger[..k], ledger[k]);
    var first := FirstVersion(wagers, wallet);
    if VersionAt(ledger, k) <= first {
      // No earlier entry of the wallet: it would carry a smaller version.
      forall i | 0 <= i < k ensures ledger[i].wallet != wallet {
        if ledger[i].wallet == wallet {
          PrefixStep(ledger, i, wallet);
          assert EntryOk(wagers, ledger[i]) && InOrder(wagers, ledger[..i], ledger[i]);
          assert ledger[i].transaction.Named? || VersionAt(ledger, i) >= 2;
          VersionsIncrease(wagers, ledger, i, k);
          assert false;
        }
      }
      SumRests(ledger, 0, k, wallet);
      assert ledger[..0] == [];
    }
  }

  // ---- The stream of a wallet -------------------------------------------------------------

  /** The ledger, and the balance changes that announce it entry by entry. */
  ghost predicate Announced(wagers: map<Uuid, Wager>, ledger: seq<Entry>, changes: seq<Event>) {
    LedgerOk(wagers, ledger) && AllBooked(wagers, ledger) && OpeningsNamed(wagers) && StreamOk(ledger, changes)
  }

  lemma InvIsAnnounced(db: Db)
    requires Inv(db)
    ensures Announced(db.wagers, db.ledger, Changes(db.outbox))
  {
    hide WalletsOk, IndexOk, LinksOk, ReversalsOk, LedgerOk, AllBooked, BalancesOk, StreamOk, EventsOk, InboxOk, IdsOk,
         Validate, PayloadOfWager;
  }

  lemma ChangeIsEntry(wagers: map<Uuid, Wager>, ledger: seq<Entry>, changes: seq<Event>, j: nat)
    requires Announced(wagers, ledger, changes) && j < |changes|
    ensures j < |ledger| && changes[j].content.BalanceChanged?
    ensures changes[j].content.entry == ledger[j] && changes[j].content.version as int == VersionAt(ledger, j)
  {
    hide LedgerOk, AllBooked, OpeningsNamed;
    assert Announces(changes[j], ledger, j);
  }

  /** Changes of one wallet have distinct versions. */
  lemma VersionsAreDistinct(wagers: map<Uuid, Wager>, ledger: seq<Entry>, changes: seq<Event>, wallet: Uuid,
                            version: int, i: nat, j: nat)
    requires Announced(wagers, ledger, changes) && i < |changes| && j < |changes|
    requires ChangeOf(changes[i], wallet, version) && ChangeOf(changes[j], wallet, version)
    ensures i == j
  {
    ChangeIsEntry(wagers, ledger, changes, i);
    ChangeIsEntry(wagers, ledger, changes, j);
    hide LedgerOk, AllBooked, StreamOk, OpeningsNamed, VersionAt;
    if i < j {
      VersionsIncrease(wagers, ledger, i, j);
    } else if j < i {
      VersionsIncrease(wagers, ledger, j, i);
    }
  }

  /** No version is missing between the first one and the last one. */
  lemma NoVersionMissing(wagers: map<Uuid, Wager>, ledger: seq<Entry>, changes: seq<Event>, wallet: Uuid, n: int)
    returns (j: nat)
    requires Announced(wagers, ledger, changes)
    requires FirstVersion(wagers, wallet) <= n <= 1 + Moves(ledger, wallet)
    ensures j < |changes| && ChangeOf(changes[j], wallet, n)
  {
    assert ledger[..|ledger|] == ledger;
    if n >= 2 {
      j := SomeEntryReached(ledger, |ledger|, wallet, n);
    } else {
      BookedIsListed(ledger);
      assert Financial(wagers[Named(wallet)]);
      j :| 0 <= j < |ledger| && ledger[j].transaction == Named(wallet);
      assert InOrder(wagers, ledger[..j], ledger[j]);
      PrefixStep(ledger, j, wallet);
    }
    assert Announces(changes[j], ledger, j);
  }

  /** Every change of a wallet carries a version between the first one and the last one. */
  lemma VersionsAreInRange(wagers: map<Uuid, Wager>, ledger: seq<Entry>, changes: seq<Event>, wallet: Uuid, j: nat)
    requires Announced(wagers, ledger, changes) && j < |changes|
    requires changes[j].content.BalanceChanged? && changes[j].content.entry.wallet == wallet
    ensures FirstVersion(wagers, wallet) <= changes[j].content.version <= 1 + Moves(ledger, wallet)
  {
    ChangeIsEntry(wagers, ledger, changes, j);
    hide StreamOk, LedgerOk, AllBooked, OpeningsNamed;
    FirstStartsAtZero(wagers, ledger, j);
    MovesGrow(ledger, j + 1, |ledger|, wallet);
    assert ledger[..|ledger|] == ledger;
  }

  /**
   * What a consumer rebuilds from the changes of a wallet, taking them in version order: the
   * balance, unless a version is missing or does not start where the one before it ended.
   */
  ghost function Rebuilt(changes: seq<Event>, wallet: Uuid, first: int, n: int): Option<int>
    decreases n - first
  {
    if n < first then Some(0)
    else if !exists j :: 0 <= j < |changes| && ChangeOf(changes[j], wallet, n) then None
    else
      var j :| 0 <= j < |changes| && ChangeOf(changes[j], wallet, n);
      Continued(Rebuilt(changes, wallet, first, n - 1), changes[j].content.entry)
  }

  function Continued(earlier: Option<int>, e: Entry): Option<int> {
    if earlier == Some(e.before.amount as int) then Some(e.before.amount + Signed(e.direction, e.money.amount)) else None
  }

  lemma RebuiltUnfolds(changes: seq<Event>, wallet: Uuid, first: int, n: int, k: nat)
    requires first <= n && k < |changes| && ChangeOf(changes[k], wallet, n)
    requires forall j :: 0 <= j < |changes| && ChangeOf(changes[j], wallet, n) ==> j == k
    ensures Rebuilt(changes, wallet, first, n)
            == Continued(Rebuilt(changes, wallet, first, n - 1), changes[k].content.entry)
  {
  }

  /** One version more: the consumer continues from the version before with the change that carries this one. */
  lemma RebuiltStep(wagers: map<Uuid, Wager>, ledger: seq<Entry>, changes: seq<Event>, wallet: Uuid, first: int,
                    n: int, k: nat)
    requires Announced(wagers, ledger, changes) && first <= n
    requires k < |changes| && ChangeOf(changes[k], wallet, n)
    ensures k < |ledger| && ledger[k].wallet == wallet && VersionAt(ledger, k) == n
    ensures ledger[k].after.amount as int
            == ledger[k].before.amount as int + Signed(ledger[k].direction, ledger[k].money.amount)
    ensures Rebuilt(changes, wallet, first, n) == Continued(Rebuilt(changes, wallet, first, n - 1), ledger[k])
  {
    ChangeIsEntry(wagers, ledger, changes, k);
    assert EntryOk(wagers, ledger[k]);
    hide Announced, VersionAt, Rebuilt, EntryOk, Continued;
    forall j | 0 <= j < |changes| && ChangeOf(changes[j], wallet, n) ensures j == k {
      VersionsAreDistinct(wagers, ledger, changes, wallet, n, j, k);
    }
    RebuiltUnfolds(changes, wallet, first, n, k);
  }

  /** After each version, the consumer holds the balance that the change announced. */
  lemma {:induction false} RebuiltSoFar(wagers: map<Uuid, Wager>, ledger: seq<Entry>, changes: seq<Event>, wallet: Uuid,
                                        n: int, k: nat)
    requires Announced(wagers, ledger, changes)
    requires FirstVersion(wagers, wallet) <= n <= 1 + Moves(ledger, wallet)
    requires k < |changes| && ChangeOf(changes[k], wallet, n)
    ensures k < |ledger|
    ensures Rebuilt(changes, wallet, FirstVersion(wagers, wallet), n) == Some(ledger[k].after.amount as int)
    decreases n - FirstVersion(wagers, wallet)
  {
    hide Announced, Rebuilt, VersionAt, FirstVersion, Moves;
    var first := FirstVersion(wagers, wallet);
    RebuiltStep(wagers, ledger, changes, wallet, first, n, k);
    if n == first {
      FirstIsFromZero(wagers, ledger, changes, k);
      NothingRebuilt(changes, wallet, first);
    } else {
      var i := NoVersionMissing(wagers, ledger, changes, wallet, n - 1);
      RebuiltStep(wagers, ledger, changes, wallet, first, n - 1, i);
      RebuiltSoFar(wagers, ledger, changes, wallet, n - 1, i);
      NextFollows(wagers, ledger, changes, i, k);
    }
  }

  lemma FirstIsFromZero(wagers: map<Uuid, Wager>, ledger: seq<Entry>, changes: seq<Event>, k: nat)
    requires Announced(wagers, ledger, changes) && k < |ledger|
    requires VersionAt(ledger, k) == FirstVersion(wagers, ledger[k].wallet)
    ensures ledger[k].before.amount == 0
  {
    hide LedgerOk, AllBooked, OpeningsNamed, StreamOk, VersionAt;
    FirstStartsAtZero(wagers, ledger, k);
  }

  lemma NextFollows(wagers: map<Uuid, Wager>, ledger: seq<Entry>, changes: seq<Event>, i: nat, k: nat)
    requires Announced(wagers, ledger, changes) && i < |ledger| && k < |ledger|
    requires ledger[i].wallet == ledger[k].wallet && VersionAt(ledger, k) == VersionAt(ledger, i) + 1
    ensures ledger[k].before.amount == ledger[i].after.amount
  {
    hide LedgerOk, AllBooked, OpeningsNamed, StreamOk, VersionAt;
    SuccessiveChain(wagers, ledger, i, k);
  }

  lemma NothingRebuilt(changes: seq<Event>, wallet: Uuid, first: int)
    ensures Rebuilt(changes, wallet, first, first - 1) == Some(0)
  {
  }

  lemma UnopenedIsEmpty(wagers: map<Uuid, Wager>, ledger: seq<Entry>, wallet: Uuid)
    requires LedgerOk(wagers, ledger) && Named(wallet) !in wagers && Moves(ledger, wallet) == 0
    ensures Sum(ledger, wallet) == 0
  {
    assert ledger[..|ledger|] == ledger;
    forall k | 0 <= k < |ledger| ensures ledger[k].wallet != wallet {
      if ledger[k].wallet == wallet {
        assert EntryOk(wagers, ledger[k]) && InOrder(wagers, ledger[..k], ledger[k]);
        PrefixStep(ledger, k, wallet);
        MovesGrow(ledger, k + 1, |ledger|, wallet);
        assert false;
      }
    }
    SumRests(ledger, 0, |ledger|, wallet);
    assert ledger[..0] == [];
  }

  lemma LedgerRebuilds(wagers: map<Uuid, Wager>, ledger: seq<Entry>, changes: seq<Event>, wallet: Uuid)
    requires Announced(wagers, ledger, changes)
    ensures Rebuilt(changes, wallet, FirstVersion(wagers, wallet), 1 + Moves(ledger, wallet)) == Some(Sum(ledger, wallet))
  {
    hide AllBooked, StreamOk, OpeningsNamed, Rebuilt, LedgerOk;
    if FirstVersion(wagers, wallet) <= 1 + Moves(ledger, wallet) {
      var k := NoVersionMissing(wagers, ledger, changes, wallet, 1 + Moves(ledger, wallet));
      ChangeIsEntry(wagers, ledger, changes, k);
      RebuiltSoFar(wagers, ledger, changes, wallet, 1 + Moves(ledger, wallet), k);
      LastHoldsSum(wagers, ledger, k);
    } else {
      UnopenedIsEmpty(wagers, ledger, wallet);
      NothingRebuilt(changes, wallet, 2);
    }
  }

  lemma BalanceFacts(db: Db, wallet: Uuid)
    requires Inv(db) && wallet in db.wallets
    ensures db.wallets[wallet].version as int == 1 + Moves(db.ledger, wallet)
    ensures db.wallets[wallet].balance.amount as int == Sum(db.ledger, wallet)
  {
    hide WalletsOk, RowsOk, IndexOk, LinksOk, ReversalsOk, LedgerOk, AllBooked, StreamOk, EventsOk, InboxOk, IdsOk;
  }

  /** The changes of a wallet, in whatever order they arrive, rebuild its balance at its version. */
  lemma StreamRebuildsBalance(db: Db, wallet: Uuid)
    requires Inv(db) && wallet in db.wallets
    ensures Rebuilt(Changes(db.outbox), wallet, FirstVersion(db.wagers, wallet), db.wallets[wallet].version)
            == Some(db.wallets[wallet].balance.amount as int)
  {
    hide Inv, Announced, Rebuilt, Moves, Sum, FirstVersion, Changes;
    InvIsAnnounced(db);
    BalanceFacts(db, wallet);
    LedgerRebuilds(db.wagers, db.ledger, Changes(db.outbox), wallet);
  }

  predicate Concludes(event: Event, id: Uuid) {
    (event.content.TransactionProcessed? || event.content.TransactionRejected?) && event.content.wager.id == id
  }

  /** Each operation has the outcome events that its status calls for, with its stored row as snapshot. */
  lemma EventsFollowStatus(db: Db, id: Uuid)
    requires Inv(db) && id in db.wagers
    ensures EventsMatch(db.wagers[id], db.outbox)
    ensures forall j :: 0 <= j < |db.outbox| && Concludes(db.outbox[j], id) ==>
              db.outbox[j].content.wager == db.wagers[id]
  {
    hide WalletsOk, RowsOk, IndexOk, LinksOk, ReversalsOk, LedgerOk, AllBooked, BalancesOk, StreamOk, InboxOk, IdsOk,
         EventsMatch;
    forall j | 0 <= j < |db.outbox| && Concludes(db.outbox[j], id)
      ensures db.outbox[j].content.wager == db.wagers[id]
    {
      assert SnapshotOk(db.wagers, db.outbox[j]);
    }
  }
}
