/** Reversals cancel exactly: a balance is the opening plus the effective wins minus the effective bets. */
module NetEffect {
  import opened Core
  import opened Finance
  import opened Domain
  import opened Engine
  import opened Invariant
  import opened Preservation

  // ---- Effective operations -------------------------------------------------------------

  function Rank(kind: Kind): nat {
    match kind
    case Rollback => 0
    case Refund => 1
    case _ => 2
  }

  /** One processed operation is the reversal of the other. */
  predicate Undoes(wagers: map<Uuid, Wager>, y: Uuid, x: Uuid) {
    && y in wagers && x in wagers && Reverses(wagers[y]) && wagers[y].referenceId == Some(x)
    && Rank(wagers[y].kind) < Rank(wagers[x].kind)
  }

  /** Among these operations, one is effective iff it is processed and no effective one undoes it. */
  ghost predicate EffectiveIn(wagers: map<Uuid, Wager>, among: set<Uuid>, x: Uuid)
    decreases if x in wagers then Rank(wagers[x].kind) else 0
  {
    && x in wagers && x in among && wagers[x].status.Processed?
    && forall y :: y in among && Undoes(wagers, y, x) ==> !EffectiveIn(wagers, among, y)
  }

  ghost predicate Effective(wagers: map<Uuid, Wager>, x: Uuid) {
    EffectiveIn(wagers, wagers.Keys, x)
  }

  /** In a consistent database every processed reversal of an operation undoes it. */
  lemma EffectiveExactly(db: Db, x: Uuid)
    requires LinksOk(db.wagers) && x in db.wagers
    ensures Effective(db.wagers, x) <==>
              db.wagers[x].status.Processed?
              && !exists y :: y in db.wagers && Reverses(db.wagers[y]) && db.wagers[y].referenceId == Some(x)
                              && Effective(db.wagers, y)
  {
    forall y | y in db.wagers && Reverses(db.wagers[y]) && db.wagers[y].referenceId == Some(x)
      ensures Undoes(db.wagers, y, x)
    {
      assert Linked(db.wagers[y], db.wagers[x]);
    }
  }

  /** What an operation adds to its wallet in the end; reversals add nothing themselves. */
  ghost function NetPart(wagers: map<Uuid, Wager>, among: set<Uuid>, wallet: Uuid, x: Uuid): int {
    if x !in wagers || wagers[x].wallet != wallet || !EffectiveIn(wagers, among, x) then 0
    else
      match wagers[x].kind
      case Opening | Win => wagers[x].money.amount
      case Bet => 0 - wagers[x].money.amount
      case _ => 0
  }

  // ---- Sums over sets -------------------------------------------------------------------

  ghost function Total(f: Uuid -> int, s: set<Uuid>): int {
    if s == {} then 0 else var x :| x in s; f(x) + Total(f, s - {x})
  }

  lemma {:induction false} TotalWithout(f: Uuid -> int, s: set<Uuid>, x: Uuid)
    requires x in s
    ensures Total(f, s) == f(x) + Total(f, s - {x})
  {
    var y :| y in s && Total(f, s) == f(y) + Total(f, s - {y});
    if y != x {
      TotalWithout(f, s - {y}, x);
      TotalWithout(f, s - {x}, y);
      assert s - {y} - {x} == s - {x} - {y};
    }
  }

  lemma {:induction false} TotalSame(f: Uuid -> int, g: Uuid -> int, s: set<Uuid>)
    requires forall x :: x in s ==> f(x) == g(x)
    ensures Total(f, s) == Total(g, s)
  {
    if s != {} {
      var x :| x in s;
      TotalWithout(f, s, x);
      TotalWithout(g, s, x);
      TotalSame(f, g, s - {x});
    }
  }

  lemma TotalChanged(f: Uuid -> int, g: Uuid -> int, s: set<Uuid>, x: Uuid)
    requires x in s && forall y :: y in s && y != x ==> f(y) == g(y)
    ensures Total(g, s) == Total(f, s) - f(x) + g(x)
  {
    TotalWithout(f, s, x);
    TotalWithout(g, s, x);
    TotalSame(f, g, s - {x});
  }

  // ---- Adding one operation ---------------------------------------------------------------

  /** The operation is new among the others, and nothing there refers to it or undoes what it undoes. */
  ghost predicate Newest(wagers: map<Uuid, Wager>, among: set<Uuid>, x: Uuid) {
    && LinksOk(wagers) && x in wagers && x !in among && wagers[x].status.Processed?
    && (forall y :: y in among ==> y in wagers && wagers[y].status.Processed?)
    && (forall y :: y in among && IsReversal(wagers[y].kind) ==> Reverses(wagers[y]))
    && (forall y :: y in among && wagers[y].referenceId.Some? ==> wagers[y].referenceId.value in among)
    && (Reverses(wagers[x]) ==>
          wagers[x].referenceId.value in among
          && forall y :: y in among ==> !Undoes(wagers, y, wagers[x].referenceId.value))
  }

  lemma NothingUndoesNewest(wagers: map<Uuid, Wager>, among: set<Uuid>, x: Uuid)
    requires Newest(wagers, among, x)
    ensures forall y :: y in among + {x} ==> !Undoes(wagers, y, x)
    ensures EffectiveIn(wagers, among + {x}, x)
  {
  }

  /** Only what the new operation undoes, and what that undoes in turn, can change. */
  lemma {:induction false} OthersKeepEffect(wagers: map<Uuid, Wager>, among: set<Uuid>, x: Uuid, z: Uuid)
    requires Newest(wagers, among, x) && z in among && !Undoes(wagers, x, z)
    requires forall y :: y in among && Undoes(wagers, x, y) ==> !Undoes(wagers, y, z)
    ensures EffectiveIn(wagers, among + {x}, z) == EffectiveIn(wagers, among, z)
    decreases if z in wagers then Rank(wagers[z].kind) else 0
  {
    forall y | y in among + {x} && Undoes(wagers, y, z)
      ensures y in among && EffectiveIn(wagers, among + {x}, y) == EffectiveIn(wagers, among, y)
    {
      // A chain of four operations, each undoing the next, would be too long.
      assert forall v :: Undoes(wagers, x, v) ==> !Undoes(wagers, v, y);
      OthersKeepEffect(wagers, among, x, y);
    }
  }

  /** The change of one part when the newest operation is added. */
  lemma UndoneLosesEffect(wagers: map<Uuid, Wager>, among: set<Uuid>, x: Uuid)
    requires Newest(wagers, among, x) && Reverses(wagers[x])
    ensures var r := wagers[x].referenceId.value;
            Undoes(wagers, x, r) && EffectiveIn(wagers, among, r) && !EffectiveIn(wagers, among + {x}, r)
  {
    var r := wagers[x].referenceId.value;
    assert Linked(wagers[x], wagers[r]);
    NothingUndoesNewest(wagers, among, x);
  }

  /** Undoing a refund makes its bet effective again. */
  lemma RestoredRegainsEffect(wagers: map<Uuid, Wager>, among: set<Uuid>, x: Uuid, b: Uuid)
    requires Newest(wagers, among, x) && Reverses(wagers[x])
    requires Undoes(wagers, wagers[x].referenceId.value, b)
    requires forall y :: y in among && Undoes(wagers, y, b) ==> y == wagers[x].referenceId.value
    ensures b in among && !EffectiveIn(wagers, among, b) && EffectiveIn(wagers, among + {x}, b)
  {
    UndoneLosesEffect(wagers, among, x);
    var r := wagers[x].referenceId.value;
    assert r in among && wagers[r].referenceId == Some(b) && b in among;
    forall y | y in among + {x} && Undoes(wagers, y, b) ensures !EffectiveIn(wagers, among + {x}, y) {
      assert y == r;
    }
  }

  /** No operation has two processed reversals. */
  ghost predicate OneReversal(wagers: map<Uuid, Wager>) {
    forall y, z, x :: Undoes(wagers, y, x) && Undoes(wagers, z, x) ==> y == z
  }

  ghost function PartsOf(wagers: map<Uuid, Wager>, among: set<Uuid>, wallet: Uuid): Uuid -> int {
    x => NetPart(wagers, among, wallet, x)
  }

  ghost function NetTotal(wagers: map<Uuid, Wager>, among: set<Uuid>, wallet: Uuid): int {
    Total(PartsOf(wagers, among, wallet), among)
  }

  function SignedAmount(wagers: map<Uuid, Wager>, x: Uuid): int
    requires x in wagers
  {
    Signed(DirectionOf(wagers[x].kind, Original(wagers, wagers[x])), wagers[x].money.amount)
  }

  /** Adding the newest operation moves the net total by exactly its signed amount. */
  lemma NetTotalMoves(wagers: map<Uuid, Wager>, among: set<Uuid>, x: Uuid, wallet: Uuid)
    requires Newest(wagers, among, x) && OneReversal(wagers)
    requires !wagers[x].kind.Loss? && !wagers[x].kind.UnknownKind? && (IsReversal(wagers[x].kind) ==> Reverses(wagers[x]))
    ensures NetTotal(wagers, among + {x}, wallet)
            == NetTotal(wagers, among, wallet) + (if wagers[x].wallet == wallet then SignedAmount(wagers, x) else 0)
  {
    var before, after := PartsOf(wagers, among, wallet), PartsOf(wagers, among + {x}, wallet);
    NothingUndoesNewest(wagers, among, x);
    TotalWithout(after, among + {x}, x);
    assert among + {x} - {x} == among;
    if !Reverses(wagers[x]) {
      forall z | z in among ensures before(z) == after(z) {
        OthersKeepEffect(wagers, among, x, z);
      }
      TotalSame(before, after, among);
    } else {
      NetTotalMovesBack(wagers, among, x, wallet);
    }
  }

  lemma NetTotalMovesBack(wagers: map<Uuid, Wager>, among: set<Uuid>, x: Uuid, wallet: Uuid)
    requires Newest(wagers, among, x) && OneReversal(wagers) && Reverses(wagers[x])
    ensures Total(PartsOf(wagers, among + {x}, wallet), among)
            == NetTotal(wagers, among, wallet) + (if wagers[x].wallet == wallet then SignedAmount(wagers, x) else 0)
  {
    var before, after := PartsOf(wagers, among, wallet), PartsOf(wagers, among + {x}, wallet);
    var r := wagers[x].referenceId.value;
    UndoneLosesEffect(wagers, among, x);
    assert Linked(wagers[x], wagers[r]);
    if wagers[r].kind.Refund? {
      assert Linked(wagers[r], wagers[wagers[r].referenceId.value]);
      var b := wagers[r].referenceId.value;
      assert Undoes(wagers, r, b);
      RestoredRegainsEffect(wagers, among, x, b);
      forall z | z in among && z != b ensures before(z) == after(z) {
        if z != r {
          OthersKeepEffect(wagers, among, x, z);
        }
      }
      TotalChanged(before, after, among, b);
    } else {
      forall z | z in among && z != r ensures before(z) == after(z) {
        OthersKeepEffect(wagers, among, x, z);
      }
      TotalChanged(before, after, among, r);
    }
  }

  // ---- The whole ledger -------------------------------------------------------------------

  lemma BookedPrefix(ledger: seq<Entry>, k: nat)
    requires k < |ledger|
    ensures Booked(ledger[..k + 1]) == Booked(ledger[..k]) + {ledger[k].transaction}
    ensures forall w :: Sum(ledger[..k + 1], w)
                        == Sum(ledger[..k], w) + (if ledger[k].wallet == w then Signed(ledger[k].direction, ledger[k].money.amount) else 0)
  {
    assert ledger[..k + 1] == ledger[..k] + [ledger[k]];
    forall w {
      Appended(ledger[..k], ledger[k], w);
    }
  }

  lemma ReversalsAreUnique(wagers: map<Uuid, Wager>, reversals: map<Uuid, Uuid>)
    requires ReversalsOk(wagers, reversals)
    ensures OneReversal(wagers)
  {
  }

  /** What the invariant says about the operations of the ledger, for this purpose. */
  ghost predicate Traced(wagers: map<Uuid, Wager>, ledger: seq<Entry>) {
    && LinksOk(wagers) && LedgerOk(wagers, ledger) && OneReversal(wagers)
    && (forall y :: y in wagers && wagers[y].status.Processed? && IsReversal(wagers[y].kind) ==> Reverses(wagers[y]))
    && (forall y :: y in wagers ==> !wagers[y].kind.UnknownKind?)
  }

  lemma {:induction false} NextIsNewest(wagers: map<Uuid, Wager>, ledger: seq<Entry>, k: nat)
    requires Traced(wagers, ledger) && k < |ledger|
    ensures Newest(wagers, Booked(ledger[..k]), ledger[k].transaction)
  {
    var among, x := Booked(ledger[..k]), ledger[k].transaction;
    assert EntryOk(wagers, ledger[k]) && InOrder(wagers, ledger[..k], ledger[k]);
    BookedIsListed(ledger[..k]);
    forall y | y in among
      ensures y in wagers && wagers[y].status.Processed?
      ensures wagers[y].referenceId.Some? ==> wagers[y].referenceId.value in among
    {
      var j :| 0 <= j < |ledger[..k]| && ledger[..k][j].transaction == y;
      assert EntryOk(wagers, ledger[j]) && InOrder(wagers, ledger[..j], ledger[j]);
      PrefixBooksLess(ledger, j, k);
    }
    if Reverses(wagers[x]) {
      var r := wagers[x].referenceId.value;
      assert Linked(wagers[x], wagers[r]);
      assert Undoes(wagers, x, r);
    }
  }

  lemma {:induction false} PrefixBooksLess(ledger: seq<Entry>, j: nat, k: nat)
    requires j <= k <= |ledger|
    ensures Booked(ledger[..j]) <= Booked(ledger[..k])
  {
    if j < k {
      PrefixBooksLess(ledger, j, k - 1);
      BookedPrefix(ledger, k - 1);
    }
  }

  /** What an entry says about the operation that it accounts for. */
  lemma EntryMoves(wagers: map<Uuid, Wager>, ledger: seq<Entry>, k: nat)
    requires Traced(wagers, ledger) && k < |ledger|
    ensures var e := ledger[k];
            && e.transaction in wagers
            && (var w := wagers[e.transaction];
                && w.wallet == e.wallet && !w.kind.Loss? && !w.kind.UnknownKind?
                && (IsReversal(w.kind) ==> Reverses(w)))
            && Signed(e.direction, e.money.amount) == SignedAmount(wagers, e.transaction)
  {
    assert EntryOk(wagers, ledger[k]);
  }

  lemma TracedOnce(wagers: map<Uuid, Wager>, ledger: seq<Entry>)
    requires Traced(wagers, ledger)
    ensures OneReversal(wagers)
  {
  }

  /** After every entry, the signed sum of a wallet is its net total so far. */
  lemma {:induction false} SumIsNetTotal(wagers: map<Uuid, Wager>, ledger: seq<Entry>, k: nat, wallet: Uuid)
    requires Traced(wagers, ledger) && k <= |ledger|
    ensures Sum(ledger[..k], wallet) == NetTotal(wagers, Booked(ledger[..k]), wallet)
  {
    if k == 0 {
      assert ledger[..0] == [];
    } else {
      hide Traced, Newest, OneReversal, NetTotal, SignedAmount, Signed, Booked, Sum;
      EntryMoves(wagers, ledger, k - 1);
      NextIsNewest(wagers, ledger, k - 1);
      TracedOnce(wagers, ledger);
      SumIsNetTotal(wagers, ledger, k - 1, wallet);
      BookedPrefix(ledger, k - 1);
      NetTotalMoves(wagers, Booked(ledger[..k - 1]), ledger[k - 1].transaction, wallet);
    }
  }

  /** Operations that move no money have no part and undo nothing. */
  lemma {:induction false} OnlyFinancialMatters(wagers: map<Uuid, Wager>, among: set<Uuid>, x: Uuid)
    requires forall y :: y in wagers ==> (y in among <==> Financial(wagers[y]))
    requires x in wagers && !wagers[x].kind.Loss?
    ensures Effective(wagers, x) == EffectiveIn(wagers, among, x)
    decreases Rank(wagers[x].kind)
  {
    forall y | y in wagers && Undoes(wagers, y, x)
      ensures y in among && Effective(wagers, y) == EffectiveIn(wagers, among, y)
    {
      OnlyFinancialMatters(wagers, among, y);
    }
  }

  lemma {:induction false} TotalOfRest(f: Uuid -> int, s: set<Uuid>, t: set<Uuid>)
    requires s <= t && forall x :: x in t - s ==> f(x) == 0
    ensures Total(f, t) == Total(f, s)
  {
    if t - s != {} {
      var x :| x in t - s;
      TotalWithout(f, t, x);
      assert (t - {x}) - s == (t - s) - {x};
      TotalOfRest(f, s, t - {x});
    } else {
      assert t == s + (t - s) == s;
    }
  }

  lemma ReversalIsResolved(w: Wager)
    requires ValidWager(w)
    ensures !w.kind.UnknownKind?
    ensures w.status.Processed? && IsReversal(w.kind) ==> Reverses(w)
  {
  }

  lemma InvIsTraced(db: Db)
    requires Inv(db)
    ensures Traced(db.wagers, db.ledger)
  {
    hide WalletsOk, IndexOk, LinksOk, ReversalsOk, LedgerOk, AllBooked, BalancesOk, StreamOk, EventsOk, InboxOk,
         IdsOk, OneReversal, Validate, Reverses, IsReversal, PayloadOfWager;
    ReversalsAreUnique(db.wagers, db.reversals);
    forall y | y in db.wagers
      ensures !db.wagers[y].kind.UnknownKind?
      ensures db.wagers[y].status.Processed? && IsReversal(db.wagers[y].kind) ==> Reverses(db.wagers[y])
    {
      ReversalIsResolved(db.wagers[y]);
    }
  }

  /** Counting all operations or only the ones in the ledger comes to the same. */
  lemma NetTotalOfBooked(wagers: map<Uuid, Wager>, among: set<Uuid>, wallet: Uuid)
    requires among <= wagers.Keys
    requires forall x :: x in wagers ==> (x in among <==> Financial(wagers[x]))
    ensures NetTotal(wagers, among, wallet) == NetTotal(wagers, wagers.Keys, wallet)
  {
    var some, all := PartsOf(wagers, among, wallet), PartsOf(wagers, wagers.Keys, wallet);
    forall x | x in wagers ensures some(x) == all(x) {
      if !wagers[x].kind.Loss? {
        OnlyFinancialMatters(wagers, among, x);
      }
    }
    TotalSame(some, all, among);
    forall x | x in wagers.Keys - among ensures all(x) == 0 {
      assert !Financial(wagers[x]);
    }
    TotalOfRest(all, among, wagers.Keys);
  }

  /**
   * The balance of a wallet is what its effective operations add up to: openings and wins
   * count for their amount, bets against it, and reversals only decide what is effective.
   */
  lemma BalanceIsNetEffect(db: Db, wallet: Uuid)
    requires Inv(db) && wallet in db.wallets
    ensures db.wallets[wallet].balance.amount == NetTotal(db.wagers, db.wagers.Keys, wallet)
  {
    assert db.wallets[wallet].balance.amount == Sum(db.ledger, wallet);
    hide WalletsOk, RowsOk, IndexOk, LinksOk, ReversalsOk, LedgerOk, BalancesOk, StreamOk, EventsOk, InboxOk, IdsOk,
         Traced, NetTotal;
    InvIsTraced(db);
    assert db.ledger[..|db.ledger|] == db.ledger;
    SumIsNetTotal(db.wagers, db.ledger, |db.ledger|, wallet);
    BookedExactly(db.wagers, db.ledger);
    hide AllBooked, Booked, Financial, Sum;
    NetTotalOfBooked(db.wagers, Booked(db.ledger), wallet);
  }

  /** Exactly the processed operations that move money own an entry. */
  lemma BookedExactly(wagers: map<Uuid, Wager>, ledger: seq<Entry>)
    requires LedgerOk(wagers, ledger) && AllBooked(wagers, ledger)
    ensures Booked(ledger) <= wagers.Keys
    ensures forall x :: x in wagers ==> (x in Booked(ledger) <==> Financial(wagers[x]))
  {
    BookedIsListed(ledger);
    forall x | x in Booked(ledger) ensures x in wagers && Financial(wagers[x]) {
      var k :| 0 <= k < |ledger| && ledger[k].transaction == x;
      assert EntryOk(wagers, ledger[k]);
    }
  }

  lemma UnreversedIsEffective(db: Db, x: Uuid)
    requires LinksOk(db.wagers) && ReversalsOk(db.wagers, db.reversals) && x in db.wagers
    requires db.wagers[x].status.Processed? && x !in db.reversals
    ensures Effective(db.wagers, x)
  {
    UndoneIffReversed(db, x);
  }

  lemma RollbackIsEffective(db: Db, x: Uuid)
    requires LinksOk(db.wagers) && ReversalsOk(db.wagers, db.reversals) && x in db.wagers
    requires db.wagers[x].status.Processed? && db.wagers[x].kind.Rollback?
    ensures Effective(db.wagers, x) && x !in db.reversals
  {
    UndoneIffReversed(db, x);
  }

  lemma EffectThroughReversal(db: Db, x: Uuid)
    requires LinksOk(db.wagers) && ReversalsOk(db.wagers, db.reversals) && x in db.wagers
    requires db.wagers[x].status.Processed? && x in db.reversals
    ensures Effective(db.wagers, x) <==> !Effective(db.wagers, db.reversals[x])
  {
    UndoneIffReversed(db, x);
    assert db.reversals[x] in db.wagers.Keys;
  }

  /**
   * What stands in the end: a rollback always, a refund or a win unless it is rolled back, a bet
   * unless it is reversed by something that stands itself.
   */
  lemma EffectOfReversals(db: Db, x: Uuid)
    requires LinksOk(db.wagers) && ReversalsOk(db.wagers, db.reversals)
    requires x in db.wagers && db.wagers[x].status.Processed?
    ensures db.wagers[x].kind.Rollback? ==> Effective(db.wagers, x)
    ensures db.wagers[x].kind.Refund? || db.wagers[x].kind.Win? ==> (Effective(db.wagers, x) <==> x !in db.reversals)
    ensures db.wagers[x].kind.Bet? ==>
              (Effective(db.wagers, x) <==>
                 x !in db.reversals || (db.wagers[db.reversals[x]].kind.Refund? && db.reversals[x] in db.reversals))
  {
    UndoneIffReversed(db, x);
    if x !in db.reversals {
      UnreversedIsEffective(db, x);
    } else {
      var y := db.reversals[x];
      EffectThroughReversal(db, x);
      UndoneIffReversed(db, y);
      hide LinksOk, ReversalsOk, Effective;
      if y !in db.reversals {
        UnreversedIsEffective(db, y);
      } else {
        EffectThroughReversal(db, y);
        RollbackIsEffective(db, db.reversals[y]);
      }
    }
  }

  lemma UndoneIffReversed(db: Db, x: Uuid)
    requires LinksOk(db.wagers) && ReversalsOk(db.wagers, db.reversals) && x in db.wagers
    ensures x in db.reversals ==> Undoes(db.wagers, db.reversals[x], x) && Linked(db.wagers[db.reversals[x]], db.wagers[x])
    ensures forall y :: Undoes(db.wagers, y, x) ==> x in db.reversals && y == db.reversals[x]
  {
    if x in db.reversals {
      assert Linked(db.wagers[db.reversals[x]], db.wagers[x]);
    }
  }
}
