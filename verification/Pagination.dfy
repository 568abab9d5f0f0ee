/** Reading a wallet: its ledger page by page, and its reconciliation. */
module Pagination {
  import opened Core
  import opened Finance
  import opened Domain
  import opened Engine
  import opened Invariant

  // ---- The order of the ledger --------------------------------------------------------------------

  /** The bytes of an identity, compared by the storage; any injective coding into numbers will do. */
  type Rank = Uuid -> nat

  ghost predicate Injective(rank: Rank) {
    forall a, b :: rank(a) == rank(b) ==> a == b
  }

  /** A place in a wallet's ledger, newest first. */
  datatype Position = Position(createdAt: Instant, id: Uuid)

  function PlaceOf(e: Entry): Position {
    Position(e.createdAt, e.id)
  }

  /** The first place comes strictly later in time, or at the same time with the greater identity. */
  predicate Newer(rank: Rank, a: Position, b: Position) {
    a.createdAt > b.createdAt || (a.createdAt == b.createdAt && rank(a.id) > rank(b.id))
  }

  predicate Descending(rank: Rank, items: seq<Entry>) {
    forall j, k :: 0 <= j < k < |items| ==> Newer(rank, PlaceOf(items[j]), PlaceOf(items[k]))
  }

  /** The entries of the wallet after the position, or all of them. */
  predicate Wanted(rank: Rank, e: Entry, wallet: Uuid, position: Option<Position>) {
    e.wallet == wallet && (position.Some? ==> Newer(rank, position.value, PlaceOf(e)))
  }

  ghost predicate DistinctIds(ledger: seq<Entry>) {
    forall j, k :: 0 <= j < k < |ledger| ==> ledger[j].id != ledger[k].id
  }

  /** Two entries of a ledger are the same, or one of them is newer. */
  lemma PlacesCompare(rank: Rank, ledger: seq<Entry>, a: Entry, b: Entry)
    requires Injective(rank) && DistinctIds(ledger) && a in ledger && b in ledger
    ensures a == b || Newer(rank, PlaceOf(a), PlaceOf(b)) || Newer(rank, PlaceOf(b), PlaceOf(a))
  {
  }

  /** The ledger of a consistent database can be listed, and every entry can be a cursor. */
  lemma ConsistentLedgersList(db: Db)
    requires Inv(db)
    ensures DistinctIds(db.ledger) && forall e :: e in db.ledger ==> e.id.Random? && e.createdAt > 0
  {
    hide WalletsOk, RowsOk, IndexOk, LinksOk, ReversalsOk, AllBooked, BalancesOk, StreamOk, EventsOk, InboxOk, InOrder;
    forall e | e in db.ledger ensures e.id.Random? && e.createdAt > 0 {
      var k :| 0 <= k < |db.ledger| && db.ledger[k] == e;
      assert EntryOk(db.wagers, db.ledger[k]);
    }
  }

  /** Newest first: the later entry before the earlier one, and among entries of one instant the greater identity. */
  predicate NewestFirst(rank: Rank, items: seq<Entry>) {
    forall j, k :: 0 <= j < k < |items| ==>
      items[j].createdAt > items[k].createdAt
      || (items[j].createdAt == items[k].createdAt && rank(items[j].id) > rank(items[k].id))
  }

  // ---- The query ------------------------------------------------------------------------------------

  /** What the storage answers: the wanted entries in descending order, cut at the limit. */
  ghost predicate Answers(rank: Rank, ledger: seq<Entry>, wallet: Uuid, position: Option<Position>, limit: nat,
                          items: seq<Entry>)
  {
    && Descending(rank, items) && |items| <= limit
    && (forall e :: e in items ==> e in ledger && Wanted(rank, e, wallet, position))
    && (forall e :: e in ledger && Wanted(rank, e, wallet, position) && e !in items ==>
          |items| == limit && forall k :: 0 <= k < |items| ==> Newer(rank, PlaceOf(items[k]), PlaceOf(e)))
  }

  /** The newest wanted entry, found in one pass. */
  method Newest(rank: Rank, ledger: seq<Entry>, wallet: Uuid, position: Option<Position>) returns (best: Option<Entry>)
    requires Injective(rank) && DistinctIds(ledger)
    ensures best.None? ==> forall e :: e in ledger ==> !Wanted(rank, e, wallet, position)
    ensures best.Some? ==> best.value in ledger && Wanted(rank, best.value, wallet, position)
    ensures best.Some? ==> forall e :: e in ledger && Wanted(rank, e, wallet, position) && e != best.value ==>
              Newer(rank, PlaceOf(best.value), PlaceOf(e))
  {
    best := None;
    for k := 0 to |ledger|
      invariant best.None? ==> forall j :: 0 <= j < k ==> !Wanted(rank, ledger[j], wallet, position)
      invariant best.Some? ==> best.value in ledger && Wanted(rank, best.value, wallet, position)
      invariant best.Some? ==> forall j :: 0 <= j < k && Wanted(rank, ledger[j], wallet, position) && ledger[j] != best.value ==>
                  Newer(rank, PlaceOf(best.value), PlaceOf(ledger[j]))
    {
      if Wanted(rank, ledger[k], wallet, position) {
        if best.None? || Newer(rank, PlaceOf(ledger[k]), PlaceOf(best.value)) {
          best := Some(ledger[k]);
        } else {
          PlacesCompare(rank, ledger, ledger[k], best.value);
        }
      }
    }
  }

  /** The rows of the query, one by one: each is the newest after the one before. */
  method ListLedger(rank: Rank, ledger: seq<Entry>, wallet: Uuid, position: Option<Position>, limit: nat)
    returns (items: seq<Entry>)
    requires Injective(rank) && DistinctIds(ledger)
    ensures Answers(rank, ledger, wallet, position, limit, items) && NewestFirst(rank, items)
  {
    items := [];
    var after := position;
    var more := true;
    while |items| < limit && more
      invariant Descending(rank, items) && |items| <= limit
      invariant forall e :: e in items ==> e in ledger && Wanted(rank, e, wallet, position)
      invariant after == if items == [] then position else Some(PlaceOf(items[|items| - 1]))
      invariant forall e :: e in ledger && Wanted(rank, e, wallet, position) && e !in items ==>
                  more && Wanted(rank, e, wallet, after)
                  && forall k :: 0 <= k < |items| ==> Newer(rank, PlaceOf(items[k]), PlaceOf(e))
      decreases limit - |items|, more
    {
      var next := Newest(rank, ledger, wallet, after);
      match next {
        case None => more := false;
        case Some(e) =>
          NextIsLast(rank, ledger, wallet, position, items, e);
          items := items + [e];
          after := Some(PlaceOf(e));
      }
    }
  }

  /** The next row continues the descending order and stays after the position of the query. */
  lemma NextIsLast(rank: Rank, ledger: seq<Entry>, wallet: Uuid, position: Option<Position>, items: seq<Entry>, e: Entry)
    requires Descending(rank, items) && forall x :: x in items ==> Wanted(rank, x, wallet, position)
    requires Wanted(rank, e, wallet, if items == [] then position else Some(PlaceOf(items[|items| - 1])))
    ensures Descending(rank, items + [e]) && Wanted(rank, e, wallet, position)
    ensures forall k :: 0 <= k < |items| ==> Newer(rank, PlaceOf(items[k]), PlaceOf(e))
  {
    if items != [] {
      assert items[|items| - 1] in items;
    }
  }

  // ---- One page -------------------------------------------------------------------------------------

  /** What a client may send back: nothing, the cursor of a page, or anything else. */
  datatype Cursor = NoCursor | Encoded(wallet: Uuid, position: Position) | Malformed

  function DecodeCursor(wallet: Uuid, cursor: Cursor): Result<Option<Position>> {
    match cursor
    case NoCursor => Ok(None)
    case Malformed => Err(ErrInvalidLedgerPage)
    case Encoded(w, position) =>
      if w != wallet || position.id.Nil? || position.createdAt == 0 then Err(ErrInvalidLedgerPage) else Ok(Some(position))
  }

  /** A cursor has to be made for the wallet, at a place that an entry can have. */
  predicate Acceptable(cursor: Cursor, wallet: Uuid) {
    match cursor
    case NoCursor => true
    case Malformed => false
    case Encoded(w, position) => w == wallet && position.id != Nil && position.createdAt > 0
  }

  /** The place after which the page begins. */
  function Beginning(cursor: Cursor): Option<Position> {
    if cursor.Encoded? then Some(cursor.position) else None
  }

  datatype Page = Page(items: seq<Entry>, next: Cursor)

  /** One row more than the limit is asked for: it only tells that there is another page. */
  method ListPage(rank: Rank, db: Db, wallet: Uuid, cursor: Cursor, limit: int) returns (page: Result<Page>)
    requires Injective(rank) && DistinctIds(db.ledger)
    ensures wallet.Nil? ==> page == Err(ErrInvalidWallet)
    ensures !wallet.Nil? && !(1 <= limit <= 100) ==> page == Err(ErrInvalidLedgerPage)
    ensures !wallet.Nil? && 1 <= limit <= 100 ==>
              if !Acceptable(cursor, wallet) then page == Err(ErrInvalidLedgerPage)
              else if wallet !in db.wallets then page == Err(ErrWalletNotFound)
              else
                && page.Ok? && PageOf(rank, db.ledger, wallet, Beginning(cursor), limit, page.value)
                && NewestFirst(rank, page.value.items)
  {
    if wallet.Nil? {
      return Err(ErrInvalidWallet);
    }
    if limit < 1 || limit > 100 {
      return Err(ErrInvalidLedgerPage);
    }
    var position := DecodeCursor(wallet, cursor);
    match position {
      case Err(e) => return Err(e);
      case Ok(after) =>
        if wallet !in db.wallets {
          return Err(ErrWalletNotFound);
        }
        var items := ListLedger(rank, db.ledger, wallet, after, limit + 1);
        LookAhead(rank, db.ledger, wallet, after, limit, items);
        if |items| > limit {
          var last := items[limit - 1];
          BeyondThePage(rank, items, limit);
          return Ok(Page(items[..limit], Encoded(wallet, PlaceOf(last))));
        }
        return Ok(Page(items, NoCursor));
    }
  }

  /** A page: the answer to its own limit, with a cursor at its last entry exactly when there is more. */
  ghost predicate PageOf(rank: Rank, ledger: seq<Entry>, wallet: Uuid, position: Option<Position>, limit: nat, page: Page) {
    && Answers(rank, ledger, wallet, position, limit, page.items)
    && (match page.next
        case NoCursor => forall e :: e in ledger && Wanted(rank, e, wallet, position) ==> e in page.items
        case Encoded(w, after) =>
          && w == wallet && |page.items| == limit > 0 && after == PlaceOf(page.items[|page.items| - 1])
          && exists e :: e in ledger && Wanted(rank, e, wallet, position) && e !in page.items
        case Malformed => false)
  }

  lemma BeyondThePage(rank: Rank, items: seq<Entry>, limit: nat)
    requires Descending(rank, items) && limit < |items|
    ensures items[limit] in items && items[limit] !in items[..limit]
  {
    forall k | 0 <= k < limit ensures items[k] != items[limit] {
      assert Newer(rank, PlaceOf(items[k]), PlaceOf(items[limit]));
    }
  }

  lemma LookAhead(rank: Rank, ledger: seq<Entry>, wallet: Uuid, position: Option<Position>, limit: nat, items: seq<Entry>)
    requires Answers(rank, ledger, wallet, position, limit + 1, items) && limit >= 1
    ensures |items| > limit ==> Answers(rank, ledger, wallet, position, limit, items[..limit])
    ensures |items| <= limit ==> Answers(rank, ledger, wallet, position, limit, items)
  {
    if |items| > limit {
      var first := items[..limit];
      forall e | e in ledger && Wanted(rank, e, wallet, position) && e !in first
        ensures forall k :: 0 <= k < limit ==> Newer(rank, PlaceOf(first[k]), PlaceOf(e))
      {
        if e in items {
          assert e == items[limit];
        }
      }
    }
  }

  /** A cursor comes back as the position that it was made from, for its own wallet only. */
  lemma CursorsComeBack(rank: Rank, ledger: seq<Entry>, wallet: Uuid, other: Uuid, position: Option<Position>, limit: nat,
                        page: Page)
    requires PageOf(rank, ledger, wallet, position, limit, page) && page.next.Encoded?
    requires forall e :: e in ledger ==> e.id.Random? && e.createdAt > 0
    ensures DecodeCursor(other, page.next)
            == if other == wallet then Ok(Some(PlaceOf(page.items[|page.items| - 1]))) else Err(ErrInvalidLedgerPage)
  {
    assert page.items[|page.items| - 1] in page.items;
  }

  // ---- All pages ------------------------------------------------------------------------------------

  /** The pages that a client has read so far by following cursors, each from the ledger as it was then. */
  ghost predicate Following(rank: Rank, ledgers: seq<seq<Entry>>, wallet: Uuid, position: Option<Position>, limit: nat,
                            pages: seq<Page>)
    decreases |pages|
  {
    && |ledgers| == |pages| > 0
    && PageOf(rank, ledgers[0], wallet, position, limit, pages[0])
    && (|pages| > 1 ==>
          && pages[0].next.Encoded?
          && Following(rank, ledgers[1..], wallet, Some(pages[0].next.position), limit, pages[1..]))
  }

  /** All of them: the last one has no cursor to follow. */
  ghost predicate Followed(rank: Rank, ledgers: seq<seq<Entry>>, wallet: Uuid, position: Option<Position>, limit: nat,
                           pages: seq<Page>)
  {
    Following(rank, ledgers, wallet, position, limit, pages) && pages[|pages| - 1].next.NoCursor?
  }

  /** Each cursor that was returned is accepted, as the position of the last entry of its page. */
  lemma {:induction false} CursorsAreAccepted(rank: Rank, ledgers: seq<seq<Entry>>, wallet: Uuid, position: Option<Position>,
                                              limit: nat, pages: seq<Page>, k: nat)
    requires Following(rank, ledgers, wallet, position, limit, pages) && k < |pages| && pages[k].next.Encoded?
    requires forall j, e :: 0 <= j < |ledgers| && e in ledgers[j] ==> e.id.Random? && e.createdAt > 0
    ensures pages[k].items != []
    ensures DecodeCursor(wallet, pages[k].next) == Ok(Some(PlaceOf(pages[k].items[|pages[k].items| - 1])))
    decreases k
  {
    if k == 0 {
      CursorsComeBack(rank, ledgers[0], wallet, wallet, position, limit, pages[0]);
    } else {
      CursorsAreAccepted(rank, ledgers[1..], wallet, Some(pages[0].next.position), limit, pages[1..], k - 1);
    }
  }

  function Items(pages: seq<Page>): seq<Entry> {
    if pages == [] then [] else pages[0].items + Items(pages[1..])
  }

  /** Whatever is appended between pages, the entries read are strictly descending and all wanted. */
  lemma {:induction false} PagesDescend(rank: Rank, ledgers: seq<seq<Entry>>, wallet: Uuid, position: Option<Position>,
                                        limit: nat, pages: seq<Page>)
    requires Following(rank, ledgers, wallet, position, limit, pages)
    ensures Descending(rank, Items(pages))
    ensures forall e :: e in Items(pages) ==>
              Wanted(rank, e, wallet, position) && exists k :: 0 <= k < |ledgers| && e in ledgers[k]
    decreases |pages|
  {
    var first := pages[0].items;
    if |pages| > 1 {
      var rest := Items(pages[1..]);
      PagesDescend(rank, ledgers[1..], wallet, Some(pages[0].next.position), limit, pages[1..]);
      assert first[|first| - 1] in first;
      forall e | e in rest ensures Wanted(rank, e, wallet, position) && exists k :: 0 <= k < |ledgers| && e in ledgers[k] {
        var k :| 0 <= k < |ledgers[1..]| && e in ledgers[1..][k];
        assert e in ledgers[k + 1];
      }
      forall j, k | 0 <= j < k < |first + rest|
        ensures Newer(rank, PlaceOf((first + rest)[j]), PlaceOf((first + rest)[k]))
      {
        if j < |first| <= k {
          assert (first + rest)[k] in rest;
        }
      }
    } else {
      assert Items(pages[1..]) == [] && Items(pages) == first;
      assert forall e :: e in first ==> e in ledgers[0];
    }
  }

  /** An entry that is there for every page is read: none is skipped between two pages. */
  lemma {:induction false} PagesCover(rank: Rank, ledgers: seq<seq<Entry>>, wallet: Uuid, position: Option<Position>,
                                      limit: nat, pages: seq<Page>, e: Entry)
    requires Followed(rank, ledgers, wallet, position, limit, pages)
    requires Wanted(rank, e, wallet, position) && forall k :: 0 <= k < |ledgers| ==> e in ledgers[k]
    ensures e in Items(pages)
    decreases |pages|
  {
    if e !in pages[0].items {
      assert e in ledgers[0];
      var first := pages[0].items;
      assert Newer(rank, PlaceOf(first[|first| - 1]), PlaceOf(e));
      assert pages[1..][|pages[1..]| - 1] == pages[|pages| - 1];
      PagesCover(rank, ledgers[1..], wallet, Some(pages[0].next.position), limit, pages[1..], e);
    }
  }

  /** In a descending sequence no entry comes twice. */
  lemma DescendingIsOnce(rank: Rank, items: seq<Entry>, j: nat, k: nat)
    requires Descending(rank, items) && j < |items| && k < |items|
    ensures items[j] == items[k] ==> j == k
  {
    if j < k {
      assert Newer(rank, PlaceOf(items[j]), PlaceOf(items[k]));
    } else if k < j {
      assert Newer(rank, PlaceOf(items[k]), PlaceOf(items[j]));
    }
  }

  /**
   * Following cursors from the start, whatever the limit and whatever is appended between pages,
   * each entry of the wallet that was there at the start is read exactly once.
   */
  lemma EachEntryOnce(rank: Rank, ledgers: seq<seq<Entry>>, wallet: Uuid, limit: nat, pages: seq<Page>, e: Entry)
    returns (place: nat)
    requires Followed(rank, ledgers, wallet, None, limit, pages)
    requires forall k :: 0 <= k < |ledgers| ==> ledgers[0] <= ledgers[k]
    requires e in ledgers[0] && e.wallet == wallet
    ensures place < |Items(pages)| && Items(pages)[place] == e
    ensures forall k :: 0 <= k < |Items(pages)| && Items(pages)[k] == e ==> k == place
  {
    PagesCover(rank, ledgers, wallet, None, limit, pages, e);
    PagesDescend(rank, ledgers, wallet, None, limit, pages);
    place :| 0 <= place < |Items(pages)| && Items(pages)[place] == e;
    forall k | 0 <= k < |Items(pages)| && Items(pages)[k] == e ensures k == place {
      DescendingIsOnce(rank, Items(pages), k, place);
    }
  }

  /** With nothing appended, the pages hold the entries of the wallet and nothing else. */
  lemma ExactlyTheLedger(rank: Rank, ledgers: seq<seq<Entry>>, ledger: seq<Entry>, wallet: Uuid, limit: nat,
                         pages: seq<Page>)
    requires Followed(rank, ledgers, wallet, None, limit, pages)
    requires forall k :: 0 <= k < |ledgers| ==> ledgers[k] == ledger
    ensures Descending(rank, Items(pages))
    ensures forall e :: e in Items(pages) <==> e in ledger && e.wallet == wallet
  {
    PagesDescend(rank, ledgers, wallet, None, limit, pages);
    forall e | e in ledger && e.wallet == wallet ensures e in Items(pages) {
      PagesCover(rank, ledgers, wallet, None, limit, pages, e);
    }
  }

  // ---- How many pages -----------------------------------------------------------------------------------

  lemma FirstIsIn(items: seq<Entry>)
    ensures items != [] ==> items[0] in items
  {
  }

  /** Distinct entries of a wallet are no more than the ledger has. */
  lemma {:induction false} DistinctFit(items: seq<Entry>, ledger: seq<Entry>, wallet: Uuid)
    requires forall j, k :: 0 <= j < k < |items| ==> items[j] != items[k]
    requires forall e :: e in items ==> e in ledger && e.wallet == wallet
    ensures |items| <= CountOf(ledger, wallet)
    decreases |ledger|
  {
    if ledger == [] {
      FirstIsIn(items);
    } else {
      var init, last := ledger[..|ledger| - 1], ledger[|ledger| - 1];
      if last in items {
        var j :| 0 <= j < |items| && items[j] == last;
        var others := items[..j] + items[j + 1..];
        forall e | e in others ensures e in init && e.wallet == wallet {
          var k :| 0 <= k < |others| && others[k] == e;
          assert e == items[if k < j then k else k + 1];
        }
        DistinctFit(others, init, wallet);
      } else {
        DistinctFit(items, init, wallet);
      }
    }
  }

  /** While something is left to read, every page but the last is full and the last is not empty. */
  lemma {:induction false} PagesAreFull(rank: Rank, ledgers: seq<seq<Entry>>, ledger: seq<Entry>, wallet: Uuid,
                                        position: Option<Position>, limit: nat, pages: seq<Page>, e: Entry)
    requires Following(rank, ledgers, wallet, position, limit, pages) && limit > 0
    requires forall k :: 0 <= k < |ledgers| ==> ledgers[k] == ledger
    requires e in ledger && Wanted(rank, e, wallet, position)
    ensures |Items(pages)| > (|pages| - 1) * limit
    decreases |pages|
  {
    assert pages[0].items != [];
    if |pages| > 1 {
      var left :| left in ledger && Wanted(rank, left, wallet, position) && left !in pages[0].items;
      var after := pages[0].next.position;
      assert Wanted(rank, left, wallet, Some(after));
      PagesAreFull(rank, ledgers[1..], ledger, wallet, Some(after), limit, pages[1..], left);
      assert (|pages| - 1) * limit == (|pages| - 2) * limit + limit;
    }
  }

  /** With nothing appended, following cursors ends: with as many pages as the entries fill, and at least one. */
  lemma PagesAreFew(rank: Rank, ledgers: seq<seq<Entry>>, ledger: seq<Entry>, wallet: Uuid, limit: nat, pages: seq<Page>)
    requires Following(rank, ledgers, wallet, None, limit, pages) && limit > 0
    requires forall k :: 0 <= k < |ledgers| ==> ledgers[k] == ledger
    ensures |pages| > 1 ==> (|pages| - 1) * limit < CountOf(ledger, wallet)
    ensures |pages| <= CountOf(ledger, wallet) / limit + 1
  {
    var n := CountOf(ledger, wallet);
    if |pages| > 1 {
      PagesDescend(rank, ledgers, wallet, None, limit, pages);
      forall j, k | 0 <= j < k < |Items(pages)| ensures Items(pages)[j] != Items(pages)[k] {
        DescendingIsOnce(rank, Items(pages), j, k);
      }
      forall e | e in Items(pages) ensures e in ledger && e.wallet == wallet {
      }
      DistinctFit(Items(pages), ledger, wallet);
      var some :| some in ledger && Wanted(rank, some, wallet, None) && some !in pages[0].items;
      PagesAreFull(rank, ledgers, ledger, wallet, None, limit, pages, some);
      QuotientBounds(|pages| - 1, limit, n);
    }
  }

  lemma ProductsGrow(a: nat, b: nat, d: nat)
    requires a <= b
    ensures a * d <= b * d
  {
    assert b * d == a * d + (b - a) * d;
  }

  lemma QuotientBounds(k: nat, d: nat, n: nat)
    requires d > 0 && k * d <= n
    ensures k <= n / d
  {
    var q := n / d;
    assert n < (q + 1) * d;
    if k >= q + 1 {
      ProductsGrow(q + 1, k, d);
      assert false;
    }
  }

  // ---- Reconciliation ---------------------------------------------------------------------------------

  datatype Reconciliation = Reconciliation(
    wallet: Uuid, stored: Money, calculated: Money, difference: Money, consistent: bool, checked: nat)

  function CountOf(ledger: seq<Entry>, wallet: Uuid): nat {
    if ledger == [] then 0
    else CountOf(ledger[..|ledger| - 1], wallet) + (if ledger[|ledger| - 1].wallet == wallet then 1 else 0)
  }

  /** The places of a wallet's entries in the ledger. */
  function PlacesIn(ledger: seq<Entry>, wallet: Uuid): set<nat> {
    set k: nat | k < |ledger| && ledger[k].wallet == wallet
  }

  /** Each entry of the wallet is counted once. */
  lemma {:induction false} CountIsExact(ledger: seq<Entry>, wallet: Uuid)
    ensures CountOf(ledger, wallet) == |PlacesIn(ledger, wallet)|
  {
    if ledger != [] {
      var n := |ledger| - 1;
      var init := ledger[..n];
      CountIsExact(init, wallet);
      assert PlacesIn(ledger, wallet) == PlacesIn(init, wallet) + (if ledger[n].wallet == wallet then {n} else {});
    }
  }

  /** The sum is exact; only its end value has to fit 64 bits. */
  function Reconcile(db: Db, wallet: Uuid): Result<Reconciliation> {
    if wallet.Nil? then Err(ErrInvalidWallet)
    else if wallet !in db.wallets then Err(ErrWalletNotFound)
    else
      var stored, sum := db.wallets[wallet].balance, Sum(db.ledger, wallet);
      if !InRange(sum) || !ValidMoney(stored) then Err(ErrInvalidFinancialState)
      else
        var calculated := Money(sum, stored.currency);
        match Sub(stored, calculated)
        case Err(_) => Err(ErrInvalidFinancialState)
        case Ok(difference) =>
          Ok(Reconciliation(wallet, stored, calculated, difference, Finance.IsZero(difference), CountOf(db.ledger, wallet)))
  }

  /** What a reconciliation reports of any stored data, consistent or not. */
  lemma ReconcilesExactly(db: Db, wallet: Uuid)
    ensures wallet == Nil ==> Reconcile(db, wallet) == Err(ErrInvalidWallet)
    ensures wallet != Nil && wallet !in db.wallets ==> Reconcile(db, wallet) == Err(ErrWalletNotFound)
    ensures wallet != Nil && wallet in db.wallets ==>
            var stored, sum := db.wallets[wallet].balance, Sum(db.ledger, wallet);
            if (stored.currency == BRL || stored.currency == USD) && InRange(sum) && InRange(stored.amount as int - sum) then
              && Reconcile(db, wallet).Ok?
              && (var report := Reconcile(db, wallet).value;
                  && report.wallet == wallet && report.stored == stored
                  && report.calculated.amount as int == sum && report.difference.amount as int == stored.amount as int - sum
                  && report.calculated.currency == report.difference.currency == stored.currency
                  && (report.consistent <==> stored.amount as int == sum)
                  && report.checked == |PlacesIn(db.ledger, wallet)|)
            else Reconcile(db, wallet) == Err(ErrInvalidFinancialState)
  {
    CountIsExact(db.ledger, wallet);
    hide PlacesIn;
  }

  /** In a consistent database every wallet reconciles, however much moved through it. */
  lemma AlwaysReconciles(db: Db, wallet: Uuid)
    requires Inv(db) && wallet in db.wallets
    ensures var stored := db.wallets[wallet].balance;
            Reconcile(db, wallet)
            == Ok(Reconciliation(wallet, stored, stored, Money(0, stored.currency), true, |PlacesIn(db.ledger, wallet)|))
  {
    CountIsExact(db.ledger, wallet);
    hide RowsOk, IndexOk, LinksOk, ReversalsOk, LedgerOk, AllBooked, StreamOk, EventsOk, InboxOk, IdsOk;
  }
}
