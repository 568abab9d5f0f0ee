/** Every financial step keeps the invariant, part by part. */
module Preservation {
  import opened Core
  import opened Finance
  import opened Domain
  import opened Engine
  import opened Invariant
  import opened Decisions

  /** The row may take the place of what is stored under its identity: nothing, or a waiting operation. */
  predicate Replaces(wagers: map<Uuid, Wager>, f: Wager) {
    f.id in wagers ==> wagers[f.id].status.PendingReference? && SameBusiness(wagers[f.id], f)
  }

  // ---- Wallets, rows, indexes and links -------------------------------------------------

  lemma WalletsKept(wallets: map<Uuid, WalletRow>, byOwner: map<(Uuid, Currency), Uuid>, moved: WalletRow)
    requires WalletsOk(wallets, byOwner)
    requires moved.id in wallets && Owner(moved) == Owner(wallets[moved.id]) && ValidWallet(moved)
    ensures WalletsOk(wallets[moved.id := moved], byOwner)
  {
  }

  lemma RowsKept(wallets: map<Uuid, WalletRow>, wagers: map<Uuid, Wager>, f: Wager)
    requires RowsOk(wallets, wagers) && RowOk(wallets, f)
    ensures RowsOk(wallets, wagers[f.id := f])
  {
    hide RowOk;
  }

  lemma RowsKeptByMovement(wallets: map<Uuid, WalletRow>, wagers: map<Uuid, Wager>, moved: WalletRow)
    requires RowsOk(wallets, wagers)
    requires moved.id in wallets && Owner(moved) == Owner(wallets[moved.id])
    ensures RowsOk(wallets[moved.id := moved], wagers)
  {
    hide Validate, PayloadOfWager;
  }

  lemma IndexKept(wagers: map<Uuid, Wager>, byKey: map<(string, string), Uuid>, byExternal: map<(string, string), Uuid>,
                  f: Wager)
    requires IndexOk(wagers, byKey, byExternal)
    requires !f.kind.Opening? && Replaces(wagers, f)
    requires f.id !in wagers ==> (f.provider, f.key) !in byKey && (f.provider, f.externalId) !in byExternal
    requires f.id in wagers ==> !wagers[f.id].kind.Opening?
    ensures IndexOk(wagers[f.id := f], byKey[(f.provider, f.key) := f.id],
                    byExternal[(f.provider, f.externalId) := f.id])
  {
  }

  lemma LinksKept(wagers: map<Uuid, Wager>, f: Wager)
    requires LinksOk(wagers) && Replaces(wagers, f)
    requires f.referenceId.Some? ==> f.referenceId.value in wagers && Linked(f, wagers[f.referenceId.value])
    ensures LinksOk(wagers[f.id := f])
  {
    var rows := wagers[f.id := f];
    forall id | id in rows && rows[id].referenceId.Some?
      ensures rows[id].referenceId.value in rows && Linked(rows[id], rows[rows[id].referenceId.value])
    {
      if id != f.id {
        assert Linked(wagers[id], wagers[wagers[id].referenceId.value]);
      }
    }
  }

  lemma ReversalsKept(wagers: map<Uuid, Wager>, reversals: map<Uuid, Uuid>, f: Wager)
    requires ReversalsOk(wagers, reversals) && Replaces(wagers, f)
    requires Reverses(f) ==> f.referenceId.value !in reversals
    ensures ReversalsOk(wagers[f.id := f], if Reverses(f) then reversals[f.referenceId.value := f.id] else reversals)
  {
    forall r | r in reversals ensures reversals[r] != f.id {
      assert Reverses(wagers[reversals[r]]);
    }
  }

  // ---- Books --------------------------------------------------------------------------

  /** Storing an outcome leaves every earlier entry as good as it was. */
  lemma EntriesKept(wagers: map<Uuid, Wager>, ledger: seq<Entry>, f: Wager)
    requires LedgerOk(wagers, ledger) && LinksOk(wagers) && Replaces(wagers, f)
    ensures LedgerOk(wagers[f.id := f], ledger)
    ensures f.id !in Booked(ledger)
  {
    forall k | 0 <= k < |ledger|
      ensures EntryOk(wagers[f.id := f], ledger[k]) && InOrder(wagers[f.id := f], ledger[..k], ledger[k])
      ensures ledger[k].transaction != f.id
    {
      var e := ledger[k];
      assert EntryOk(wagers, e) && InOrder(wagers, ledger[..k], e);
      var w := wagers[e.transaction];
      if w.referenceId.Some? {
        assert Linked(w, wagers[w.referenceId.value]) by {
          assert e.transaction in wagers;
        }
      }
    }
    BookedIsListed(ledger);
  }

  lemma {:induction false} BookedIsListed(ledger: seq<Entry>)
    ensures forall id :: id in Booked(ledger) <==> exists k :: 0 <= k < |ledger| && ledger[k].transaction == id
  {
    if ledger != [] {
      var init := ledger[..|ledger| - 1];
      BookedIsListed(init);
      forall id | id in Booked(ledger) ensures exists k :: 0 <= k < |ledger| && ledger[k].transaction == id {
        if id in Booked(init) {
          var k :| 0 <= k < |init| && init[k].transaction == id;
          assert ledger[k].transaction == id;
        } else {
          assert ledger[|ledger| - 1].transaction == id;
        }
      }
      forall k | 0 <= k < |ledger| ensures ledger[k].transaction in Booked(ledger) {
        if k < |init| {
          assert init[k].transaction in Booked(init);
        }
      }
    }
  }

  lemma LedgerExtended(wagers: map<Uuid, Wager>, ledger: seq<Entry>, e: Entry)
    requires LedgerOk(wagers, ledger) && EntryOk(wagers, e) && InOrder(wagers, ledger, e)
    ensures LedgerOk(wagers, ledger + [e])
  {
    hide EntryOk, InOrder;
    var longer := ledger + [e];
    forall k | 0 <= k < |longer| ensures EntryOk(wagers, longer[k]) && InOrder(wagers, longer[..k], longer[k]) {
      if k < |ledger| {
        assert longer[..k] == ledger[..k];
        assert EntryOk(wagers, ledger[k]) && InOrder(wagers, ledger[..k], ledger[k]);
      } else {
        assert longer[..k] == ledger;
      }
    }
  }

  lemma AllBookedKept(wagers: map<Uuid, Wager>, ledger: seq<Entry>, f: Wager)
    requires AllBooked(wagers, ledger)
    ensures Financial(f) || AllBooked(wagers[f.id := f], ledger)
  {
  }

  lemma AllBookedExtended(wagers: map<Uuid, Wager>, ledger: seq<Entry>, f: Wager, e: Entry)
    requires AllBooked(wagers, ledger) && e.transaction == f.id
    ensures AllBooked(wagers[f.id := f], ledger + [e])
  {
    Appended(ledger, e, e.wallet);
  }

  lemma BalancesKept(wallets: map<Uuid, WalletRow>, ledger: seq<Entry>, moved: WalletRow, e: Entry)
    requires BalancesOk(wallets, ledger)
    requires moved.id in wallets && e.wallet == moved.id && !e.transaction.Named?
    requires moved.balance.amount as int == wallets[moved.id].balance.amount as int + Signed(e.direction, e.money.amount)
    requires moved.version as int == wallets[moved.id].version as int + 1
    ensures BalancesOk(wallets[moved.id := moved], ledger + [e])
  {
    forall id | id in wallets[moved.id := moved]
      ensures var w := wallets[moved.id := moved][id];
              w.balance.amount == Sum(ledger + [e], id) && w.version == 1 + Moves(ledger + [e], id)
    {
      Appended(ledger, e, id);
    }
  }

  // ---- Events -------------------------------------------------------------------------

  lemma StreamExtended(ledger: seq<Entry>, changes: seq<Event>, e: Entry, event: Event)
    requires StreamOk(ledger, changes)
    requires event.content.BalanceChanged? && event.content.entry == e && event.aggregate == e.wallet
    requires event.content.version as int == 1 + Moves(ledger + [e], e.wallet)
    ensures StreamOk(ledger + [e], changes + [event])
  {
    var longer, events := ledger + [e], changes + [event];
    forall k | 0 <= k < |longer| ensures Announces(events[k], longer, k) {
      if k < |ledger| {
        assert longer[..k + 1] == ledger[..k + 1];
        assert Announces(changes[k], ledger, k);
      } else {
        assert longer[..k + 1] == longer;
      }
    }
  }

  lemma {:induction false} CountConcat(a: seq<Event>, b: seq<Event>, id: Uuid, tag: Tag)
    ensures Count(a + b, id, tag) == Count(a, id, tag) + Count(b, id, tag)
  {
    if b == [] {
      assert a + b == a;
    } else {
      var init := b[..|b| - 1];
      assert (a + b)[..|a + b| - 1] == a + init;
      CountConcat(a, init, id, tag);
    }
  }

  lemma {:induction false} ChangesConcat(a: seq<Event>, b: seq<Event>)
    ensures Changes(a + b) == Changes(a) + Changes(b)
  {
    if b == [] {
      assert a + b == a;
    } else {
      var init := b[..|b| - 1];
      assert (a + b)[..|a + b| - 1] == a + init;
      ChangesConcat(a, init);
    }
  }

  /** Before its first step, no event is about an operation. */
  lemma {:induction false} NoEventsYet(wagers: map<Uuid, Wager>, outbox: seq<Event>, id: Uuid, tag: Tag)
    requires forall j :: 0 <= j < |outbox| ==> SnapshotOk(wagers, outbox[j])
    requires id !in wagers
    ensures Count(outbox, id, tag) == 0
  {
    if outbox != [] {
      var init := outbox[..|outbox| - 1];
      assert forall j :: 0 <= j < |init| ==> init[j] == outbox[j];
      NoEventsYet(wagers, init, id, tag);
      assert SnapshotOk(wagers, outbox[|outbox| - 1]);
    }
  }

  /** The events of a step concern its own operation only. */
  ghost predicate OnlyAbout(events: seq<Event>, id: Uuid) {
    forall j :: 0 <= j < |events| ==> forall other, tag :: Concerns(events[j].content, other, tag) ==> other == id
  }

  lemma {:induction false} OthersUncounted(events: seq<Event>, id: Uuid, other: Uuid, tag: Tag)
    requires OnlyAbout(events, id) && other != id
    ensures Count(events, other, tag) == 0
  {
    if events != [] {
      var init := events[..|events| - 1];
      assert forall j :: 0 <= j < |init| ==> init[j] == events[j];
      OthersUncounted(init, id, other, tag);
    }
  }

  lemma EventsKept(wagers: map<Uuid, Wager>, outbox: seq<Event>, f: Wager, events: seq<Event>)
    requires EventsOk(wagers, outbox) && Replaces(wagers, f)
    requires forall id :: id in wagers ==> wagers[id].id == id
    requires OnlyAbout(events, f.id) && EventsMatch(f, outbox + events)
    requires forall j :: 0 <= j < |events| ==> SnapshotOk(wagers[f.id := f], events[j])
    ensures EventsOk(wagers[f.id := f], outbox + events)
  {
    var rows, all := wagers[f.id := f], outbox + events;
    forall id | id in rows ensures EventsMatch(rows[id], all) {
      if id != f.id {
        assert EventsMatch(wagers[id], outbox);
        forall tag ensures Count(all, id, tag) == Count(outbox, id, tag) {
          CountConcat(outbox, events, id, tag);
          OthersUncounted(events, f.id, id, tag);
        }
      }
    }
    forall j | 0 <= j < |all| ensures SnapshotOk(rows, all[j]) {
      if j < |outbox| {
        assert SnapshotOk(wagers, outbox[j]);
      } else {
        assert all[j] == events[j - |outbox|];
      }
    }
  }

  // ---- Inbox and identities -------------------------------------------------------------

  lemma InboxKept(wagers: map<Uuid, Wager>, byKey: map<(string, string), Uuid>, inbox: map<string, Receipt>, f: Wager)
    requires InboxOk(wagers, byKey, inbox) && Replaces(wagers, f)
    requires f.id !in wagers ==> (f.provider, f.key) !in byKey
    requires f.id in wagers ==> (f.provider, f.key) in byKey && byKey[(f.provider, f.key)] == f.id
    ensures InboxOk(wagers[f.id := f], byKey[(f.provider, f.key) := f.id], inbox)
  {
    forall m | m in inbox
      ensures Answered(wagers[f.id := f], byKey[(f.provider, f.key) := f.id], inbox[m].body.request)
    {
      assert Answered(wagers, byKey, inbox[m].body.request);
    }
  }

  lemma IdsKept(ledger: seq<Entry>, outbox: seq<Event>, entries: seq<Entry>, events: seq<Event>, ticket: nat)
    requires IdsOk(ledger, outbox) && IdsOk(entries, events)
    requires forall k :: 0 <= k < |ledger| ==> !Draws(ledger[k].id, ticket)
    requires forall k :: 0 <= k < |outbox| ==> !Draws(outbox[k].id, ticket)
    requires forall k :: 0 <= k < |entries| ==> Draws(entries[k].id, ticket)
    requires forall k :: 0 <= k < |events| ==> Draws(events[k].id, ticket)
    ensures IdsOk(ledger + entries, outbox + events)
  {
    var l, o := ledger + entries, outbox + events;
    forall j, k | 0 <= j < k < |l| ensures l[j].id != l[k].id {
      if |ledger| <= j {
        assert entries[j - |ledger|].id != entries[k - |ledger|].id;
      }
    }
    forall j, k | 0 <= j < k < |o| ensures o[j].id != o[k].id {
      if |outbox| <= j {
        assert events[j - |outbox|].id != events[k - |outbox|].id;
      }
    }
  }
}
