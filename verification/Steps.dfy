/** The invariant over whole steps: opening, submitting, receiving and retrying. */
module Steps {
  import opened Core
  import opened Finance
  import opened Domain
  import opened Delays
  import opened Engine
  import opened Invariant
  import opened Decisions
  import opened Preservation

  lemma CountOfTwo(a: Event, b: Event, id: Uuid, tag: Tag)
    ensures Count([a], id, tag) == if Concerns(a.content, id, tag) then 1 else 0
    ensures Count([a, b], id, tag)
            == (if Concerns(a.content, id, tag) then 1 else 0) + (if Concerns(b.content, id, tag) then 1 else 0)
    ensures Changes([a]) == if a.content.BalanceChanged? then [a] else []
    ensures Changes([a, b])
            == (if a.content.BalanceChanged? then [a] else []) + (if b.content.BalanceChanged? then [b] else [])
  {
    assert [a][..0] == [] && [a, b][..1] == [a];
  }

  /** What a step announces, counted. */
  lemma EventsCounted(w: Wager, wallet: WalletRow, d: Decision, stamp: Stamp, trace: Trace, tag: Tag)
    requires !d.Abort? && (w.status.Pending? || w.status.PendingReference?)
    ensures var f := After(w, wallet, d, stamp.at);
            var events := EventsOf(w, f, wallet, d, stamp, trace);
            && OnlyAbout(events, f.id)
            && Count(events, f.id, tag)
               == (match tag
                   case ProcessedTag => if d.Settle? then 1 else 0
                   case RejectedTag => if d.Refuse? then 1 else 0
                   case PendingTag => if d.Wait? && w.status.Pending? then 1 else 0
                   case ChangeTag => if d.Settle? && d.movement.Some? then 1 else 0)
            && Changes(events) == (if d.Settle? && d.movement.Some? then [events[1]] else [])
  {
    var f := After(w, wallet, d, stamp.at);
    var events := EventsOf(w, f, wallet, d, stamp, trace);
    if |events| == 1 {
      CountOfTwo(events[0], events[0], f.id, tag);
      assert events == [events[0]];
    } else if |events| == 2 {
      CountOfTwo(events[0], events[1], f.id, tag);
      assert events == [events[0], events[1]];
    }
  }

  /** The events of a step complete the ones that its operation had. */
  lemma EventsComplete(wagers: map<Uuid, Wager>, outbox: seq<Event>, w: Wager, wallet: WalletRow, d: Decision,
                       stamp: Stamp, trace: Trace)
    requires EventsOk(wagers, outbox)
    requires !d.Abort? && w.referenceId.None? && (d.Wait? ==> NeedsReference(w))
    requires d.Settle? ==> (d.movement.None? <==> w.kind.Loss?)
    requires if w.id in wagers then wagers[w.id] == w && w.status.PendingReference? else w.status.Pending?
    ensures var f := After(w, wallet, d, stamp.at);
            EventsMatch(f, outbox + EventsOf(w, f, wallet, d, stamp, trace))
  {
    var f := After(w, wallet, d, stamp.at);
    var events := EventsOf(w, f, wallet, d, stamp, trace);
    OutcomeShape(w, wallet, d, stamp.at);
    forall tag ensures Count(outbox + events, f.id, tag) == Count(outbox, f.id, tag) + Count(events, f.id, tag) {
      CountConcat(outbox, events, f.id, tag);
    }
    forall tag {
      EventsCounted(w, wallet, d, stamp, trace, tag);
    }
    if w.id in wagers {
      assert EventsMatch(w, outbox);
    } else {
      forall tag {
        NoEventsYet(wagers, outbox, w.id, tag);
      }
    }
  }

  lemma SnapshotsOk(rows: map<Uuid, Wager>, w: Wager, wallet: WalletRow, d: Decision, stamp: Stamp, trace: Trace)
    requires !d.Abort? && w.referenceId.None? && (w.status.Pending? || w.status.PendingReference?)
    requires w.id in rows && rows[w.id] == After(w, wallet, d, stamp.at) && !Blank(trace.correlation)
    ensures var events := EventsOf(w, rows[w.id], wallet, d, stamp, trace);
            forall j :: 0 <= j < |events| ==> SnapshotOk(rows, events[j])
  {
    OutcomeShape(w, wallet, d, stamp.at);
  }

  /** The new row fits the table that receives it. */
  ghost predicate Fits(db: Db, f: Wager) {
    && RowOk(db.wallets, f) && !f.kind.Opening? && Replaces(db.wagers, f)
    && (f.id !in db.wagers ==> (f.provider, f.key) !in db.byKey && (f.provider, f.externalId) !in db.byExternal)
    && (f.id in db.wagers ==> !db.wagers[f.id].kind.Opening?)
    && (f.referenceId.Some? ==> f.referenceId.value in db.wagers && Linked(f, db.wagers[f.referenceId.value]))
    && (Reverses(f) ==> f.referenceId.value !in db.reversals)
  }

  lemma OutcomeFits(db: Db, w: Wager, d: Decision, at: Instant)
    requires WalletsOk(db.wallets, db.byOwner) && RowsOk(db.wallets, db.wagers)
    requires Ready(db, w) && Timely(db, w, at)
    requires DecisionOk(db.wagers, db.reversals, db.wallets[w.wallet], w, d, at)
    ensures Fits(db, After(w, db.wallets[w.wallet], d, at))
  {
    hide Validate, PayloadOfWager, MovementOk, RowOk;
    var f := After(w, db.wallets[w.wallet], d, at);
    OutcomeRow(db, w, d, at);
    OutcomeShape(w, db.wallets[w.wallet], d, at);
    LinkSurvives(db.wagers, w, f, d);
  }

  /** The rows of a step: what becomes of the tables of wagers and of their indexes. */
  lemma RecordedKeepsRows(db: Db, f: Wager)
    requires RowsOk(db.wallets, db.wagers) && IndexOk(db.wagers, db.byKey, db.byExternal)
    requires LinksOk(db.wagers) && ReversalsOk(db.wagers, db.reversals)
    requires Fits(db, f)
    ensures var after := Recorded(db, f);
            && RowsOk(db.wallets, after.wagers)
            && IndexOk(after.wagers, after.byKey, after.byExternal)
            && LinksOk(after.wagers) && ReversalsOk(after.wagers, after.reversals)
  {
    hide RowsOk, RowOk, IndexOk, LinksOk, ReversalsOk, Linked;
    RowsKept(db.wallets, db.wagers, f);
    IndexKept(db.wagers, db.byKey, db.byExternal, f);
    LinksKept(db.wagers, f);
    ReversalsKept(db.wagers, db.reversals, f);
  }

  lemma LinkSurvives(wagers: map<Uuid, Wager>, w: Wager, f: Wager, d: Decision)
    requires SameBusiness(w, f) && f.referenceId == ResolvedBy(d)
    requires ResolvedBy(d).Some? ==> ResolvedBy(d).value in wagers && Linked(w, wagers[ResolvedBy(d).value])
    ensures f.referenceId.Some? ==> f.referenceId.value in wagers && Linked(f, wagers[f.referenceId.value])
  {
  }

  // ---- Books --------------------------------------------------------------------------

  lemma EntryFits(db: Db, w: Wager, d: Decision, stamp: Stamp)
    requires BalancesOk(db.wallets, db.ledger) && AllBooked(db.wagers, db.ledger)
    requires w.wallet in db.wallets && db.wallets[w.wallet].id == w.wallet
    requires db.wallets[w.wallet].balance.amount >= 0 && !w.kind.Opening? && w.referenceId.None?
    requires DecisionOk(db.wagers, db.reversals, db.wallets[w.wallet], w, d, stamp.at)
    requires d.Settle? && d.movement.Some? && stamp.at > 0 && w.id !in Booked(db.ledger) && !w.id.Named?
    ensures var wallet := db.wallets[w.wallet];
            var f := After(w, wallet, d, stamp.at);
            var e := EntryOf(f, wallet, d.movement.value, stamp);
            EntryOk(db.wagers[f.id := f], e) && InOrder(db.wagers[f.id := f], db.ledger, e)
  {
    var wallet := db.wallets[w.wallet];
    var f := After(w, wallet, d, stamp.at);
    if f.referenceId.Some? {
      var r := db.wagers[f.referenceId.value];
      assert Linked(w, r) && Financial(r);
    }
  }

  /** A movement and its entry: the wallets, the rows about them, the ledger and its sums. */
  lemma MovementKeepsBooks(db: Db, rows: map<Uuid, Wager>, w: Wager, f: Wager, m: Movement, e: Entry, at: Instant)
    requires WalletsOk(db.wallets, db.byOwner) && RowsOk(db.wallets, rows) && BalancesOk(db.wallets, db.ledger)
    requires LedgerOk(rows, db.ledger) && AllBooked(db.wagers, db.ledger) && rows == db.wagers[f.id := f]
    requires w.wallet in db.wallets && MovementOk(w, db.wallets[w.wallet], m, at)
    requires db.wallets[w.wallet].createdAt <= at
    requires e.wallet == w.wallet && e.direction == m.direction && e.money == w.money
    requires e.transaction == f.id && !f.id.Named?
    requires EntryOk(rows, e) && InOrder(rows, db.ledger, e)
    ensures m.moved.id in db.wallets
    ensures var wallets := db.wallets[m.moved.id := m.moved];
            && WalletsOk(wallets, db.byOwner) && RowsOk(wallets, rows)
            && LedgerOk(rows, db.ledger + [e]) && AllBooked(rows, db.ledger + [e]) && BalancesOk(wallets, db.ledger + [e])
  {
    hide RowsOk, LedgerOk, AllBooked, EntryOk, InOrder, BalancesOk;
    assert db.wallets[w.wallet].id == w.wallet;
    WalletsKept(db.wallets, db.byOwner, m.moved);
    RowsKeptByMovement(db.wallets, rows, m.moved);
    LedgerExtended(rows, db.ledger, e);
    AllBookedExtended(db.wagers, db.ledger, f, e);
    BalancesKept(db.wallets, db.ledger, m.moved, e);
  }

  // ---- The financial step as a whole ----------------------------------------------------

  /** The conditions under which a decision is carried out. */
  ghost predicate Enactable(db: Db, w: Wager, d: Decision, stamp: Stamp, trace: Trace) {
    && Ready(db, w) && Timely(db, w, stamp.at) && Decided(db, w, d, stamp.at)
    && Unused(db, stamp.ticket) && !Blank(trace.correlation)
  }

  /** What the invariant and the conditions say about the row to be stored and the decision behind it. */
  lemma StepFacts(db: Db, w: Wager, d: Decision, stamp: Stamp, trace: Trace)
    requires Inv(db) && Enactable(db, w, d, stamp, trace)
    ensures var wallet := db.wallets[w.wallet];
            && wallet.id == w.wallet && wallet.balance.amount >= 0 && wallet.createdAt <= stamp.at && stamp.at > 0
            && DecisionOk(db.wagers, db.reversals, wallet, w, d, stamp.at)
            && Fits(db, After(w, wallet, d, stamp.at))
  {
    hide IndexOk, LinksOk, ReversalsOk, LedgerOk, AllBooked, BalancesOk, StreamOk, EventsOk, InboxOk, IdsOk,
         DecisionOk, Fits, DecideIn;
    assert stamp.at > 0 by {
      assert ValidWager(w);
    }
    hide Validate, PayloadOfWager, RowsOk;
    DecisionFacts(db, w, d, stamp.at);
    OutcomeFits(db, w, d, stamp.at);
  }

  lemma DecisionSummary(db: Db, w: Wager, d: Decision, at: Instant)
    requires Ready(db, w) && DecisionOk(db.wagers, db.reversals, db.wallets[w.wallet], w, d, at)
    ensures !d.Abort? && w.referenceId.None? && !w.kind.Opening?
    ensures w.status.Pending? || w.status.PendingReference?
    ensures if w.id in db.wagers then db.wagers[w.id] == w && w.status.PendingReference? else w.status.Pending?
    ensures d.Wait? ==> NeedsReference(w)
    ensures d.Settle? ==> (d.movement.None? <==> w.kind.Loss?)
    ensures d.Settle? && d.movement.Some? ==> MovementOk(w, db.wallets[w.wallet], d.movement.value, at)
  {
    hide Validate, PayloadOfWager;
  }

  /** The names that the lemmas about one step share: its wallet and the row that it leaves. */
  predicate Leaves(db: Db, w: Wager, wallet: WalletRow, d: Decision, at: Instant, f: Wager) {
    w.wallet in db.wallets && wallet == db.wallets[w.wallet] && f == After(w, wallet, d, at)
  }

  lemma EnactedKeepsRows(db: Db, schedules: map<Uuid, Schedule>, w: Wager, f: Wager)
    requires Inv(db) && Fits(db, f) && f.id == w.id
    requires w.id in schedules && forall id :: id in db.wagers ==> id in schedules
    ensures var after := Recorded(db, f);
            && RowsOk(db.wallets, after.wagers)
            && IndexOk(after.wagers, after.byKey, after.byExternal)
            && LinksOk(after.wagers) && ReversalsOk(after.wagers, after.reversals)
            && SchedulesOk(after.wagers, schedules)
            && InboxOk(after.wagers, after.byKey, db.inbox)
            && LedgerOk(after.wagers, db.ledger) && w.id !in Booked(db.ledger)
  {
    hide WalletsOk, RowsOk, LinksOk, ReversalsOk, LedgerOk, AllBooked, BalancesOk, StreamOk, EventsOk,
         InboxOk, IdsOk, RowOk, Linked;
    RecordedKeepsRows(db, f);
    EntriesKept(db.wagers, db.ledger, f);
    InboxKept(db.wagers, db.byKey, db.inbox, f);
  }

  lemma EnactedKeepsEvents(db: Db, w: Wager, wallet: WalletRow, d: Decision, f: Wager, events: seq<Event>,
                           stamp: Stamp, trace: Trace)
    requires EventsOk(db.wagers, db.outbox) && forall id :: id in db.wagers ==> db.wagers[id].id == id
    requires Leaves(db, w, wallet, d, stamp.at, f) && events == EventsOf(w, f, wallet, d, stamp, trace)
    requires Ready(db, w) && DecisionOk(db.wagers, db.reversals, wallet, w, d, stamp.at) && Replaces(db.wagers, f)
    requires !Blank(trace.correlation)
    ensures EventsOk(db.wagers[f.id := f], db.outbox + events)
    ensures Changes(db.outbox + events)
            == Changes(db.outbox) + (if d.Settle? && d.movement.Some? then [events[1]] else [])
  {
    DecisionSummary(db, w, d, stamp.at);
    hide EventsOk, Ready, DecisionOk, MovementOk;
    EventsComplete(db.wagers, db.outbox, w, wallet, d, stamp, trace);
    SnapshotsOk(db.wagers[f.id := f], w, wallet, d, stamp, trace);
    EventsCounted(w, wallet, d, stamp, trace, ProcessedTag);
    EventsKept(db.wagers, db.outbox, f, events);
    ChangesConcat(db.outbox, events);
  }

  lemma EnactedKeepsIds(db: Db, w: Wager, wallet: WalletRow, d: Decision, f: Wager, events: seq<Event>,
                        stamp: Stamp, trace: Trace)
    requires IdsOk(db.ledger, db.outbox) && Unused(db, stamp.ticket)
    requires events == EventsOf(w, f, wallet, d, stamp, trace)
    ensures IdsOk(db.ledger, db.outbox + events)
    ensures d.Settle? && d.movement.Some? ==>
              IdsOk(db.ledger + [EntryOf(f, wallet, d.movement.value, stamp)], db.outbox + events)
  {
    IdsKept(db.ledger, db.outbox, [], events, stamp.ticket);
    assert db.ledger + [] == db.ledger;
    if d.Settle? && d.movement.Some? {
      IdsKept(db.ledger, db.outbox, [EntryOf(f, wallet, d.movement.value, stamp)], events, stamp.ticket);
    }
  }

  lemma EnactedKeepsBooks(db: Db, w: Wager, wallet: WalletRow, d: Decision, f: Wager, events: seq<Event>,
                          stamp: Stamp, trace: Trace)
    requires WalletsOk(db.wallets, db.byOwner) && BalancesOk(db.wallets, db.ledger)
    requires AllBooked(db.wagers, db.ledger) && StreamOk(db.ledger, Changes(db.outbox))
    requires Leaves(db, w, wallet, d, stamp.at, f) && events == EventsOf(w, f, wallet, d, stamp, trace)
    requires Ready(db, w) && DecisionOk(db.wagers, db.reversals, wallet, w, d, stamp.at)
    requires stamp.at > 0 && wallet.createdAt <= stamp.at && wallet.balance.amount >= 0
    requires RowsOk(db.wallets, db.wagers[f.id := f]) && LedgerOk(db.wagers[f.id := f], db.ledger)
    requires f.id !in Booked(db.ledger) && !f.id.Named?
    ensures var after := Enacted(db, w, wallet, d, stamp, trace);
            && WalletsOk(after.wallets, after.byOwner) && RowsOk(after.wallets, after.wagers)
            && LedgerOk(after.wagers, after.ledger) && AllBooked(after.wagers, after.ledger)
            && BalancesOk(after.wallets, after.ledger)
            && StreamOk(after.ledger,
                        Changes(db.outbox) + (if d.Settle? && d.movement.Some? then [events[1]] else []))
  {
    assert wallet.id == w.wallet;
    DecisionSummary(db, w, d, stamp.at);
    OutcomeShape(w, wallet, d, stamp.at);
    hide WalletsOk, RowsOk, LedgerOk, AllBooked, StreamOk, Ready, DecisionOk, EntryOk, InOrder;
    if d.Settle? && d.movement.Some? {
      var m := d.movement.value;
      var e := EntryOf(f, wallet, m, stamp);
      EntryFits(db, w, d, stamp);
      MovementKeepsBooks(db, db.wagers[f.id := f], w, f, m, e, stamp.at);
      Appended(db.ledger, e, e.wallet);
      StreamExtended(db.ledger, Changes(db.outbox), e, events[1]);
    } else {
      AllBookedKept(db.wagers, db.ledger, f);
      assert Changes(db.outbox) + [] == Changes(db.outbox);
    }
  }

  /** A financial step, whatever it decides, keeps the invariant. */
  lemma EnactedKeepsInv(db: Db, schedules: map<Uuid, Schedule>, w: Wager, d: Decision, stamp: Stamp, trace: Trace)
    requires Inv(db) && Enactable(db, w, d, stamp, trace)
    requires w.id in schedules && forall id :: id in db.wagers ==> id in schedules
    ensures Inv(Enacted(db.(schedules := schedules), w, db.wallets[w.wallet], d, stamp, trace))
  {
    hide WalletsOk, IndexOk, LinksOk, ReversalsOk, SchedulesOk, LedgerOk, AllBooked, BalancesOk, StreamOk, EventsOk,
         InboxOk, IdsOk, RowOk, Linked, Validate, Decided, DecisionOk, Timely, Unused;
    StepFacts(db, w, d, stamp, trace);
    var wallet := db.wallets[w.wallet];
    var f := After(w, wallet, d, stamp.at);
    var events := EventsOf(w, f, wallet, d, stamp, trace);
    assert Replaces(db.wagers, f) && !f.id.Named? by {
      assert Fits(db, f);
    }
    hide Fits, Replaces, EventsOf;
    EnactedKeepsRows(db, schedules, w, f);
    EnactedKeepsEvents(db, w, wallet, d, f, events, stamp, trace);
    EnactedKeepsIds(db, w, wallet, d, f, events, stamp, trace);
    hide RowsOk, Ready;
    EnactedKeepsBooks(db, w, wallet, d, f, events, stamp, trace);
  }
}
