/** A reference that arrives late leaves the books as one that arrives in time. */
module Confluence {
  import opened Core
  import opened Finance
  import opened Domain
  import opened Delays
  import opened Engine
  import opened Invariant
  import opened Decisions
  import opened UseCases
  import opened Idempotency
  import Runs

  // ---- Equal but for instants and event-side identities --------------------------------------

  predicate SameButTime(a: Wager, b: Wager) {
    b == a.(updatedAt := b.updatedAt)
  }

  predicate SameWalletButTime(a: WalletRow, b: WalletRow) {
    b == a.(updatedAt := b.updatedAt)
  }

  predicate SameEntryButTime(a: Entry, b: Entry) {
    b == a.(id := b.id, createdAt := b.createdAt)
  }

  ghost predicate SameWallets(a: map<Uuid, WalletRow>, b: map<Uuid, WalletRow>) {
    a.Keys == b.Keys && forall id :: id in a ==> SameWalletButTime(a[id], b[id])
  }

  ghost predicate SameLedger(a: seq<Entry>, b: seq<Entry>) {
    |a| == |b| && forall k :: 0 <= k < |a| ==> SameEntryButTime(a[k], b[k])
  }

  ghost predicate SameRows(a: map<Uuid, Wager>, b: map<Uuid, Wager>) {
    a.Keys == b.Keys && forall id :: id in a ==> SameButTime(a[id], b[id])
  }

  ghost predicate SameRowsApart(a: map<Uuid, Wager>, b: map<Uuid, Wager>, x: Uuid) {
    forall id :: id != x ==> (id in a <==> id in b) && (id in a ==> SameButTime(a[id], b[id]))
  }

  /** Two indexes that agree once the key of one operation is entered in both. */
  ghost predicate SameIndexApart(a: map<(string, string), Uuid>, b: map<(string, string), Uuid>, k: (string, string), x: Uuid) {
    a[k := x] == b[k := x]
  }

  /** The same wallets, operations, links and books, but for instants and for what one operation has in them. */
  ghost predicate AlikeApart(a: Db, b: Db, x: Wager) {
    && SameWallets(a.wallets, b.wallets) && a.byOwner == b.byOwner
    && SameRowsApart(a.wagers, b.wagers, x.id)
    && SameIndexApart(a.byKey, b.byKey, (x.provider, x.key), x.id)
    && SameIndexApart(a.byExternal, b.byExternal, (x.provider, x.externalId), x.id)
    && a.reversals == b.reversals && SameLedger(a.ledger, b.ledger)
  }

  /** The same wallets, operations, links and books, but for instants. */
  ghost predicate Alike(a: Db, b: Db) {
    && SameWallets(a.wallets, b.wallets) && a.byOwner == b.byOwner
    && SameRows(a.wagers, b.wagers)
    && a.byKey == b.byKey && a.byExternal == b.byExternal
    && a.reversals == b.reversals && SameLedger(a.ledger, b.ledger)
  }

  // ---- Decisions do not depend on instants ---------------------------------------------------

  function Retimed(d: Decision, at: Instant): Decision {
    match d
    case Settle(r, Some(m)) => Settle(r, Some(Movement(m.direction, m.moved.(updatedAt := at))))
    case _ => d
  }

  /** The same operation, still open, before and after it was made to wait. */
  predicate SameOpen(w: Wager, v: Wager) {
    && v == w.(status := v.status, updatedAt := v.updatedAt)
    && (w.status.Pending? || w.status.PendingReference?) && (v.status.Pending? || v.status.PendingReference?)
  }

  predicate SameFound(found: Option<Wager>, other: Option<Wager>) {
    && (found.None? <==> other.None?)
    && (found.Some? ==>
          SameButTime(found.value, other.value) && (ValidWager(found.value) <==> ValidWager(other.value)))
  }

  lemma DecideIgnoresTime(w: Wager, v: Wager, wallet: WalletRow, wallet': WalletRow, found: Option<Wager>,
                          found': Option<Wager>, reversed: bool, at: Instant, at': Instant)
    requires SameOpen(w, v) && SameWalletButTime(wallet, wallet') && SameFound(found, found')
    ensures Decide(v, wallet', found', reversed, at') == Retimed(Decide(w, wallet, found, reversed, at), at')
  {
    hide Validate;
    if found.Some? {
      assert ValidateReference(w, found.value) == ValidateReference(v, found'.value);
    }
    hide ValidateReference;
    var original := if NeedsReference(w) then found else None;
    var original' := if NeedsReference(w) then found' else None;
    MoveIgnoresTime(w, v, wallet, wallet', original, original', at, at');
    hide Move;
  }

  lemma MoveIgnoresTime(w: Wager, v: Wager, wallet: WalletRow, wallet': WalletRow, found: Option<Wager>,
                        found': Option<Wager>, at: Instant, at': Instant)
    requires SameOpen(w, v) && SameWalletButTime(wallet, wallet') && SameFound(found, found')
    ensures Move(v, wallet', found', at') == Retimed(Move(w, wallet, found, at), at')
  {
    hide Validate;
  }

  lemma OutcomeIgnoresTime(w: Wager, v: Wager, wallet: WalletRow, wallet': WalletRow, d: Decision, at: Instant,
                           at': Instant)
    requires SameOpen(w, v) && SameWalletButTime(wallet, wallet') && (d.Refuse? || d.Settle?)
    ensures SameButTime(After(v, wallet', Retimed(d, at'), at'), After(w, wallet, d, at))
  {
  }

  // ---- Two databases, one step in each -------------------------------------------------------

  lemma RowsStayAlike(a: map<Uuid, Wager>, b: map<Uuid, Wager>, f: Wager, g: Wager, x: Uuid)
    requires SameRowsApart(a, b, x) && SameButTime(f, g)
    ensures SameRowsApart(a[f.id := f], b[g.id := g], x)
    ensures f.id == x ==> SameRows(a[f.id := f], b[g.id := g])
  {
    var rows, others := a[f.id := f], b[g.id := g];
    if f.id == x {
      forall id ensures id in rows <==> id in others {
      }
    }
  }

  lemma IndexStaysAlike(a: map<(string, string), Uuid>, b: map<(string, string), Uuid>, k: (string, string), id: Uuid,
                        k': (string, string), id': Uuid)
    requires SameIndexApart(a, b, k, id) && (k == k' ==> id == id')
    ensures SameIndexApart(a[k' := id'], b[k' := id'], k, id)
    ensures k == k' ==> a[k' := id'] == b[k' := id']
  {
    assert a[k' := id'][k := id] == a[k := id][k' := id'];
    assert b[k' := id'][k := id] == b[k := id][k' := id'];
  }

  /** The tables that storing a row leaves. */
  predicate Records(before: Db, after: Db, f: Wager) {
    && after.wagers == before.wagers[f.id := f]
    && after.byKey == before.byKey[(f.provider, f.key) := f.id]
    && after.byExternal == before.byExternal[(f.provider, f.externalId) := f.id]
    && after.reversals == (if Reverses(f) then before.reversals[f.referenceId.value := f.id] else before.reversals)
    && after.wallets == before.wallets && after.byOwner == before.byOwner && after.ledger == before.ledger
  }

  lemma RecordedStaysApart(a: Db, b: Db, x: Wager, f: Wager, g: Wager)
    requires AlikeApart(a, b, x) && SameButTime(f, g)
    requires f.id == x.id <==> (f.provider, f.key) == (x.provider, x.key)
    requires f.id == x.id <==> (f.provider, f.externalId) == (x.provider, x.externalId)
    ensures AlikeApart(Recorded(a, f), Recorded(b, g), x)
  {
    hide SameRowsApart, SameRows, SameWallets, SameLedger, SameIndexApart, SameButTime, Reverses;
    assert Records(a, Recorded(a, f), f) && Records(b, Recorded(b, g), g);
    hide Recorded;
    SameNames(f, g);
    RowsStayAlike(a.wagers, b.wagers, f, g, x.id);
    IndexStaysAlike(a.byKey, b.byKey, (x.provider, x.key), x.id, (f.provider, f.key), f.id);
    IndexStaysAlike(a.byExternal, b.byExternal, (x.provider, x.externalId), x.id, (f.provider, f.externalId), f.id);
  }

  /** Once the operation that was apart is recorded in both, nothing is apart. */
  lemma RecordedBecomesAlike(a: Db, b: Db, x: Wager, f: Wager, g: Wager)
    requires AlikeApart(a, b, x) && SameButTime(f, g) && f.id == x.id
    requires f.provider == x.provider && f.key == x.key && f.externalId == x.externalId
    ensures Alike(Recorded(a, f), Recorded(b, g))
  {
    hide SameRowsApart, SameRows, SameWallets, SameLedger, SameIndexApart, SameButTime, Reverses;
    SameNames(f, g);
    RowsStayAlike(a.wagers, b.wagers, f, g, x.id);
    IndexStaysAlike(a.byKey, b.byKey, (x.provider, x.key), x.id, (x.provider, x.key), x.id);
    IndexStaysAlike(a.byExternal, b.byExternal, (x.provider, x.externalId), x.id, (x.provider, x.externalId), x.id);
  }

  lemma SameNames(f: Wager, g: Wager)
    requires SameButTime(f, g)
    ensures f.id == g.id && f.provider == g.provider && f.key == g.key && f.externalId == g.externalId
    ensures f.referenceId == g.referenceId && (Reverses(f) <==> Reverses(g))
  {
  }

  lemma BooksStayAlike(wallets: map<Uuid, WalletRow>, wallets': map<Uuid, WalletRow>, ledger: seq<Entry>,
                       ledger': seq<Entry>, m: WalletRow, m': WalletRow, e: Entry, e': Entry)
    requires SameWallets(wallets, wallets') && SameLedger(ledger, ledger')
    requires SameWalletButTime(m, m') && SameEntryButTime(e, e')
    ensures SameWallets(wallets[m.id := m], wallets'[m'.id := m']) && SameLedger(ledger + [e], ledger' + [e'])
  {
  }

  /** The books of two databases may be replaced together. */
  lemma BooksReplaced(a: Db, b: Db, x: Wager, wallets: map<Uuid, WalletRow>, wallets': map<Uuid, WalletRow>,
                      ledger: seq<Entry>, ledger': seq<Entry>)
    requires SameWallets(wallets, wallets') && SameLedger(ledger, ledger')
    ensures AlikeApart(a, b, x) ==> AlikeApart(a.(wallets := wallets, ledger := ledger),
                                               b.(wallets := wallets', ledger := ledger'), x)
    ensures Alike(a, b) ==> Alike(a.(wallets := wallets, ledger := ledger), b.(wallets := wallets', ledger := ledger'))
  {
    hide SameRowsApart, SameRows, SameWallets, SameLedger;
  }

  lemma PostedStaysAlike(a: Db, b: Db, x: Wager, m: WalletRow, m': WalletRow, e: Entry, e': Entry)
    requires AlikeApart(a, b, x) && SameWalletButTime(m, m') && SameEntryButTime(e, e')
    ensures AlikeApart(Posted(a, m, e), Posted(b, m', e'), x)
    ensures Alike(a, b) ==> Alike(Posted(a, m, e), Posted(b, m', e'))
  {
    assert SameWallets(a.wallets, b.wallets) && SameLedger(a.ledger, b.ledger);
    hide AlikeApart, Alike, SameWallets, SameLedger;
    BooksStayAlike(a.wallets, b.wallets, a.ledger, b.ledger, m, m', e, e');
    BooksReplaced(a, b, x, a.wallets[m.id := m], b.wallets[m'.id := m'], a.ledger + [e], b.ledger + [e']);
  }

  lemma PublishedStaysAlike(a: Db, b: Db, x: Wager, events: seq<Event>, events': seq<Event>)
    ensures AlikeApart(a, b, x) ==> AlikeApart(Published(a, events), Published(b, events'), x)
    ensures Alike(a, b) ==> Alike(Published(a, events), Published(b, events'))
  {
    hide SameRowsApart, SameRows, SameWallets, SameLedger;
  }

  /** The same decision, carried out in two databases that differ in one operation at most. */
  lemma EnactedStaysAlike(a: Db, b: Db, x: Wager, w: Wager, v: Wager, wallet: WalletRow, wallet': WalletRow,
                          d: Decision, stamp: Stamp, stamp': Stamp, trace: Trace, trace': Trace)
    requires AlikeApart(a, b, x) && SameOpen(w, v) && (d.Refuse? || d.Settle?)
    requires SameWalletButTime(wallet, wallet')
    requires w.id == x.id <==> (w.provider, w.key) == (x.provider, x.key)
    requires w.id == x.id <==> (w.provider, w.externalId) == (x.provider, x.externalId)
    ensures var a' := Enacted(a, v, wallet', Retimed(d, stamp'.at), stamp', trace');
            var b' := Enacted(b, w, wallet, d, stamp, trace);
            AlikeApart(a', b', x) && (w.id == x.id ==> Alike(a', b'))
  {
    var d' := Retimed(d, stamp'.at);
    var g, f := After(w, wallet, d, stamp.at), After(v, wallet', d', stamp'.at);
    OutcomeIgnoresTime(w, v, wallet, wallet', d, stamp.at, stamp'.at);
    assert f.id == w.id && f.provider == w.provider && f.key == w.key && f.externalId == w.externalId;
    var events', events := EventsOf(v, f, wallet', d', stamp', trace'), EventsOf(w, g, wallet, d, stamp, trace);
    hide After, EventsOf, AlikeApart, Alike, Recorded, Published, Posted;
    RecordedStaysApart(a, b, x, f, g);
    if f.id == x.id {
      RecordedBecomesAlike(a, b, x, f, g);
    }
    PublishedStaysAlike(Recorded(a, f), Recorded(b, g), x, events', events);
    if d.Settle? && d.movement.Some? {
      PostedStaysAlike(Published(Recorded(a, f), events'), Published(Recorded(b, g), events), x,
                       d'.movement.value.moved, d.movement.value.moved,
                       EntryOf(f, wallet', d'.movement.value, stamp'), EntryOf(g, wallet, d.movement.value, stamp));
    }
  }

  /** What a submission made to wait adds: its own row, under its own keys. */
  lemma WaitingIsApart(db: Db, w: Wager, stamp: Stamp, trace: Trace)
    requires w.wallet in db.wallets && w.status.Pending?
    ensures AlikeApart(Enacted(Enrolled(db, w, stamp.at), w, db.wallets[w.wallet], Wait, stamp, trace), db, w)
  {
    hide EventsOf;
  }

  lemma RescheduledIsAlike(a: Db, b: Db, x: Wager, schedules: map<Uuid, Schedule>, schedules': map<Uuid, Schedule>)
    requires AlikeApart(a, b, x)
    ensures AlikeApart(a.(schedules := schedules), b.(schedules := schedules'), x)
  {
    hide SameWallets, SameRowsApart, SameLedger;
  }

  lemma {:induction false} FirstPendingStays(outbox: seq<Event>, more: seq<Event>, id: Uuid)
    requires FirstPending(outbox, id).Some?
    ensures FirstPending(outbox + more, id) == FirstPending(outbox, id)
  {
    if more == [] {
      assert outbox + more == outbox;
    } else {
      var init := more[..|more| - 1];
      assert (outbox + more)[..|outbox + more| - 1] == outbox + init;
      FirstPendingStays(outbox, init, id);
    }
  }

  // ---- The two orders ------------------------------------------------------------------------

  /** Two new operations of a provider, the first of which refers to the second. */
  ghost predicate Together(db: Db, d: Wager, qd: Request, r: Wager, qr: Request) {
    && Admitted(d, qd) && Admitted(r, qr) && NeedsReference(d) && d.reference == Some(r.externalId)
    && d.id !in db.wagers && r.id !in db.wagers && d.id != r.id
    && d.provider == r.provider && d.key != r.key && d.externalId != r.externalId
    && GoesThrough(db, d) && GoesThrough(db, r)
  }

  lemma TogetherNames(db: Db, d: Wager, qd: Request, r: Wager, qr: Request)
    requires IndexOk(db.wagers, db.byKey, db.byExternal) && Together(db, d, qd, r, qr)
    ensures d.status.Pending? && r.status.Pending? && d.wallet in db.wallets && r.wallet in db.wallets
    ensures !IdentityTaken(db, d) && !IdentityTaken(db, r)
    ensures d.id != r.id && d.provider == r.provider && d.key != r.key && d.externalId != r.externalId
    ensures NeedsReference(d) && d.reference == Some(r.externalId)
  {
    NothingExists(db, d);
    NothingExists(db, r);
    hide PayloadOf, PayloadOfWager, Validate, IndexOk;
  }

  /** Without its reference, the dependent operation waits. */
  lemma DependentWaits(db: Db, d: Wager, r: Wager, stamp: Stamp, trace: Trace)
    requires GoesThrough(db, d) && !IdentityTaken(db, d) && !IdentityTaken(db, r) && d.provider == r.provider
    requires NeedsReference(d) && d.reference == Some(r.externalId) && d.externalId != r.externalId
    requires d.status.Pending?
    ensures var a := Enacted(Enrolled(db, d, stamp.at), d, db.wallets[d.wallet], Wait, stamp, trace);
            Submit(db, d, stamp, trace) == Reply(Ok(AnswerOf(d.(status := PendingReference, updatedAt := stamp.at), false)), a)
  {
    assert DecideIn(db, d, stamp.at) == Wait;
    SubmitUnfolds(db, d, stamp, trace);
    hide DecideIn, Enacted;
  }

  lemma WaitingDb(db: Db, w: Wager, stamp: Stamp, trace: Trace)
    requires w.wallet in db.wallets && w.status.Pending?
    ensures var a := Enacted(Enrolled(db, w, stamp.at), w, db.wallets[w.wallet], Wait, stamp, trace);
            && a.wagers == db.wagers[w.id := w.(status := PendingReference, updatedAt := stamp.at)]
            && a.byKey == db.byKey[(w.provider, w.key) := w.id]
            && a.byExternal == db.byExternal[(w.provider, w.externalId) := w.id]
            && a.wallets == db.wallets && a.reversals == db.reversals
            && a.schedules == db.schedules[w.id := Schedule(0, stamp.at)]
            && FirstPending(a.outbox, w.id).Some?
  {
    var f := After(w, db.wallets[w.wallet], Wait, stamp.at);
    var e := EventsOf(w, f, db.wallets[w.wallet], Wait, stamp, trace)[0];
    assert (db.outbox + [e])[..|db.outbox + [e]| - 1] == db.outbox;
  }

  /** The reference decides the same, whether or not the dependent operation is waiting for it. */
  lemma ReferenceDecidesAlike(db: Db, a: Db, d: Wager, f: Wager, r: Wager, at: Instant, at': Instant)
    requires IndexOk(db.wagers, db.byKey, db.byExternal) && d.id !in db.wagers && r.wallet in db.wallets
    requires a.wallets == db.wallets && a.reversals == db.reversals && r.status.Pending?
    requires a.wagers == db.wagers[d.id := f]
    requires a.byExternal == db.byExternal[(d.provider, d.externalId) := d.id]
    requires d.provider == r.provider && d.externalId != r.externalId && (d.provider, d.externalId) !in db.byExternal
    requires !DecideIn(db, r, at).Wait?
    ensures DecideIn(a, r, at') == Retimed(DecideIn(db, r, at), at')
  {
    var found := FindReference(db, r);
    if NeedsReference(r) {
      // A wager that refers to the dependent operation would have had to wait.
      assert r.reference.value != d.externalId;
      assert FindReference(a, r) == found;
      DecideIgnoresTime(r, r, db.wallets[r.wallet], db.wallets[r.wallet], found, found, HasReversal(db, found), at, at');
    } else {
      DecideIgnoresTime(r, r, db.wallets[r.wallet], db.wallets[r.wallet], found, found, HasReversal(db, found), at, at');
    }
  }

  /** A row stays valid at any later instant. */
  lemma ValidAtAnyTime(f: Wager, g: Wager)
    requires SameButTime(f, g) && ValidWager(g) && f.createdAt <= f.updatedAt
    ensures ValidWager(f)
  {
  }

  /** A settled reference settles the operations that refer to it. */
  lemma SettledReferenceDecides(w: Wager, wallet: WalletRow, found: Option<Wager>, reversed: bool, at: Instant)
    requires found.Some? && IsTerminal(found.value)
    ensures !Decide(w, wallet, found, reversed, at).Wait?
  {
    hide ValidateReference;
  }

  /** The database that a decision leaves, where its own row is looked up again. */
  lemma SettledDb(db: Db, w: Wager, wallet: WalletRow, d: Decision, stamp: Stamp, trace: Trace)
    requires d.Refuse? || d.Settle?
    ensures var b := Enacted(db, w, wallet, d, stamp, trace);
            && b.wagers == db.wagers[w.id := After(w, wallet, d, stamp.at)]
            && b.byKey == db.byKey[(w.provider, w.key) := w.id]
            && b.byExternal == db.byExternal[(w.provider, w.externalId) := w.id]
            && b.schedules == db.schedules && db.outbox <= b.outbox
            && IsTerminal(After(w, wallet, d, stamp.at)) && After(w, wallet, d, stamp.at).externalId == w.externalId
            && After(w, wallet, d, stamp.at).createdAt == w.createdAt
            && After(w, wallet, d, stamp.at).updatedAt == stamp.at
  {
    OutcomeIdentity(w, wallet, d, stamp.at);
    SettledOutcome(w, wallet, d, stamp.at);
    hide After, EventsOf, EntryOf;
  }

  lemma SettledOutcome(w: Wager, wallet: WalletRow, d: Decision, at: Instant)
    requires d.Refuse? || d.Settle?
    ensures var f := After(w, wallet, d, at);
            IsTerminal(f) && f.externalId == w.externalId && f.createdAt == w.createdAt && f.updatedAt == at
  {
  }

  /** One settled decision, in a database and in the same one with the dependent operation waiting. */
  lemma SettlesAlike(db: Db, a: Db, d: Wager, r: Wager, trace: Trace, u: Stamp, s: Stamp)
    requires AlikeApart(a, db, d) && a.wallets == db.wallets && r.status.Pending?
    requires d.id != r.id && d.provider == r.provider && d.key != r.key && d.externalId != r.externalId
    requires GoesThrough(db, r) && !IdentityTaken(db, r) && GoesThrough(a, r) && !IdentityTaken(a, r)
    requires DecideIn(db, r, u.at).Refuse? || DecideIn(db, r, u.at).Settle?
    requires DecideIn(a, r, s.at) == Retimed(DecideIn(db, r, u.at), s.at)
    ensures var late, early := Submit(a, r, s, trace), Submit(db, r, u, trace);
            && late.outcome == early.outcome && AlikeApart(late.db, early.db, d)
            && SettledRow(db, early.db, r) && SettledRow(a, late.db, r)
            && late.db.wagers[r.id].updatedAt == s.at
            && late.db.schedules == a.schedules[r.id := Schedule(0, s.at)]
  {
    hide DecideIn, Enacted, AlikeApart, FindExisting, IdentityTaken, Submit, After;
    var wallet, dec := db.wallets[r.wallet], DecideIn(db, r, u.at);
    var a0, b0 := Enrolled(a, r, s.at), Enrolled(db, r, u.at);
    SubmitUnfolds(db, r, u, trace);
    SubmitUnfolds(a, r, s, trace);
    OutcomeIgnoresTime(r, r, wallet, wallet, dec, u.at, s.at);
    RescheduledIsAlike(a, db, d, a0.schedules, b0.schedules);
    EnactedStaysAlike(a0, b0, d, r, r, wallet, wallet, dec, u, s, trace, trace);
    SettledDb(b0, r, wallet, dec, u, trace);
    SettledDb(a0, r, wallet, Retimed(dec, s.at), s, trace);
  }

  /** A new row in its final status, under its keys; the events have only grown. */
  predicate SettledRow(before: Db, after: Db, w: Wager) {
    && w.id in after.wagers && IsTerminal(after.wagers[w.id]) && after.wagers[w.id].createdAt == w.createdAt
    && after.wagers == before.wagers[w.id := after.wagers[w.id]]
    && after.byKey == before.byKey[(w.provider, w.key) := w.id]
    && after.byExternal == before.byExternal[(w.provider, w.externalId) := w.id]
    && before.outbox <= after.outbox
  }

  /** The dependent operation waits, and the reference finds what it would have found without it. */
  lemma DependentGoesFirst(db: Db, d: Wager, qd: Request, r: Wager, qr: Request, s: Stamp, u: Instant, at: Instant)
    requires Inv(db) && Together(db, d, qd, r, qr) && !DecideIn(db, r, u).Wait?
    ensures var a := Submit(db, d, s, qd.trace).db;
            && Submit(db, d, s, qd.trace).outcome.Ok?
            && Submit(db, d, s, qd.trace).outcome.value.status.PendingReference?
            && a.wagers == db.wagers[d.id := d.(status := PendingReference, updatedAt := s.at)]
            && a.wallets == db.wallets && AlikeApart(a, db, d)
            && a.schedules == db.schedules[d.id := Schedule(0, s.at)] && FirstPending(a.outbox, d.id).Some?
            && GoesThrough(a, r) && !IdentityTaken(a, r)
            && DecideIn(a, r, at) == Retimed(DecideIn(db, r, u), at)
  {
    hide WalletsOk, RowsOk, LinksOk, ReversalsOk, LedgerOk, AllBooked, BalancesOk, StreamOk, EventsOk, InboxOk, IdsOk,
         IndexOk, Together, DecideIn, Enacted, AlikeApart, Submit;
    TogetherNames(db, d, qd, r, qr);
    TogetherGoes(db, d, qd, r, qr);
    DependentWaits(db, d, r, s, qd.trace);
    WaitingDb(db, d, s, qd.trace);
    WaitingIsApart(db, d, s, qd.trace);
    ReferenceDecidesAlike(db, Submit(db, d, s, qd.trace).db, d, d.(status := PendingReference, updatedAt := s.at), r, u,
                          at);
  }

  lemma EarlyIsDecided(db: Db, r: Wager, u: Stamp, trace: Trace)
    requires GoesThrough(db, r) && !IdentityTaken(db, r) && r.status.Pending?
    requires Submit(db, r, u, trace).outcome.Ok? && !Submit(db, r, u, trace).outcome.value.status.PendingReference?
    ensures DecideIn(db, r, u.at).Refuse? || DecideIn(db, r, u.at).Settle?
  {
    SubmitUnfolds(db, r, u, trace);
    hide DecideIn, Enacted, Submit;
  }

  /** The circumstances of the second half: the reference has settled in both orders. */
  ghost predicate Halfway(a: Db, b: Db, d: Wager, r: Wager, since: Instant) {
    && AlikeApart(a, b, d) && d.id in a.wagers && d.id !in b.wagers
    && a.wagers[d.id] == d.(status := PendingReference, updatedAt := since)
    && r.id in a.wagers && IsTerminal(a.wagers[r.id]) && a.wagers[r.id].createdAt <= a.wagers[r.id].updatedAt
    && (r.provider, r.externalId) in a.byExternal && a.byExternal[(r.provider, r.externalId)] == r.id
    && d.id in a.schedules && a.schedules[d.id] == Schedule(0, since) && FirstPending(a.outbox, d.id).Some?
    && !IdentityTaken(b, d)
  }

  /** Early and late, the reference has the same outcome, and only the dependent operation is apart. */
  lemma ReferenceSettlesAlike(db: Db, d: Wager, qd: Request, r: Wager, qr: Request, s1: Stamp, s2: Stamp, u: Stamp)
    requires Inv(db) && Together(db, d, qd, r, qr) && r.createdAt <= s2.at
    requires Submit(db, r, u, qr.trace).outcome.Ok?
    requires !Submit(db, r, u, qr.trace).outcome.value.status.PendingReference?
    ensures Submit(db, d, s1, qd.trace).outcome.Ok?
    ensures Submit(db, d, s1, qd.trace).outcome.value.status.PendingReference?
    ensures var late := Submit(Submit(db, d, s1, qd.trace).db, r, s2, qr.trace);
            var early := Submit(db, r, u, qr.trace);
            late.outcome == early.outcome && Halfway(late.db, early.db, d, r, s1.at)
  {
    hide WalletsOk, RowsOk, LinksOk, ReversalsOk, LedgerOk, AllBooked, BalancesOk, StreamOk, EventsOk, InboxOk, IdsOk,
         IndexOk, Together, DecideIn, AlikeApart, Submit, FindExisting;
    TogetherNames(db, d, qd, r, qr);
    TogetherGoes(db, d, qd, r, qr);
    EarlyIsDecided(db, r, u, qr.trace);
    DependentGoesFirst(db, d, qd, r, qr, s1, u.at, s2.at);
    var a1 := Submit(db, d, s1, qd.trace).db;
    SettlesAlike(db, a1, d, r, qr.trace, u, s2);
    hide GoesThrough, IdentityTaken, SettledRow, Halfway, Enrolled, FirstPending, NeedsReference;
    HalfwayReached(db, a1, Submit(a1, r, s2, qr.trace).db, Submit(db, r, u, qr.trace).db, d, r, s1.at, s2.at);
  }

  lemma HalfwayReached(db: Db, a1: Db, a: Db, b: Db, d: Wager, r: Wager, since: Instant, at: Instant)
    requires a1.wagers == db.wagers[d.id := d.(status := PendingReference, updatedAt := since)]
    requires a1.schedules == db.schedules[d.id := Schedule(0, since)] && FirstPending(a1.outbox, d.id).Some?
    requires SettledRow(a1, a, r) && SettledRow(db, b, r) && AlikeApart(a, b, d)
    requires a.schedules == a1.schedules[r.id := Schedule(0, at)]
    requires a.wagers[r.id].updatedAt == at && r.createdAt <= at
    requires d.id != r.id && d.provider == r.provider && d.key != r.key && d.externalId != r.externalId
    requires d.id !in db.wagers && !IdentityTaken(db, d)
    ensures Halfway(a, b, d, r, since)
  {
    hide AlikeApart;
    FirstPendingStays(a1.outbox, a.outbox[|a1.outbox|..], d.id);
    assert a1.outbox + a.outbox[|a1.outbox|..] == a.outbox;
    hide FirstPending;
  }

  lemma TogetherGoes(db: Db, d: Wager, qd: Request, r: Wager, qr: Request)
    requires Together(db, d, qd, r, qr)
    ensures GoesThrough(db, d) && GoesThrough(db, r) && d.id !in db.wagers && r.id !in db.wagers
  {
    hide Admitted;
  }

  /** Halfway, the claim of the dependent operation decides as its first submission would. */
  lemma DependentDecidesAlike(a: Db, b: Db, d: Wager, r: Wager, since: Instant, at: Instant, at': Instant)
    requires Halfway(a, b, d, r, since) && d.wallet in b.wallets && d.wallet in a.wallets && d.status.Pending?
    requires d.id != r.id && d.provider == r.provider && d.externalId != r.externalId
    requires NeedsReference(d) && d.reference == Some(r.externalId)
    requires forall id :: id in b.wagers ==> ValidWager(b.wagers[id])
    ensures DecideIn(a, a.wagers[d.id], at') == Retimed(DecideIn(b, d, at), at')
    ensures !DecideIn(b, d, at).Wait?
  {
    hide SameLedger, Validate;
    var v := a.wagers[d.id];
    var key := (r.provider, r.externalId);
    assert a.byExternal[(d.provider, d.externalId) := d.id][key] == b.byExternal[(d.provider, d.externalId) := d.id][key];
    assert key in b.byExternal[(d.provider, d.externalId) := d.id];
    var found, found' := FindReference(b, d), FindReference(a, v);
    assert found == Some(b.wagers[r.id]) && found' == Some(a.wagers[r.id]);
    ValidAtAnyTime(found'.value, found.value);
    DecideIgnoresTime(d, v, b.wallets[d.wallet], a.wallets[d.wallet], found, found', HasReversal(b, found), at, at');
    SettledReferenceDecides(d, b.wallets[d.wallet], found, HasReversal(b, found), at);
    hide Decide, FindReference;
  }

  lemma ClaimUnfolds(a: Db, id: Uuid, policy: ReferencePolicy, s: Stamp)
    requires ValidReferencePolicy(policy) && Claimable(a, id, s.at) && a.wagers[id].id == id && AttemptsOf(a, id) == 0
    requires !DecideIn(a, a.wagers[id], s.at).Wait?
    ensures var d := DecideIn(a, a.wagers[id], s.at);
            RetryOne(a, id, policy, s)
            == if d.Abort? then Err(d.error)
               else Ok(Enacted(Rescheduled(a, id, policy, s.at), a.wagers[id], a.wallets[a.wagers[id].wallet], d, s,
                               FirstPending(a.outbox, id).value))
  {
    hide DecideIn, Enacted, FirstPending, Backoff;
  }

  /** Halfway, one claim ends the wait as the first submission would. */
  lemma DependentSettlesAlike(a: Db, b: Db, d: Wager, r: Wager, policy: ReferencePolicy, since: Instant, s: Stamp,
                              u: Stamp, trace: Trace)
    requires Halfway(a, b, d, r, since) && GoesThrough(b, d) && ValidReferencePolicy(policy) && since <= s.at
    requires d.status.Pending? && d.id != r.id && d.provider == r.provider && d.externalId != r.externalId
    requires NeedsReference(d) && d.reference == Some(r.externalId)
    requires forall id :: id in b.wagers ==> ValidWager(b.wagers[id])
    ensures Claimable(a, d.id, s.at)
    ensures var retried, direct := RetryOne(a, d.id, policy, s), Submit(b, d, u, trace);
            && (retried.Ok? <==> direct.outcome.Ok?)
            && (retried.Ok? ==> Alike(retried.value, direct.db))
  {
    hide SameLedger, SameRowsApart, FirstPending, NeedsReference, FindExisting, IdentityTaken;
    assert d.wallet in a.wallets && SameWalletButTime(b.wallets[d.wallet], a.wallets[d.wallet]) && AlikeApart(a, b, d);
    DependentDecidesAlike(a, b, d, r, since, u.at, s.at);
    hide DecideIn, Enacted, AlikeApart, Submit, Backoff, Alike;
    var v, dec := a.wagers[d.id], DecideIn(b, d, u.at);
    SubmitUnfolds(b, d, u, trace);
    ClaimUnfolds(a, d.id, policy, s);
    hide RetryOne, GoesThrough, Claimable;
    if !dec.Abort? {
      var a0, b0 := Rescheduled(a, d.id, policy, s.at), Enrolled(b, d, u.at);
      RescheduledIsAlike(a, b, d, a0.schedules, b0.schedules);
      EnactedStaysAlike(a0, b0, d, d, v, b.wallets[d.wallet], a.wallets[d.wallet], dec, u, s, trace,
                        FirstPending(a.outbox, d.id).value);
    }
  }

  /**
   * A dependent operation first, its reference second and one retry third leave the same wallets,
   * operations, links and ledger as the reference first and the dependent operation second, but
   * for instants, whenever the reference settles on its own execution.
   */
  lemma LateReferenceConverges(db: Db, d: Wager, qd: Request, r: Wager, qr: Request, policy: ReferencePolicy,
                               s1: Stamp, s2: Stamp, s3: Stamp, u1: Stamp, u2: Stamp)
    requires Inv(db) && Together(db, d, qd, r, qr) && ValidReferencePolicy(policy)
    requires Submittable(db, r, qr, u1, qr.trace) && r.createdAt <= s2.at && s1.at <= s3.at
    requires Submit(db, r, u1, qr.trace).outcome.Ok?
    requires !Submit(db, r, u1, qr.trace).outcome.value.status.PendingReference?
    ensures Submit(db, d, s1, qd.trace).outcome.Ok?
    ensures Submit(db, d, s1, qd.trace).outcome.value.status.PendingReference?
    ensures var late := Submit(Submit(db, d, s1, qd.trace).db, r, s2, qr.trace);
            var early := Submit(db, r, u1, qr.trace);
            && late.outcome == early.outcome
            && Claimable(late.db, d.id, s3.at)
            && (var retried, direct := RetryOne(late.db, d.id, policy, s3), Submit(early.db, d, u2, qd.trace);
                && (retried.Ok? <==> direct.outcome.Ok?)
                && (retried.Ok? ==> Alike(retried.value, direct.db)))
  {
    var early := Submit(db, r, u1, qr.trace);
    assert forall id :: id in early.db.wagers ==> ValidWager(early.db.wagers[id]) by {
      hide Submit;
      SubmitKeepsInv(db, r, qr, u1, qr.trace);
      InvRowsValid(early.db);
    }
    EarlyGoesOn(db, d, qd, r, qr, u1);
    TogetherNames(db, d, qd, r, qr);
    hide Inv, Submit, Together, Halfway, Submittable, Claimable, RetryOne, GoesThrough, Alike, NeedsReference, Validate,
         IdentityTaken;
    ReferenceSettlesAlike(db, d, qd, r, qr, s1, s2, u1);
    var late := Submit(Submit(db, d, s1, qd.trace).db, r, s2, qr.trace);
    DependentSettlesAlike(late.db, early.db, d, r, policy, s1.at, s3, u2, qd.trace);
  }

  /** After its reference, the dependent operation still gets as far as a decision. */
  lemma EarlyGoesOn(db: Db, d: Wager, qd: Request, r: Wager, qr: Request, u: Stamp)
    requires Inv(db) && Together(db, d, qd, r, qr) && Submittable(db, r, qr, u, qr.trace)
    requires Submit(db, r, u, qr.trace).outcome.Ok?
    requires !Submit(db, r, u, qr.trace).outcome.value.status.PendingReference?
    ensures GoesThrough(Submit(db, r, u, qr.trace).db, d)
  {
    hide WalletsOk, RowsOk, LinksOk, ReversalsOk, LedgerOk, AllBooked, BalancesOk, StreamOk, EventsOk, InboxOk, IdsOk,
         IndexOk, Together, DecideIn, Enacted, Submit, Submittable, After;
    TogetherNames(db, d, qd, r, qr);
    TogetherGoes(db, d, qd, r, qr);
    EarlyIsDecided(db, r, u, qr.trace);
    SubmitUnfolds(db, r, u, qr.trace);
    SettledDb(Enrolled(db, r, u.at), r, db.wallets[r.wallet], DecideIn(db, r, u.at), u, qr.trace);
    Runs.SubmitExtends(db, r, qr, u, qr.trace);
    var b := Submit(db, r, u, qr.trace).db;
    assert Owner(b.wallets[d.wallet]) == Owner(db.wallets[d.wallet]);
    assert (d.provider, d.key) !in b.byKey && (d.provider, d.externalId) !in b.byExternal;
  }
}
