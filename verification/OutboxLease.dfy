/**
 * The lease protocol of the outbox over any run of any number of publishers: who may confirm,
 * what a publication means, and exactly when two sends of one event can overlap.
 */
module OutboxLease {
  import opened Core
  import opened Finance
  import opened Domain
  import opened Delays
  import opened Outbox

  /** The durations of a publisher, in nanoseconds. */
  datatype Config = Config(lease: int64, timeout: int64)

  /** What the configuration of the worker is checked for. */
  predicate ValidConfig(c: Config) {
    c.lease >= MICROSECOND && c.timeout > 0 && c.lease > c.timeout
  }

  datatype Phase = Sending | Sent(accepted: bool) | Over

  /** One claim: its event as it was read, its beginning and its claim in nanoseconds, and whether the event arrived. */
  datatype Attempt = Attempt(id: Uuid, payload: Event, start: nat, claimedAt: nat, phase: Phase, arrived: bool)

  /** The rows, a clock in nanoseconds, and every attempt so far; an attempt's place is its token. */
  datatype Box = Box(rows: map<Uuid, Row>, clock: nat, attempts: seq<Attempt>)

  datatype Move =
    | Tick(clock: nat)
    | Add(event: Event)
    | Claim(id: Uuid, start: nat)
    | Finish(i: nat, accepted: bool, arrived: bool)
    | Confirm(i: nat)
    | Reschedule(i: nat, delay: int64)
    | Abandon(i: nat)

  /** The storage reads the same clock in whole microseconds. */
  function Micros(clock: nat): nat {
    clock / MICROSECOND
  }

  /** A claim and a send end at the deadline of their attempt at the latest; a message may arrive without an answer. */
  predicate May(c: Config, box: Box, m: Move) {
    match m
    case Tick(clock) =>
      box.clock <= clock
      && forall i :: 0 <= i < |box.attempts| && box.attempts[i].phase.Sending? ==> clock <= box.attempts[i].start + c.timeout
    case Add(event) => event.id !in box.rows
    case Claim(id, start) =>
      start <= box.clock <= start + c.timeout && id in box.rows && Eligible(box.rows[id], Micros(box.clock))
    case Finish(i, accepted, arrived) =>
      i < |box.attempts| && box.attempts[i].phase.Sending? && (accepted ==> arrived)
    case Confirm(i) => i < |box.attempts| && box.attempts[i].phase == Sent(true)
    case Reschedule(i, delay) => i < |box.attempts| && box.attempts[i].phase == Sent(false) && delay >= 0
    case Abandon(i) => i < |box.attempts| && !box.attempts[i].phase.Sending?
  }

  function WithRow(box: Box, id: Uuid, row: Row): Box {
    box.(rows := box.rows[id := row])
  }

  function WithPhase(box: Box, i: nat, phase: Phase): Box
    requires i < |box.attempts|
  {
    box.(attempts := box.attempts[i := box.attempts[i].(phase := phase)])
  }

  function Does(c: Config, box: Box, m: Move): Box
    requires ValidConfig(c) && May(c, box, m)
  {
    match m
    case Tick(clock) => box.(clock := clock)
    case Add(event) => WithRow(box, event.id, Row(event, 0, Micros(box.clock), None, None))
    case Claim(id, start) =>
      WithRow(box, id, ClaimedRow(box.rows[id], |box.attempts|, c.lease, Micros(box.clock)))
        .(attempts := box.attempts + [Attempt(id, box.rows[id].event, start, box.clock, Sending, false)])
    case Finish(i, accepted, arrived) =>
      box.(attempts := box.attempts[i := box.attempts[i].(phase := Sent(accepted), arrived := box.attempts[i].arrived || arrived)])
    case Confirm(i) =>
      var a := box.attempts[i];
      var ended := WithPhase(box, i, Over);
      if a.id in box.rows && Owned(box.rows[a.id], i, Micros(box.clock)) then
        WithRow(ended, a.id, PublishedRow(box.rows[a.id], Micros(box.clock)))
      else ended
    case Reschedule(i, delay) =>
      var a := box.attempts[i];
      var ended := WithPhase(box, i, Over);
      if a.id in box.rows && Owned(box.rows[a.id], i, Micros(box.clock)) then
        WithRow(ended, a.id, RetriedRow(box.rows[a.id], delay, Micros(box.clock)))
      else ended
    case Abandon(i) => WithPhase(box, i, Over)
  }

  ghost predicate AllMay(c: Config, box: Box, moves: seq<Move>)
    requires ValidConfig(c)
    decreases |moves|
  {
    moves != [] ==> May(c, box, moves[0]) && AllMay(c, Does(c, box, moves[0]), moves[1..])
  }

  ghost function Run(c: Config, box: Box, moves: seq<Move>): Box
    requires ValidConfig(c) && AllMay(c, box, moves)
    decreases |moves|
  {
    if moves == [] then box else Run(c, Does(c, box, moves[0]), moves[1..])
  }

  const EMPTY_BOX: Box := Box(map[], 0, [])

  // ---- What every move keeps ----------------------------------------------------------------------------

  /** A row: its lease is a claim of its own event, and its publication had an arrived copy of its event before it. */
  ghost predicate RowOk(c: Config, attempts: seq<Attempt>, id: Uuid, row: Row) {
    && row.event.id == id
    && (row.lease.Some? ==>
          && row.publishedAt.None? && row.lease.value.token < |attempts|
          && attempts[row.lease.value.token].id == id
          && row.lease.value.until == Micros(attempts[row.lease.value.token].claimedAt) + c.lease / MICROSECOND)
    && (row.publishedAt.Some? ==>
          exists i :: 0 <= i < |attempts| && attempts[i].id == id && attempts[i].arrived && attempts[i].payload == row.event)
  }

  /** An attempt: of a stored row, with the payload of that row, begun before its claim. */
  ghost predicate AttemptOk(box: Box, i: nat)
    requires i < |box.attempts|
  {
    var a := box.attempts[i];
    && a.id in box.rows && a.payload == box.rows[a.id].event && a.start <= a.claimedAt <= box.clock
    && (a.phase == Sent(true) ==> a.arrived)
  }

  ghost predicate Ok(c: Config, box: Box) {
    && (forall id :: id in box.rows ==> RowOk(c, box.attempts, id, box.rows[id]))
    && (forall i :: 0 <= i < |box.attempts| ==> AttemptOk(box, i))
  }

  lemma RowStaysOk(c: Config, before: seq<Attempt>, after: seq<Attempt>, id: Uuid, row: Row)
    requires RowOk(c, before, id, row) && AttemptsGrow(before, after)
    ensures RowOk(c, after, id, row)
  {
    if row.publishedAt.Some? {
      var i :| 0 <= i < |before| && before[i].id == id && before[i].arrived && before[i].payload == row.event;
      assert after[i].id == id && after[i].arrived;
    }
  }

  lemma AttemptsStayOk(c: Config, box: Box, m: Move)
    requires ValidConfig(c) && Ok(c, box) && May(c, box, m)
    ensures forall i :: 0 <= i < |Does(c, box, m).attempts| ==> AttemptOk(Does(c, box, m), i)
    ensures AttemptsGrow(box.attempts, Does(c, box, m).attempts)
  {
    hide RowOk, Owned;
    var after := Does(c, box, m);
    forall i | 0 <= i < |after.attempts| ensures AttemptOk(after, i) {
      if i < |box.attempts| {
        assert AttemptOk(box, i);
      }
    }
  }

  ghost predicate AttemptsGrow(before: seq<Attempt>, after: seq<Attempt>) {
    && |before| <= |after|
    && forall i :: 0 <= i < |before| ==>
         && after[i].id == before[i].id && after[i].payload == before[i].payload
         && after[i].claimedAt == before[i].claimedAt && (before[i].arrived ==> after[i].arrived)
  }

  lemma MoveKeepsOk(c: Config, box: Box, m: Move)
    requires ValidConfig(c) && Ok(c, box) && May(c, box, m)
    ensures Ok(c, Does(c, box, m))
  {
    var after := Does(c, box, m);
    AttemptsStayOk(c, box, m);
    forall id | id in after.rows ensures RowOk(c, after.attempts, id, after.rows[id]) {
      if id in box.rows {
        hide AttemptsGrow;
        RowStaysOk(c, box.attempts, after.attempts, id, box.rows[id]);
        if m.Confirm? {
          assert AttemptOk(box, m.i) && box.attempts[m.i].arrived;
          assert AttemptOk(after, m.i);
          PublicationIsOk(c, after.attempts, id, box.rows[id], m.i, Micros(box.clock));
        }
        hide RowOk;
      }
    }
  }

  lemma PublicationIsOk(c: Config, attempts: seq<Attempt>, id: Uuid, row: Row, i: nat, now: nat)
    requires RowOk(c, attempts, id, row) && i < |attempts|
    requires attempts[i].id == id ==> attempts[i].arrived && attempts[i].payload == row.event
    ensures attempts[i].id == id ==> RowOk(c, attempts, id, PublishedRow(row, now))
  {
  }

  // ---- Ownership ----------------------------------------------------------------------------------------

  /** The attempt owns its row: it alone can confirm or reschedule it. */
  predicate Owner(box: Box, i: nat) {
    && i < |box.attempts| && box.attempts[i].id in box.rows
    && Owned(box.rows[box.attempts[i].id], i, Micros(box.clock))
  }

  /** The move ends a claim of the row, by a publication or by another term. */
  predicate EndsClaim(m: Move, i: nat) {
    m == Confirm(i) || (m.Reschedule? && m.i == i)
  }

  /** A confirmation or a rescheduling changes a row exactly when it comes from the owner of that row. */
  lemma OnlyTheOwnerWrites(c: Config, box: Box, m: Move, i: nat)
    requires ValidConfig(c) && Ok(c, box) && May(c, box, m) && EndsClaim(m, i)
    ensures Does(c, box, m).rows != box.rows <==> Owner(box, i)
    ensures forall id :: id in box.rows && id != box.attempts[i].id ==> Does(c, box, m).rows[id] == box.rows[id]
  {
    var id := box.attempts[i].id;
    if Owner(box, i) {
      assert Does(c, box, m).rows[id] != box.rows[id];
    }
  }

  /** No two attempts own a row at the same time. */
  lemma OneOwner(box: Box, i: nat, j: nat)
    requires Owner(box, i) && Owner(box, j) && box.attempts[i].id == box.attempts[j].id
    ensures i == j
  {
  }

  /** Its lease is gone: it ran out, or the row was claimed again, confirmed or rescheduled. */
  predicate Former(box: Box, i: nat) {
    i < |box.attempts| && !Owner(box, i)
  }

  lemma FormerStaysFormer(c: Config, box: Box, m: Move, i: nat)
    requires ValidConfig(c) && Ok(c, box) && May(c, box, m) && Former(box, i)
    ensures Former(Does(c, box, m), i)
  {
    assert AttemptOk(box, i);
    var id := box.attempts[i].id;
    assert RowOk(c, box.attempts, id, box.rows[id]);
  }

  /** Once it has lost its lease, an attempt never owns its row again, over any run. */
  lemma {:induction false} FormerForever(c: Config, box: Box, moves: seq<Move>, i: nat)
    requires ValidConfig(c) && Ok(c, box) && AllMay(c, box, moves) && Former(box, i)
    ensures Former(Run(c, box, moves), i)
    decreases |moves|
  {
    if moves != [] {
      FormerStaysFormer(c, box, moves[0], i);
      MoveKeepsOk(c, box, moves[0]);
      FormerForever(c, Does(c, box, moves[0]), moves[1..], i);
    }
  }

  // ---- Publication --------------------------------------------------------------------------------------

  lemma PublishedStays(c: Config, box: Box, m: Move, id: Uuid)
    requires ValidConfig(c) && Ok(c, box) && May(c, box, m) && id in box.rows
    ensures id in Does(c, box, m).rows && Does(c, box, m).rows[id].event == box.rows[id].event
    ensures box.rows[id].publishedAt.Some? ==> Does(c, box, m).rows[id] == box.rows[id]
  {
    hide AttemptOk;
    assert RowOk(c, box.attempts, id, box.rows[id]);
    hide RowOk;
  }

  /** A published row is never claimed again and never changes, and the event of a row never changes at all. */
  lemma {:induction false} PublishedForever(c: Config, box: Box, moves: seq<Move>, id: Uuid)
    requires ValidConfig(c) && Ok(c, box) && AllMay(c, box, moves) && id in box.rows
    ensures id in Run(c, box, moves).rows && Run(c, box, moves).rows[id].event == box.rows[id].event
    ensures box.rows[id].publishedAt.Some? ==> Run(c, box, moves).rows[id] == box.rows[id]
    decreases |moves|
  {
    hide Ok, May, Does;
    if moves != [] {
      PublishedStays(c, box, moves[0], id);
      MoveKeepsOk(c, box, moves[0]);
      PublishedForever(c, Does(c, box, moves[0]), moves[1..], id);
    }
  }

  /** Over any run, a row marked published had an arrived send of its original event. */
  lemma {:induction false} PublishedMeansArrived(c: Config, moves: seq<Move>, id: Uuid)
    requires ValidConfig(c) && AllMay(c, EMPTY_BOX, moves)
    requires id in Run(c, EMPTY_BOX, moves).rows && Run(c, EMPTY_BOX, moves).rows[id].publishedAt.Some?
    ensures exists i :: 0 <= i < |Run(c, EMPTY_BOX, moves).attempts|
                        && ArrivedFor(Run(c, EMPTY_BOX, moves), i, id)
  {
    RunKeepsOk(c, EMPTY_BOX, moves);
    var box := Run(c, EMPTY_BOX, moves);
    assert RowOk(c, box.attempts, id, box.rows[id]);
    var i :| 0 <= i < |box.attempts| && box.attempts[i].id == id && box.attempts[i].arrived
             && box.attempts[i].payload == box.rows[id].event;
    assert ArrivedFor(box, i, id);
  }

  predicate ArrivedFor(box: Box, i: nat, id: Uuid)
    requires id in box.rows && i < |box.attempts|
  {
    box.attempts[i].id == id && box.attempts[i].arrived && box.attempts[i].payload == box.rows[id].event
  }

  lemma {:induction false} RunKeepsOk(c: Config, box: Box, moves: seq<Move>)
    requires ValidConfig(c) && Ok(c, box) && AllMay(c, box, moves)
    ensures Ok(c, Run(c, box, moves))
    decreases |moves|
  {
    if moves != [] {
      MoveKeepsOk(c, box, moves[0]);
      RunKeepsOk(c, Does(c, box, moves[0]), moves[1..]);
    }
  }

  // ---- The pause after a refused send -------------------------------------------------------------------

  /** No publisher claims the row in these moves. */
  predicate Unclaimed(moves: seq<Move>, id: Uuid) {
    forall k :: 0 <= k < |moves| ==> !(moves[k].Claim? && moves[k].id == id)
  }

  /** A row without a lease stays as it is until it is claimed. */
  lemma {:induction false} FreeRowRests(c: Config, box: Box, moves: seq<Move>, id: Uuid)
    requires ValidConfig(c) && AllMay(c, box, moves) && Unclaimed(moves, id)
    requires id in box.rows && box.rows[id].lease.None?
    ensures id in Run(c, box, moves).rows && Run(c, box, moves).rows[id] == box.rows[id]
    decreases |moves|
  {
    if moves != [] {
      assert forall k :: 0 <= k < |moves[1..]| ==> moves[1..][k] == moves[k + 1];
      FreeRowRests(c, Does(c, box, moves[0]), moves[1..], id);
    }
  }

  /**
   * A row that its owner rescheduled is not claimed again before the delay has passed, whatever
   * happens in between, and may be claimed from then on.
   */
  lemma RescheduledRowsRest(c: Config, box: Box, i: nat, delay: int64, moves: seq<Move>, start: nat)
    requires ValidConfig(c) && Owner(box, i) && May(c, box, Reschedule(i, delay))
    requires AllMay(c, Does(c, box, Reschedule(i, delay)), moves) && Unclaimed(moves, box.attempts[i].id)
    ensures var later := Run(c, Does(c, box, Reschedule(i, delay)), moves);
            May(c, later, Claim(box.attempts[i].id, start)) <==>
              start <= later.clock <= start + c.timeout && later.clock / 1000 >= box.clock / 1000 + delay / 1000
  {
    hide AllMay, Run;
    FreeRowRests(c, Does(c, box, Reschedule(i, delay)), moves, box.attempts[i].id);
  }

  lemma {:induction false} ClockGoesOn(c: Config, box: Box, moves: seq<Move>)
    requires ValidConfig(c) && AllMay(c, box, moves)
    ensures box.clock <= Run(c, box, moves).clock
    decreases |moves|
  {
    if moves != [] {
      ClockGoesOn(c, Does(c, box, moves[0]), moves[1..]);
    }
  }

  /** A new event may be claimed at any time until it is. */
  lemma AddedRowsWait(c: Config, box: Box, event: Event, moves: seq<Move>, start: nat)
    requires ValidConfig(c) && May(c, box, Add(event))
    requires AllMay(c, Does(c, box, Add(event)), moves) && Unclaimed(moves, event.id)
    ensures var later := Run(c, Does(c, box, Add(event)), moves);
            May(c, later, Claim(event.id, start)) <==> start <= later.clock <= start + c.timeout
  {
    hide AllMay, Run;
    FreeRowRests(c, Does(c, box, Add(event)), moves, event.id);
    ClockGoesOn(c, Does(c, box, Add(event)), moves);
  }

  /** The attempt never comes to confirm or to reschedule. */
  predicate NeverEnds(moves: seq<Move>, i: nat) {
    forall k :: 0 <= k < |moves| ==> !EndsClaim(moves[k], i)
  }

  /** A leased row that its attempt does not write stays as it is until it is claimed. */
  lemma {:induction false} LeasedRowRests(c: Config, box: Box, moves: seq<Move>, id: Uuid)
    requires ValidConfig(c) && AllMay(c, box, moves) && Unclaimed(moves, id) && id in box.rows && box.rows[id].lease.Some?
    requires NeverEnds(moves, box.rows[id].lease.value.token)
    ensures id in Run(c, box, moves).rows && Run(c, box, moves).rows[id] == box.rows[id]
    decreases |moves|
  {
    if moves != [] {
      assert forall k :: 0 <= k < |moves[1..]| ==> moves[1..][k] == moves[k + 1];
      LeasedRowRests(c, Does(c, box, moves[0]), moves[1..], id);
    }
  }

  /**
   * An event whose publisher crashed after its claim is not lost: it may be claimed again exactly
   * once the whole microseconds of the lease have passed.
   */
  lemma CrashedClaimsReturn(c: Config, box: Box, id: Uuid, start: nat, moves: seq<Move>, again: nat)
    requires ValidConfig(c) && May(c, box, Claim(id, start))
    requires AllMay(c, Does(c, box, Claim(id, start)), moves) && Unclaimed(moves, id) && NeverEnds(moves, |box.attempts|)
    ensures var later := Run(c, Does(c, box, Claim(id, start)), moves);
            May(c, later, Claim(id, again)) <==>
              again <= later.clock <= again + c.timeout && later.clock / 1000 >= box.clock / 1000 + c.lease / 1000
  {
    hide AllMay, Run;
    LeasedRowRests(c, Does(c, box, Claim(id, start)), moves, id);
    ClockGoesOn(c, Does(c, box, Claim(id, start)), moves);
  }

  // ---- Overlapping sends --------------------------------------------------------------------------------

  /**
   * The storage cuts the lease down to whole microseconds and reads its clock in whole
   * microseconds, so that up to 999 nanoseconds more are lost.
   */
  predicate LeaseOutlastsSend(c: Config) {
    c.lease / MICROSECOND * MICROSECOND - (MICROSECOND - 1) > c.timeout
  }

  /** Two sends of one event are under way. */
  predicate Overlap(box: Box, i: nat, j: nat) {
    && i < j < |box.attempts| && box.attempts[i].id == box.attempts[j].id
    && box.attempts[i].phase.Sending? && box.attempts[j].phase.Sending?
  }

  /** Whoever sends holds the lease, and is not past its deadline. */
  ghost predicate SendersHold(c: Config, box: Box) {
    forall i :: 0 <= i < |box.attempts| && box.attempts[i].phase.Sending? ==>
      Holds(box, i) && box.clock <= box.attempts[i].start + c.timeout
  }

  predicate Holds(box: Box, i: nat)
    requires i < |box.attempts|
  {
    var a := box.attempts[i];
    a.id in box.rows && box.rows[a.id].publishedAt.None? && box.rows[a.id].lease.Some?
    && box.rows[a.id].lease.value.token == i
  }

  /** A lease that outlasts the send has not run out while the send is under way. */
  lemma LeaseStillRuns(c: Config, start: nat, claimedAt: nat, clock: nat)
    requires ValidConfig(c) && LeaseOutlastsSend(c) && start <= claimedAt && clock <= start + c.timeout
    ensures Micros(claimedAt) + c.lease / MICROSECOND > Micros(clock)
  {
  }

  lemma MoveKeepsHold(c: Config, box: Box, m: Move)
    requires ValidConfig(c) && LeaseOutlastsSend(c) && Ok(c, box) && SendersHold(c, box) && May(c, box, m)
    ensures SendersHold(c, Does(c, box, m))
  {
    var after := Does(c, box, m);
    forall i | 0 <= i < |after.attempts| && after.attempts[i].phase.Sending?
      ensures Holds(after, i) && after.clock <= after.attempts[i].start + c.timeout
    {
      if i < |box.attempts| {
        var a := box.attempts[i];
        assert Holds(box, i) && AttemptOk(box, i) && RowOk(c, box.attempts, a.id, box.rows[a.id]);
        LeaseStillRuns(c, a.start, a.claimedAt, box.clock);
      }
    }
  }

  lemma {:induction false} RunKeepsHold(c: Config, box: Box, moves: seq<Move>)
    requires ValidConfig(c) && LeaseOutlastsSend(c) && Ok(c, box) && SendersHold(c, box)
    requires AllMay(c, box, moves)
    ensures Ok(c, Run(c, box, moves)) && SendersHold(c, Run(c, box, moves))
    decreases |moves|
  {
    if moves != [] {
      MoveKeepsOk(c, box, moves[0]);
      MoveKeepsHold(c, box, moves[0]);
      RunKeepsHold(c, Does(c, box, moves[0]), moves[1..]);
    }
  }

  /** Two sends of one event overlap in some run. */
  ghost predicate CanOverlap(c: Config)
    requires ValidConfig(c)
  {
    exists moves, i, j :: AllMay(c, EMPTY_BOX, moves) && Overlap(Run(c, EMPTY_BOX, moves), i, j)
  }

  lemma HoldersAreApart(c: Config, box: Box, i: nat, j: nat)
    requires SendersHold(c, box)
    ensures !Overlap(box, i, j)
  {
    if i < j < |box.attempts| {
      assert box.attempts[i].phase.Sending? ==> Holds(box, i);
      assert box.attempts[j].phase.Sending? ==> Holds(box, j);
    }
  }

  /** The shortest run in which two sends meet: the first claim at the end of a microsecond, the second when its lease ends. */
  lemma ShortLeasesOverlap(c: Config)
    requires ValidConfig(c) && !LeaseOutlastsSend(c)
    ensures CanOverlap(c)
  {
    var id, money := Random(0, 0), Money(1, BRL);
    var event := Event(id, Random(0, 1), 1, Trace("", ""),
                       BalanceChanged(Entry(id, id, id, Credit, money, money, money, 1), 1));
    var last := c.lease / MICROSECOND * MICROSECOND;
    var moves := [Add(event), Tick(MICROSECOND - 1), Claim(id, MICROSECOND - 1), Tick(last), Claim(id, last)];
    var a := Does(c, EMPTY_BOX, moves[0]);
    var b := Does(c, a, moves[1]);
    var d := Does(c, b, moves[2]);
    var e := Does(c, d, moves[3]);
    assert last >= MICROSECOND && Micros(last) == c.lease / MICROSECOND;
    assert Eligible(e.rows[id], Micros(last));
    var f := Does(c, e, moves[4]);
    assert Overlap(f, 0, 1);
    hide May, Does, Overlap;
    assert AllMay(c, f, []) && Run(c, f, []) == f;
    OneMoveMore(c, e, moves[4], []);
    OneMoveMore(c, d, moves[3], [moves[4]] + []);
    OneMoveMore(c, b, moves[2], [moves[3]] + ([moves[4]] + []));
    OneMoveMore(c, a, moves[1], [moves[2]] + ([moves[3]] + ([moves[4]] + [])));
    OneMoveMore(c, EMPTY_BOX, moves[0], [moves[1]] + ([moves[2]] + ([moves[3]] + ([moves[4]] + []))));
    assert moves == [moves[0]] + ([moves[1]] + ([moves[2]] + ([moves[3]] + ([moves[4]] + []))));
  }

  lemma OneMoveMore(c: Config, box: Box, m: Move, moves: seq<Move>)
    requires ValidConfig(c) && May(c, box, m) && AllMay(c, Does(c, box, m), moves)
    ensures AllMay(c, box, [m] + moves) && Run(c, box, [m] + moves) == Run(c, Does(c, box, m), moves)
  {
    assert ([m] + moves)[1..] == moves;
    hide May, Does;
  }

  /** Sends of one event overlap in some run exactly when the lease, cut to microseconds, does not outlast a send. */
  lemma OverlapExactly(c: Config)
    requires ValidConfig(c)
    ensures CanOverlap(c) <==> !LeaseOutlastsSend(c)
  {
    if LeaseOutlastsSend(c) {
      forall moves, i, j | AllMay(c, EMPTY_BOX, moves) ensures !Overlap(Run(c, EMPTY_BOX, moves), i, j) {
        RunKeepsHold(c, EMPTY_BOX, moves);
        HoldersAreApart(c, Run(c, EMPTY_BOX, moves), i, j);
      }
    } else {
      ShortLeasesOverlap(c);
    }
  }

  /** With durations in whole microseconds, what the configuration is checked for is enough. */
  lemma WholeMicrosecondsAreSafe(c: Config)
    requires ValidConfig(c) && c.lease % MICROSECOND == 0 && c.timeout % MICROSECOND == 0
    ensures !CanOverlap(c)
  {
    OverlapExactly(c);
  }

  /** In general it is not: a lease of 1500 nanoseconds passes the check with a timeout of 1200. */
  lemma TheCheckIsNotEnough()
    ensures ValidConfig(Config(1500, 1200)) && CanOverlap(Config(1500, 1200))
  {
    OverlapExactly(Config(1500, 1200));
  }
}
