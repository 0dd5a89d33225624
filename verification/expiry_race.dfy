/**
 * The delayed job and the sweeper may both expire an unpaid booking, while other code moves it on.
 * One booking row, any number of concurrent `expireUnpaidBooking` calls, every interleaving.
 */
module ExpiryRace {

  type Id = nat

  /** `Elsewhere(n)` stands for every other booking status. */
  datatype Status = PaymentPending | PaymentFailed | Elsewhere(n: nat)

  datatype Row = Row(status: Status, holdsSeats: bool, hasIntent: bool)

  // ---------------------------------------------------------------------------------------------
  // One call, as its three atomic parts
  // ---------------------------------------------------------------------------------------------

  /** Where a call stands: not started, past its read, past its claim, returned. */
  datatype Stage = Idle | Checked(intent: bool) | Won(intent: bool) | Returned(acted: bool)

  /** The first read. */
  function AfterRead(row: Row): Stage {
    if row.status == PaymentPending then Checked(row.hasIntent) else Returned(false)
  }

  /** The transaction: a guarded update, then the seats of a booking that held any. */
  function ClaimedRow(row: Row): Row {
    if row.status == PaymentPending then row.(status := PaymentFailed, holdsSeats := false) else row
  }

  function AfterClaim(row: Row, intent: bool): Stage {
    if row.status == PaymentPending then Won(intent) else Returned(false)
  }

  function SeatsFreed(row: Row): nat {
    if row.status == PaymentPending && row.holdsSeats then 1 else 0
  }

  // ---------------------------------------------------------------------------------------------
  // All interleavings
  // ---------------------------------------------------------------------------------------------

  datatype System = System(row: Row, calls: seq<Stage>, released: nat, cancels: nat)

  /** A call starts, a call takes its next atomic part, or other code writes the row. */
  datatype Event = Spawn | Advance(i: nat) | OtherWrite(row: Row)

  /** Other code may write anything, but nothing puts a booking back into PAYMENT_PENDING. */
  predicate Possible(s: System, e: Event) {
    match e
    case Spawn => true
    case Advance(i) => i < |s.calls| && !s.calls[i].Returned?
    case OtherWrite(row) => s.row.status != PaymentPending ==> row.status != PaymentPending
  }

  function Next(s: System, e: Event): System
    requires Possible(s, e)
  {
    match e
    case Spawn => s.(calls := s.calls + [Idle])
    case OtherWrite(row) => s.(row := row)
    case Advance(i) =>
      match s.calls[i]
      case Idle => s.(calls := s.calls[i := AfterRead(s.row)])
      case Checked(intent) =>
        s.(row := ClaimedRow(s.row), calls := s.calls[i := AfterClaim(s.row, intent)],
           released := s.released + SeatsFreed(s.row))
      case Won(intent) =>
        s.(calls := s.calls[i := Returned(true)], cancels := s.cancels + if intent then 1 else 0)
  }

  predicate IsRun(s: System, events: seq<Event>)
    decreases |events|
  {
    events == [] || (Possible(s, events[0]) && IsRun(Next(s, events[0]), events[1..]))
  }

  function Run(s: System, events: seq<Event>): System
    requires IsRun(s, events)
    decreases |events|
  {
    if events == [] then s else Run(Next(s, events[0]), events[1..])
  }

  /** Calls that claimed the booking, whether or not they have returned yet. */
  function Winners(calls: seq<Stage>): nat {
    if calls == [] then 0
    else Winners(calls[..|calls| - 1]) + Wins(calls[|calls| - 1])
  }

  function Wins(c: Stage): nat {
    if c.Won? || c == Returned(true) then 1 else 0
  }

  /** Claims whose cancellation is still to come. */
  function Owed(calls: seq<Stage>): nat {
    if calls == [] then 0
    else Owed(calls[..|calls| - 1]) + OwedBy(calls[|calls| - 1])
  }

  function OwedBy(c: Stage): nat {
    if c == Won(true) then 1 else 0
  }

  lemma {:induction false} CountsUpdate(calls: seq<Stage>, i: nat, c: Stage)
    requires i < |calls|
    ensures Winners(calls[i := c]) == Winners(calls) - Wins(calls[i]) + Wins(c)
    ensures Owed(calls[i := c]) == Owed(calls) - OwedBy(calls[i]) + OwedBy(c)
  {
    var front := calls[..|calls| - 1];
    if i < |front| {
      assert calls[i := c][..|calls| - 1] == front[i := c];
      CountsUpdate(front, i, c);
    } else {
      assert calls[i := c][..|calls| - 1] == front;
    }
  }

  lemma {:induction false} CountBound(calls: seq<Stage>, i: nat)
    requires i < |calls|
    ensures Wins(calls[i]) <= Winners(calls) && OwedBy(calls[i]) <= Owed(calls) <= Winners(calls)
  {
    var front := calls[..|calls| - 1];
    if i < |front| {
      CountBound(front, i);
    } else {
      OwedBound(front);
    }
  }

  lemma {:induction false} OwedBound(calls: seq<Stage>)
    ensures Owed(calls) <= Winners(calls)
  {
    if calls != [] {
      OwedBound(calls[..|calls| - 1]);
    }
  }

  /** At most one winner, and only once the booking has left PAYMENT_PENDING; effects only by the winner. */
  predicate Exclusive(s: System) {
    && Winners(s.calls) <= (if s.row.status == PaymentPending then 0 else 1)
    && s.released <= Winners(s.calls)
    && s.cancels + Owed(s.calls) <= Winners(s.calls)
  }

  /** Once the booking has left PAYMENT_PENDING nobody new wins and nothing more is owed. */
  predicate Settled(s: System, s': System) {
    && s'.row.status != PaymentPending
    && Winners(s'.calls) == Winners(s.calls)
    && s'.released == s.released
    && s'.cancels + Owed(s'.calls) == s.cancels + Owed(s.calls)
  }

  lemma AdvanceKeepsExclusive(s: System, i: nat)
    requires Exclusive(s) && Possible(s, Advance(i))
    ensures Exclusive(Next(s, Advance(i)))
    ensures s.row.status != PaymentPending ==> Settled(s, Next(s, Advance(i)))
  {
    var s' := Next(s, Advance(i));
    assert s'.calls == s.calls[i := s'.calls[i]];
    CountsUpdate(s.calls, i, s'.calls[i]);
    CountBound(s.calls, i);
  }

  lemma NextKeepsExclusive(s: System, e: Event)
    requires Exclusive(s) && Possible(s, e)
    ensures Exclusive(Next(s, e))
    ensures s.row.status != PaymentPending ==> Settled(s, Next(s, e))
  {
    match e
    case Spawn => assert (s.calls + [Idle])[..|s.calls|] == s.calls;
    case OtherWrite(_) =>
    case Advance(i) => AdvanceKeepsExclusive(s, i);
  }

  predicate IsStart(s: System) {
    s.calls == [] && s.released == 0 && s.cancels == 0
  }

  lemma {:induction false} RunKeepsExclusive(s: System, events: seq<Event>)
    requires Exclusive(s) && IsRun(s, events)
    ensures Exclusive(Run(s, events))
    ensures s.row.status != PaymentPending ==> Settled(s, Run(s, events))
    decreases |events|
  {
    if events != [] {
      NextKeepsExclusive(s, events[0]);
      RunKeepsExclusive(Next(s, events[0]), events[1..]);
    }
  }

  /**
   * Under every interleaving at most one call returns true, and seats are released and the intent is
   * cancelled at most once, by that call.
   */
  lemma ExpiredAtMostOnce(start: System, events: seq<Event>, i: nat, j: nat)
    requires IsStart(start) && IsRun(start, events)
    ensures
      var s := Run(start, events);
      && s.released <= Winners(s.calls) <= 1 && s.cancels <= Winners(s.calls)
      && (i < |s.calls| && j < |s.calls| && s.calls[i] == Returned(true) && s.calls[j] == Returned(true) ==> i == j)
  {
    RunKeepsExclusive(start, events);
    var calls := Run(start, events).calls;
    if i < |calls| && j < |calls| && calls[i] == Returned(true) && calls[j] == Returned(true) && i != j {
      CountsUpdate(calls, i, Idle);
      CountBound(calls[i := Idle], j);
    }
  }

  /** Once another step has claimed the booking, no call ever acts on it. */
  lemma NoExpiryAfterAnotherClaim(start: System, before: seq<Event>, after: seq<Event>)
    requires IsStart(start) && IsRun(start, before)
    requires var s := Run(start, before); s.row.status != PaymentPending && Winners(s.calls) == 0
    requires IsRun(Run(start, before), after)
    ensures
      var s := Run(Run(start, before), after);
      Winners(s.calls) == 0 && s.released == 0 && s.cancels == 0
  {
    RunKeepsExclusive(start, before);
    RunKeepsExclusive(Run(start, before), after);
  }

  // ---------------------------------------------------------------------------------------------
  // Left alone, the booking is expired exactly once
  // ---------------------------------------------------------------------------------------------

  predicate NoOtherWrites(events: seq<Event>) {
    forall e | e in events :: !e.OtherWrite?
  }

  /** The effects account exactly for what the first row held, as long as only these calls write. */
  predicate Accounted(first: Row, s: System) {
    && s.row.hasIntent == first.hasIntent
    && (s.row.status == PaymentPending ==>
          s.row == first && s.released == 0 && Winners(s.calls) == 0 && s.cancels == 0 && Owed(s.calls) == 0)
    && (s.row.status != PaymentPending ==>
          && s.row.status == PaymentFailed && !s.row.holdsSeats && Winners(s.calls) == 1
          && s.released == (if first.holdsSeats then 1 else 0)
          && s.cancels + Owed(s.calls) == (if first.hasIntent then 1 else 0))
    && (forall c | c in s.calls :: (c.Checked? || c.Won? ==> c.intent == first.hasIntent))
    && (s.row.status == PaymentPending ==> forall c | c in s.calls :: c.Idle? || c.Checked?)
  }

  lemma SpawnAccounts(first: Row, s: System)
    requires first.status == PaymentPending && Accounted(first, s)
    ensures Accounted(first, s.(calls := s.calls + [Idle]))
  {
    assert (s.calls + [Idle])[..|s.calls|] == s.calls;
  }

  lemma AdvanceAccounts(first: Row, s: System, i: nat)
    requires first.status == PaymentPending && Accounted(first, s) && Possible(s, Advance(i))
    ensures Accounted(first, Next(s, Advance(i)))
  {
    var s' := Next(s, Advance(i));
    assert s.calls[i] in s.calls;
    CountsUpdate(s.calls, i, s'.calls[i]);
    assert s'.calls == s.calls[i := s'.calls[i]];
    forall c | c in s'.calls ensures c == s'.calls[i] || c in s.calls { }
  }

  lemma NextAccounts(first: Row, s: System, e: Event)
    requires first.status == PaymentPending && Accounted(first, s) && Possible(s, e) && !e.OtherWrite?
    ensures Accounted(first, Next(s, e))
  {
    match e
    case Spawn => SpawnAccounts(first, s);
    case Advance(i) => AdvanceAccounts(first, s, i);
  }

  lemma {:induction false} RunAccounts(first: Row, s: System, events: seq<Event>)
    requires first.status == PaymentPending && Accounted(first, s) && IsRun(s, events) && NoOtherWrites(events)
    ensures Accounted(first, Run(s, events))
    decreases |events|
  {
    if events != [] {
      assert events[0] in events && NoOtherWrites(events[1..]);
      NextAccounts(first, s, events[0]);
      RunAccounts(first, Next(s, events[0]), events[1..]);
    }
  }

  lemma {:induction false} NoneOwedWhenReturned(calls: seq<Stage>)
    requires forall c | c in calls :: c.Returned?
    ensures Owed(calls) == 0
  {
    if calls != [] {
      assert calls[|calls| - 1] in calls;
      NoneOwedWhenReturned(calls[..|calls| - 1]);
    }
  }

  /**
   * If only these calls touch a pending booking and all of them have returned, exactly one of them
   * expired it: its seats were freed if it held any, and its intent cancelled if it had one.
   */
  lemma ExpiredExactlyOnce(start: System, events: seq<Event>)
    requires IsStart(start) && start.row.status == PaymentPending
    requires IsRun(start, events) && NoOtherWrites(events)
    requires var calls := Run(start, events).calls; calls != [] && forall c | c in calls :: c.Returned?
    ensures
      var s := Run(start, events);
      && s.row.status == PaymentFailed && !s.row.holdsSeats && Winners(s.calls) == 1
      && s.released == (if start.row.holdsSeats then 1 else 0)
      && s.cancels == (if start.row.hasIntent then 1 else 0)
  {
    RunAccounts(start.row, start, events);
    var s := Run(start, events);
    NoneOwedWhenReturned(s.calls);
    assert s.calls[0] in s.calls;
  }

  // ---------------------------------------------------------------------------------------------
  // The two callers, run one call at a time
  // ---------------------------------------------------------------------------------------------

  /** The listed bookings that were still waiting to be paid. */
  function Expirable(rows: map<Id, Row>, stale: seq<Id>): set<Id> {
    set b | b in stale && b in rows && rows[b].status == PaymentPending
  }

  /** The rows once each listed booking had its turn. */
  function Swept(rows: map<Id, Row>, stale: seq<Id>): map<Id, Row> {
    map b | b in rows :: if b in stale then ClaimedRow(rows[b]) else rows[b]
  }

  datatype Effect = FreesSeats | CancelsIntent

  predicate IsDue(row: Row, e: Effect) {
    match e
    case FreesSeats => row.holdsSeats
    case CancelsIntent => row.hasIntent
  }

  /** The bookings an effect falls on: listed, still pending and due, in the order of their first turn. */
  function Effects(rows: map<Id, Row>, stale: seq<Id>, e: Effect): seq<Id> {
    if stale == [] then []
    else
      var before, b := stale[..|stale| - 1], stale[|stale| - 1];
      Effects(rows, before, e)
      + if b !in before && b in Expirable(rows, stale) && IsDue(rows[b], e) then [b] else []
  }

  lemma SweepNext(rows: map<Id, Row>, stale: seq<Id>, b: Id)
    ensures
      var was, done, next := Swept(rows, stale), Expirable(rows, stale), Expirable(rows, stale + [b]);
      var acts := b in was && was[b].status == PaymentPending;
      && Swept(rows, stale + [b]) == (if acts then was[b := ClaimedRow(was[b])] else was)
      && |next| == |done| + (if acts then 1 else 0)
      && (acts <==> b !in stale && b in next)
      && (acts ==> was[b] == rows[b])
  {
    var was, done, next := Swept(rows, stale), Expirable(rows, stale), Expirable(rows, stale + [b]);
    if b in was && was[b].status == PaymentPending {
      assert b !in stale;
      assert next == done + {b} && b !in done;
    } else {
      assert b in next ==> b in done;
      assert next == done;
    }
  }

  lemma EffectsNext(rows: map<Id, Row>, stale: seq<Id>, b: Id, e: Effect)
    ensures Effects(rows, stale + [b], e)
         == Effects(rows, stale, e)
            + (if b !in stale && b in Expirable(rows, stale + [b]) && IsDue(rows[b], e) then [b] else [])
  {
    assert (stale + [b])[..|stale|] == stale;
  }

  /** However often a booking is listed, an effect falls on it exactly once if it was due and pending, else never. */
  lemma {:induction false} EffectsFallOnce(rows: map<Id, Row>, stale: seq<Id>, e: Effect, b: Id)
    ensures multiset(Effects(rows, stale, e))[b] == if b in Expirable(rows, stale) && IsDue(rows[b], e) then 1 else 0
  {
    if stale != [] {
      var before, last := stale[..|stale| - 1], stale[|stale| - 1];
      EffectsFallOnce(rows, before, e, b);
      assert stale == before + [last];
      assert b in Expirable(rows, stale)
        <==> b in Expirable(rows, before) || (b == last && b in Expirable(rows, stale));
    }
  }

  class BookingStore {
    var rows: map<Id, Row>
    var released: seq<Id>
    var cancelled: seq<Id>

    constructor (rows: map<Id, Row>)
      ensures this.rows == rows && released == [] && cancelled == []
    {
      this.rows, released, cancelled := rows, [], [];
    }

    /** The claim transaction on one row. */
    method Claim(b: Id) returns (claimed: bool)
      requires b in rows
      modifies this`rows, this`released
      ensures claimed == (old(rows)[b].status == PaymentPending)
      ensures rows == old(rows)[b := ClaimedRow(old(rows)[b])]
      ensures released == old(released) + if SeatsFreed(old(rows)[b]) == 1 then [b] else []
    {
      var row := rows[b];
      if row.status != PaymentPending {
        return false;
      }
      rows := rows[b := row.(status := PaymentFailed)];
      if row.holdsSeats {
        rows := rows[b := rows[b].(holdsSeats := false)];
        released := released + [b];
      }
      return true;
    }

    /** `expireUnpaidBooking` undisturbed: its three parts in a row. */
    method ExpireUnpaidBooking(b: Id) returns (acted: bool)
      modifies this`rows, this`released, this`cancelled
      ensures acted == (b in old(rows) && old(rows)[b].status == PaymentPending)
      ensures rows == if acted then old(rows)[b := ClaimedRow(old(rows)[b])] else old(rows)
      ensures released == old(released) + if acted && old(rows)[b].holdsSeats then [b] else []
      ensures cancelled == old(cancelled) + if acted && old(rows)[b].hasIntent then [b] else []
    {
      if b !in rows {
        return false;
      }
      var stage := AfterRead(rows[b]);
      if stage == Returned(false) {
        return false;
      }
      var claimed := Claim(b);
      if !claimed {
        return false;
      }
      if stage.intent {
        cancelled := cancelled + [b];
      }
      return true;
    }

    /** `runUnpaidBookingSweep` on the rows its query returned, which it no longer trusts one by one. */
    method RunUnpaidBookingSweep(stale: seq<Id>) returns (checked: nat, expired: nat)
      modifies this`rows, this`released, this`cancelled
      ensures checked == |stale|
      ensures expired == |Expirable(old(rows), stale)|
      ensures rows == Swept(old(rows), stale)
      ensures released == old(released) + Effects(old(rows), stale, FreesSeats)
      ensures cancelled == old(cancelled) + Effects(old(rows), stale, CancelsIntent)
    {
      expired := 0;
      for i := 0 to |stale|
        invariant rows == Swept(old(rows), stale[..i])
        invariant expired == |Expirable(old(rows), stale[..i])|
        invariant released == old(released) + Effects(old(rows), stale[..i], FreesSeats)
        invariant cancelled == old(cancelled) + Effects(old(rows), stale[..i], CancelsIntent)
      {
        assert stale[..i + 1] == stale[..i] + [stale[i]];
        SweepNext(old(rows), stale[..i], stale[i]);
        EffectsNext(old(rows), stale[..i], stale[i], FreesSeats);
        EffectsNext(old(rows), stale[..i], stale[i], CancelsIntent);
        var acted := ExpireUnpaidBooking(stale[i]);
        if acted {
          expired := expired + 1;
        }
      }
      assert stale[..|stale|] == stale;
      checked := |stale|;
    }
  }
}
