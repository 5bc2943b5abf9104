/** Play through the engine's own validator, by any caller: ids and actions in any order, accepted
    or not, and clock expiries. Exactly which of these steps bring the hand nearer its end. */
module RawPlay {
  import opened Seats
  import opened Betting
  import opened HandSpec
  import opened Payout
  import opened HandInvariant
  import opened LegalPlay
  import opened Arena
  import opened Departures

  /** All that play by the validator needs: distinct ids and no negative stack. A player without chips
      may be playing: a busted one is dealt in like any other. */
  ghost predicate Raw(t: Table) {
    && t.Shaped() && IdsApart(t.seats) && (t.live ==> IsBetting(t.phase))
    && forall i :: 0 <= i < |t.seats| ==> Stacked(t.seats[i])
  }

  predicate Stacked(s: Seat) {
    s.chips >= 0
  }

  // ---------- the measure ----------

  /** Chips still behind, players who can still bet and streets to come, each worth a round of
      actions, and the actions left in this round. */
  function Measure(t: Table): int { Work(t, 1) }

  lemma {:induction false} MeasureNonNegative(t: Table)
    requires Raw(t)
    ensures Measure(t) >= 0 && (t.live && CurrentSeat(t) >= 0 ==> Measure(t) > 0)
  {
    SumNonNegative(t.seats, ChipsOf);
    CountsBounded(t.seats);
    if CurrentSeat(t) >= 0 { CountsOne(t.seats, CurrentSeat(t)); }
    UnitsScale(PlayerCount(t.seats), 0, Units(t.seats, 1) + ActiveCount(t.seats) + StreetsLeft(t.phase));
  }

  /** An active seat that has already acted. */
  predicate Done(s: Seat) { s.IsActive() && s.acted }
  function OneIfDone(s: Seat): int { if Done(s) then 1 else 0 }

  ghost predicate SomeDone(seats: seq<Seat>) {
    exists i :: 0 <= i < |seats| && Done(seats[i])
  }

  lemma {:induction false} AllPendingIff(seats: seq<Seat>)
    ensures PendingCount(seats) == ActiveCount(seats) <==> !SomeDone(seats)
    ensures PendingCount(seats) <= ActiveCount(seats)
  {
    SumAdds(seats, OneIfPending, OneIfDone, OneIfActive);
    SumNonNegative(seats, OneIfDone);
    if i :| 0 <= i < |seats| && Done(seats[i]) {
      SumCovers(seats, OneIfDone, i);
    } else if Sum(seats, OneIfDone) > 0 {
      var i := SumWitness(seats, OneIfDone);
    }
  }

  // ---------- what settling does to it ----------

  /** The same people with the same stacks, or fewer of them playing. */
  lemma {:induction false} StreetRaw(t: Table)
    requires Raw(t) && t.live && !Closes(t)
    ensures Raw(NextStreetDealt(t)) && NextStreetDealt(t).live && Measure(NextStreetDealt(t)) <= Measure(t)
    ensures AdvanceStreet(t) == StartBettingRound(NextStreetDealt(t))
    ensures PlayerCount(NextStreetDealt(t).seats) == PlayerCount(t.seats)
  {
    StreetWork(t, 1);
    var u := NextStreetDealt(t);
    forall i | 0 <= i < |t.seats| ensures u.seats[i] == NewStreetSeat(t.seats[i]) && Stacked(u.seats[i]) {
      assert Stacked(t.seats[i]);
    }
    SumCompare(u.seats, t.seats, OneIfPlayer, OneIfPlayer);
    CountsBounded(t.seats);
  }

  /** Nearer the end, or no further: the hand over, or the same players with no more to do. */
  ghost predicate NoFurther(t: Table, r: Table) {
    r.live ==> Raw(r) && Measure(r) <= Measure(t) && PlayerCount(r.seats) == PlayerCount(t.seats)
  }

  lemma {:induction false} AdvanceNoFurther(t: Table)
    requires Raw(t) && t.live
    ensures NoFurther(t, AdvanceStreet(t))
    decreases StreetsLeft(t.phase), 0
  {
    if Closes(t) {
      ClosingNoFurther(t);
    } else {
      StreetRaw(t);
      StartNoFurther(NextStreetDealt(t));
      OnwardNoFurther(t, NextStreetDealt(t), StartBettingRound(NextStreetDealt(t)));
    }
  }

  lemma {:induction false} ClosingNoFurther(t: Table)
    requires t.Shaped() && Closes(t)
    ensures NoFurther(t, AdvanceStreet(t))
  {
    ClosingShowsDown(t);
  }

  lemma {:induction false} OnwardNoFurther(t: Table, u: Table, r: Table)
    requires t.Shaped() && r == AdvanceStreet(t) && NoFurther(u, r)
    requires Measure(u) <= Measure(t) && PlayerCount(u.seats) == PlayerCount(t.seats)
    ensures NoFurther(t, AdvanceStreet(t))
  {
    ThenNoFurther(t, u, r);
  }

  lemma {:induction false} ThenNoFurther(t: Table, u: Table, r: Table)
    requires Measure(u) <= Measure(t) && PlayerCount(u.seats) == PlayerCount(t.seats) && NoFurther(u, r)
    ensures NoFurther(t, r)
  {
  }

  lemma {:induction false} SkipNoFurther(t: Table, t1: Table, r: Table)
    requires t1 == t.(lastRaise := t1.lastRaise) && NoFurther(t1, r)
    ensures NoFurther(t, r)
  {
  }

  lemma {:induction false} StartsBetting(t: Table)
    requires Raw(t) && t.live && ActiveCount(t.seats) > 1
    ensures NoFurther(t, StartBettingRound(t))
  {
  }

  lemma {:induction false} StartNoFurther(t: Table)
    requires Raw(t) && t.live
    ensures NoFurther(t, StartBettingRound(t))
    decreases StreetsLeft(t.phase), 1
  {
    var t1 := t.(lastRaise := t.bigBlind);
    if ActiveCount(t.seats) <= 1 {
      AdvanceNoFurther(t1);
      SkipNoFurther(t, t1, AdvanceStreet(t1));
    } else {
      StartsBetting(t);
    }
  }

  lemma {:induction false} SettleNoFurther(t: Table)
    requires Raw(t) && t.live
    ensures NoFurther(t, Settle(t))
  {
    if RoundComplete(t.seats) {
      AdvanceNoFurther(t);
    } else {
      TurnNoFurther(t, NextTurn(t.seats, t.turn));
    }
  }

  lemma {:induction false} TurnNoFurther(t: Table, turn: nat)
    requires Raw(t) && t.live && turn < |t.seats|
    ensures NoFurther(t, t.(turn := turn))
  {
  }

  // ---------- one step ----------

  /** An action from whoever sends it, or the clock running out. An action sent after the clock ran
      out is the one followed by the other. */
  datatype Event = Acts(id: int, action: GameAction) | Expires

  ghost function After(t: Table, e: Event): Table {
    if !t.live || !t.Shaped() then t
    else
      match e
      case Expires => CheckTimeout(t)
      case Acts(id, a) => match ProcessAction(t, id, a) case Rejected => t case Accepted(r) => r
  }

  /** The engine carries it out. */
  ghost predicate Takes(t: Table, e: Event) {
    t.live && t.Shaped() && CurrentSeat(t) >= 0 && (e.Acts? ==> ProcessAction(t, e.id, e.action).Accepted?)
  }

  /** A bet of nothing, for want of an amount or of chips, or a raise to no more than the player has
      bet already. */
  predicate MovesNothing(s: Seat, a: GameAction) {
    (a.kind == Bet && Min(a.amount, s.chips) == 0) || (a.kind == Raise && Min(a.amount, s.bet + s.chips) <= s.bet)
  }

  /** It moves no chips and yet makes somebody act again. */
  ghost predicate Idles(t: Table, e: Event) {
    Takes(t, e) && e.Acts? && MovesNothing(t.seats[CurrentSeat(t)], e.action) && SomeDone(t.seats)
  }

  function VerdictAt(t: Table, c: nat, a: GameAction): Validation
    requires c < |t.seats|
  {
    Validate(a, t.seats[c], t.currentBet, t.bigBlind, t.lastRaise)
  }

  lemma {:induction false} OneSeatOfId(seats: seq<Seat>, i: nat, c: nat)
    requires IdsApart(seats) && i < |seats| && c < |seats| && seats[i].IsActive() && seats[c].IsActive() && seats[i].id == seats[c].id
    ensures i == c
  {
  }

  lemma {:induction false} AcceptedBy(t: Table, id: int, a: GameAction, i: int, c: int)
    requires t.Shaped() && t.live && i == ActiveSeatOf(t.seats, id) && c == CurrentSeat(t) && c >= 0
    ensures ProcessAction(t, id, a).Accepted? <==> i >= 0 && t.seats[c].id == id && VerdictAt(t, i, a).Valid?
    ensures ProcessAction(t, id, a).Accepted? ==>
      ProcessAction(t, id, a) == Accepted(Settle(Apply(t, i, a.kind, VerdictAt(t, i, a).amount)))
  {
  }

  /** The sender of an accepted action is the player to act. */
  lemma {:induction false} ActorIsCurrent(t: Table, id: int, a: GameAction)
    requires Raw(t) && Takes(t, Acts(id, a))
    ensures VerdictAt(t, CurrentSeat(t), a).Valid?
    ensures ProcessAction(t, id, a) == Accepted(Settle(Apply(t, CurrentSeat(t), a.kind, VerdictAt(t, CurrentSeat(t), a).amount)))
  {
    var i, c := ActiveSeatOf(t.seats, id), CurrentSeat(t);
    AcceptedBy(t, id, a, i, c);
    OneSeatOfId(t.seats, i, c);
  }

  /** What a move makes of the mover. */
  lemma {:induction false} MoverStacked(s: Seat, t: Table, a: GameAction)
    requires Stacked(s) && Pending(s) && Validate(a, s, t.currentBet, t.bigBlind, t.lastRaise).Valid?
    ensures var q := Mover(s, t.currentBet, a.kind, Validate(a, s, t.currentBet, t.bigBlind, t.lastRaise).amount);
      && Stacked(q) && !Pending(q) && q.state != Empty && q.id == s.id && q.chips <= s.chips
      && (Leads(q, t.currentBet, a.kind) ==> (q.chips == s.chips <==> MovesNothing(s, a)))
      && (MovesNothing(s, a) ==> q == s.(acted := true))
  {
  }

  /** One seat gives way to another with the same id. */
  lemma {:induction false} SeatRaw(t: Table, c: nat, q: Seat)
    requires Raw(t) && c < |t.seats| && Stacked(q) && q.state != Empty && t.seats[c].state != Empty && q.id == t.seats[c].id
    ensures Raw(t.(seats := t.seats[c := q])) && PlayerCount(t.seats[c := q]) == PlayerCount(t.seats)
  {
    SumUpdate(t.seats, c, q, OneIfPlayer);
    var seats := t.seats[c := q];
    forall i | 0 <= i < |seats| ensures Stacked(seats[i]) {
      assert i != c ==> seats[i] == t.seats[i] && Stacked(t.seats[i]);
    }
  }

  lemma {:induction false} LeadRaw(t: Table, c: nat)
    requires Raw(t) && c < |t.seats|
    ensures Raw(Lead(t, c)) && PlayerCount(Lead(t, c).seats) == PlayerCount(t.seats)
  {
    var u := Lead(t, c);
    forall i | 0 <= i < |t.seats|
      ensures Stacked(u.seats[i]) && u.seats[i].id == t.seats[i].id && u.seats[i].state == t.seats[i].state
    {
      assert Stacked(t.seats[i]);
    }
    SumCompare(u.seats, t.seats, OneIfPlayer, OneIfPlayer);
  }

  lemma {:induction false} OthersReopened(seats: seq<Seat>, c: nat, i: nat)
    requires IdsApart(seats) && c < |seats| && i < |seats| && Pending(seats[c])
    ensures var q := seats[c].(acted := true);
      OneIfPending(Reopen(seats[c := q], q.id)[i]) == OneIfActive(seats[c := q.(state := Folded)][i])
  {
    assert i != c && seats[i].IsActive() ==> seats[i].id != seats[c].id;
  }

  /** Reopening the action for nothing: everybody else active is to act again. */
  lemma {:induction false} IdleLead(t: Table, c: nat)
    requires Raw(t) && t.live && c < |t.seats| && Pending(t.seats[c])
    ensures var u := Lead(t.(seats := t.seats[c := t.seats[c].(acted := true)]), c);
      Measure(u) == Measure(t) - PendingCount(t.seats) + ActiveCount(t.seats) - 1
  {
    var u := Lead(t.(seats := t.seats[c := t.seats[c].(acted := true)]), c);
    PendingAfterIdle(t.seats, c);
    SameWork(t, u);
  }

  lemma {:induction false} PendingAfterIdle(seats: seq<Seat>, c: nat)
    requires IdsApart(seats) && c < |seats| && Pending(seats[c])
    ensures var q := seats[c].(acted := true); PendingCount(Reopen(seats[c := q], q.id)) == ActiveCount(seats) - 1
  {
    var q := seats[c].(acted := true);
    var reopened, others := Reopen(seats[c := q], q.id), seats[c := q.(state := Folded)];
    forall i | 0 <= i < |seats| ensures OneIfPending(reopened[i]) == OneIfActive(others[i]) {
      OthersReopened(seats, c, i);
    }
    SumCompare(reopened, others, OneIfPending, OneIfActive);
    SumUpdate(seats, c, q.(state := Folded), OneIfActive);
  }

  lemma {:induction false} SameWork(t: Table, u: Table)
    requires u.live == t.live && u.phase == t.phase && |u.seats| == |t.seats|
    requires forall i :: 0 <= i < |t.seats| ==> u.seats[i] == t.seats[i].(acted := u.seats[i].acted)
    ensures t.live ==> Measure(u) - PendingCount(u.seats) == Measure(t) - PendingCount(t.seats)
    ensures ActiveCount(u.seats) == ActiveCount(t.seats) && PlayerCount(u.seats) == PlayerCount(t.seats)
  {
    SumCompare(u.seats, t.seats, ChipsOf, ChipsOf);
    SumCompare(u.seats, t.seats, OneIfActive, OneIfActive);
    SumCompare(u.seats, t.seats, OneIfPlayer, OneIfPlayer);
  }

  // ---------- what a step does to the measure ----------

  /** The step of a table: the measure goes down, unless the step idles; then it does not, and goes
      up by less than a round. */
  ghost predicate Counted(t: Table, r: Table, idles: bool) {
    && (r.live ==> Raw(r) && PlayerCount(r.seats) == PlayerCount(t.seats))
    && (Measure(r) < Measure(t) <==> !idles)
    && Measure(r) < Measure(t) + PlayerCount(t.seats)
  }

  /** A move that lowers the measure, and the settling that follows. */
  lemma {:induction false} LoweredThenSettled(t: Table, u: Table)
    requires Raw(t) && t.live && CurrentSeat(t) >= 0 && Raw(u) && u.live && PlayerCount(u.seats) == PlayerCount(t.seats)
    requires Measure(u) < Measure(t)
    ensures Counted(t, Settle(u), false)
  {
    MeasureNonNegative(t);
    SettleNoFurther(u);
    CountsBounded(t.seats);
  }

  lemma {:induction false} MoveLowers(t: Table, c: nat, q: Seat, leads: bool)
    requires Raw(t) && t.live && c == CurrentSeat(t) && Stacked(q) && !Pending(q) && q.state != Empty
    requires q.id == t.seats[c].id && q.chips <= t.seats[c].chips && (leads ==> q.chips < t.seats[c].chips)
    ensures var m := t.(seats := t.seats[c := q]);
      var u := if leads then Lead(m, c) else m;
      Raw(u) && u.live && PlayerCount(u.seats) == PlayerCount(t.seats) && Measure(u) < Measure(t)
  {
    var m := t.(seats := t.seats[c := q]);
    SeatRaw(t, c, q);
    if leads {
      LeadRaw(m, c);
      LeadWork(t, Lead(m, c), c, q, 1);
    } else {
      PassiveWork(t, c, q, 1);
    }
  }

  /** Reopening for nothing when somebody has acted: that somebody is to act again. */
  lemma {:induction false} IdleStep(t: Table, c: nat, u: Table)
    requires Raw(t) && t.live && c == CurrentSeat(t) && SomeDone(t.seats)
    requires u == Lead(t.(seats := t.seats[c := t.seats[c].(acted := true)]), c)
    ensures Counted(t, Settle(u), true)
  {
    var q := t.seats[c].(acted := true);
    SeatRaw(t, c, q);
    LeadRaw(t.(seats := t.seats[c := q]), c);
    IdleMeasure(t, c, u);
    var i :| 0 <= i < |t.seats| && Done(t.seats[i]);
    ReopenedWaits(t, c, u, i);
    IdleCounted(t, u, Settle(u));
  }

  lemma {:induction false} IdleCounted(t: Table, u: Table, r: Table)
    requires Raw(u) && u.live && PlayerCount(u.seats) == PlayerCount(t.seats) && r == u.(turn := r.turn) && r.Shaped()
    requires Measure(t) <= Measure(u) < Measure(t) + PlayerCount(t.seats)
    ensures Counted(t, r, true)
  {
  }

  lemma {:induction false} IdleMeasure(t: Table, c: nat, u: Table)
    requires Raw(t) && t.live && c == CurrentSeat(t) && SomeDone(t.seats)
    requires u == Lead(t.(seats := t.seats[c := t.seats[c].(acted := true)]), c)
    ensures Measure(t) <= Measure(u) < Measure(t) + PlayerCount(t.seats)
  {
    IdleLead(t, c);
    AllPendingIff(t.seats);
    CountsBounded(t.seats);
    CountsOne(t.seats, c);
  }

  lemma {:induction false} ReopenedWaits(t: Table, c: nat, u: Table, i: nat)
    requires Raw(t) && c < |t.seats| && i < |t.seats| && Pending(t.seats[c]) && Done(t.seats[i])
    requires u == Lead(t.(seats := t.seats[c := t.seats[c].(acted := true)]), c)
    ensures u.Shaped() && Settle(u) == u.(turn := NextTurn(u.seats, u.turn))
  {
    assert t.seats[i].id != t.seats[c].id;
    assert Pending(u.seats[i]) && Active(u.seats[c]);
    SumCovers(u.seats, OneIfActive, c);
    CountsBounded(u.seats);
  }

  lemma {:induction false} ActionCounted(t: Table, id: int, a: GameAction)
    requires Raw(t) && Takes(t, Acts(id, a))
    ensures Counted(t, After(t, Acts(id, a)), Idles(t, Acts(id, a)))
  {
    ActorIsCurrent(t, id, a);
    var c := CurrentSeat(t);
    var s, amount := t.seats[c], VerdictAt(t, c, a).amount;
    var q := Mover(s, t.currentBet, a.kind, amount);
    assert Stacked(s);
    MoverStacked(s, t, a);
    ApplyByMover(t, c, a.kind, amount);
    var u := Apply(t, c, a.kind, amount);
    if MovesNothing(s, a) && SomeDone(t.seats) {
      IdleStep(t, c, u);
    } else {
      ActionLowers(t, a, c, q, u);
      LoweredThenSettled(t, u);
    }
  }

  lemma {:induction false} ActionLowers(t: Table, a: GameAction, c: nat, q: Seat, u: Table)
    requires Raw(t) && t.live && c == CurrentSeat(t) && Stacked(q) && !Pending(q) && q.state != Empty
    requires q.id == t.seats[c].id && q.chips <= t.seats[c].chips
    requires Leads(q, t.currentBet, a.kind) ==> (q.chips == t.seats[c].chips <==> MovesNothing(t.seats[c], a))
    requires MovesNothing(t.seats[c], a) ==> q == t.seats[c].(acted := true) && !SomeDone(t.seats)
    requires var m := t.(seats := t.seats[c := q]); u == if Leads(q, t.currentBet, a.kind) then Lead(m, c) else m
    ensures Raw(u) && u.live && PlayerCount(u.seats) == PlayerCount(t.seats) && Measure(u) < Measure(t)
  {
    var m := t.(seats := t.seats[c := q]);
    if MovesNothing(t.seats[c], a) {
      IdleLead(t, c);
      AllPendingIff(t.seats);
      SeatRaw(t, c, q);
      LeadRaw(m, c);
    } else {
      MoveLowers(t, c, q, Leads(q, t.currentBet, a.kind));
    }
  }

  lemma {:induction false} ExpiryCounted(t: Table)
    requires Raw(t) && Takes(t, Expires)
    ensures Counted(t, After(t, Expires), false)
  {
    var c := CurrentSeat(t);
    var s := t.seats[c];
    var q := if t.currentBet - s.bet <= 0 then s.(acted := true) else s.(state := Folded);
    assert Stacked(s);
    MoveLowers(t, c, q, false);
    LoweredThenSettled(t, t.(seats := t.seats[c := q]));
  }

  /** Whatever the engine carries out brings the hand nearer its end, if and only if it is not a bet
      of nothing, nor a raise to no more than the player has bet, once somebody active has acted. */
  lemma {:induction false} StepCounted(t: Table, e: Event)
    requires Raw(t) && Takes(t, e)
    ensures Counted(t, After(t, e), Idles(t, e))
  {
    if e.Acts? { ActionCounted(t, e.id, e.action); } else { ExpiryCounted(t); }
  }

  // ---------- whole runs ----------

  /** A raise from a stack that cannot even match the bet. */
  ghost predicate Sinks(t: Table, e: Event) {
    Takes(t, e) && e.Acts? && SinkingRaise(t.(turn := CurrentSeat(t)), e.action)
  }

  /** A run so far: the table, how many events were carried out, how many of them idled, and how
      many were sinking raises. */
  datatype Course = Course(table: Table, taken: nat, idle: nat, sunk: nat)

  function One(b: bool): nat { if b then 1 else 0 }

  ghost function Next(c: Course, e: Event): Course {
    Course(After(c.table, e), c.taken + One(Takes(c.table, e)), c.idle + One(Idles(c.table, e)), c.sunk + One(Sinks(c.table, e)))
  }

  ghost function Played(c: Course, es: seq<Event>, next: (Course, Event) -> Course): Course {
    if es == [] then c else next(Played(c, es[..|es| - 1], next), es[|es| - 1])
  }

  lemma {:induction false} PlayedLifts(c: Course, es: seq<Event>, next: (Course, Event) -> Course, inv: Course -> bool)
    requires inv(c) && forall d, e {:trigger next(d, e)} :: inv(d) ==> inv(next(d, e))
    ensures inv(Played(c, es, next))
  {
    if es != [] { PlayedLifts(c, es[..|es| - 1], next, inv); }
  }

  ghost function Run(t: Table, es: seq<Event>): Course {
    Played(Course(t, 0, 0, 0), es, Next)
  }

  lemma {:induction false} UntakenChangesNothing(t: Table, e: Event)
    requires !Takes(t, e)
    ensures After(t, e) == t
  {
  }

  /** What holds all through a run. */
  ghost predicate OnCourse(t: Table, c: Course) {
    && (c.table.live ==> Raw(c.table) && PlayerCount(c.table.seats) == PlayerCount(t.seats))
    && Measure(c.table) >= 0 && Measure(c.table) + c.taken <= Measure(t) + PlayerCount(t.seats) * c.idle
  }

  lemma {:induction false} CourseMoves(t: Table, c: Course, r: Table, idles: bool, sunk: nat)
    requires OnCourse(t, c) && c.table.live && Counted(c.table, r, idles) && (r.live ==> Raw(r))
    ensures OnCourse(t, Course(r, c.taken + 1, c.idle + One(idles), sunk))
  {
    RunGrows(Measure(t), Measure(c.table), Measure(r), c.taken, PlayerCount(t.seats), c.idle, idles);
    if r.live { MeasureNonNegative(r); }
  }

  lemma {:induction false} NextIs(c: Course, e: Event)
    ensures Takes(c.table, e) ==>
      Next(c, e) == Course(After(c.table, e), c.taken + 1, c.idle + One(Idles(c.table, e)), c.sunk + One(Sinks(c.table, e)))
    ensures !Takes(c.table, e) ==> Next(c, e) == c
  {
    if !Takes(c.table, e) { UntakenChangesNothing(c.table, e); }
  }

  lemma {:induction false} StaysOnCourse(t: Table, c: Course, e: Event)
    requires OnCourse(t, c)
    ensures OnCourse(t, Next(c, e))
  {
    NextIs(c, e);
    if Takes(c.table, e) { TakenStays(t, c, e); }
  }

  lemma {:induction false} TakenCounted(t: Table, c: Course, e: Event)
    requires OnCourse(t, c) && Takes(c.table, e)
    ensures c.table.live && Counted(c.table, After(c.table, e), Idles(c.table, e))
  {
    StepCounted(c.table, e);
  }

  lemma {:induction false} TakenStays(t: Table, c: Course, e: Event)
    requires OnCourse(t, c) && Takes(c.table, e)
    ensures OnCourse(t, Course(After(c.table, e), c.taken + 1, c.idle + One(Idles(c.table, e)), c.sunk + One(Sinks(c.table, e))))
  {
    TakenCounted(t, c, e);
    CourseMoves(t, c, After(c.table, e), Idles(c.table, e), c.sunk + One(Sinks(c.table, e)));
  }

  /** Whoever sends what, and however often the clock runs out: a hand carries out no more events
      than its measure, and one round more for every one that idles. */
  lemma {:induction false} RunsEnd(t: Table, es: seq<Event>)
    requires Raw(t) && t.live
    ensures OnCourse(t, Run(t, es))
    ensures Run(t, es).taken <= Measure(t) + PlayerCount(t.seats) * Run(t, es).idle
  {
    MeasureNonNegative(t);
    forall c: Course, e: Event | OnCourse(t, c) ensures OnCourse(t, Next(c, e)) {
      StaysOnCourse(t, c, e);
    }
    PlayedLifts(Course(t, 0, 0, 0), es, Next, c => OnCourse(t, c));
  }

  /** One step more, in numbers: measures before and after, events and idle bets so far. */
  lemma {:induction false} RunGrows(m: int, before: int, after: int, taken: int, n: int, z: int, idles: bool)
    requires before + taken <= m + n * z && (after < before <==> !idles) && after < before + n
    ensures after + (taken + 1) <= m + n * (z + if idles then 1 else 0)
  {
    assert n * (z + 1) == n * z + n;
  }

  // ---------- getting stuck ----------

  /** The hand lasts and nobody is to act. */
  ghost predicate Stuck(t: Table) {
    t.Shaped() && t.live && CurrentSeat(t) < 0
  }

  /** The hand can be moved on exactly while it lasts and somebody is to act. */
  lemma {:induction false} MovesOnIff(t: Table)
    requires t.Shaped() && t.live
    ensures (exists e :: Takes(t, e)) <==> !Stuck(t)
  {
    if CurrentSeat(t) >= 0 { assert Takes(t, Expires); }
  }

  /** A stuck hand stays as it is, whatever is sent and however often the clock runs out. */
  lemma {:induction false} StuckForEver(t: Table, es: seq<Event>)
    requires Stuck(t)
    ensures Run(t, es) == Course(t, 0, 0, 0)
  {
    forall c: Course, e: Event | c == Course(t, 0, 0, 0) ensures Next(c, e) == c {
      NextIs(c, e);
    }
    PlayedLifts(Course(t, 0, 0, 0), es, Next, c => c == Course(t, 0, 0, 0));
  }

  lemma {:induction false} StuckIffNonePending(t: Table)
    requires t.Shaped() && t.live
    ensures Stuck(t) <==> PendingCount(t.seats) == 0
  {
    CountsBounded(t.seats);
    if CurrentSeat(t) >= 0 {
      CountsOne(t.seats, CurrentSeat(t));
    } else if PendingCount(t.seats) > 0 {
      var i := SumWitness(t.seats, OneIfPending);
    }
  }

  lemma {:induction false} AdvanceNeverSticks(t: Table)
    requires Raw(t) && t.live
    ensures !Stuck(AdvanceStreet(t))
    decreases StreetsLeft(t.phase), 0
  {
    if Closes(t) {
      ClosingShowsDown(t);
    } else {
      StreetRaw(t);
      NewStreetCounts(t.seats);
      StartNeverSticks(NextStreetDealt(t));
    }
  }

  lemma {:induction false} StartNeverSticks(t: Table)
    requires Raw(t) && t.live && PendingCount(t.seats) == ActiveCount(t.seats)
    ensures !Stuck(StartBettingRound(t))
    decreases StreetsLeft(t.phase), 1
  {
    if ActiveCount(t.seats) <= 1 {
      AdvanceNeverSticks(t.(lastRaise := t.bigBlind));
    } else {
      StuckIffNonePending(StartBettingRound(t));
    }
  }

  /** A step leaves the hand stuck exactly when nobody is left to act and the round is not complete:
      two or more in the hand, and active players with unequal bets. */
  lemma {:induction false} SticksIff(u: Table)
    requires Raw(u) && u.live
    ensures Stuck(Settle(u)) <==> PendingCount(u.seats) == 0 && !RoundComplete(u.seats)
  {
    if RoundComplete(u.seats) {
      AdvanceNeverSticks(u);
    } else {
      StuckIffNonePending(Settle(u));
    }
  }

  // ---------- the invariant without sinking raises ----------

  lemma {:induction false} AwaitingIsRaw(t: Table)
    requires AwaitsAction(t)
    ensures Raw(t) && !Stuck(t) && CurrentSeat(t) == t.turn
  {
    forall i | 0 <= i < |t.seats| ensures Stacked(t.seats[i]) {
      assert SeatOk(t.seats[i], t.currentBet);
    }
  }

  lemma {:induction false} SoundThenSettled(u: Table)
    requires Sound(u)
    ensures Settle(u).live ==> AwaitsAction(Settle(u))
  {
    SettleKeeps(u);
  }

  lemma {:induction false} UnsunkAwaits(t: Table, e: Event)
    requires AwaitsAction(t) && Takes(t, e) && !Sinks(t, e)
    ensures After(t, e).live ==> AwaitsAction(After(t, e))
  {
    AwaitingIsRaw(t);
    if e.Acts? {
      ActorIsCurrent(t, e.id, e.action);
      AcceptedStaysSound(t, e.action);
      SoundThenSettled(Apply(t, t.turn, e.action.kind, Verdict(t, e.action).amount));
    } else {
      var s := t.seats[t.turn];
      var q := if t.currentBet - s.bet <= 0 then s.(acted := true) else s.(state := Folded);
      OneSeatKeeps(t, t.(seats := t.seats[t.turn := q]), t.turn, q);
      SoundThenSettled(t.(seats := t.seats[t.turn := q]));
    }
  }

  ghost predicate Awaiting(c: Course) {
    c.sunk == 0 && c.table.live ==> AwaitsAction(c.table)
  }

  /** A hand within the invariant of legal play, every stack behind it positive, stays within it as long
      as nobody makes a sinking raise: it awaits an action until it is over. Sticking has the other stacks. */
  lemma {:induction false} UnsunkRunsAwait(t: Table, es: seq<Event>)
    requires AwaitsAction(t)
    ensures Awaiting(Run(t, es))
  {
    forall c: Course, e: Event | Awaiting(c) ensures Awaiting(Next(c, e)) {
      NextIs(c, e);
      if Takes(c.table, e) && c.sunk == 0 && !Sinks(c.table, e) { UnsunkAwaits(c.table, e); }
    }
    PlayedLifts(Course(t, 0, 0, 0), es, Next, c => Awaiting(c));
  }
}
