/** Exactly when a hand can get stuck: in play with nobody to act. Play by any caller through the
    engine's own validator, expired clocks, and players who leave. */
module Sticking {
  import opened Cards
  import opened Seats
  import opened Betting
  import opened HandSpec
  import opened Payout
  import opened HandInvariant
  import opened LegalPlay
  import opened Opening
  import opened Departures
  import opened RawPlay

  // ---------- level tables ----------

  /** An active seat bets within the current bet, and has matched it if it has acted. It may have no
      chips left. */
  predicate LevelSeat(s: Seat, currentBet: Chips) {
    s.IsActive() ==> 0 <= s.bet <= currentBet && (s.acted ==> s.bet == currentBet)
  }

  ghost predicate Level(t: Table) {
    forall i :: 0 <= i < |t.seats| ==> LevelSeat(t.seats[i], t.currentBet)
  }

  /** A hand in play that is level, with somebody to act; or a hand that is over. */
  ghost predicate Steady(t: Table) {
    t.live ==> Raw(t) && Level(t) && !Stuck(t)
  }

  // ---------- settling a level table ----------

  lemma {:induction false} NewStreetLevel(t: Table)
    ensures Level(NextStreetDealt(t))
  {
    var u := NextStreetDealt(t);
    forall i | 0 <= i < |u.seats| ensures LevelSeat(u.seats[i], u.currentBet) {
      assert u.seats[i] == NewStreetSeat(t.seats[i]);
    }
  }

  lemma {:induction false} AdvanceLevel(t: Table)
    requires Raw(t) && t.live && AdvanceStreet(t).live
    ensures Level(AdvanceStreet(t))
    decreases StreetsLeft(t.phase), 0
  {
    if Closes(t) {
      ClosingShowsDown(t);
    } else {
      StreetRaw(t);
      NewStreetLevel(t);
      StartLevel(NextStreetDealt(t));
    }
  }

  lemma {:induction false} StartLevel(t: Table)
    requires Raw(t) && t.live && Level(t) && StartBettingRound(t).live
    ensures Level(StartBettingRound(t))
    decreases StreetsLeft(t.phase), 1
  {
    if ActiveCount(t.seats) <= 1 { AdvanceLevel(t.(lastRaise := t.bigBlind)); }
  }

  /** Every table a street change leaves is steady, level before or not. */
  lemma {:induction false} AdvanceSteady(t: Table)
    requires Raw(t) && t.live
    ensures Steady(AdvanceStreet(t))
  {
    AdvanceNoFurther(t);
    AdvanceNeverSticks(t);
    if AdvanceStreet(t).live { AdvanceLevel(t); }
  }

  /** With nobody left to act a level round is complete. */
  lemma {:induction false} LevelCompletes(t: Table)
    requires Level(t) && PendingCount(t.seats) == 0
    ensures RoundComplete(t.seats)
  {
    forall i | 0 <= i < |t.seats| && Active(t.seats[i]) ensures t.seats[i].acted && t.seats[i].bet == t.currentBet {
      assert LevelSeat(t.seats[i], t.currentBet);
      if !t.seats[i].acted { CountsOne(t.seats, i); }
    }
  }

  lemma {:induction false} SettleSteady(u: Table)
    requires Raw(u) && u.live && Level(u)
    ensures Steady(Settle(u))
  {
    if RoundComplete(u.seats) {
      AdvanceSteady(u);
    } else {
      SettleNoFurther(u);
      SticksIff(u);
      if PendingCount(u.seats) == 0 { LevelCompletes(u); }
    }
  }

  // ---------- one seat moves ----------

  lemma {:induction false} SeatLevel(t: Table, c: nat, q: Seat)
    requires Level(t) && c < |t.seats| && LevelSeat(q, t.currentBet)
    ensures Level(t.(seats := t.seats[c := q]))
  {
    var seats := t.seats[c := q];
    forall i | 0 <= i < |seats| ensures LevelSeat(seats[i], t.currentBet) {
      assert LevelSeat(t.seats[i], t.currentBet);
    }
  }

  /** A stake at or above the current bet leads, and whoever bets within the old bet is level again. */
  lemma {:induction false} LeadLevel(t: Table, c: nat)
    requires IdsApart(t.seats) && c < |t.seats| && t.seats[c].state != Empty && 0 <= t.seats[c].bet
    requires forall i :: 0 <= i < |t.seats| && i != c && Active(t.seats[i]) ==> 0 <= t.seats[i].bet <= t.seats[c].bet
    ensures Level(Lead(t, c))
  {
    var u := Lead(t, c);
    forall i | 0 <= i < |u.seats| ensures LevelSeat(u.seats[i], u.currentBet) {
      assert u.seats[i] == ReopenSeat(t.seats[i], t.seats[c].id);
      assert i != c && Active(t.seats[i]) ==> t.seats[i].id != t.seats[c].id;
    }
  }

  /** What a valid action that does not sink the bet makes of a level seat. */
  lemma {:induction false} MoverLevel(s: Seat, t: Table, a: GameAction)
    requires Stacked(s) && Pending(s) && LevelSeat(s, t.currentBet) && Validate(a, s, t.currentBet, t.bigBlind, t.lastRaise).Valid?
    requires a.kind == Raise ==> s.bet + s.chips >= t.currentBet
    ensures var q := Mover(s, t.currentBet, a.kind, Validate(a, s, t.currentBet, t.bigBlind, t.lastRaise).amount);
      if Leads(q, t.currentBet, a.kind) then q.bet >= t.currentBet >= 0 else LevelSeat(q, t.currentBet)
  {
  }

  lemma {:induction false} MoveLevel(t: Table, a: GameAction, c: nat, q: Seat, u: Table)
    requires Raw(t) && Level(t) && c < |t.seats| && Stacked(q) && q.state != Empty && t.seats[c].state != Empty && q.id == t.seats[c].id
    requires if Leads(q, t.currentBet, a.kind) then q.bet >= t.currentBet >= 0 else LevelSeat(q, t.currentBet)
    requires var m := t.(seats := t.seats[c := q]); u == if Leads(q, t.currentBet, a.kind) then Lead(m, c) else m
    ensures Raw(u) && Level(u)
  {
    var m := t.(seats := t.seats[c := q]);
    SeatRaw(t, c, q);
    if Leads(q, t.currentBet, a.kind) {
      forall i | 0 <= i < |m.seats| && i != c && Active(m.seats[i]) ensures 0 <= m.seats[i].bet <= q.bet {
        assert LevelSeat(t.seats[i], t.currentBet);
      }
      LeadRaw(m, c);
      LeadLevel(m, c);
    } else {
      SeatLevel(t, c, q);
    }
  }

  lemma {:induction false} ActionSteady(t: Table, id: int, a: GameAction)
    requires Raw(t) && Level(t) && Takes(t, Acts(id, a)) && !Sinks(t, Acts(id, a))
    ensures Steady(After(t, Acts(id, a)))
  {
    ActorIsCurrent(t, id, a);
    var c := CurrentSeat(t);
    var s, amount := t.seats[c], VerdictAt(t, c, a).amount;
    assert Stacked(s) && LevelSeat(s, t.currentBet);
    MoverStacked(s, t, a);
    MoverLevel(s, t, a);
    ApplyByMover(t, c, a.kind, amount);
    MoveLevel(t, a, c, Mover(s, t.currentBet, a.kind, amount), Apply(t, c, a.kind, amount));
    SettleSteady(Apply(t, c, a.kind, amount));
  }

  /** The seat to act, when its clock has run out. */
  function Clocked(s: Seat, currentBet: Chips): Seat {
    if currentBet - s.bet <= 0 then s.(acted := true) else s.(state := Folded)
  }

  lemma {:induction false} ExpiryIs(t: Table)
    requires Takes(t, Expires)
    ensures var c := CurrentSeat(t); After(t, Expires) == Settle(t.(seats := t.seats[c := Clocked(t.seats[c], t.currentBet)]))
  {
  }

  lemma {:induction false} ExpirySteady(t: Table)
    requires Raw(t) && Level(t) && Takes(t, Expires)
    ensures Steady(After(t, Expires))
  {
    ExpiryIs(t);
    var c := CurrentSeat(t);
    var q := Clocked(t.seats[c], t.currentBet);
    assert Stacked(t.seats[c]) && LevelSeat(t.seats[c], t.currentBet);
    SeatRaw(t, c, q);
    SeatLevel(t, c, q);
    SettleSteady(t.(seats := t.seats[c := q]));
  }

  // ---------- leaving ----------

  /** An event, or a player who asks to cash out. */
  datatype Happening = Plays(event: Event) | Leaves(id: int)

  ghost function Onward(t: Table, h: Happening): Table {
    match h
    case Plays(e) => After(t, e)
    case Leaves(id) =>
      if !t.live || !t.Shaped() then t
      else match RequestCashOut(t, id) case NotSeated => t case CashOut(r, _) => r
  }

  /** A raise from a stack that cannot even match the bet. */
  ghost predicate Sinking(t: Table, h: Happening) {
    h.Plays? && Sinks(t, h.event)
  }

  /** The table once seat i's player has asked to leave, before a fold is settled. */
  function Quit(s: Seat): Seat {
    if s.IsActive() then s.(leaving := true, state := Folded, acted := true)
    else if s.IsLive() then s.(leaving := true)
    else Vacated(s)
  }

  lemma {:induction false} LeavingIs(t: Table, id: int)
    requires t.Shaped() && t.live
    ensures var i := OccupiedSeatOf(t.seats, id);
      Onward(t, Leaves(id)) ==
        if i < 0 then t
        else
          var u := t.(seats := t.seats[i := Quit(t.seats[i])]);
          if t.seats[i].IsActive() then Settle(u) else u
  {
  }

  lemma {:induction false} QuitRaw(t: Table, i: nat)
    requires Raw(t) && i < |t.seats| && t.seats[i].state != Empty
    ensures Raw(t.(seats := t.seats[i := Quit(t.seats[i])]))
  {
    var seats := t.seats[i := Quit(t.seats[i])];
    forall k | 0 <= k < |seats| ensures Stacked(seats[k]) {
      assert Stacked(t.seats[k]);
    }
  }

  /** Who is not active is not waited for. */
  lemma {:induction false} StaysUnstuck(t: Table, i: nat, q: Seat)
    requires t.Shaped() && t.live && !Stuck(t) && i < |t.seats| && !Active(t.seats[i]) && !Active(q)
    ensures !Stuck(t.(seats := t.seats[i := q]))
  {
    SumUpdate(t.seats, i, q, OneIfPending);
    StuckIffNonePending(t);
    StuckIffNonePending(t.(seats := t.seats[i := q]));
  }

  lemma {:induction false} LeavingSteady(t: Table, id: int)
    requires Raw(t) && t.live && Level(t) && !Stuck(t)
    ensures Steady(Onward(t, Leaves(id)))
  {
    LeavingIs(t, id);
    var i := OccupiedSeatOf(t.seats, id);
    if i >= 0 {
      QuitRaw(t, i);
      SeatLevel(t, i, Quit(t.seats[i]));
      if t.seats[i].IsActive() {
        SettleSteady(t.(seats := t.seats[i := Quit(t.seats[i])]));
      } else {
        StaysUnstuck(t, i, Quit(t.seats[i]));
      }
    }
  }

  lemma {:induction false} StaysSteady(t: Table, h: Happening)
    requires Steady(t) && !Sinking(t, h)
    ensures Steady(Onward(t, h))
  {
    if t.live {
      match h {
        case Leaves(id) => LeavingSteady(t, id);
        case Plays(e) =>
          if !Takes(t, e) { UntakenChangesNothing(t, e); }
          else if e.Acts? { ActionSteady(t, e.id, e.action); }
          else { ExpirySteady(t); }
      }
    }
  }

  // ---------- whole runs ----------

  ghost function Carried(next: (Table, Happening) -> Table, t: Table, hs: seq<Happening>): Table {
    if hs == [] then t else next(Carried(next, t, hs[..|hs| - 1]), hs[|hs| - 1])
  }

  /** Never p on the way. */
  ghost predicate Without(next: (Table, Happening) -> Table, p: (Table, Happening) -> bool, t: Table, hs: seq<Happening>) {
    hs == [] || (Without(next, p, t, hs[..|hs| - 1]) && !p(Carried(next, t, hs[..|hs| - 1]), hs[|hs| - 1]))
  }

  lemma {:induction false} Carries(next: (Table, Happening) -> Table, p: (Table, Happening) -> bool, inv: Table -> bool,
                                   t: Table, hs: seq<Happening>)
    requires inv(t) && Without(next, p, t, hs)
    requires forall u, h {:trigger next(u, h)} :: inv(u) && !p(u, h) ==> inv(next(u, h))
    ensures inv(Carried(next, t, hs))
  {
    if hs != [] { Carries(next, p, inv, t, hs[..|hs| - 1]); }
  }

  /** The table after a run of events and departures. */
  ghost function Later(t: Table, hs: seq<Happening>): Table {
    Carried(Onward, t, hs)
  }

  /** None of them is a sinking raise. */
  ghost predicate Unsunk(t: Table, hs: seq<Happening>) {
    Without(Onward, Sinking, t, hs)
  }

  /** From a level table with somebody to act no run without sinking raises ever sticks, and what it
      leaves in play is level. */
  lemma {:induction false} LevelNeverSticks(t: Table, hs: seq<Happening>)
    requires Steady(t) && Unsunk(t, hs)
    ensures Steady(Later(t, hs)) && !Stuck(Later(t, hs))
  {
    forall u: Table, h: Happening | Steady(u) && !Sinking(u, h) ensures Steady(Onward(u, h)) {
      StaysSteady(u, h);
    }
    Carries(Onward, Sinking, Steady, t, hs);
  }

  // ---------- the table a hand opens with ----------

  /** A table between hands at which two players can be dealt in, whatever stacks they have left, and
      whatever the last hand left in the seats. */
  ghost predicate Startable(t: Table) {
    && t.Shaped() && !t.live && t.phase in {Waiting, HandComplete} && 0 <= t.smallBlind <= t.bigBlind
    && IdsApart(t.seats) && Sum(t.seats, OneIfWaiting) >= 2 && Sum(MapSeats(t.seats, ResetHandSeat), OneIfSeated) >= 2
    && forall i :: 0 <= i < |t.seats| ==> Stacked(t.seats[i])
  }

  /** The blinds of the hand to come. */
  function ComingBlinds(t: Table): (b: BlindSeats)
    requires t.Shaped()
    ensures b.small < |t.seats| && b.big < |t.seats|
  {
    BlindsFor(RotateButton(Cleared(t, [])))
  }

  /** Somebody the next hand counts in. */
  predicate Comes(s: Seat) { Seated(ResetHandSeat(s)) }

  /** Whoever sits, or took part in the hand before, takes part in the next; whoever sits out does not. */
  lemma {:induction false} ComesIff(s: Seat)
    ensures Comes(s) <==> s.state !in {Empty, SittingOut}
  {
  }

  /** What the player in seat i posts. */
  function Posts(t: Table, b: BlindSeats, i: nat): Chips
    requires i < |t.seats|
  {
    if i == b.small then Min(t.smallBlind, t.seats[i].chips) else if i == b.big then Min(t.bigBlind, t.seats[i].chips) else 0
  }

  /** A stake that leaves nothing leaves its owner all-in, and without cards. */
  predicate StaysIn(s: Seat, stake: Chips) {
    Comes(s) && (stake == 0 || stake < s.chips)
  }

  /** Seat s of the last hand once it has posted. */
  predicate HasPosted(s: Seat, p: Seat, stake: Chips) {
    && p.id == s.id && p.chips == s.chips - stake && p.bet == stake && !p.acted && !p.IsActive()
    && (p.state == Empty <==> s.state == Empty) && (p.state == Sitting <==> StaysIn(s, stake))
  }

  /** And once the cards are out. */
  predicate Joined(s: Seat, r: Seat, stake: Chips) {
    && r.id == s.id && r.chips == s.chips - stake && r.bet == stake && !r.acted
    && (r.state == Empty <==> s.state == Empty) && (r.IsActive() <==> StaysIn(s, stake))
  }

  ghost predicate AllPosted(t: Table, b: BlindSeats, seats: seq<Seat>) {
    |seats| == |t.seats| && forall i :: 0 <= i < |t.seats| ==> HasPosted(t.seats[i], seats[i], Posts(t, b, i))
  }

  ghost predicate AllJoined(t: Table, b: BlindSeats, seats: seq<Seat>) {
    |seats| == |t.seats| && forall i :: 0 <= i < |t.seats| ==> Joined(t.seats[i], seats[i], Posts(t, b, i))
  }

  lemma {:induction false} Rotated(t: Table, deck: seq<Card>)
    requires Startable(t)
    ensures var u, b := RotateButton(Cleared(t, deck)), ComingBlinds(t);
      && u.Shaped() && |u.seats| == |t.seats| && b == BlindsFor(u) && b.small != b.big
      && Comes(t.seats[b.small]) && Comes(t.seats[b.big])
      && forall i :: 0 <= i < |t.seats| ==> SameButFlags(ResetHandSeat(t.seats[i]), u.seats[i])
  {
    var c, u := Cleared(t, deck), RotateButton(Cleared(t, deck));
    ButtonPlaced(c);
    BlindSeatsDiffer(u);
    assert RotateButton(Cleared(t, [])).seats == u.seats;
    forall i | 0 <= i < |t.seats| ensures SameButFlags(ResetHandSeat(t.seats[i]), u.seats[i]) {
      assert c.seats[i] == ResetHandSeat(t.seats[i]);
    }
  }

  lemma {:induction false} PostedSeat(s: Seat, e: Seat, stake: Chips)
    requires SameButFlags(ResetHandSeat(s), e) && 0 <= stake <= s.chips && (stake > 0 ==> Comes(s))
    ensures HasPosted(s, e.AfterBet(stake), stake) && (stake == 0 ==> HasPosted(s, e, stake))
  {
  }

  lemma {:induction false} SeatsPosted(t: Table, u: Table, b: BlindSeats)
    requires u.Shaped() && |u.seats| == |t.seats| && b == BlindsFor(u) && b.small != b.big
    requires u.smallBlind == t.smallBlind >= 0 && u.bigBlind == t.bigBlind >= 0
    requires Comes(t.seats[b.small]) && Comes(t.seats[b.big])
    requires forall i :: 0 <= i < |t.seats| ==> Stacked(t.seats[i]) && SameButFlags(ResetHandSeat(t.seats[i]), u.seats[i])
    ensures AllPosted(t, b, PostBlinds(u).seats)
    ensures PostBlinds(u) == u.(seats := PostBlinds(u).seats, currentBet := Posts(t, b, b.big))
  {
    var f := Flagged(u.seats, b);
    forall i | 0 <= i < |t.seats| ensures HasPosted(t.seats[i], PostBlinds(u).seats[i], Posts(t, b, i)) {
      assert Stacked(t.seats[i]) && SameButFlags(ResetHandSeat(t.seats[i]), f[i]);
      PostedSeat(t.seats[i], f[i], Posts(t, b, i));
    }
    assert f[b.big].chips == t.seats[b.big].chips;
  }

  lemma {:induction false} SeatsJoined(t: Table, b: BlindSeats, p: Table)
    requires AllPosted(t, b, p.seats) && p.dealt == 0 && 2 * |p.seats| <= |p.deck|
    ensures AllJoined(t, b, DealHoles(p, |p.seats|).seats)
  {
    var n := |p.seats|;
    assert p.seats[..n] == p.seats;
    SumBounds(p.seats, OneIfSitting, 0, 1);
    HolesDealt(p, n);
    var r := DealHoles(p, n);
    forall i | 0 <= i < n ensures Joined(t.seats[i], r.seats[i], Posts(t, b, i)) {
      assert HasPosted(t.seats[i], p.seats[i], Posts(t, b, i));
    }
  }

  /** Button moved, blinds posted, cards out, for any stacks. */
  lemma {:induction false} DealtAny(t: Table, deck: seq<Card>)
    requires Startable(t) && 2 * |t.seats| <= |deck|
    ensures var b, d := ComingBlinds(t), DealtIn(Cleared(t, deck));
      && b.small != b.big && Comes(t.seats[b.small]) && Comes(t.seats[b.big])
      && d.live && d.phase == PreflopBetting && d.bigBlind == t.bigBlind && d.currentBet == Posts(t, b, b.big)
      && d.button == RotateButton(Cleared(t, deck)).button
      && AllJoined(t, b, d.seats)
  {
    Rotated(t, deck);
    var u := RotateButton(Cleared(t, deck));
    assert forall i :: 0 <= i < |t.seats| ==> Stacked(t.seats[i]);
    SeatsPosted(t, u, ComingBlinds(t));
    SeatsJoined(t, ComingBlinds(t), PostBlinds(u));
  }

  lemma {:induction false} JoinedIsRaw(t: Table, b: BlindSeats, d: Table)
    requires Startable(t) && d.Shaped() && d.phase == PreflopBetting && AllJoined(t, b, d.seats)
    ensures Raw(d) && PendingCount(d.seats) == ActiveCount(d.seats)
  {
    forall i | 0 <= i < |d.seats| ensures Stacked(d.seats[i]) && OneIfPending(d.seats[i]) == OneIfActive(d.seats[i]) {
      assert Joined(t.seats[i], d.seats[i], Posts(t, b, i)) && Stacked(t.seats[i]);
    }
    forall i | 0 <= i < |d.seats| ensures d.seats[i].id == t.seats[i].id && (d.seats[i].state == Empty <==> t.seats[i].state == Empty) {
      assert Joined(t.seats[i], d.seats[i], Posts(t, b, i));
    }
    SumCompare(d.seats, d.seats, OneIfPending, OneIfActive);
  }

  lemma {:induction false} RoundStarts(d: Table)
    requires Raw(d) && d.live && PendingCount(d.seats) == ActiveCount(d.seats)
    ensures var r := StartBettingRound(d);
      && (r.live <==> ActiveCount(d.seats) > 1) && !Stuck(r)
      && (r.live ==> Raw(r) && r == d.(lastRaise := d.bigBlind, turn := FirstTurn(d.seats, StartSeat(d), d.turn)))
  {
    StartLiveIff(d);
    StartNeverSticks(d);
    StartNoFurther(d);
  }

  lemma {:induction false} StartsRound(t: Table, deck: seq<Card>)
    requires Startable(t)
    ensures StartHand(t, deck) == Accepted(StartBettingRound(DealtIn(Cleared(t, deck))))
  {
  }

  /** Any hand that starts, from any stacks. */
  lemma {:induction false} HandStarts(t: Table, deck: seq<Card>)
    requires Startable(t) && 2 * |t.seats| <= |deck|
    ensures StartHand(t, deck).Accepted?
    ensures var r, b, d := StartHand(t, deck).after, ComingBlinds(t), DealtIn(Cleared(t, deck));
      && (r.live <==> ActiveCount(d.seats) > 1) && !Stuck(r) && AllJoined(t, b, d.seats)
      && d.live && d.phase == PreflopBetting && d.currentBet == Posts(t, b, b.big) && d.button == RotateButton(Cleared(t, deck)).button
      && (r.live ==> Raw(r) && r == d.(lastRaise := t.bigBlind, turn := FirstTurn(d.seats, StartSeat(d), d.turn)))
  {
    DealtAny(t, deck);
    var d := DealtIn(Cleared(t, deck));
    JoinedIsRaw(t, ComingBlinds(t), d);
    RoundStarts(d);
    StartsRound(t, deck);
  }

  /** The small blind is posted in full and more is behind, and the big blind's stack is smaller
      than it. */
  predicate ShortBlind(t: Table)
    requires t.Shaped()
  {
    var b := ComingBlinds(t);
    t.seats[b.small].chips > t.smallBlind > t.seats[b.big].chips
  }

  lemma {:induction false} JoinedLevelIff(t: Table, b: BlindSeats, r: Table)
    requires Startable(t) && b == ComingBlinds(t) && b.small != b.big
    requires Comes(t.seats[b.small]) && AllJoined(t, b, r.seats) && r.currentBet == Posts(t, b, b.big)
    ensures Level(r) <==> !ShortBlind(t)
  {
    assert Joined(t.seats[b.small], r.seats[b.small], Posts(t, b, b.small));
    assert Stacked(t.seats[b.small]) && Stacked(t.seats[b.big]);
    if ShortBlind(t) {
      assert !LevelSeat(r.seats[b.small], r.currentBet);
    } else {
      forall i | 0 <= i < |r.seats| ensures LevelSeat(r.seats[i], r.currentBet) {
        assert Joined(t.seats[i], r.seats[i], Posts(t, b, i)) && Stacked(t.seats[i]);
      }
    }
  }

  /** The table a hand opens with is level if and only if the blinds to come are not short: a condition
      on the stacks before it. */
  lemma {:induction false} OpensLevelIff(t: Table, deck: seq<Card>)
    requires Startable(t) && 2 * |t.seats| <= |deck|
    ensures StartHand(t, deck).Accepted?
    ensures var r := StartHand(t, deck).after; r.live ==> (Level(r) <==> !ShortBlind(t))
  {
    HandStarts(t, deck);
    DealtAny(t, deck);
    var r := StartHand(t, deck).after;
    if r.live { JoinedLevelIff(t, ComingBlinds(t), r); }
  }

  // ---------- out of a stuck hand ----------

  /** A stuck hand moves on when an active player leaves whose fold completes the round, and not when
      anybody else leaves. */
  lemma {:induction false} LeavingFreesIff(t: Table, id: int)
    requires Raw(t) && Stuck(t) && OccupiedSeatOf(t.seats, id) >= 0
    ensures var i := OccupiedSeatOf(t.seats, id);
      Stuck(Onward(t, Leaves(id))) <==> (Active(t.seats[i]) ==> !RoundComplete(t.seats[i := Quit(t.seats[i])]))
  {
    LeavingIs(t, id);
    var i := OccupiedSeatOf(t.seats, id);
    var u := t.(seats := t.seats[i := Quit(t.seats[i])]);
    QuitRaw(t, i);
    SumUpdate(t.seats, i, Quit(t.seats[i]), OneIfPending);
    CountsBounded(u.seats);
    StuckIffNonePending(t);
    StuckIffNonePending(u);
    if t.seats[i].IsActive() { SticksIff(u); }
  }

  // ---------- a lopsided table that cannot stick ----------

  /** An active seat that can only leave the betting: to match the bet takes all it has. */
  predicate Cornered(s: Seat, currentBet: Chips) {
    s.IsActive() ==> !s.acted && 0 <= s.bet < currentBet && s.bet + s.chips <= currentBet
  }

  /** Seat a has bet more than the current bet, and everybody else active is cornered. */
  ghost predicate Lopsided(t: Table, a: nat) {
    && a < |t.seats| && Active(t.seats[a]) && t.seats[a].bet > t.currentBet > 0
    && forall i :: 0 <= i < |t.seats| && i != a ==> Cornered(t.seats[i], t.currentBet)
  }

  ghost predicate Sided(t: Table) {
    exists a: nat :: Lopsided(t, a)
  }

  ghost predicate Sure(t: Table) {
    t.live ==> Raw(t) && !Stuck(t) && (Level(t) || Sided(t))
  }

  lemma {:induction false} LopsidedCompletes(t: Table, a: nat)
    requires Lopsided(t, a) && PendingCount(t.seats) == 0
    ensures RoundComplete(t.seats)
  {
    forall i | 0 <= i < |t.seats| && Active(t.seats[i]) ensures i == a && t.seats[i].acted {
      CountsOne(t.seats, i);
      assert i != a ==> Cornered(t.seats[i], t.currentBet);
    }
  }

  lemma {:induction false} SettleLopsided(u: Table, a: nat)
    requires Raw(u) && u.live && Lopsided(u, a)
    ensures Sure(Settle(u))
  {
    if RoundComplete(u.seats) {
      AdvanceSteady(u);
    } else {
      SettleNoFurther(u);
      SticksIff(u);
      if PendingCount(u.seats) == 0 { LopsidedCompletes(u, a); }
      assert Lopsided(Settle(u), a);
    }
  }

  lemma {:induction false} LopsidedSeat(t: Table, a: nat, c: nat, q: Seat)
    requires Lopsided(t, a) && c < |t.seats|
    requires if c == a then Active(q) && q.bet == t.seats[a].bet else Cornered(q, t.currentBet)
    ensures Lopsided(t.(seats := t.seats[c := q]), a)
  {
    var seats := t.seats[c := q];
    forall i | 0 <= i < |seats| && i != a ensures Cornered(seats[i], t.currentBet) {
      assert Cornered(t.seats[i], t.currentBet);
    }
  }

  /** Once the one who bet too much is out, the rest is level. */
  lemma {:induction false} TopGone(t: Table, a: nat, q: Seat)
    requires Lopsided(t, a) && !q.IsActive()
    ensures Level(t.(seats := t.seats[a := q]))
  {
    var seats := t.seats[a := q];
    forall i | 0 <= i < |seats| ensures LevelSeat(seats[i], t.currentBet) {
      if i != a { assert Cornered(t.seats[i], t.currentBet); }
    }
  }

  lemma {:induction false} CornerMover(s: Seat, t: Table, a: GameAction)
    requires Stacked(s) && Pending(s) && Cornered(s, t.currentBet) && Validate(a, s, t.currentBet, t.bigBlind, t.lastRaise).Valid?
    requires a.kind == Raise ==> s.bet + s.chips >= t.currentBet
    ensures var q := Mover(s, t.currentBet, a.kind, Validate(a, s, t.currentBet, t.bigBlind, t.lastRaise).amount);
      !q.IsActive() && (Leads(q, t.currentBet, a.kind) ==> q.bet == t.currentBet)
  {
  }

  lemma {:induction false} TopMover(s: Seat, t: Table, a: GameAction)
    requires Stacked(s) && Pending(s) && s.bet > t.currentBet > 0 && Validate(a, s, t.currentBet, t.bigBlind, t.lastRaise).Valid?
    ensures var q := Mover(s, t.currentBet, a.kind, Validate(a, s, t.currentBet, t.bigBlind, t.lastRaise).amount);
      if Leads(q, t.currentBet, a.kind) then q.bet > t.currentBet else !q.IsActive() || q.bet == s.bet
  {
  }

  /** A lead that leaves the bet where it is. */
  lemma {:induction false} LeadLopsided(t: Table, a: nat, c: nat)
    requires IdsApart(t.seats) && Lopsided(t, a) && c < |t.seats| && c != a && t.seats[c].bet == t.currentBet
    ensures Lopsided(Lead(t, c), a)
  {
    var u := Lead(t, c);
    forall i | 0 <= i < |u.seats| && i != a ensures Cornered(u.seats[i], u.currentBet) {
      assert u.seats[i] == ReopenSeat(t.seats[i], t.seats[c].id) && Cornered(t.seats[i], t.currentBet);
    }
  }

  lemma {:induction false} CornerMoves(t: Table, act: GameAction, a: nat, c: nat, q: Seat, u: Table)
    requires Raw(t) && Lopsided(t, a) && c < |t.seats| && c != a && Stacked(q) && q.state != Empty && t.seats[c].state != Empty
    requires q.id == t.seats[c].id && !q.IsActive() && (Leads(q, t.currentBet, act.kind) ==> q.bet == t.currentBet)
    requires var m := t.(seats := t.seats[c := q]); u == if Leads(q, t.currentBet, act.kind) then Lead(m, c) else m
    ensures Raw(u) && Lopsided(u, a)
  {
    var m := t.(seats := t.seats[c := q]);
    SeatRaw(t, c, q);
    LopsidedSeat(t, a, c, q);
    if Leads(q, t.currentBet, act.kind) {
      LeadRaw(m, c);
      LeadLopsided(m, a, c);
    }
  }

  lemma {:induction false} TopLeads(t: Table, a: nat, q: Seat)
    requires Raw(t) && Lopsided(t, a) && q.state != Empty && q.id == t.seats[a].id && q.bet > t.currentBet
    requires IdsApart(t.seats[a := q])
    ensures Level(Lead(t.(seats := t.seats[a := q]), a))
  {
    var m := t.(seats := t.seats[a := q]);
    forall i | 0 <= i < |m.seats| && i != a && Active(m.seats[i]) ensures 0 <= m.seats[i].bet <= q.bet {
      assert Cornered(t.seats[i], t.currentBet);
    }
    LeadLevel(m, a);
  }

  lemma {:induction false} TopMoves(t: Table, act: GameAction, a: nat, q: Seat, u: Table)
    requires Raw(t) && Lopsided(t, a) && Stacked(q) && q.state != Empty && q.id == t.seats[a].id
    requires if Leads(q, t.currentBet, act.kind) then q.bet > t.currentBet else !q.IsActive() || q.bet == t.seats[a].bet
    requires var m := t.(seats := t.seats[a := q]); u == if Leads(q, t.currentBet, act.kind) then Lead(m, a) else m
    ensures Raw(u) && (Level(u) || Lopsided(u, a))
  {
    var m := t.(seats := t.seats[a := q]);
    SeatRaw(t, a, q);
    if Leads(q, t.currentBet, act.kind) {
      LeadRaw(m, a);
      TopLeads(t, a, q);
    } else if q.IsActive() {
      LopsidedSeat(t, a, a, q);
    } else {
      TopGone(t, a, q);
    }
  }

  lemma {:induction false} LopsidedActs(t: Table, a: nat, id: int, act: GameAction)
    requires Raw(t) && Lopsided(t, a) && Takes(t, Acts(id, act)) && !Sinks(t, Acts(id, act))
    ensures Sure(After(t, Acts(id, act)))
  {
    ActorIsCurrent(t, id, act);
    var c := CurrentSeat(t);
    var s, amount := t.seats[c], VerdictAt(t, c, act).amount;
    var q, u := Mover(s, t.currentBet, act.kind, amount), Apply(t, c, act.kind, amount);
    assert Stacked(s);
    MoverStacked(s, t, act);
    ApplyByMover(t, c, act.kind, amount);
    if c == a {
      TopMover(s, t, act);
      TopMoves(t, act, a, q, u);
    } else {
      assert Cornered(s, t.currentBet);
      CornerMover(s, t, act);
      CornerMoves(t, act, a, c, q, u);
    }
    SettleEither(u, a);
  }

  lemma {:induction false} SettleEither(u: Table, a: nat)
    requires Raw(u) && u.live && (Level(u) || Lopsided(u, a))
    ensures Sure(Settle(u))
  {
    if Level(u) { SettleSteady(u); } else { SettleLopsided(u, a); }
  }

  lemma {:induction false} LopsidedExpires(t: Table, a: nat)
    requires Raw(t) && Lopsided(t, a) && Takes(t, Expires)
    ensures Sure(After(t, Expires))
  {
    ExpiryIs(t);
    var c := CurrentSeat(t);
    var q := Clocked(t.seats[c], t.currentBet);
    assert Stacked(t.seats[c]) && (c != a ==> Cornered(t.seats[c], t.currentBet));
    SeatRaw(t, c, q);
    LopsidedSeat(t, a, c, q);
    SettleLopsided(t.(seats := t.seats[c := q]), a);
  }

  lemma {:induction false} LopsidedLeaves(t: Table, a: nat, id: int)
    requires Raw(t) && t.live && !Stuck(t) && Lopsided(t, a)
    ensures Sure(Onward(t, Leaves(id)))
  {
    LeavingIs(t, id);
    var i := OccupiedSeatOf(t.seats, id);
    if i >= 0 {
      var q := Quit(t.seats[i]);
      QuitRaw(t, i);
      if i == a { TopGone(t, a, q); } else { LopsidedSeat(t, a, i, q); }
      if t.seats[i].IsActive() {
        SettleEither(t.(seats := t.seats[i := q]), a);
      } else {
        StaysUnstuck(t, i, q);
      }
    }
  }

  lemma {:induction false} StaysSure(t: Table, h: Happening)
    requires Sure(t) && !Sinking(t, h)
    ensures Sure(Onward(t, h))
  {
    if t.live {
      if Level(t) {
        StaysSteady(t, h);
      } else {
        var a: nat :| Lopsided(t, a);
        match h {
          case Leaves(id) => LopsidedLeaves(t, a, id);
          case Plays(e) =>
            if !Takes(t, e) { UntakenChangesNothing(t, e); }
            else if e.Acts? { LopsidedActs(t, a, e.id, e.action); }
            else { LopsidedExpires(t, a); }
        }
      }
    }
  }

  lemma {:induction false} SureNeverSticks(t: Table, hs: seq<Happening>)
    requires Sure(t) && Unsunk(t, hs)
    ensures !Stuck(Later(t, hs))
  {
    forall u: Table, h: Happening | Sure(u) && !Sinking(u, h) ensures Sure(Onward(u, h)) {
      StaysSure(u, h);
    }
    Carries(Onward, Sinking, Sure, t, hs);
  }

  // ---------- a lopsided table that sticks ----------

  /** Seat a has bet more than the current bet, and seat w can match it and stay. */
  ghost predicate Loose(t: Table, a: nat, w: nat) {
    && t.live && Raw(t) && a < |t.seats| && w < |t.seats| && a != w
    && Active(t.seats[a]) && t.seats[a].bet > t.currentBet >= 0
    && Active(t.seats[w]) && Matches(t.seats[w], t.currentBet)
  }

  predicate Matches(s: Seat, currentBet: Chips) {
    s.bet == currentBet || (s.bet < currentBet && s.bet + s.chips > currentBet)
  }

  function Passing(s: Seat, currentBet: Chips): GameAction {
    GameAction(if s.bet >= currentBet then Check else Call, 0, s.id)
  }

  /** Seat s once it has checked, or called with what it has. */
  function AfterPass(s: Seat, currentBet: Chips): Seat {
    Mover(s, currentBet, Passing(s, currentBet).kind, 0)
  }

  lemma {:induction false} LooseGoesOn(t: Table, a: nat, w: nat)
    requires Loose(t, a, w)
    ensures !RoundComplete(t.seats)
  {
    SumCovers(t.seats, OneIfActive, a);
    SumCovers(t.seats, OneIfLive, a);
  }

  lemma {:induction false} PassedSeat(s: Seat, currentBet: Chips)
    requires Stacked(s) && Pending(s)
    ensures var q := AfterPass(s, currentBet);
      && Stacked(q) && !Pending(q) && q.state != Empty && q.id == s.id
      && (s.bet > currentBet ==> q == s.(acted := true))
      && (Matches(s, currentBet) ==> Active(q) && Matches(q, currentBet))
  {
  }

  lemma {:induction false} PassAccepted(t: Table, c: nat)
    requires Raw(t) && t.live && c == CurrentSeat(t)
    ensures var s := t.seats[c];
      var e := Acts(s.id, Passing(s, t.currentBet));
      Takes(t, e) && !Sinks(t, e) && After(t, e) == Settle(t.(seats := t.seats[c := AfterPass(s, t.currentBet)]))
  {
    var s := t.seats[c];
    var a := Passing(s, t.currentBet);
    var i := ActiveSeatOf(t.seats, s.id);
    OneSeatOfId(t.seats, i, c);
    AcceptedBy(t, s.id, a, i, c);
    ApplyByMover(t, c, a.kind, VerdictAt(t, c, a).amount);
    StakeIsOwed(s, t.currentBet, a.kind, VerdictAt(t, c, a).amount);
  }

  /** What a check or a call moves does not depend on the amount. */
  lemma {:induction false} StakeIsOwed(s: Seat, currentBet: Chips, kind: ActionType, amount: Chips)
    requires kind in {Check, Call}
    ensures Mover(s, currentBet, kind, amount) == Mover(s, currentBet, kind, 0)
    ensures !Leads(Mover(s, currentBet, kind, amount), currentBet, kind)
  {
  }

  lemma {:induction false} LoosePasses(t: Table, a: nat, w: nat, c: nat)
    requires Loose(t, a, w) && c == CurrentSeat(t) && c >= 0
    ensures var u := t.(seats := t.seats[c := AfterPass(t.seats[c], t.currentBet)]);
      Loose(u, a, w) && PendingCount(u.seats) < PendingCount(t.seats)
  {
    var q := AfterPass(t.seats[c], t.currentBet);
    assert Stacked(t.seats[c]);
    PassedSeat(t.seats[c], t.currentBet);
    SeatRaw(t, c, q);
    SumUpdate(t.seats, c, q, OneIfPending);
  }

  lemma {:induction false} LooseStep(t: Table, a: nat, w: nat) returns (h: Happening)
    requires Loose(t, a, w) && CurrentSeat(t) >= 0
    ensures !Sinking(t, h) && Loose(Onward(t, h), a, w) && PendingCount(Onward(t, h).seats) < PendingCount(t.seats)
  {
    var c := CurrentSeat(t);
    h := Plays(Acts(t.seats[c].id, Passing(t.seats[c], t.currentBet)));
    PassAccepted(t, c);
    LoosePasses(t, a, w, c);
    LooseGoesOn(t.(seats := t.seats[c := AfterPass(t.seats[c], t.currentBet)]), a, w);
  }

  /** The last one to act passes, and the hand is stuck. */
  lemma {:induction false} LastPasses(t: Table, a: nat, w: nat, c: nat)
    requires Loose(t, a, w) && c < |t.seats| && forall i :: 0 <= i < |t.seats| ==> (Pending(t.seats[i]) <==> i == c)
    ensures var e := Acts(t.seats[c].id, Passing(t.seats[c], t.currentBet));
      CurrentSeat(t) == c && Takes(t, e) && !Sinks(t, e) && Stuck(After(t, e))
  {
    assert Pending(t.seats[c]);
    PassAccepted(t, c);
    LoosePasses(t, a, w, c);
    var u := t.(seats := t.seats[c := AfterPass(t.seats[c], t.currentBet)]);
    LooseGoesOn(u, a, w);
    NonePendingSticks(u);
  }

  lemma {:induction false} NonePendingSticks(u: Table)
    requires u.Shaped() && u.live && !RoundComplete(u.seats) && forall i :: 0 <= i < |u.seats| ==> !Pending(u.seats[i])
    ensures Stuck(Settle(u))
  {
  }

  /** A run may be cut after its first happening. */
  lemma {:induction false} CarriedFirst(next: (Table, Happening) -> Table, p: (Table, Happening) -> bool, t: Table, h: Happening,
                                        hs: seq<Happening>)
    ensures Carried(next, t, [h] + hs) == Carried(next, next(t, h), hs)
    ensures !p(t, h) && Without(next, p, next(t, h), hs) ==> Without(next, p, t, [h] + hs)
  {
    if hs == [] {
      assert [h] + hs == [h] && [h][..0] == [];
    } else {
      var n := |hs| - 1;
      CarriedFirst(next, p, t, h, hs[..n]);
      assert ([h] + hs)[..n + 1] == [h] + hs[..n];
    }
  }

  /** Checks and calls all round leave it stuck. */
  lemma {:induction false} LooseSticks(t: Table, a: nat, w: nat) returns (hs: seq<Happening>)
    requires Loose(t, a, w)
    ensures Unsunk(t, hs) && Stuck(Later(t, hs))
    decreases PendingCount(t.seats)
  {
    if CurrentSeat(t) < 0 {
      hs := [];
    } else {
      CountsBounded(t.seats);
      var h := LooseStep(t, a, w);
      CountsBounded(Onward(t, h).seats);
      var rest := LooseSticks(Onward(t, h), a, w);
      CarriedFirst(Onward, Sinking, t, h, rest);
      hs := [h] + rest;
    }
  }

  // ---------- exactly which hands can stick ----------

  /** The blinds are short, and somebody besides the small blind can stay in at the big blind's stake:
      the big blind itself if it has nothing, or a third player with more than the big blind has. */
  ghost predicate CanStick(t: Table)
    requires t.Shaped()
  {
    var b := ComingBlinds(t);
    ShortBlind(t) &&
      (t.seats[b.big].chips == 0
       || exists i :: 0 <= i < |t.seats| && i != b.small && Comes(t.seats[i]) && t.seats[i].chips > t.seats[b.big].chips)
  }

  lemma {:induction false} OpensLoose(t: Table, b: BlindSeats, r: Table) returns (w: nat)
    requires Startable(t) && b == ComingBlinds(t) && b.small != b.big
    requires Comes(t.seats[b.small]) && Comes(t.seats[b.big]) && AllJoined(t, b, r.seats)
    requires CanStick(t)
    ensures w < |r.seats| && w != b.small && Active(r.seats[b.small]) && Active(r.seats[w])
    ensures r.currentBet == Posts(t, b, b.big) ==>
      r.seats[b.small].bet > r.currentBet >= 0 && Matches(r.seats[w], r.currentBet)
  {
    if t.seats[b.big].chips == 0 {
      w := b.big;
    } else {
      w :| 0 <= w < |t.seats| && w != b.small && Comes(t.seats[w]) && t.seats[w].chips > t.seats[b.big].chips;
    }
    assert Stacked(t.seats[b.big]);
    assert Joined(t.seats[w], r.seats[w], Posts(t, b, w)) && Joined(t.seats[b.small], r.seats[b.small], Posts(t, b, b.small));
  }

  lemma {:induction false} OpensCornered(t: Table, b: BlindSeats, r: Table)
    requires Startable(t) && b == ComingBlinds(t) && b.small != b.big
    requires Comes(t.seats[b.small]) && AllJoined(t, b, r.seats) && r.currentBet == Posts(t, b, b.big)
    requires ShortBlind(t) && !CanStick(t)
    ensures Lopsided(r, b.small)
  {
    assert Stacked(t.seats[b.big]);
    assert Joined(t.seats[b.small], r.seats[b.small], Posts(t, b, b.small));
    forall i | 0 <= i < |r.seats| && i != b.small ensures Cornered(r.seats[i], r.currentBet) {
      assert Joined(t.seats[i], r.seats[i], Posts(t, b, i)) && Stacked(t.seats[i]);
    }
  }

  lemma {:induction false} TwoActive(seats: seq<Seat>, a: nat, w: nat)
    requires a < |seats| && w < |seats| && a != w && Active(seats[a]) && Active(seats[w])
    ensures ActiveCount(seats) > 1
  {
    SumCovers(seats, OneIfActive, a);
  }

  lemma {:induction false} HandSticks(t: Table, deck: seq<Card>) returns (hs: seq<Happening>)
    requires Startable(t) && 2 * |t.seats| <= |deck| && CanStick(t)
    ensures StartHand(t, deck).Accepted?
    ensures Unsunk(StartHand(t, deck).after, hs) && Stuck(Later(StartHand(t, deck).after, hs))
  {
    HandStarts(t, deck);
    DealtAny(t, deck);
    var b, d, r := ComingBlinds(t), DealtIn(Cleared(t, deck)), StartHand(t, deck).after;
    var w := OpensLoose(t, b, d);
    TwoActive(d.seats, b.small, w);
    hs := LooseSticks(r, b.small, w);
  }

  lemma {:induction false} HandNeverSticks(t: Table, deck: seq<Card>, hs: seq<Happening>)
    requires Startable(t) && 2 * |t.seats| <= |deck| && !CanStick(t)
    ensures StartHand(t, deck).Accepted?
    ensures Unsunk(StartHand(t, deck).after, hs) ==> !Stuck(Later(StartHand(t, deck).after, hs))
  {
    HandStarts(t, deck);
    DealtAny(t, deck);
    var b, r := ComingBlinds(t), StartHand(t, deck).after;
    if r.live {
      JoinedLevelIff(t, b, r);
      if ShortBlind(t) { OpensCornered(t, b, r); }
    }
    if Unsunk(r, hs) { SureNeverSticks(r, hs); }
  }

  /** Exactly which hands can get stuck without a sinking raise, told from the stacks before they start. */
  lemma {:induction false} HandSticksIff(t: Table, deck: seq<Card>)
    requires Startable(t) && 2 * |t.seats| <= |deck|
    ensures StartHand(t, deck).Accepted?
    ensures var r := StartHand(t, deck).after;
      (exists hs :: Unsunk(r, hs) && Stuck(Later(r, hs))) <==> CanStick(t)
  {
    HandStarts(t, deck);
    var r := StartHand(t, deck).after;
    if CanStick(t) {
      var hs := HandSticks(t, deck);
    } else {
      forall hs | Unsunk(r, hs) ensures !Stuck(Later(r, hs)) {
        HandNeverSticks(t, deck, hs);
      }
    }
  }
}
