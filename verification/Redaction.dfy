/** What a player is shown tells nothing of the other players' hole cards: two hands that differ only
    in them, played the same way, look the same to him at every step until showdown. */
module Redaction {
  import opened Cards
  import opened Seats
  import opened Betting
  import opened HandSpec
  import opened Payout
  import opened HandInvariant
  import opened Opening
  import opened DealOrder

  /** The same seat, except perhaps for hole cards that are not the viewer's. */
  predicate SeatAlike(a: Seat, b: Seat, viewer: int) {
    b == a.(hole := b.hole) && (b.hole.Dealt? <==> a.hole.Dealt?) && (a.id == viewer ==> b.hole == a.hole)
  }

  ghost predicate SeatsAlike(a: seq<Seat>, b: seq<Seat>, viewer: int) {
    |a| == |b| && forall i :: 0 <= i < |a| ==> SeatAlike(a[i], b[i], viewer)
  }

  /** Tables that differ only in the others' hole cards, so also in the part of the deck already
      dealt, and not in the cards to come. */
  ghost predicate Alike(t: Table, u: Table, viewer: int) {
    && u == t.(seats := u.seats, deck := u.deck) && SeatsAlike(t.seats, u.seats, viewer)
    && |u.deck| == |t.deck| && forall k :: t.dealt <= k < |t.deck| ==> u.deck[k] == t.deck[k]
  }

  /** Both hands are over, or both go on alike. */
  ghost predicate AlikeUntilShowdown(t: Table, u: Table, viewer: int) {
    (t.live <==> u.live) && (t.live ==> Alike(t, u, viewer))
  }

  // ---------- what is shown ----------

  lemma {:induction false} OwnCards(seats: seq<Seat>, i: nat)
    requires i < |seats| && forall j :: 0 <= j < |seats| && j != i ==> seats[j].id != seats[i].id
    ensures HoleCardsOf(seats, seats[i].id) == seats[i].hole
  {
    if i < |seats| - 1 { OwnCards(seats[..|seats| - 1], i); }
  }

  lemma {:induction false} NobodysCards(seats: seq<Seat>, id: int)
    requires forall j :: 0 <= j < |seats| && seats[j].id == id ==> seats[j].hole == Undealt
    ensures HoleCardsOf(seats, id) == Undealt
  {
    if seats != [] { NobodysCards(seats[..|seats| - 1], id); }
  }

  function InvestedIfTaken(s: Seat): int { if s.state == Empty then 0 else s.invested }

  /** Every player is shown his own cards; somebody who holds no seat is shown none. */
  lemma {:induction false} ViewerSeesOwn(t: Table, viewer: int)
    requires IdsApart(t.seats) && forall i :: 0 <= i < |t.seats| && t.seats[i].state == Empty ==> t.seats[i].hole == Undealt
    ensures forall i :: 0 <= i < |t.seats| && t.seats[i].state != Empty && t.seats[i].id == viewer ==>
      ObserveFor(t, viewer).myHoleCards == t.seats[i].hole
    ensures (forall i :: 0 <= i < |t.seats| && t.seats[i].state != Empty ==> t.seats[i].id != viewer) ==>
      ObserveFor(t, viewer).myHoleCards == Undealt
  {
    if i :| 0 <= i < |t.seats| && t.seats[i].state != Empty && t.seats[i].id == viewer {
      OwnCards(t.seats, i);
    } else {
      NobodysCards(t.seats, viewer);
    }
  }

  /** And of everybody the public record, in seat order, with whether cards are held; the stakes of the
      seats taken as the pot; and the board. */
  lemma {:induction false} ViewerSeesTable(t: Table, viewer: int)
    ensures var o := ObserveFor(t, viewer);
      && |o.players| == |t.seats| && o.community == t.board && o.phase == t.phase
      && o.currentBet == t.currentBet && o.bigBlind == t.bigBlind && o.viewer == viewer
      && o.pot == Sum(t.seats, InvestedIfTaken)
    ensures forall i :: 0 <= i < |t.seats| ==>
      var v, s := ObserveFor(t, viewer).players[i], t.seats[i];
      && v.id == s.id && v.state == s.state && v.chips == s.chips && v.bet == s.bet && v.invested == s.invested
      && v.acted == s.acted && (v.hasCards <==> s.hole != Undealt)
      && v.isDealer == s.isDealer && v.isSmallBlind == s.isSmallBlind && v.isBigBlind == s.isBigBlind
  {
    SumCompare(t.seats, t.seats, PotShare, InvestedIfTaken);
  }

  lemma {:induction false} SameSums(a: seq<Seat>, b: seq<Seat>, viewer: int)
    requires SeatsAlike(a, b, viewer)
    ensures ActiveCount(a) == ActiveCount(b) && LiveCount(a) == LiveCount(b) && Pot(a) == Pot(b)
  {
    SumCompare(a, b, OneIfActive, OneIfActive);
    SumCompare(a, b, OneIfLive, OneIfLive);
    SumCompare(a, b, PotShare, PotShare);
  }

  lemma {:induction false} SameOwnCards(a: seq<Seat>, b: seq<Seat>, viewer: int)
    requires SeatsAlike(a, b, viewer)
    ensures HoleCardsOf(a, viewer) == HoleCardsOf(b, viewer)
  {
    if a != [] {
      var n := |a| - 1;
      assert SeatAlike(a[n], b[n], viewer);
      SameOwnCards(a[..n], b[..n], viewer);
    }
  }

  /** The observation and everybody's legal actions are the same. */
  lemma {:induction false} ViewsAgree(t: Table, u: Table, viewer: int)
    requires Alike(t, u, viewer)
    ensures ObserveFor(t, viewer) == ObserveFor(u, viewer)
    ensures forall id :: LegalActions(t, id) == LegalActions(u, id)
  {
    SameSums(t.seats, u.seats, viewer);
    SameOwnCards(t.seats, u.seats, viewer);
    assert ObserveFor(t, viewer).players == ObserveFor(u, viewer).players by {
      forall i | 0 <= i < |t.seats| ensures ViewOf(t.seats[i]) == ViewOf(u.seats[i]) {
        assert SeatAlike(t.seats[i], u.seats[i], viewer);
      }
    }
    forall id ensures LegalActions(t, id) == LegalActions(u, id) {
      if t.turn < |t.seats| { assert SeatAlike(t.seats[t.turn], u.seats[t.turn], viewer); }
    }
  }

  // ---------- whose turn ----------

  lemma {:induction false} SameFind(a: seq<Seat>, b: seq<Seat>, start: nat, lo: nat, hi: nat, p: Seat -> bool)
    requires a != [] && |a| == |b| && forall i :: 0 <= i < |a| ==> p(a[i]) == p(b[i])
    ensures Find(a, start, lo, hi, p) == Find(b, start, lo, hi, p)
    decreases hi - lo
  {
    if lo < hi { SameFind(a, b, start, lo + 1, hi, p); }
  }

  lemma {:induction false} SameTurns(a: seq<Seat>, b: seq<Seat>, start: nat, turn: nat, viewer: int)
    requires SeatsAlike(a, b, viewer) && turn < |a|
    ensures NextTurn(a, turn) == NextTurn(b, turn) && FirstTurn(a, start, turn) == FirstTurn(b, start, turn)
  {
    SameFind(a, b, turn, 1, |a| + 1, Pending);
    SameFind(a, b, turn, 1, |a| + 1, Active);
    SameFind(a, b, start, 0, |a|, Pending);
    SameFind(a, b, start, 0, |a|, Active);
  }

  lemma {:induction false} SameSeatOf(a: seq<Seat>, b: seq<Seat>, id: int, viewer: int)
    requires SeatsAlike(a, b, viewer)
    ensures ActiveSeatOf(a, id) == ActiveSeatOf(b, id) && OccupiedSeatOf(a, id) == OccupiedSeatOf(b, id)
    ensures FirstPending(a) == FirstPending(b)
  {
    if a != [] {
      var n := |a| - 1;
      assert SeatAlike(a[n], b[n], viewer);
      SameSeatOf(a[..n], b[..n], id, viewer);
    }
  }

  lemma {:induction false} SameCurrent(t: Table, u: Table, viewer: int)
    requires t.Shaped() && Alike(t, u, viewer)
    ensures CurrentSeat(t) == CurrentSeat(u) && CurrentPlayerId(t) == CurrentPlayerId(u)
  {
    SameSeatOf(t.seats, u.seats, 0, viewer);
    assert SeatAlike(t.seats[t.turn], u.seats[t.turn], viewer);
    if CurrentSeat(t) >= 0 { assert SeatAlike(t.seats[CurrentSeat(t)], u.seats[CurrentSeat(t)], viewer); }
  }

  lemma {:induction false} SameRound(a: seq<Seat>, b: seq<Seat>, viewer: int)
    requires SeatsAlike(a, b, viewer) && RoundComplete(a)
    ensures RoundComplete(b)
  {
    SameSums(a, b, viewer);
    forall i | 0 <= i < |a| ensures b[i] == a[i].(hole := b[i].hole) {
      assert SeatAlike(a[i], b[i], viewer);
    }
  }

  lemma {:induction false} AlikeBothWays(a: seq<Seat>, b: seq<Seat>, viewer: int)
    requires SeatsAlike(a, b, viewer)
    ensures SeatsAlike(b, a, viewer) && (RoundComplete(a) <==> RoundComplete(b))
  {
    assert SeatsAlike(b, a, viewer) by {
      forall i | 0 <= i < |a| ensures SeatAlike(b[i], a[i], viewer) {
        assert SeatAlike(a[i], b[i], viewer);
      }
    }
    if RoundComplete(a) { SameRound(a, b, viewer); }
    if RoundComplete(b) { SameRound(b, a, viewer); }
  }

  // ---------- streets ----------

  lemma {:induction false} BoardAlike(t: Table, u: Table, count: nat, viewer: int)
    requires Alike(t, u, viewer)
    ensures Alike(DealBoard(t, count), DealBoard(u, count), viewer)
    decreases count
  {
    if count > 0 && |t.board| < 5 && t.dealt + 1 < |t.deck| {
      BoardAlike(t.(board := t.board + [t.deck[t.dealt + 1]], dealt := t.dealt + 2),
                 u.(board := u.board + [u.deck[u.dealt + 1]], dealt := u.dealt + 2), count - 1, viewer);
    }
  }

  lemma {:induction false} StreetAlike(t: Table, u: Table, viewer: int)
    requires Alike(t, u, viewer)
    ensures Alike(NewStreet(t), NewStreet(u), viewer)
    ensures Alike(StreetDealt(NewStreet(t)), StreetDealt(NewStreet(u)), viewer)
  {
    var a, b := NewStreet(t), NewStreet(u);
    forall i | 0 <= i < |t.seats| ensures SeatAlike(a.seats[i], b.seats[i], viewer) {
      assert SeatAlike(t.seats[i], u.seats[i], viewer);
    }
    StreetCardsAlike(a, b, viewer);
  }

  lemma {:induction false} StreetCardsAlike(t: Table, u: Table, viewer: int)
    requires Alike(t, u, viewer)
    ensures Alike(StreetDealt(t), StreetDealt(u), viewer)
  {
    BoardAlike(t, u, if t.phase == PreflopBetting then 3 else 1, viewer);
  }

  lemma {:induction false} AdvanceAlike(t: Table, u: Table, viewer: int)
    requires t.Shaped() && Alike(t, u, viewer)
    ensures AlikeUntilShowdown(AdvanceStreet(t), AdvanceStreet(u), viewer)
    decreases StreetsLeft(t.phase), 0
  {
    SameSums(t.seats, u.seats, viewer);
    if Closes(t) {
      ClosingShowsDown(t);
      ClosingShowsDown(u);
    } else if StreetsLeft(t.phase) > 0 {
      NextStreetAlike(t, u, viewer);
    } else {
      StreetAlike(t, u, viewer);
    }
  }

  lemma {:induction false} NextStreetAlike(t: Table, u: Table, viewer: int)
    requires t.Shaped() && Alike(t, u, viewer) && !Closes(t) && !Closes(u) && StreetsLeft(t.phase) > 0
    ensures AlikeUntilShowdown(AdvanceStreet(t), AdvanceStreet(u), viewer)
    decreases StreetsLeft(t.phase), 0, 0
  {
    StreetAlike(t, u, viewer);
    var x, y := StreetDealt(NewStreet(t)), StreetDealt(NewStreet(u));
    StartAlike(x, y, viewer);
    assert AdvanceStreet(t) == StartBettingRound(x) && AdvanceStreet(u) == StartBettingRound(y);
  }

  lemma {:induction false} StartAlike(t: Table, u: Table, viewer: int)
    requires t.Shaped() && Alike(t, u, viewer)
    ensures AlikeUntilShowdown(StartBettingRound(t), StartBettingRound(u), viewer)
    decreases StreetsLeft(t.phase), 1
  {
    SameSums(t.seats, u.seats, viewer);
    SameTurns(t.seats, u.seats, StartSeat(t), t.turn, viewer);
    if ActiveCount(t.seats) <= 1 {
      AdvanceAlike(t.(lastRaise := t.bigBlind), u.(lastRaise := u.bigBlind), viewer);
    }
  }

  lemma {:induction false} SettleAlike(t: Table, u: Table, viewer: int)
    requires t.Shaped() && Alike(t, u, viewer)
    ensures AlikeUntilShowdown(Settle(t), Settle(u), viewer)
  {
    AlikeBothWays(t.seats, u.seats, viewer);
    SameTurns(t.seats, u.seats, 0, t.turn, viewer);
    if RoundComplete(t.seats) { AdvanceAlike(t, u, viewer); }
  }

  // ---------- calls ----------

  lemma {:induction false} OneSeatAlike(t: Table, u: Table, i: nat, a: Seat, b: Seat, viewer: int)
    requires i < |t.seats| && Alike(t, u, viewer) && SeatAlike(a, b, viewer)
    ensures Alike(t.(seats := t.seats[i := a]), u.(seats := u.seats[i := b]), viewer)
  {
    var x, y := t.seats[i := a], u.seats[i := b];
    forall k | 0 <= k < |x| ensures SeatAlike(x[k], y[k], viewer) {
      assert k != i ==> SeatAlike(t.seats[k], u.seats[k], viewer);
    }
  }

  lemma {:induction false} LeadAlike(t: Table, u: Table, i: nat, viewer: int)
    requires i < |t.seats| && Alike(t, u, viewer)
    ensures Alike(Lead(t, i), Lead(u, i), viewer)
  {
    assert SeatAlike(t.seats[i], u.seats[i], viewer);
    var x, y := Reopen(t.seats, t.seats[i].id), Reopen(u.seats, u.seats[i].id);
    forall k | 0 <= k < |x| ensures SeatAlike(x[k], y[k], viewer) {
      assert SeatAlike(t.seats[k], u.seats[k], viewer);
    }
  }

  lemma {:induction false} ApplyAlike(t: Table, u: Table, i: nat, kind: ActionType, amount: Chips, viewer: int)
    requires i < |t.seats| && Alike(t, u, viewer)
    ensures Alike(Apply(t, i, kind, amount), Apply(u, i, kind, amount), viewer)
  {
    ApplyByMover(t, i, kind, amount);
    ApplyByMover(u, i, kind, amount);
    assert SeatAlike(t.seats[i], u.seats[i], viewer);
    var a, b := Mover(t.seats[i], t.currentBet, kind, amount), Mover(u.seats[i], u.currentBet, kind, amount);
    MoverAlike(t.seats[i], u.seats[i], t.currentBet, kind, amount, viewer);
    OneSeatAlike(t, u, i, a, b, viewer);
    LeadAlike(t.(seats := t.seats[i := a]), u.(seats := u.seats[i := b]), i, viewer);
  }

  /** No move looks at the cards. */
  lemma {:induction false} MoverIgnoresCards(a: Seat, h: HoleCards, currentBet: Chips, kind: ActionType, amount: Chips)
    ensures Mover(a.(hole := h), currentBet, kind, amount) == Mover(a, currentBet, kind, amount).(hole := h)
  {
    if kind !in {Fold, Check, Other} {
      BetIgnoresCards(a.(acted := true), h, StakeFor(a, currentBet, kind, amount));
    }
  }

  lemma {:induction false} BetIgnoresCards(a: Seat, h: HoleCards, amount: Chips)
    ensures a.(hole := h).AfterBet(amount) == a.AfterBet(amount).(hole := h)
  {
  }

  lemma {:induction false} MoverAlike(a: Seat, b: Seat, currentBet: Chips, kind: ActionType, amount: Chips, viewer: int)
    requires SeatAlike(a, b, viewer)
    ensures SeatAlike(Mover(a, currentBet, kind, amount), Mover(b, currentBet, kind, amount), viewer)
    ensures Leads(Mover(a, currentBet, kind, amount), currentBet, kind) == Leads(Mover(b, currentBet, kind, amount), currentBet, kind)
  {
    MoverIgnoresCards(a, b.hole, currentBet, kind, amount);
    MoverKeepsWho(a, currentBet, kind, amount);
  }

  lemma {:induction false} MoverKeepsWho(a: Seat, currentBet: Chips, kind: ActionType, amount: Chips)
    ensures Mover(a, currentBet, kind, amount).id == a.id && Mover(a, currentBet, kind, amount).hole == a.hole
  {
  }

  ghost predicate OutcomesAlike(x: Outcome, y: Outcome, viewer: int) {
    (x.Accepted? <==> y.Accepted?) && (x.Accepted? ==> AlikeUntilShowdown(x.after, y.after, viewer))
  }

  /** An action is accepted in both or in neither. */
  lemma {:induction false} ActionAlike(t: Table, u: Table, id: int, a: GameAction, viewer: int)
    requires t.Shaped() && Alike(t, u, viewer)
    ensures OutcomesAlike(ProcessAction(t, id, a), ProcessAction(u, id, a), viewer)
  {
    SameSeatOf(t.seats, u.seats, id, viewer);
    SameCurrent(t, u, viewer);
    var i := ActiveSeatOf(t.seats, id);
    if t.live && i >= 0 && CurrentSeat(t) >= 0 {
      assert SeatAlike(t.seats[i], u.seats[i], viewer);
      assert SeatAlike(t.seats[CurrentSeat(t)], u.seats[CurrentSeat(t)], viewer);
      var v := Validate(a, t.seats[i], t.currentBet, t.bigBlind, t.lastRaise);
      assert v == Validate(a, u.seats[i], u.currentBet, u.bigBlind, u.lastRaise);
      if v.Valid? { AcceptedAlike(t, u, i, a.kind, v.amount, viewer); }
    }
  }

  lemma {:induction false} AcceptedAlike(t: Table, u: Table, i: nat, kind: ActionType, amount: Chips, viewer: int)
    requires t.Shaped() && i < |t.seats| && Alike(t, u, viewer)
    ensures Apply(t, i, kind, amount).Shaped() && Apply(u, i, kind, amount).Shaped()
    ensures AlikeUntilShowdown(Settle(Apply(t, i, kind, amount)), Settle(Apply(u, i, kind, amount)), viewer)
  {
    ApplyAlike(t, u, i, kind, amount, viewer);
    ApplyKeepsShape(t, i, kind, amount);
    SettleAlike(Apply(t, i, kind, amount), Apply(u, i, kind, amount), viewer);
  }

  lemma {:induction false} ApplyKeepsShape(t: Table, i: nat, kind: ActionType, amount: Chips)
    requires t.Shaped() && i < |t.seats|
    ensures Apply(t, i, kind, amount).Shaped()
  {
    ApplyByMover(t, i, kind, amount);
  }

  lemma {:induction false} TimeoutAlike(t: Table, u: Table, viewer: int)
    requires t.Shaped() && Alike(t, u, viewer)
    ensures AlikeUntilShowdown(CheckTimeout(t), CheckTimeout(u), viewer)
  {
    SameCurrent(t, u, viewer);
    var i := CurrentSeat(t);
    if t.live && i >= 0 {
      assert SeatAlike(t.seats[i], u.seats[i], viewer);
      var a, b := t.seats[i], u.seats[i];
      var x := if t.currentBet - a.bet <= 0 then a.(acted := true) else a.(state := Folded);
      var y := if u.currentBet - b.bet <= 0 then b.(acted := true) else b.(state := Folded);
      OneSeatAlike(t, u, i, x, y, viewer);
      SettleAlike(t.(seats := t.seats[i := x]), u.(seats := u.seats[i := y]), viewer);
    }
  }

  lemma {:induction false} LeaveAlike(t: Table, u: Table, id: int, viewer: int)
    requires t.Shaped() && Alike(t, u, viewer)
    ensures var x, y := RequestCashOut(t, id), RequestCashOut(u, id);
      && (x.CashOut? <==> y.CashOut?)
      && (x.CashOut? ==> x.stack == y.stack && AlikeUntilShowdown(x.after, y.after, viewer))
  {
    SameSeatOf(t.seats, u.seats, id, viewer);
    var i := OccupiedSeatOf(t.seats, id);
    if i >= 0 {
      assert SeatAlike(t.seats[i], u.seats[i], viewer);
      var a, b := t.seats[i], u.seats[i];
      if t.live && a.IsActive() {
        FoldAlike(t, u, i, viewer);
      } else {
        OneSeatAlike(t, u, i, a.(leaving := true), b.(leaving := true), viewer);
        OneSeatAlike(t, u, i, Vacated(a), Vacated(b), viewer);
      }
    }
  }

  /** A player leaving folds on the spot. */
  lemma {:induction false} FoldAlike(t: Table, u: Table, i: nat, viewer: int)
    requires t.Shaped() && Alike(t, u, viewer) && i < |t.seats|
    ensures var x := t.seats[i].(leaving := true, state := Folded, acted := true);
      var y := u.seats[i].(leaving := true, state := Folded, acted := true);
      AlikeUntilShowdown(Settle(t.(seats := t.seats[i := x])), Settle(u.(seats := u.seats[i := y])), viewer)
  {
    assert SeatAlike(t.seats[i], u.seats[i], viewer);
    var x := t.seats[i].(leaving := true, state := Folded, acted := true);
    var y := u.seats[i].(leaving := true, state := Folded, acted := true);
    OneSeatAlike(t, u, i, x, y, viewer);
    SettleAlike(t.(seats := t.seats[i := x]), u.(seats := u.seats[i := y]), viewer);
  }

  // ---------- whole runs ----------

  /** Anything the server does to a hand in play: an action by anybody, right or wrong, an expired
      clock, or a player leaving. */
  datatype Move = Act(id: int, action: GameAction) | ClockRunsOut | Leave(id: int)

  ghost function AfterMove(t: Table, m: Move): Table
    requires t.Shaped()
  {
    match m
    case Act(id, a) => (var o := ProcessAction(t, id, a); if o.Accepted? then o.after else t)
    case ClockRunsOut => CheckTimeout(t)
    case Leave(id) => (var c := RequestCashOut(t, id); if c.CashOut? then c.after else t)
  }

  /** The table after the first moves, as long as the hand lasts. */
  ghost function AfterMoves(t: Table, moves: seq<Move>): Table {
    if moves == [] then t
    else
      var r := AfterMoves(t, moves[..|moves| - 1]);
      if r.live && r.Shaped() then AfterMove(r, moves[|moves| - 1]) else r
  }

  lemma {:induction false} MoveAlike(t: Table, u: Table, m: Move, viewer: int)
    requires t.Shaped() && t.live && Alike(t, u, viewer)
    ensures AlikeUntilShowdown(AfterMove(t, m), AfterMove(u, m), viewer)
  {
    match m
    case Act(id, a) => ActionAlike(t, u, id, a, viewer);
    case ClockRunsOut => TimeoutAlike(t, u, viewer);
    case Leave(id) => LeaveAlike(t, u, id, viewer);
  }

  lemma {:induction false} RunAlike(t: Table, u: Table, moves: seq<Move>, viewer: int)
    requires AlikeUntilShowdown(t, u, viewer)
    ensures AlikeUntilShowdown(AfterMoves(t, moves), AfterMoves(u, moves), viewer)
  {
    if moves != [] {
      var before := moves[..|moves| - 1];
      RunAlike(t, u, before, viewer);
      var a, b := AfterMoves(t, before), AfterMoves(u, before);
      if a.live && a.Shaped() { MoveAlike(a, b, moves[|moves| - 1], viewer); }
    }
  }

  /** Non-interference: two hands in play that differ only in the other players' hole cards show the
      viewer the same, and offer everybody the same, after every sequence of the same moves that
      leaves the hand in play; and they end after the same moves. */
  lemma {:induction false} ViewerLearnsNothing(t: Table, u: Table, moves: seq<Move>, viewer: int)
    requires Alike(t, u, viewer)
    ensures AfterMoves(t, moves).live <==> AfterMoves(u, moves).live
    ensures AfterMoves(t, moves).live ==>
              && ObserveFor(AfterMoves(t, moves), viewer) == ObserveFor(AfterMoves(u, moves), viewer)
              && forall id :: LegalActions(AfterMoves(t, moves), id) == LegalActions(AfterMoves(u, moves), id)
  {
    RunAlike(t, u, moves, viewer);
    if AfterMoves(t, moves).live { ViewsAgree(AfterMoves(t, moves), AfterMoves(u, moves), viewer); }
  }

  // ---------- where such hands come from ----------

  /** Decks that give the viewer the same cards and hold the same cards after the hole cards. */
  ghost predicate DecksAlike(t: Table, d: seq<Card>, e: seq<Card>, viewer: int) {
    && |d| == |e| && (forall k :: HoleCount(t) <= k < |d| ==> d[k] == e[k])
    && forall i :: 0 <= i < |t.seats| && t.seats[i].id == viewer ==> HoleOf(t, d, i) == HoleOf(t, e, i)
  }

  ghost predicate SameButHoles(p: Table, q: Table) {
    && |p.seats| == |q.seats| && |p.deck| == |q.deck| && p.dealt == q.dealt
    && forall i :: 0 <= i < |p.seats| ==> HoleApart(p.seats[i], q.seats[i])
  }

  predicate HoleApart(a: Seat, b: Seat) {
    b == a.(hole := b.hole) && (b.hole.Dealt? <==> a.hole.Dealt?)
  }

  lemma {:induction false} OneDealtApart(p: Table, q: Table, i: nat)
    requires i < |p.seats| && SameButHoles(p, q)
    ensures SameButHoles(DealtOne(p, i), DealtOne(q, i))
  {
    assert HoleApart(p.seats[i], q.seats[i]);
    var r, s := DealtOne(p, i), DealtOne(q, i);
    forall k | 0 <= k < |p.seats| ensures HoleApart(r.seats[k], s.seats[k]) {
      assert HoleApart(p.seats[k], q.seats[k]);
    }
  }

  lemma {:induction false} DealtAlikeButHoles(p: Table, q: Table, k: nat)
    requires k <= |p.seats| && SameButHoles(p, q)
    ensures SameButHoles(DealHoles(p, k), DealHoles(q, k))
  {
    if k > 0 {
      DealtAlikeButHoles(p, q, k - 1);
      OneDealtApart(DealHoles(p, k - 1), DealHoles(q, k - 1), k - 1);
    }
  }

  /** Hands dealt from such decks start alike. */
  lemma {:induction false} DealtHandsAlike(t: Table, d: seq<Card>, e: seq<Card>, viewer: int)
    requires Ready(t) && DeckCovers(t, d) && DecksAlike(t, d, e, viewer)
    ensures StartHand(t, d).Accepted? && StartHand(t, e).Accepted?
    ensures Alike(StartHand(t, d).after, StartHand(t, e).after, viewer)
  {
    var r, s := DealtIn(Cleared(t, d)), DealtIn(Cleared(t, e));
    DealtInApart(t, d, e);
    DealtInAlike(t, d, e, viewer, r, s);
    ClearedReady(t, d);
    ClearedReady(t, e);
    StartAlike(r, s, viewer);
    StartHandOpens(t, d);
  }

  lemma {:induction false} DealtInApart(t: Table, d: seq<Card>, e: seq<Card>)
    requires t.Shaped() && |d| == |e|
    ensures SameButHoles(DealtIn(Cleared(t, d)), DealtIn(Cleared(t, e)))
    ensures var r, s := DealtIn(Cleared(t, d)), DealtIn(Cleared(t, e)); s == r.(seats := s.seats, deck := e)
  {
    var p, q := BlindsPostedTable(t, d), BlindsPostedTable(t, e);
    assert q == p.(deck := e);
    DealtAlikeButHoles(p, q, |p.seats|);
  }

  lemma {:induction false} DealtInAlike(t: Table, d: seq<Card>, e: seq<Card>, viewer: int, r: Table, s: Table)
    requires Ready(t) && DeckCovers(t, d) && DecksAlike(t, d, e, viewer)
    requires r == DealtIn(Cleared(t, d)) && s == DealtIn(Cleared(t, e)) && SameButHoles(r, s) && s == r.(seats := s.seats, deck := e)
    ensures Alike(r, s, viewer)
  {
    OpeningPlaces(t, d);
    OpeningPlaces(t, e);
    StartKeepsDeal(t, d);
    StartKeepsDeal(t, e);
    HoleHoldersKeepIds(t, d);
    SeatsOnDecksAlike(t, d, e, viewer, r.seats, s.seats);
  }

  lemma {:induction false} SeatsOnDecksAlike(t: Table, d: seq<Card>, e: seq<Card>, viewer: int, a: seq<Seat>, b: seq<Seat>)
    requires |a| == |b| == |t.seats| && DecksAlike(t, d, e, viewer)
    requires forall i :: 0 <= i < |t.seats| ==> a[i].id == t.seats[i].id && HoleApart(a[i], b[i])
    requires forall i :: 0 <= i < |t.seats| ==> a[i].hole == HoleOf(t, d, i) && b[i].hole == HoleOf(t, e, i)
    ensures SeatsAlike(a, b, viewer)
  {
    forall i | 0 <= i < |a| ensures SeatAlike(a[i], b[i], viewer) {
      assert a[i].id == t.seats[i].id && HoleApart(a[i], b[i]);
    }
  }

  lemma {:induction false} HoleHoldersKeepIds(t: Table, d: seq<Card>)
    requires Ready(t) && DeckCovers(t, d)
    ensures var r := DealtIn(Cleared(t, d));
      |r.seats| == |t.seats| && forall i :: 0 <= i < |t.seats| ==> r.seats[i].id == t.seats[i].id
  {
    var b := DealtShape(t, d);
    var r := DealtIn(Cleared(t, d));
    forall i | 0 <= i < |t.seats| ensures r.seats[i].id == t.seats[i].id {
      assert Opened(t.seats[i], r.seats[i], StakeOf(b, i, t.smallBlind, t.bigBlind));
    }
  }
}
