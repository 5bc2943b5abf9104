/** What every call of the engine keeps, whatever is called and in whatever order: the chips and
    bets are never negative, the deck is whole and long enough for the board, and every card in
    sight was dealt from it once. */
module Engine {
  import opened Cards
  import opened Seats
  import opened Betting
  import opened Showdown
  import opened HandSpec
  import D = Dealer

  /** Two cards for each of 21 seats, and five board cards with a burn before each, are 52. */
  const MAX_SEATS: nat := 21

  predicate Solvent(s: Seat) { s.chips >= 0 && s.bet >= 0 }

  ghost predicate AllSolvent(seats: seq<Seat>) {
    forall i {:trigger Solvent(seats[i])} :: 0 <= i < |seats| ==> Solvent(seats[i])
  }

  /** A pair of hole cards drawn from the deck and not shown on the board. */
  ghost predicate HoleOk(h: HoleCards, board: seq<Card>, drawn: seq<Card>) {
    h.Dealt? ==> h.card1 in drawn && h.card2 in drawn && h.card1 != h.card2 && h.card1 !in board && h.card2 !in board
  }

  predicate Apart(a: HoleCards, b: HoleCards) {
    a.Dealt? && b.Dealt? ==> a.card1 != b.card1 && a.card1 != b.card2 && a.card2 != b.card1 && a.card2 != b.card2
  }

  /** No card is in two places, and every card in sight has been dealt. */
  ghost predicate CardsOk(seats: seq<Seat>, board: seq<Card>, drawn: seq<Card>) {
    && Unrepeated(board) && (forall k {:trigger board[k] in drawn} :: 0 <= k < |board| ==> board[k] in drawn)
    && (forall i {:trigger HoleOk(seats[i].hole, board, drawn)} :: 0 <= i < |seats| ==> HoleOk(seats[i].hole, board, drawn))
    && (forall i, j {:trigger Apart(seats[i].hole, seats[j].hole)} :: 0 <= i < j < |seats| ==> Apart(seats[i].hole, seats[j].hole))
  }

  ghost predicate Healthy(t: Table) {
    && t.Shaped() && |t.seats| <= MAX_SEATS && t.smallBlind >= 0 && t.bigBlind >= 0
    && D.FullDeck(t.deck) && t.dealt <= 52 && |t.board| <= 5
    && AllSolvent(t.seats)
    && CardsOk(t.seats, t.board, t.deck[..t.dealt])
    && (t.live ==> t.dealt + 2 * (5 - |t.board|) <= 52)
  }

  /** Cards may be put away but not dealt. */
  ghost predicate HolesKept(a: seq<Seat>, b: seq<Seat>) {
    |a| == |b| && forall i :: 0 <= i < |a| ==> b[i].hole == a[i].hole || b[i].hole.Undealt?
  }

  lemma {:induction false} CardsKept(a: seq<Seat>, b: seq<Seat>, board: seq<Card>, drawn: seq<Card>)
    requires CardsOk(a, board, drawn) && HolesKept(a, b)
    ensures CardsOk(b, board, drawn)
  {
    forall i, j | 0 <= i < j < |b| ensures Apart(b[i].hole, b[j].hole) {
      assert Apart(a[i].hole, a[j].hole);
    }
  }

  /** A change to the seats and the betting only. */
  lemma {:induction false} SeatsHealthy(t: Table, u: Table)
    requires Healthy(t) && HolesKept(t.seats, u.seats) && AllSolvent(u.seats)
    requires u == t.(seats := u.seats, phase := u.phase, button := u.button, turn := u.turn, currentBet := u.currentBet,
                     lastRaise := u.lastRaise)
    requires u.Shaped()
    ensures Healthy(u)
  {
    CardsKept(t.seats, u.seats, t.board, t.deck[..t.dealt]);
  }

  // ---------- dealing ----------

  /** The next card is new. */
  lemma {:induction false} NextCardIsNew(deck: seq<Card>, dealt: nat, k: nat)
    requires Distinct(deck) && dealt <= k < |deck|
    ensures deck[k] !in deck[..dealt]
  {
  }

  lemma {:induction false} BoardCardOk(seats: seq<Seat>, board: seq<Card>, deck: seq<Card>, dealt: nat)
    requires Distinct(deck) && dealt + 2 <= |deck| && CardsOk(seats, board, deck[..dealt])
    ensures CardsOk(seats, board + [deck[dealt + 1]], deck[..dealt + 2])
  {
    var c, drawn, more := deck[dealt + 1], deck[..dealt], deck[..dealt + 2];
    NextCardIsNew(deck, dealt, dealt + 1);
    assert more == drawn + [deck[dealt], c];
    assert c !in board;
    forall i | 0 <= i < |seats| ensures HoleOk(seats[i].hole, board + [c], more) {
      assert HoleOk(seats[i].hole, board, drawn);
    }
  }

  lemma {:induction false} DealBoardHealthy(t: Table, count: nat)
    requires Healthy(t) && t.live
    ensures Healthy(DealBoard(t, count))
    decreases count
  {
    if count > 0 && |t.board| < 5 {
      UnrepeatedIff(t.deck);
      BoardCardOk(t.seats, t.board, t.deck, t.dealt);
      DealBoardHealthy(t.(board := t.board + [t.deck[t.dealt + 1]], dealt := t.dealt + 2), count - 1);
    }
  }

  lemma {:induction false} SeatDealt(seats: seq<Seat>, k: nat, deck: seq<Card>, dealt: nat, s: Seat)
    requires Distinct(deck) && dealt + 2 <= |deck| && CardsOk(seats, [], deck[..dealt]) && k < |seats|
    requires s.hole == Dealt(deck[dealt], deck[dealt + 1])
    ensures CardsOk(seats[k := s], [], deck[..dealt + 2])
  {
    var drawn, more := deck[..dealt], deck[..dealt + 2];
    NextCardIsNew(deck, dealt, dealt);
    NextCardIsNew(deck, dealt, dealt + 1);
    assert more == drawn + [deck[dealt], deck[dealt + 1]];
    var after := seats[k := s];
    forall i | 0 <= i < |seats| ensures HoleOk(after[i].hole, [], more) {
      assert HoleOk(seats[i].hole, [], drawn);
    }
    forall i, j | 0 <= i < j < |seats| ensures Apart(after[i].hole, after[j].hole) {
      assert Apart(seats[i].hole, seats[j].hole);
      assert HoleOk(seats[i].hole, [], drawn) && HoleOk(seats[j].hole, [], drawn);
    }
  }

  /** r has dealt hole cards to some of the first k seats of t. */
  ghost predicate CardsDealt(t: Table, r: Table, k: nat) {
    && |r.seats| == |t.seats| && r.deck == t.deck && r.dealt <= t.dealt + 2 * k && r.dealt <= |t.deck|
    && CardsOk(r.seats, [], t.deck[..r.dealt])
    && forall i :: 0 <= i < |t.seats| ==> r.seats[i].chips == t.seats[i].chips && r.seats[i].bet == t.seats[i].bet
  }

  lemma {:induction false} DealOneCards(t: Table, u: Table, k: nat)
    requires k < |t.seats| && Distinct(t.deck) && CardsDealt(t, u, k)
    ensures CardsDealt(t, DealtOne(u, k), k + 1)
  {
    if u.seats[k].state == Sitting && u.dealt + 2 <= |u.deck| {
      SeatDealt(u.seats, k, u.deck, u.dealt, DealtOne(u, k).seats[k]);
    }
  }

  ghost function DealtSoFar(t: Table): (Table, nat) -> bool {
    (r: Table, k: nat) => CardsDealt(t, r, k)
  }

  lemma {:induction false} DealHolesCards(t: Table, k: nat)
    requires k <= |t.seats| && Distinct(t.deck) && t.dealt <= |t.deck| && CardsOk(t.seats, [], t.deck[..t.dealt])
    ensures CardsDealt(t, DealHoles(t, k), k)
  {
    var inv := DealtSoFar(t);
    forall u: Table, i: nat | inv(u, i) && i < k && |u.seats| == |t.seats| ensures inv(DealtOne(u, i), i + 1) {
      DealOneCards(t, u, i);
    }
    DealHolesLifts(t, k, inv);
  }

  // ---------- showdown and streets ----------

  /** Everyone's cards can be evaluated together with the board. */
  lemma {:induction false} HandsEvaluable(seats: seq<Seat>, board: seq<Card>, drawn: seq<Card>)
    requires CardsOk(seats, board, drawn)
    ensures forall id :: id in HolesOf(seats) ==> |HolesOf(seats)[id]| == 2 && Distinct(HolesOf(seats)[id] + board)
  {
    if seats != [] {
      var n := |seats| - 1;
      CardsInit(seats, board, drawn);
      HandsEvaluable(seats[..n], board, drawn);
      if seats[n].hole.Dealt? {
        UnrepeatedIff(board);
        assert HoleOk(seats[n].hole, board, drawn);
        assert Distinct(HandOf(seats[n]) + board);
      }
    }
  }

  lemma {:induction false} CardsInit(seats: seq<Seat>, board: seq<Card>, drawn: seq<Card>)
    requires seats != [] && CardsOk(seats, board, drawn)
    ensures CardsOk(seats[..|seats| - 1], board, drawn)
  {
  }

  lemma {:induction false} ShowdownHealthy(t: Table)
    requires Healthy(t)
    ensures Healthy(DoShowdown(t))
  {
    PayAllKeeps(t.seats, Awards(t));
    ShowdownClears(t, PayAll(t.seats, Awards(t)));
  }

  lemma {:induction false} ShowdownClears(t: Table, paid: seq<Seat>)
    requires Healthy(t) && |paid| == |t.seats|
    requires forall i :: 0 <= i < |paid| ==> paid[i] == t.seats[i].(chips := paid[i].chips) && paid[i].chips >= t.seats[i].chips
    ensures Healthy(t.(seats := MapSeats(paid, AfterHandSeat), phase := HandComplete, live := false, currentBet := 0, board := []))
  {
    var u := t.(seats := MapSeats(paid, AfterHandSeat), phase := HandComplete, live := false, currentBet := 0, board := []);
    forall i | 0 <= i < |u.seats| ensures u.seats[i].hole.Undealt? && Solvent(u.seats[i]) {
      assert Solvent(t.seats[i]);
    }
  }

  lemma {:induction false} NewStreetHealthy(t: Table)
    requires Healthy(t)
    ensures Healthy(NewStreet(t))
  {
    assert forall i :: 0 <= i < |t.seats| ==> Solvent(t.seats[i]);
    SeatsHealthy(t, NewStreet(t));
  }

  lemma {:induction false} AdvanceHealthy(t: Table)
    requires Healthy(t) && t.live
    ensures Healthy(AdvanceStreet(t))
    decreases StreetsLeft(t.phase), 0
  {
    if LiveCount(t.seats) <= 1 {
      ShowdownHealthy(t);
    } else if ActiveCount(t.seats) == 0 {
      if |t.board| < 5 { DealBoardHealthy(t, 5 - |t.board|); }
      ShowdownHealthy(Runout(t));
    } else {
      var u := NewStreet(t);
      NewStreetHealthy(t);
      match t.phase {
        case PreflopBetting =>
          DealBoardHealthy(u, 3);
          PhaseHealthy(DealStreet(u, 3, 3), FlopBetting);
        case FlopBetting =>
          DealBoardHealthy(u, 1);
          PhaseHealthy(DealStreet(u, 4, 1), TurnBetting);
        case TurnBetting =>
          DealBoardHealthy(u, 1);
          PhaseHealthy(DealStreet(u, 5, 1), RiverBetting);
        case RiverBetting => ShowdownHealthy(u);
        case _ =>
      }
    }
  }

  lemma {:induction false} PhaseHealthy(u: Table, phase: Phase)
    requires Healthy(u) && u.live
    ensures Healthy(StartBettingRound(u.(phase := phase)))
    decreases StreetsLeft(phase), 2
  {
    SeatsHealthy(u, u.(phase := phase));
    StartHealthy(u.(phase := phase));
  }

  lemma {:induction false} StartHealthy(t: Table)
    requires Healthy(t) && t.live
    ensures Healthy(StartBettingRound(t))
    decreases StreetsLeft(t.phase), 1
  {
    var t1 := t.(lastRaise := t.bigBlind);
    SeatsHealthy(t, t1);
    if ActiveCount(t.seats) <= 1 {
      AdvanceHealthy(t1);
    } else {
      SeatsHealthy(t, StartBettingRound(t));
    }
  }

  lemma {:induction false} SettleHealthy(t: Table)
    requires Healthy(t) && t.live
    ensures Healthy(Settle(t))
  {
    if RoundComplete(t.seats) {
      AdvanceHealthy(t);
    } else {
      SeatsHealthy(t, Settle(t));
    }
  }

  // ---------- the calls ----------

  /** One seat changed, its cards kept or put away. */
  lemma {:induction false} SeatHealthy(t: Table, i: nat, s: Seat)
    requires Healthy(t) && i < |t.seats| && Solvent(s) && (s.hole == t.seats[i].hole || s.hole.Undealt?)
    ensures Healthy(t.(seats := t.seats[i := s]))
  {
    SeatsHealthy(t, t.(seats := t.seats[i := s]));
  }

  lemma {:induction false} LeadHealthy(t: Table, i: nat)
    requires Healthy(t) && i < |t.seats|
    ensures Healthy(Lead(t, i))
  {
    var u := Lead(t, i);
    forall k | 0 <= k < |t.seats| ensures Solvent(u.seats[k]) && u.seats[k].hole == t.seats[k].hole {
      assert Solvent(t.seats[k]) && u.seats[k] == ReopenSeat(t.seats[k], t.seats[i].id);
    }
    SeatsHealthy(t, u);
  }

  /** Any action that passes validation. */
  lemma {:induction false} ApplyHealthy(t: Table, i: nat, a: GameAction)
    requires Healthy(t) && i < |t.seats|
    requires Validate(a, t.seats[i], t.currentBet, t.bigBlind, t.lastRaise).Valid?
    ensures Healthy(Apply(t, i, a.kind, Validate(a, t.seats[i], t.currentBet, t.bigBlind, t.lastRaise).amount))
  {
    var amount := Validate(a, t.seats[i], t.currentBet, t.bigBlind, t.lastRaise).amount;
    var q := Mover(t.seats[i], t.currentBet, a.kind, amount);
    assert Solvent(t.seats[i]);
    ApplyByMover(t, i, a.kind, amount);
    SeatHealthy(t, i, q);
    LeadHealthy(t.(seats := t.seats[i := q]), i);
  }

  lemma {:induction false} AcceptedHealthy(t: Table, i: nat, a: GameAction)
    requires Healthy(t) && t.live && i < |t.seats|
    requires Validate(a, t.seats[i], t.currentBet, t.bigBlind, t.lastRaise).Valid?
    ensures var u := Apply(t, i, a.kind, Validate(a, t.seats[i], t.currentBet, t.bigBlind, t.lastRaise).amount);
      u.Shaped() && Healthy(Settle(u))
  {
    ApplyHealthy(t, i, a);
    var u := Apply(t, i, a.kind, Validate(a, t.seats[i], t.currentBet, t.bigBlind, t.lastRaise).amount);
    ApplyStaysLive(t, i, a.kind, Validate(a, t.seats[i], t.currentBet, t.bigBlind, t.lastRaise).amount);
    SettleHealthy(u);
  }

  lemma {:induction false} ApplyStaysLive(t: Table, i: nat, kind: ActionType, amount: Chips)
    requires i < |t.seats|
    ensures Apply(t, i, kind, amount).live == t.live
  {
    ApplyByMover(t, i, kind, amount);
  }

  /** Any action by anybody. */
  lemma {:induction false} ProcessActionHealthy(t: Table, id: int, a: GameAction)
    requires Healthy(t) && ProcessAction(t, id, a).Accepted?
    ensures Healthy(ProcessAction(t, id, a).after)
  {
    AcceptedHealthy(t, ActiveSeatOf(t.seats, id), a);
  }

  lemma {:induction false} CheckTimeoutHealthy(t: Table)
    requires Healthy(t)
    ensures Healthy(CheckTimeout(t))
  {
    var cur := CurrentSeat(t);
    if t.live && cur >= 0 {
      var s := t.seats[cur];
      var s' := if t.currentBet - s.bet <= 0 then s.(acted := true) else s.(state := Folded);
      assert Solvent(s);
      SeatHealthy(t, cur, s');
      SettleHealthy(t.(seats := t.seats[cur := s']));
    }
  }

  lemma {:induction false} CashOutHealthy(t: Table, id: int)
    requires Healthy(t) && RequestCashOut(t, id).CashOut?
    ensures Healthy(RequestCashOut(t, id).after)
  {
    var i := OccupiedSeatOf(t.seats, id);
    var s := t.seats[i];
    assert Solvent(s);
    if t.live && s.IsLive() {
      SeatHealthy(t, i, s.(leaving := true));
      if s.IsActive() {
        var folded := s.(leaving := true, state := Folded, acted := true);
        SeatHealthy(t, i, folded);
        SettleHealthy(t.(seats := t.seats[i := folded]));
      }
    } else {
      SeatHealthy(t, i, Vacated(s));
    }
  }

  /** Blinds come out of the stacks that post them. */
  lemma {:induction false} PostBlindsHealthy(t: Table)
    requires Healthy(t)
    ensures Healthy(PostBlinds(t)) && |PostBlinds(t).seats| == |t.seats|
  {
    var b, r := BlindsFor(t), PostBlinds(t);
    forall i | 0 <= i < |t.seats| ensures Solvent(r.seats[i]) && r.seats[i].hole == t.seats[i].hole {
      assert Solvent(t.seats[i]) && Solvent(t.seats[b.small]) && Solvent(t.seats[b.big]);
    }
    SeatsHealthy(t, r);
  }

  lemma {:induction false} RotateHealthy(t: Table)
    requires Healthy(t)
    ensures Healthy(RotateButton(t)) && |RotateButton(t).seats| == |t.seats|
  {
    var r := RotateButton(t);
    assert forall i :: 0 <= i < |t.seats| ==> Solvent(t.seats[i]) && r.seats[i].hole == t.seats[i].hole && Solvent(r.seats[i]);
    SeatsHealthy(t, r);
  }

  /** The table cleared for a new hand, before any card is dealt. */
  ghost predicate Fresh(t: Table) {
    Healthy(t) && t.board == [] && t.dealt == 0
  }

  lemma {:induction false} DealHolesHealthy(t: Table)
    requires Fresh(t)
    ensures Healthy(DealHoles(t, |t.seats|)) && DealHoles(t, |t.seats|).dealt <= 2 * |t.seats|
  {
    UnrepeatedIff(t.deck);
    DealHolesCards(t, |t.seats|);
    var r := DealHoles(t, |t.seats|);
    assert forall i :: 0 <= i < |t.seats| ==> Solvent(t.seats[i]) && Solvent(r.seats[i]);
  }

  lemma {:induction false} ClearedHealthy(t: Table, deck: seq<Card>)
    requires Healthy(t) && D.FullDeck(deck)
    ensures Fresh(Cleared(t, deck))
  {
    var seats := MapSeats(t.seats, ResetHandSeat);
    assert forall i :: 0 <= i < |t.seats| ==> Solvent(t.seats[i]) && Solvent(seats[i]) && seats[i].hole.Undealt?;
  }

  lemma {:induction false} DealtInHealthy(c: Table)
    requires Fresh(c)
    ensures Fresh(RotateButton(c)) && Fresh(PostBlinds(RotateButton(c))) && Healthy(DealtIn(c))
  {
    RotateHealthy(c);
    PostBlindsHealthy(RotateButton(c));
    var posted := PostBlinds(RotateButton(c));
    DealHolesHealthy(posted);
    var holes := DealHoles(posted, |posted.seats|);
    SeatsHealthy(holes, holes.(phase := PreflopBetting));
  }

  lemma {:induction false} StartHandHealthy(t: Table, deck: seq<Card>)
    requires Healthy(t) && D.FullDeck(deck) && StartHand(t, deck).Accepted?
    ensures Healthy(StartHand(t, deck).after)
  {
    ClearedHealthy(t, deck);
    DealtInHealthy(Cleared(t, deck));
    StartHealthy(DealtIn(Cleared(t, deck)));
  }
}
