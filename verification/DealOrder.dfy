/** Where in the deck a hand's cards come from: fixed when the hand starts, whatever is played. */
module DealOrder {
  import opened Cards
  import opened Seats
  import opened Betting
  import opened HandSpec
  import opened HandInvariant
  import opened LegalPlay
  import opened Opening
  import opened Arena
  import opened DecisionLoop

  /** The first k board cards of a deck whose first m cards are hole cards: a burn before each. */
  function BoardFrom(deck: seq<Card>, m: nat, k: nat): seq<Card>
    requires m + 2 * k <= |deck|
  {
    if k == 0 then [] else BoardFrom(deck, m, k - 1) + [deck[m + 2 * k - 1]]
  }

  lemma {:induction false} BoardFromSize(deck: seq<Card>, m: nat, k: nat)
    requires m + 2 * k <= |deck|
    ensures |BoardFrom(deck, m, k)| == k && forall j :: 0 <= j < k ==> BoardFrom(deck, m, k)[j] == deck[m + 1 + 2 * j]
  {
    if k > 0 {
      BoardFromSize(deck, m, k - 1);
      assert BoardFrom(deck, m, k) == BoardFrom(deck, m, k - 1) + [deck[m + 1 + 2 * (k - 1)]];
    }
  }

  /** The board is the one the deck dictates, and nothing else has been drawn since the hole cards. */
  ghost predicate Placed(t: Table, m: nat) {
    t.dealt == m + 2 * |t.board| && t.dealt <= |t.deck| && t.board == BoardFrom(t.deck, m, |t.board|)
  }

  ghost predicate SameHands(t: Table, r: Table) {
    |r.seats| == |t.seats| && r.deck == t.deck && forall i :: 0 <= i < |t.seats| ==> r.seats[i].hole == t.seats[i].hole
  }

  /** A step that goes on leaves the hands and the deal in place; one that ends the hand shows down
      those hands on the dictated board. */
  ghost predicate Continues(t: Table, r: Table, m: nat) {
    if r.live then Placed(r, m) && SameHands(t, r) else exists u :: ShownDown(t, u, r, m)
  }

  ghost predicate ShownDown(t: Table, u: Table, r: Table, m: nat) {
    r == DoShowdown(u) && Placed(u, m) && SameHands(t, u)
  }

  lemma {:induction false} ContinuesAfter(t: Table, u: Table, r: Table, m: nat)
    requires SameHands(t, u) && Continues(u, r, m)
    ensures Continues(t, r, m)
  {
    if !r.live {
      var v :| ShownDown(u, v, r, m);
      assert ShownDown(t, v, r, m);
    }
  }

  lemma {:induction false} DealPlaces(t: Table, m: nat, count: nat)
    requires Placed(t, m) && |t.board| + count <= 5 && t.dealt + 2 * count <= |t.deck|
    ensures Placed(DealBoard(t, count), m) && SameHands(t, DealBoard(t, count))
    decreases count
  {
    if count > 0 {
      var u := t.(board := t.board + [t.deck[t.dealt + 1]], dealt := t.dealt + 2);
      assert BoardFrom(t.deck, m, |u.board|) == u.board;
      DealPlaces(u, m, count - 1);
    }
  }

  lemma {:induction false} ShowdownContinues(t: Table, u: Table, m: nat)
    requires Placed(u, m) && SameHands(t, u)
    ensures Continues(t, DoShowdown(u), m)
  {
    assert ShownDown(t, u, DoShowdown(u), m);
  }

  lemma {:induction false} AdvancePlaces(t: Table, m: nat)
    requires Sound(t) && Placed(t, m)
    ensures Continues(t, AdvanceStreet(t), m)
    decreases StreetsLeft(t.phase), 0
  {
    if LiveCount(t.seats) <= 1 {
      ShowdownContinues(t, t, m);
    } else if ActiveCount(t.seats) == 0 {
      if |t.board| < 5 { DealPlaces(t, m, 5 - |t.board|); }
      ShowdownContinues(t, Runout(t), m);
    } else if t.phase == RiverBetting {
      ShowdownContinues(t, NewStreet(t), m);
    } else {
      NextStreetReady(t);
      var u := NextStreetDealt(t);
      StreetPlaces(t, m);
      StartPlaces(u, m);
      ContinuesAfter(t, u, StartBettingRound(u), m);
    }
  }

  lemma {:induction false} StreetPlaces(t: Table, m: nat)
    requires Sound(t) && Placed(t, m) && t.phase != RiverBetting
    ensures Placed(NextStreetDealt(t), m) && SameHands(t, NextStreetDealt(t))
  {
    DealPlaces(NewStreet(t), m, if t.phase == PreflopBetting then 3 else 1);
  }

  lemma {:induction false} StartPlaces(t: Table, m: nat)
    requires Sound(t) && Placed(t, m)
    ensures Continues(t, StartBettingRound(t), m)
    decreases StreetsLeft(t.phase), 1
  {
    var t1 := t.(lastRaise := t.bigBlind);
    if ActiveCount(t.seats) <= 1 {
      AdvancePlaces(t1, m);
      ContinuesAfter(t, t1, AdvanceStreet(t1), m);
    }
  }

  lemma {:induction false} SettlePlaces(t: Table, m: nat)
    requires Sound(t) && Placed(t, m)
    ensures Continues(t, Settle(t), m)
  {
    if RoundComplete(t.seats) { AdvancePlaces(t, m); }
  }

  lemma {:induction false} ApplyPlaces(t: Table, i: nat, kind: ActionType, amount: Chips, m: nat)
    requires i < |t.seats| && Placed(t, m)
    ensures Placed(Apply(t, i, kind, amount), m) && SameHands(t, Apply(t, i, kind, amount))
  {
  }

  lemma {:induction false} MovePlaces(t: Table, kind: ActionType, amount: Chips, m: nat)
    requires AwaitsAction(t) && Owned(t) && LegalMove(t, kind, amount) && Placed(t, m)
    ensures Continues(t, Settle(Apply(t, t.turn, kind, amount)), m)
  {
    MoveKeeps(t, kind, amount);
    var u := Apply(t, t.turn, kind, amount);
    ApplyPlaces(t, t.turn, kind, amount, m);
    SettlePlaces(u, m);
    ContinuesAfter(t, u, Settle(u), m);
  }

  lemma {:induction false} ActionPlaces(t: Table, a: GameAction, m: nat)
    requires AwaitsAction(t) && Owned(t) && Playable(t, a) && Placed(t, m)
    ensures var o := ProcessAction(t, t.seats[t.turn].id, a); o.Accepted? && Continues(t, o.after, m)
  {
    ActorFound(t);
    MovePlaces(t, a.kind, Validate(a, t.seats[t.turn], t.currentBet, t.bigBlind, t.lastRaise).amount, m);
  }

  lemma {:induction false} TimeoutPlaces(t: Table, m: nat)
    requires Contested(t) && Placed(t, m)
    ensures Continues(t, CheckTimeout(t), m)
  {
    ClockSettles(t);
    TimedOutSound(t);
    TimedOutPlaces(t, TimedOut(t), m);
  }

  lemma {:induction false} TimedOutPlaces(t: Table, u: Table, m: nat)
    requires t.Shaped() && Placed(t, m) && u == TimedOut(t) && Sound(u)
    ensures Continues(t, Settle(u), m)
  {
    assert Placed(u, m) && SameHands(t, u);
    SettlePlaces(u, m);
    ContinuesAfter(t, u, Settle(u), m);
  }

  /** From hands in place, a step that goes on leaves them in place. */
  ghost function KeepsPlaces(m: nat): (Table, Table) -> bool {
    (t: Table, r: Table) => Placed(t, m) ==> Continues(t, r, m)
  }

  lemma {:induction false} PlacesClosed(m: nat)
    ensures Closed(KeepsPlaces(m))
  {
    var rel := KeepsPlaces(m);
    forall x: Table | Contested(x) ensures rel(x, CheckTimeout(x)) {
      if Placed(x, m) { TimeoutPlaces(x, m); }
    }
    forall x: Table, a: GameAction | Contested(x) && Playable(x, a)
      ensures ProcessAction(x, Ask(x), a).Accepted? && rel(x, ProcessAction(x, Ask(x), a).after)
    {
      PlayableIsProcessed(x, a);
      if Placed(x, m) { ActionPlaces(x, a, m); }
    }
    PlacesCompose(m);
  }

  lemma {:induction false} PlacesCompose(m: nat)
    ensures var rel := KeepsPlaces(m);
      forall x, y, z {:trigger rel(x, y), rel(y, z)} :: rel(x, y) && y.live && rel(y, z) ==> rel(x, z)
  {
    var rel := KeepsPlaces(m);
    forall x: Table, y: Table, z: Table | rel(x, y) && y.live && rel(y, z) ensures rel(x, z) {
      if Placed(x, m) { ContinuesAfter(x, y, z, m); }
    }
  }

  lemma {:induction false} PlayPlaces(decisions: Decisions, t: Table, k: nat, m: nat)
    requires Contested(t) && Placed(t, m)
    ensures Continues(t, PlayOut(Driver(decisions), t, 0, k), m)
  {
    var step, good, rel := Driver(decisions), WhileContested(), KeepsPlaces(m);
    PlacesClosed(m);
    forall u: Table, i: nat | good(u)
      ensures rel(u, step(u, i).after) && (step(u, i).after.live ==> good(step(u, i).after))
    {
      TurnLifts(u, decisions(Asked(u), i), rel);
      LoopTurnKeeps(u, decisions(Asked(u), i));
    }
    forall u: Table | good(u) ensures rel(u, u) {
      assert Placed(u, m) ==> Continues(u, u, m);
    }
    PlayOutLifts(step, good, rel, t, 0, k);
  }

  // ---------- the hole cards ----------

  function PairAt(deck: seq<Card>, k: int): HoleCards {
    if 0 <= k && k + 1 < |deck| then Dealt(deck[k], deck[k + 1]) else Undealt
  }

  /** Two cards for everybody seated. */
  ghost function HoleCount(t: Table): (m: nat)
    ensures m == 2 * Sum(t.seats, OneIfSeated)
  {
    SumNonNegative(t.seats, OneIfSeated);
    2 * Sum(t.seats, OneIfSeated)
  }

  /** Seat i's cards are the two after those of the seated players before it. */
  function HoleOf(t: Table, deck: seq<Card>, i: nat): HoleCards
    requires i < |t.seats|
  {
    if Seated(t.seats[i]) then PairAt(deck, 2 * Sum(t.seats[..i], OneIfSeated)) else Undealt
  }

  /** q has dealt the first k seats of p in order. */
  ghost predicate DealtInOrder(p: Table, q: Table, k: nat)
    requires k <= |p.seats|
  {
    && |q.seats| == |p.seats| && q.deck == p.deck && q.board == p.board
    && q.dealt == 2 * Sum(p.seats[..k], OneIfSitting)
    && (forall i :: 0 <= i < k ==>
          q.seats[i].hole ==
            if p.seats[i].state == Sitting then PairAt(p.deck, 2 * Sum(p.seats[..i], OneIfSitting)) else p.seats[i].hole)
    && (forall i :: k <= i < |p.seats| ==> q.seats[i] == p.seats[i])
  }

  lemma {:induction false} OneMoreDealt(p: Table, q: Table, k: nat)
    requires k < |p.seats| && DealtInOrder(p, q, k) && 2 * Sum(p.seats[..k + 1], OneIfSitting) <= |p.deck|
    ensures DealtInOrder(p, DealtOne(q, k), k + 1)
  {
    assert p.seats[..k + 1][..k] == p.seats[..k];
    assert Sum(p.seats[..k + 1], OneIfSitting) == Sum(p.seats[..k], OneIfSitting) + OneIfSitting(p.seats[k]);
  }

  lemma {:induction false} HolesInOrder(p: Table, k: nat)
    requires k <= |p.seats| && p.dealt == 0 && 2 * Sum(p.seats[..k], OneIfSitting) <= |p.deck|
    ensures DealtInOrder(p, DealHoles(p, k), k)
  {
    if k > 0 {
      assert p.seats[..k][..k - 1] == p.seats[..k - 1];
      HolesInOrder(p, k - 1);
      OneMoreDealt(p, DealHoles(p, k - 1), k - 1);
    }
  }

  /** The opening of a hand: two cards a player from the top of the deck in seat order, no more. */
  lemma {:induction false} OpeningPlaces(t: Table, deck: seq<Card>)
    requires Ready(t) && DeckCovers(t, deck)
    ensures StartHand(t, deck).Accepted?
    ensures Placed(StartHand(t, deck).after, HoleCount(t)) && HolesOnDeck(t, deck, StartHand(t, deck).after)
  {
    var b := BlindsShape(t, deck);
    var p := BlindsPostedTable(t, deck);
    DealingPlaces(t, deck, p, b);
    StartKeepsDeal(t, deck);
  }

  lemma {:induction false} DealingPlaces(t: Table, deck: seq<Card>, p: Table, b: BlindSeats)
    requires Ready(t) && DeckCovers(t, deck) && |p.seats| == |t.seats| && p.deck == deck && p.dealt == 0 && p.board == []
    requires forall i :: 0 <= i < |t.seats| ==> Staked(t.seats[i], p.seats[i], StakeOf(b, i, t.smallBlind, t.bigBlind))
    ensures Placed(DealHoles(p, |p.seats|), HoleCount(t)) && HolesOnDeck(t, deck, DealHoles(p, |p.seats|))
  {
    var n := |t.seats|;
    PostedLikeSeated(t, p, b);
    assert p.seats[..n] == p.seats && t.seats[..n] == t.seats;
    SumNonNegative(t.seats, OneIfSeated);
    HolesInOrder(p, n);
    forall i | 0 <= i < n ensures DealHoles(p, n).seats[i].hole == HoleOf(t, deck, i) {
      assert Staked(t.seats[i], p.seats[i], StakeOf(b, i, t.smallBlind, t.bigBlind));
      assert SeatReady(t.seats[i], t.bigBlind);
    }
  }

  lemma {:induction false} StartKeepsDeal(t: Table, deck: seq<Card>)
    requires Ready(t) && DeckCovers(t, deck)
    ensures StartHand(t, deck).Accepted?
    ensures var r, d := StartHand(t, deck).after, DealtIn(Cleared(t, deck));
      r.seats == d.seats && r.dealt == d.dealt && r.board == d.board && r.deck == d.deck
  {
    ClearedReady(t, deck);
    var b := DealtShape(t, deck);
    var d := DealtIn(Cleared(t, deck));
    DealtIsSound(t, d, b);
    FirstToAct(d, b.big);
  }

  lemma {:induction false} PostedLikeSeated(t: Table, p: Table, b: BlindSeats)
    requires Ready(t) && |p.seats| == |t.seats|
    requires forall i :: 0 <= i < |t.seats| ==> Staked(t.seats[i], p.seats[i], StakeOf(b, i, t.smallBlind, t.bigBlind))
    ensures forall k :: 0 <= k <= |t.seats| ==> Sum(p.seats[..k], OneIfSitting) == Sum(t.seats[..k], OneIfSeated)
  {
    forall k | 0 <= k <= |t.seats| ensures Sum(p.seats[..k], OneIfSitting) == Sum(t.seats[..k], OneIfSeated) {
      forall i | 0 <= i < k ensures OneIfSitting(p.seats[..k][i]) == OneIfSeated(t.seats[..k][i]) {
        assert SeatReady(t.seats[i], t.bigBlind);
        assert Staked(t.seats[i], p.seats[i], StakeOf(b, i, t.smallBlind, t.bigBlind));
      }
      SumCompare(p.seats[..k], t.seats[..k], OneIfSitting, OneIfSeated);
    }
  }

  ghost predicate HolesOnDeck(t: Table, deck: seq<Card>, u: Table) {
    |u.seats| == |t.seats| && u.deck == deck && forall i :: 0 <= i < |t.seats| ==> u.seats[i].hole == HoleOf(t, deck, i)
  }

  /** The hand that was shown down to give r: the hole cards the deck dictates for the seats of t,
      and the first cards of the one board the deck dictates. */
  ghost predicate ShownDownOnDeck(t: Table, deck: seq<Card>, u: Table, r: Table) {
    r == DoShowdown(u) && Placed(u, HoleCount(t)) && HolesOnDeck(t, deck, u)
  }

  /** What became of a hand dealt from the deck: still open on the hole cards and board the deck
      dictates, or shown down on them. */
  ghost predicate PlayedOnDeck(t: Table, deck: seq<Card>, r: Table) {
    if r.live then Placed(r, HoleCount(t)) && HolesOnDeck(t, deck, r) else exists u :: ShownDownOnDeck(t, deck, u, r)
  }

  /** Whatever is proposed, whenever clocks run out and however long it is played, a hand is on the
      cards fixed when it was dealt: seat i's hole cards and the positions of the board depend on the
      deck and on who is seated, not on the play. */
  lemma {:induction false} HandPlaysItsDeck(t: Table, deck: seq<Card>, decisions: Decisions, guard: nat)
    requires Ready(t) && DeckCovers(t, deck)
    ensures StartHand(t, deck).Accepted?
    ensures PlayedOnDeck(t, deck, PlayOut(Driver(decisions), StartHand(t, deck).after, 0, guard))
  {
    OpeningInPlay(t, deck);
    var s := StartHand(t, deck).after;
    PlayPlaces(decisions, s, guard, HoleCount(t));
    ShownOnDeck(t, deck, s, PlayOut(Driver(decisions), s, 0, guard));
  }

  lemma {:induction false} OpeningInPlay(t: Table, deck: seq<Card>)
    requires Ready(t) && DeckCovers(t, deck)
    ensures StartHand(t, deck).Accepted?
    ensures Contested(StartHand(t, deck).after) && Placed(StartHand(t, deck).after, HoleCount(t))
    ensures HolesOnDeck(t, deck, StartHand(t, deck).after)
  {
    StartHandOpens(t, deck);
    OpeningPlaces(t, deck);
  }

  lemma {:induction false} ShownOnDeck(t: Table, deck: seq<Card>, s: Table, r: Table)
    requires HolesOnDeck(t, deck, s) && Continues(s, r, HoleCount(t))
    ensures PlayedOnDeck(t, deck, r)
  {
    if !r.live {
      var u :| ShownDown(s, u, r, HoleCount(t));
      assert ShownDownOnDeck(t, deck, u, r);
    }
  }
}
