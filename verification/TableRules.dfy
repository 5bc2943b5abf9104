/** How a hand is set up and dealt, seat by seat and card by card: who lets it start, who is marked with
    which position, and what the deck still gives when it runs short. */
module TableRules {
  import opened Cards
  import opened Seats
  import opened Betting
  import opened HandSpec
  import opened Payout

  // ---------- starting ----------

  predicate Waits(s: Seat) { s.state == Sitting || s.state == SittingOut }

  lemma {:induction false} NoneWaits(seats: seq<Seat>)
    requires forall i :: 0 <= i < |seats| ==> !Waits(seats[i])
    ensures Sum(seats, OneIfWaiting) == 0
  {
    if seats != [] { NoneWaits(seats[..|seats| - 1]); }
  }

  lemma {:induction false} OneWaits(seats: seq<Seat>, i: nat)
    requires i < |seats| && Waits(seats[i]) && forall j :: 0 <= j < |seats| && j != i ==> !Waits(seats[j])
    ensures Sum(seats, OneIfWaiting) == 1
  {
    var n := |seats| - 1;
    if i < n { OneWaits(seats[..n], i); } else { NoneWaits(seats[..n]); }
  }

  lemma {:induction false} SomeWait(seats: seq<Seat>, i: nat)
    requires i < |seats| && Waits(seats[i])
    ensures Sum(seats, OneIfWaiting) >= 1
  {
    var n := |seats| - 1;
    SumNonNegative(seats[..n], OneIfWaiting);
    if i < n { SomeWait(seats[..n], i); }
  }

  lemma {:induction false} TwoWait(seats: seq<Seat>, i: nat, j: nat)
    requires i < j < |seats| && Waits(seats[i]) && Waits(seats[j])
    ensures Sum(seats, OneIfWaiting) >= 2
  {
    var n := |seats| - 1;
    if j < n { TwoWait(seats[..n], i, j); } else { SomeWait(seats[..n], i); }
  }

  /** A hand can start between hands, with two players waiting, whether they sit in or out. */
  lemma {:induction false} StartsIff(t: Table, deck: seq<Card>)
    requires t.Shaped()
    ensures StartHand(t, deck).Accepted? <==>
      t.phase in {Waiting, HandComplete} && exists i, j :: 0 <= i < j < |t.seats| && Waits(t.seats[i]) && Waits(t.seats[j])
  {
    if i, j :| 0 <= i < j < |t.seats| && Waits(t.seats[i]) && Waits(t.seats[j]) {
      TwoWait(t.seats, i, j);
    } else if i :| 0 <= i < |t.seats| && Waits(t.seats[i]) {
      OneWaits(t.seats, i);
    } else {
      NoneWaits(t.seats);
    }
  }

  // ---------- whose turn it is ----------

  /** The player in the turn seat if he is still to act, else the first in seat order who is. */
  lemma {:induction false} CurrentIs(t: Table, i: nat)
    requires t.Shaped() && i < |t.seats| && t.seats[i].Pending()
    requires i == t.turn || (!t.seats[t.turn].Pending() && forall j :: 0 <= j < i ==> !t.seats[j].Pending())
    ensures CurrentSeat(t) == i && CurrentPlayerId(t) == t.seats[i].id
  {
    if i != t.turn { FirstPendingIs(t.seats, i); }
  }

  lemma {:induction false} FirstPendingIs(seats: seq<Seat>, i: nat)
    requires i < |seats| && seats[i].Pending() && forall j :: 0 <= j < i ==> !seats[j].Pending()
    ensures FirstPending(seats) == i
  {
    var n := |seats| - 1;
    if i < n { FirstPendingIs(seats[..n], i); }
  }

  lemma {:induction false} NobodyCurrent(t: Table)
    requires t.Shaped() && forall j :: 0 <= j < |t.seats| ==> !t.seats[j].Pending()
    ensures CurrentSeat(t) == -1 == CurrentPlayerId(t)
  {
  }

  // ---------- stacks ----------

  /** Setting a stack changes that player's seat, which he takes again, and no other. */
  lemma {:induction false} SetChipsDoes(t: Table, id: int, chips: Chips, i: nat)
    requires IdsApart(t.seats) && i < |t.seats| && t.seats[i].state != Empty && t.seats[i].id == id
    ensures SetPlayerChips(t, id, chips) == t.(seats := t.seats[i := t.seats[i].(chips := chips, state := Sitting)])
  {
    assert OccupiedSeatOf(t.seats, id) == i;
  }

  // ---------- positions ----------

  ghost predicate Marked(seats: seq<Seat>, button: nat, b: BlindSeats) {
    forall i :: 0 <= i < |seats| ==>
      && (seats[i].isDealer <==> i == button) && (seats[i].isSmallBlind <==> i == b.small) && (seats[i].isBigBlind <==> i == b.big)
  }

  predicate SameMarks(a: Seat, b: Seat) {
    a.isDealer == b.isDealer && a.isSmallBlind == b.isSmallBlind && a.isBigBlind == b.isBigBlind
  }

  lemma {:induction false} StakesKeepMarks(seats: seq<Seat>, b: BlindSeats, small: Chips, big: Chips, i: nat)
    requires b.small < |seats| && b.big < |seats| && i < |seats|
    ensures SameMarks(Stakes(seats, b, small, big)[i], seats[i])
  {
  }

  lemma {:induction false} DealingKeepsMarks(t: Table, k: nat, i: nat)
    requires k <= |t.seats| && i < |t.seats|
    ensures SameMarks(DealHoles(t, k).seats[i], t.seats[i])
  {
    if k > 0 { DealingKeepsMarks(t, k - 1, i); }
  }

  /** Once dealt, the button seat is marked as dealer and the two blind seats as such, and no other. */
  lemma {:induction false} PositionsMarked(cleared: Table)
    requires cleared.Shaped()
    ensures var r, rotated := DealtIn(cleared), RotateButton(cleared);
      r.button == rotated.button && Marked(r.seats, r.button, BlindsFor(rotated))
  {
    var u := RotateButton(cleared);
    var posted := PostBlinds(u);
    var b := BlindsFor(u);
    forall i | 0 <= i < |u.seats|
      ensures SameMarks(DealtIn(cleared).seats[i], Flagged(u.seats, b)[i])
    {
      StakesKeepMarks(Flagged(u.seats, b), b, u.smallBlind, u.bigBlind, i);
      DealingKeepsMarks(posted, |posted.seats|, i);
    }
  }

  // ---------- the board ----------

  /** How many of `count` cards can be shown: up to five on the board, with a burn before each. */
  function Shown(t: Table, count: nat): nat
    requires |t.board| <= 5 && t.dealt <= |t.deck|
  {
    Min(count, Min(5 - |t.board|, (|t.deck| - t.dealt) / 2))
  }

  function WithNext(t: Table): Table
    requires t.dealt + 1 < |t.deck|
  {
    t.(board := t.board + [t.deck[t.dealt + 1]], dealt := t.dealt + 2)
  }

  /** Every card shown takes two off the deck; a deck that ends on the burn loses that card too. */
  lemma {:induction false} BoardGrows(t: Table, count: nat)
    requires |t.board| <= 5 && t.dealt <= |t.deck|
    ensures var r, k := DealBoard(t, count), Shown(t, count);
      && |r.board| == |t.board| + k
      && r.dealt == t.dealt + 2 * k + if k < count && |t.board| + k < 5 && t.dealt + 2 * k < |t.deck| then 1 else 0
    decreases count
  {
    if count > 0 && |t.board| < 5 && t.dealt + 1 < |t.deck| { BoardGrows(WithNext(t), count - 1); }
  }

  /** The cards already shown stay, and each new one is the card after a burn. */
  lemma {:induction false} BoardCards(t: Table, count: nat, j: nat)
    requires |t.board| <= 5 && t.dealt <= |t.deck| && j < |DealBoard(t, count).board|
    ensures |t.board| <= |DealBoard(t, count).board| && (j >= |t.board| ==> t.dealt + 2 * (j - |t.board|) + 1 < |t.deck|)
    ensures DealBoard(t, count).board[j] == if j < |t.board| then t.board[j] else t.deck[t.dealt + 2 * (j - |t.board|) + 1]
    decreases count
  {
    if count > 0 && |t.board| < 5 && t.dealt + 1 < |t.deck| { BoardCards(WithNext(t), count - 1, j); }
  }

  // ---------- the smallest raise ----------

  /** What the minimum-raise record tells a player: where the smallest raise goes to, by how much more
      than he has bet, how far his chips go, and whether they fall short of it. */
  lemma {:induction false} MinRaiseSays(player: Seat, currentBet: Chips, bigBlind: Chips, lastRaise: Chips)
    ensures var mr := CalculateMinRaise(player, currentBet, bigBlind, lastRaise);
      && mr.minRaiseTo == currentBet + (if lastRaise > bigBlind then lastRaise else bigBlind)
      && player.bet + mr.minRaiseBy == mr.minRaiseTo && mr.maxBet == player.bet + player.chips
      && (mr.isAllInLess <==> player.bet + player.chips < mr.minRaiseTo)
  {
  }
}
