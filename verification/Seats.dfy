/** The seat record (phase12/include/poker_engine/game/player_state.h) as a value, and sums over
    the seats of a table. Chips are int64 in the source; no sum here exceeds the chips on the table. */
module Seats {
  import opened Cards

  type Chips = int

  datatype SeatState = Empty | Sitting | Playing | Folded | AllIn | SittingOut

  datatype HoleCards = Undealt | Dealt(card1: Card, card2: Card)

  datatype Seat = Seat(
    id: int, chips: Chips, state: SeatState, hole: HoleCards,
    bet: Chips, invested: Chips, acted: bool, leaving: bool,
    isDealer: bool, isSmallBlind: bool, isBigBlind: bool)
  {
    predicate IsActive() { state == Playing }
    predicate IsAllIn() { state == AllIn }
    predicate IsFolded() { state == Folded }
    /** In the hand and able to win: PLAYING or ALL_IN. */
    predicate IsLive() { state == Playing || state == AllIn }
    predicate Pending() { IsActive() && !acted }
    /** SITTING or PLAYING, as RotateDealer and PostBlinds count seats. */
    predicate IsSeated() { state == Sitting || state == Playing }

    /** What Bet(amount) moves. */
    function Staked(amount: Chips): Chips {
      if amount < chips then amount else chips
    }

    /** The record after Bet(amount). */
    function AfterBet(amount: Chips): Seat {
      var actual := Staked(amount);
      this.(chips := chips - actual, bet := bet + actual, invested := invested + actual,
            state := if chips - actual == 0 && actual > 0 then AllIn else state)
    }

    /** The record after Receive(amount). */
    function AfterReceive(amount: Chips): Seat {
      this.(chips := chips + if amount > 0 then amount else 0)
    }
  }

  /** A bet moves chips from the stack to the bet and the hand's stake and creates none: as much as was
      asked for, or the whole stack if it is smaller. A seat becomes all-in exactly by a positive stake
      that empties it. */
  lemma {:induction false} BetMoves(s: Seat, amount: Chips)
    ensures var r := s.AfterBet(amount);
      && WealthOf(r) == WealthOf(s) && r.bet - s.bet == r.invested - s.invested == s.chips - r.chips
      && (s.chips - r.chips == amount <==> amount <= s.chips) && (s.chips >= 0 ==> r.chips >= 0)
      && (r.state == AllIn <==> s.state == AllIn || (r.chips == 0 && r.chips < s.chips))
      && r == s.(chips := r.chips, bet := r.bet, invested := r.invested, state := r.state)
  {
  }

  /** Two bets in a row are one bet of the sum, as far as the stack goes. */
  lemma {:induction false} BetsAdd(s: Seat, a: Chips, b: Chips)
    requires a >= 0 && b >= 0 && s.chips >= 0
    ensures s.AfterBet(a).AfterBet(b) == s.AfterBet(a + b)
  {
  }

  /** A payout never takes chips away, and undoes a bet as far as the stack is concerned. */
  lemma {:induction false} ReceiveReturns(s: Seat, amount: Chips)
    ensures s.AfterReceive(amount).chips >= s.chips && (s.AfterReceive(amount) == s <==> amount <= 0)
    ensures 0 <= amount <= s.chips ==> s.AfterBet(amount).AfterReceive(amount).chips == s.chips
  {
  }

  /** The first seat holding the id, or -1. */
  function SeatOf(seats: seq<Seat>, id: int): (r: int)
    ensures r == -1 || (0 <= r < |seats| && seats[r].id == id)
    ensures forall i :: 0 <= i < (if r == -1 then |seats| else r) ==> seats[i].id != id
  {
    if seats == [] then -1
    else
      var n := |seats| - 1;
      var r := SeatOf(seats[..n], id);
      if r >= 0 then r else if seats[n].id == id then n else -1
  }

  // ---------- sums over seats ----------

  function ChipsOf(s: Seat): int { s.chips }
  function InvestedOf(s: Seat): int { s.invested }
  function WealthOf(s: Seat): int { s.chips + s.invested }
  function OneIfActive(s: Seat): int { if s.IsActive() then 1 else 0 }
  function OneIfLive(s: Seat): int { if s.IsLive() then 1 else 0 }
  function OneIfPending(s: Seat): int { if s.Pending() then 1 else 0 }
  function OneIfSeated(s: Seat): int { if s.IsSeated() then 1 else 0 }

  function Sum(seats: seq<Seat>, f: Seat -> int): int {
    if seats == [] then 0 else Sum(seats[..|seats| - 1], f) + f(seats[|seats| - 1])
  }

  lemma {:induction false} SumUpdate(seats: seq<Seat>, i: nat, s: Seat, f: Seat -> int)
    requires i < |seats|
    ensures Sum(seats[i := s], f) == Sum(seats, f) - f(seats[i]) + f(s)
  {
    var n := |seats| - 1;
    if i == n {
      assert seats[i := s][..n] == seats[..n];
    } else {
      SumUpdate(seats[..n], i, s, f);
      assert seats[i := s][..n] == seats[..n][i := s];
    }
  }

  /** Seat-by-seat comparison of two tables. */
  lemma {:induction false} SumCompare(a: seq<Seat>, b: seq<Seat>, f: Seat -> int, g: Seat -> int)
    requires |a| == |b|
    ensures (forall i :: 0 <= i < |a| ==> f(a[i]) == g(b[i])) ==> Sum(a, f) == Sum(b, g)
    ensures (forall i :: 0 <= i < |a| ==> f(a[i]) <= g(b[i])) ==> Sum(a, f) <= Sum(b, g)
  {
    if a != [] {
      var n := |a| - 1;
      SumCompare(a[..n], b[..n], f, g);
    }
  }

  lemma {:induction false} SumAdds(seats: seq<Seat>, f: Seat -> int, g: Seat -> int, h: Seat -> int)
    requires forall s :: h(s) == f(s) + g(s)
    ensures Sum(seats, h) == Sum(seats, f) + Sum(seats, g)
  {
    if seats != [] { SumAdds(seats[..|seats| - 1], f, g, h); }
  }

  lemma {:induction false} SumBounds(seats: seq<Seat>, f: Seat -> int, lo: int, hi: int)
    requires lo <= 0 <= hi && forall i :: 0 <= i < |seats| ==> lo <= f(seats[i]) <= hi
    ensures lo * |seats| <= Sum(seats, f) <= hi * |seats|
  {
    if seats != [] { SumBounds(seats[..|seats| - 1], f, lo, hi); }
  }

  /** A sum of non-negative terms covers each of them, and each two of them. */
  lemma {:induction false} SumCovers(seats: seq<Seat>, f: Seat -> int, i: nat)
    requires i < |seats| && forall k :: 0 <= k < |seats| ==> f(seats[k]) >= 0
    ensures 0 <= f(seats[i]) <= Sum(seats, f)
    ensures forall j :: 0 <= j < |seats| && j != i ==> f(seats[i]) + f(seats[j]) <= Sum(seats, f)
  {
    var n := |seats| - 1;
    if i == n {
      forall j | 0 <= j < n ensures f(seats[j]) <= Sum(seats[..n], f) {
        SumCovers(seats[..n], f, j);
        assert seats[..n][j] == seats[j];
      }
      SumNonNegative(seats[..n], f);
    } else {
      SumCovers(seats[..n], f, i);
      forall j | 0 <= j < n && j != i ensures f(seats[i]) + f(seats[j]) <= Sum(seats[..n], f) {
        assert seats[..n][j] == seats[j] && seats[..n][i] == seats[i];
      }
    }
  }

  lemma {:induction false} SumNonNegative(seats: seq<Seat>, f: Seat -> int)
    requires forall k :: 0 <= k < |seats| ==> f(seats[k]) >= 0
    ensures Sum(seats, f) >= 0
  {
    if seats != [] { SumNonNegative(seats[..|seats| - 1], f); }
  }

  /** A positive sum has a positive term. */
  lemma {:induction false} SumWitness(seats: seq<Seat>, f: Seat -> int) returns (i: nat)
    requires Sum(seats, f) > 0
    ensures i < |seats| && f(seats[i]) > 0
  {
    var n := |seats| - 1;
    if f(seats[n]) > 0 { i := n; } else { i := SumWitness(seats[..n], f); }
  }
}
