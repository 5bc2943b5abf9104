/** phase12/src/player_state.cpp: a seat whose fields the engine updates in place. */
module PlayerState {
  import opened Seats

  class PlayerState {
    var id: int
    var chips: Chips
    var seatState: SeatState
    var holeCards: HoleCards
    var currentBet: Chips
    var totalInvested: Chips
    var actedThisRound: bool
    var leaving: bool
    var isDealer: bool
    var isSmallBlind: bool
    var isBigBlind: bool

    /** The record's value. */
    function View(): Seat
      reads this
    {
      Seat(id, chips, seatState, holeCards, currentBet, totalInvested, actedThisRound, leaving,
           isDealer, isSmallBlind, isBigBlind)
    }

    constructor ()
      ensures View() == Seat(0, 0, Empty, Undealt, 0, 0, false, false, false, false, false)
    {
      id, chips, seatState, holeCards := 0, 0, Empty, Undealt;
      currentBet, totalInvested, actedThisRound, leaving := 0, 0, false, false;
      isDealer, isSmallBlind, isBigBlind := false, false, false;
    }

    method Bet(amount: Chips) returns (actual: Chips)
      modifies this
      ensures View() == old(View()).AfterBet(amount) && actual == old(View()).Staked(amount)
    {
      actual := if amount < chips then amount else chips;
      chips := chips - actual;
      currentBet := currentBet + actual;
      totalInvested := totalInvested + actual;
      if chips == 0 && actual > 0 {
        seatState := AllIn;
      }
    }

    method Receive(amount: Chips) returns (actual: Chips)
      modifies this
      ensures View() == old(View()).AfterReceive(amount) && actual == if amount > 0 then amount else 0
    {
      actual := if 0 > amount then 0 else amount;
      chips := chips + actual;
    }

    method ResetBets()
      modifies this
      ensures View() == old(View()).(bet := 0, invested := 0)
    {
      currentBet, totalInvested := 0, 0;
    }
  }
}
