/** Actions and their validation: phase12/src/action_validator.cpp. */
module Betting {
  import opened Seats

  datatype ActionType = Fold | Check | Call | Bet | Raise | AllInMove | Other

  datatype GameAction = GameAction(kind: ActionType, amount: Chips, playerId: int)

  /** Why an action is turned down, for each message of the source. */
  datatype Refusal =
    | NotActive | AlreadyAllIn | NegativeAmount | CannotCheck | NothingToCall | CannotBet
    | BelowMinBet | NotAboveBet | BelowMinRaise | NoChips | NotAnAction

  datatype Validation = Valid(amount: Chips) | Invalid(error: Refusal)

  function Max(a: int, b: int): int { if a > b then a else b }
  function Min(a: int, b: int): int { if a < b then a else b }

  /** What the player still owes, never negative. */
  function ToCall(player: Seat, currentBet: Chips): Chips {
    Max(currentBet - player.bet, 0)
  }

  function MinRaiseTo(currentBet: Chips, bigBlind: Chips, lastRaise: Chips): Chips {
    currentBet + Max(bigBlind, lastRaise)
  }

  function Validate(a: GameAction, player: Seat, currentBet: Chips, bigBlind: Chips, lastRaise: Chips): Validation {
    if !player.IsActive() && !player.IsAllIn() then Invalid(NotActive)
    else if player.IsAllIn() then Invalid(AlreadyAllIn)
    else if a.amount < 0 then Invalid(NegativeAmount)
    else
      var toCall := ToCall(player, currentBet);
      match a.kind
      case Fold => Valid(0)
      case Check => if toCall > 0 then Invalid(CannotCheck) else Valid(0)
      case Call => if toCall <= 0 then Invalid(NothingToCall) else Valid(Min(toCall, player.chips))
      case Bet =>
        if currentBet > 0 then Invalid(CannotBet)
        else if a.amount < bigBlind && player.chips > bigBlind then Invalid(BelowMinBet)
        else Valid(Min(a.amount, player.chips))
      case Raise =>
        var allInTo := player.bet + player.chips;
        if a.amount <= currentBet then Invalid(NotAboveBet)
        else if a.amount < MinRaiseTo(currentBet, bigBlind, lastRaise) && allInTo >= MinRaiseTo(currentBet, bigBlind, lastRaise)
        then Invalid(BelowMinRaise)
        else Valid(Max(Min(a.amount, allInTo) - player.bet, 0))
      case AllInMove => if player.chips <= 0 then Invalid(NoChips) else Valid(player.chips)
      case Other => Invalid(NotAnAction)
  }

  datatype MinRaiseInfo = MinRaiseInfo(minRaiseTo: Chips, minRaiseBy: Chips, maxBet: Chips, isAllInLess: bool)

  function CalculateMinRaise(player: Seat, currentBet: Chips, bigBlind: Chips, lastRaise: Chips): MinRaiseInfo {
    var to := MinRaiseTo(currentBet, bigBlind, lastRaise);
    MinRaiseInfo(to, to - player.bet, player.chips + player.bet, player.chips + player.bet < to)
  }
}
