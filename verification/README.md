# A verified model of the poker engine

This project models the No-Limit Hold'em engine in Dafny and proves what the
engine relies on: that every hand played in time ends and pays every chip out
once, and exactly when a hand does not, that the
fast evaluator finds the best hand, that exact equity is a martingale, that the
shuffle can be replayed, that the model file format and the chip ledger are
faithful, and that nobody sees another player's cards through the engine.

`dafny verify dfyconfig.toml` checks everything.

## How it is laid out

| files | what they are |
|---|---|
| Cards, HandRanking, BestHands, Evaluator | cards as numbers 0..51; what a set of cards supports and its best value, declared without an algorithm; the evaluator's loops on arrays against it |
| Enumeration, BestHand | 0/1 masks and index tuples walked in order; recovering the five cards |
| Seats, PlayerState, Betting, PotManager, Showdown, Payout, Settlement | the seat record and object, validation, side pots, splitting, paying, and who gets what seat by seat |
| HandSpec | the hand state machine on values, one function per engine step |
| Engine, HandInvariant, LegalPlay, Opening | what every call keeps; what legal play keeps; the potential that bounds a hand; the start of a hand |
| GameState | the class over mutable seats, proved to take exactly the steps of HandSpec |
| ActionRules, TableRules | the rules as a player meets them: costs, minimum raises, whose turn, how hands and boards are dealt |
| Arena, DecisionLoop, MatchAccounts, MatchRunner | the agents' side: SafeFallback and Sanitize; the decision loop with its clocks; the accounts of a match; RunMatch on the objects |
| DealOrder, Redaction | where a hand's cards come from; what a player can see |
| Departures, RawPlay, Sticking, Stalls, FirstActor | play by any caller through the engine's own validator: which actions it lets through, exactly which bring the hand nearer its end, exactly which hands can get stuck, hands that never end, and who acts first |
| Hashing, Dealer | streaming SHA-256 and HMAC, the keyed stream, rejection sampling, Fisher-Yates, replay |
| Equity, EquityMartingale, HeadToHead, ControlVariate | CalculateExact on its arrays, the martingale law of its counts, what they count in terms of the cards, and the mean of the run-out control variate |
| ModelCodec | varint, zigzag and delta keys of the CFR model file |
| ChipLedger, Ownership, Balances, TableServer | the ledger tables, the world of wallets and table, whose chips each step moves, the server functions that move them |
| Arithmetic | division and sums over numbers |

Where the source updates objects or arrays in place, the model does too, and
the methods are proved against functions on values; the laws are lemmas about
those functions. Where the source only computes, the model is a function.

## Hypotheses

* Arena theorems start from a table as RunMatch sets it up: everybody seated is
  sitting with more than a big blind, ids are distinct and positive, and
  0 < small blind <= big blind. Every decision says whether the action clock had
  run out when the action was submitted, and again for the fallback.
* RawPlay and Sticking start from any hand in play with distinct ids, none of
  them 0, and no negative stack; players may have been dealt in without a chip.
  Only RawPlay.UnsunkRunsAwait starts within the arena's invariant. What Sticking
  says of a hand from its start takes any table at which two can be dealt in,
  whatever the stacks, and a deck with two cards for every seat.
* A table has at most 21 seats. The engine burns a card before every board
  card, so n players need 2n + 10 cards; with more than 21 the run-out loop of
  AdvanceStreet would not end.
* Random bytes, the SHA-256 block function, the clock (an action carries
  whether its deadline had passed) and database failures (each call carries
  which step fails, if any) are parameters.
* A keyed stream eventually yields a word that rejection sampling keeps.

## Findings

* The engine settles an expired clock inside ProcessAction, on the player whose
  turn it is, and then refuses that player's own action and fallback. The
  arena's loop breaks off with the hand in play, the conservation flag is
  cleared and no further hand of the rotation starts
  (arena/src/match_runner.cpp:144-160). The exact condition is proved: the clock
  ran out on the player asked, the hand does not close on it, and neither that
  clock nor the next player's brings the turn back, all told from the table
  before. With clocks in time every hand ends.
* The raw validator accepts a zero BET from a stack of at most a big blind, so
  two short stacks can bet nothing for ever (phase12/src/action_validator.cpp:58-63).
  A player left without a chip by one hand is dealt into the next
  (phase12/src/game_state.cpp:844-847), and his bet of any size is accepted as 0.
  Exactly the bets and raises that put in nothing, for want of an amount or of
  chips, made when somebody active has acted, fail to bring a hand nearer its
  end; a run with finitely many of them carries out finitely many events.
* It accepts a RAISE from a stack below the current bet, which lowers that bet
  and breaks the betting invariant (phase12/src/game_state.cpp:387-390). Two
  active players can be left with unequal bets and nobody to act; no action and
  no clock moves the hand on then, only a player who leaves. Sanitize produces
  no such raise, and no zero bet.
* The blinds alone can do the same. The current bet after them is the big
  blind's stake, even when its stack makes that less than the small blind
  (phase12/src/game_state.cpp:657-668); the others match the smaller bet, the
  small blind checks, and the bets stay unequal. Without sinking raises a hand
  can get stuck if and only if the player in the small blind holds more than that
  blind, the player in the big blind less than it, and the latter holds nothing
  or a third player holds more than the latter. From a table whose bets are
  level no hand sticks without them.
* A blind that takes a whole stack leaves its owner all-in without cards. A
  showdown conserves chips if and only if a largest claimant holds cards, so
  two such blinds heads-up lose their chips.
* A player who has folded and cashes out while the hand runs takes his seat,
  and so his wagers, out of the pots. A buy-in for an id that is not positive
  is not debited (cli/poker_ws_server.cpp:646-666), so its chips are new.
* The run-out control variate is described as unbiased because equity is a
  martingale (arena/src/match_runner.cpp:36-46). Before the flop the equity is
  an estimate from 20000 samples with a fixed seed, after it the exact one
  (arena/src/match_runner.cpp:53-66). The mean is zero exactly when the run-out
  starts from the flop or later, nothing is matched, or the estimate happens to
  be exact; otherwise it is what the estimate is out by, in chips.
* The comment at phase12/src/game_state.cpp:568 equates the seat after the big
  blind with button + 3. With three or more seated and every stack above a big
  blind, the first actor is the player after the big blind exactly when the two
  seats right after the button are taken; otherwise a blind acts first.
* The sampler is documented as bias-free; it keeps one word too many
  (phase12/src/dealer.cpp:218-224), which favours residue 0 by one word in 2^32.
* Shuffle permutes the deck as it stands. A HandProof therefore reproduces a
  hand only from the same starting order, which it does not record.
* A second SaveAccount for an id breaks the agreement of balance and log
  unless the rows of that id already sum to zero.

## Model

| member | source | states |
|---|---|---|
| `DecisionLoop.HandEndsIff` | arena/src/match_runner.cpp:141-164 | From any table the arena sets up, n players with S chips between them: within n·(S/bb + n + 4) turns of the loop the hand is over with everybody resting in the same seat and the stacks adding up to what they did before, if and only if no turn strands it; a stranded hand is left in play with chips in the pot, and no other hand can start |
| `DecisionLoop.HandConservesAndEnds` | arena/src/match_runner.cpp:141-164 | With every clock in time no turn strands: whatever the agents propose, the hand ends within that bound and conserves the chips |
| `DecisionLoop.LateFirstDecision` | arena/src/match_runner.cpp:144-160 | An input that fails: with three or more players, one expired clock of the first to act makes the loop break off with the blinds in the pot |
| `DecisionLoop.LoopTurnKeeps` | arena/src/match_runner.cpp:145-162 | One turn (ask, sanitise, submit, fall back, each submission settling an expired clock first) is a legal step or two; it breaks off with the hand in play exactly when it strands, a condition on the table before: the clock ran out on the player asked, or on the fallback of a refused fold, the hand does not close on that, and neither that clock nor a second one hands the turn back to him |
| `DecisionLoop.ActorDecides` | arena/src/match_runner.cpp:145-152 | Every turn of a hand in play is decided by the player whose seat is to act |
| `DecisionLoop.OneLateStrandsIff` | arena/src/match_runner.cpp:144-160 | One expired clock: the loop breaks off with the hand in play unless the hand closes on it, or the player asked had a free check that closed the street and is the first active one after the button |
| `DecisionLoop.ComesBackIff` | phase12/src/game_state.cpp:436-475 | After an expired clock that leaves the hand in play the same player is to act again exactly in that last case |
| `DecisionLoop.SecondClock` | phase12/src/game_state.cpp:436-475 | When the clock runs out on the next player too: the hand closes on that only within the same street, and the turn is back with the first player exactly if he is the second active one after the button on the street the first clock opened, or the first one on the street the second clock opens |
| `DecisionLoop.RunOpenIff` | arena/src/match_runner.cpp:141-164 | A run as long as the potential of the table it starts from leaves the hand in play if and only if one of its turns strands it: the termination argument of the loop |
| `HandInvariant.SettleLiveIff` | phase12/src/game_state.cpp:416-434 | Settling leaves the hand in play exactly unless the round is complete with at most one player able to bet, one player left, or on the river: a condition on the table before the step |
| `DecisionLoop.EveryTurnKeeps` | phase12/src/game_state.cpp:247-475 | After every number of turns, clocks in time or not, the hand is over or waits for an active player who has not acted, bets within the current bet, an owner of that bet still in; and no chip has been lost |
| `DecisionLoop.GuardNeverFires` | arena/src/match_runner.cpp:144 | The 100000-decision guard exceeds the bound for any 2 to 21 players with 200 big blinds each, at a table of any size |
| `Arena.SanitizeChooses` | arena/src/match_runner.cpp:89-137 | Run on the legal actions of the table, the pointer-setting loop and switch come to a reference rule: no fold for free, passive moves mapped to check or call, a size clamped between the smallest full raise and all-in |
| `Arena.ChosenPlayable` | arena/src/match_runner.cpp:89-137 | The sanitised action is accepted as a legal move if and only if it is not a FOLD with a negative amount facing a bet, in which case it is turned down; FOLD is never chosen when checking is free |
| `Arena.PassivePlayable` | arena/src/match_runner.cpp:71-82 | Check when free, call otherwise, is always playable |
| `Arena.FallbackIsPassive` | arena/src/match_runner.cpp:71-82 | SafeFallback on the legal actions is the check or the call, never a fold |
| `Arena.RaisePlayable` | phase12/src/action_validator.cpp:52-90 | Every size from the minimum raise to all-in is accepted |
| `Arena.ArenaStepKeeps` | arena/src/match_runner.cpp:147-162 | With the clock in time the decision is always carried out, as a legal step that keeps the invariant and uses up potential |
| `Arena.LegalMembers` | phase12/src/game_state.cpp:982-1027 | Exactly which actions the player to act is offered: fold, check or call, the smallest raise if the stack reaches it, all-in |
| `Arena.OnlyActorIsOffered` | phase12/src/game_state.cpp:922-1027 | No deadlock: legal actions are non-empty for the current player id and for no other id |
| `Arena.ActorFound` | phase12/src/game_state.cpp:912-936 | The turn seat, GetCurrentPlayer, GetCurrentPlayerId and the id scans all find the same player |
| `ActionRules.AcceptedIff` | phase12/src/action_validator.cpp:8-102 | Which actions of the player to act are accepted, in arithmetic on his stack, his bet, the current bet, the big blind and the last raise |
| `ActionRules.OthersRefused` | phase12/src/game_state.cpp:247-300 | Nobody else's action is accepted |
| `ActionRules.ActionDoes` | phase12/src/game_state.cpp:326-414 | What an accepted action does: what it costs, who is asked again, the bet to match and the size of the next raise, with everybody else's chips untouched |
| `ActionRules.NextRaiseAsLarge` | phase12/src/action_validator.cpp:76-90 | After an accepted RAISE to R over a bet B by at least the last raise, the next player is offered a raise to R + (R - B) and no other, and every size strictly between is refused if his chips reach it |
| `ActionRules.RaiseAfterBet` | phase12/src/action_validator.cpp:76-90 | After an opening BET of at least the last raise size the next player's raise starts at twice that bet |
| `ActionRules.ShortAllInKeepsSize` | phase12/src/game_state.cpp:391-414 | An all-in that raises by less than the last raise leaves that size as it was: the next raise starts that much above the new bet |
| `ActionRules.PassiveKeepsSize` | phase12/src/game_state.cpp:342-369 | So does a check, call or fold: the next raise starts where the one before did |
| `ActionRules.RaisesStartAt` | phase12/src/action_validator.cpp:76-112 | At any point the raise on offer, and every size accepted, starts at the current bet plus the larger of big blind and last raise |
| `ActionRules.TurnGoesRound` | phase12/src/game_state.cpp:886-910 | While a street goes on the turn passes to the next seat in the ring that is still to act |
| `ActionRules.BlindOrder` | phase12/src/game_state.cpp:638-655 | The small blind is the first player seated after the button and the big blind the first after that; with two seated the button is the small blind |
| `ActionRules.ButtonGoesOn` | phase12/src/game_state.cpp:609-625 | The button moves to the next player seated |
| `ActionRules.OpensBetting` | phase12/src/game_state.cpp:554-587 | Who opens a betting round: heads-up before the flop the button, otherwise the first to act from the third seat after it, on later streets from the first seat after it |
| `ActionRules.StreetFollows` | phase12/src/game_state.cpp:477-552 | Flop, turn and river follow with three, four and five board cards, bets cleared, raises back to the big blind, and the first active player after the button to act |
| `ActionRules.JudgedOnFullBoard` | phase12/src/game_state.cpp:477-552 | With two or more players still in, a hand that comes to its end is judged on five board cards, those shown before among them, and on the stakes as they were |
| `TableRules.StartsIff` | phase12/src/game_state.cpp:177-193 | A hand starts if and only if none is in play and two players are there, sitting in or out |
| `TableRules.PositionsMarked` | phase12/src/game_state.cpp:609-669 | Once dealt, exactly the button seat is marked as dealer and exactly the two blind seats as blinds |
| `TableRules.BoardGrows` | phase12/src/game_state.cpp:698-722 | How many cards a deal shows and draws, whatever is left of the deck: two drawn for each one shown, and the last one burnt for nothing |
| `TableRules.BoardCards` | phase12/src/game_state.cpp:698-722 | The cards shown are the second, fourth and so on from where the deal begins |
| `TableRules.CurrentIs` | phase12/src/game_state.cpp:912-936 | The current player is the one in the turn seat if he is still to act, otherwise the first seat that is |
| `HandInvariant.SettleKeeps` | phase12/src/game_state.cpp:416-434 | Settling after an action ends the hand with everybody at rest or leaves it awaiting an action, keeps the chips when a live player has chips in, and never raises the potential |
| `HandInvariant.AdvanceKeeps` | phase12/src/game_state.cpp:477-552 | AdvanceStreet, with its recursion through StartBettingRound, keeps the invariant from any point between streets |
| `HandInvariant.StartKeeps` | phase12/src/game_state.cpp:554-587 | Starting a betting round does too; the recursion ends because streets run out |
| `HandInvariant.SomebodyPending` | phase12/src/game_state.cpp:730-769 | If the round is not complete there is an active player who has not acted, in a contested hand |
| `HandInvariant.FindFinds` | phase12/src/game_state.cpp:589-607 | A full turn of the ring from any seat finds a matching seat if there is one |
| `HandInvariant.BackedIsFunded` | phase12/src/game_state.cpp:781-862 | Inside a sound hand a showdown is funded exactly when some live player has chips in or nothing was wagered |
| `HandInvariant.ShowdownFinishes` | phase12/src/game_state.cpp:825-862 | A showdown leaves everybody who is seated sitting with nothing wagered, no cards and no position flags |
| `LegalPlay.MoveKeeps` | phase12/src/game_state.cpp:326-414 | Every legal move keeps the hand sound, its bet owned, its chips on the table, and uses up potential |
| `LegalPlay.StepKeeps` | phase12/src/game_state.cpp:247-434 | The move and the settling after it, as one step |
| `LegalPlay.TimeoutKeeps` | phase12/src/game_state.cpp:436-475 | An expired clock is a legal step: a check when free, otherwise a fold that does not mark the seat as acted |
| `LegalPlay.LeadWork` | phase12/src/game_state.cpp:370-414 | A bet, raise or leading all-in, although it reopens the action for everybody, lowers the work left when it costs a whole unit of chips or a player |
| `LegalPlay.PassiveWork` | phase12/src/game_state.cpp:342-369 | A check, fold, call or short all-in lowers it by a pending action |
| `LegalPlay.RoundCompleteIff` | phase12/src/game_state.cpp:730-769 | In a contested hand a round is complete exactly when nobody is left to act, and then every active player has matched the current bet |
| `LegalPlay.RaiseSizeNeverFalls` | phase12/src/game_state.cpp:370-414 | Within a street the minimum raise size never falls |
| `Opening.StartHandOpens` | phase12/src/game_state.cpp:177-245 | A hand that starts awaits an action, with the big blind owning the bet, every chip on the table and the potential within n·(S/bb + n + 4) for the n players seated |
| `Opening.NextSeatedIsOther` | phase12/src/game_state.cpp:627-636 | With two or more seated, the scan finds somebody else who is seated |
| `Opening.BlindSeatsDiffer` | phase12/src/game_state.cpp:638-655 | Small and big blind are two different seated players, heads-up included |
| `Opening.BlindsPosted` | phase12/src/game_state.cpp:638-669 | Exactly the two blinds are staked, the others untouched, and the current bet is the big blind |
| `Opening.HolesDealt` | phase12/src/game_state.cpp:671-696 | Every sitting player is dealt in and nobody else; two cards each leave the deck |
| `Departures.BetFallsIff` | phase12/src/game_state.cpp:387-390 | The bet to match falls after an accepted action if and only if it is a RAISE from a stack that cannot reach it |
| `Departures.AcceptedIsSoundIff` | phase12/src/action_validator.cpp:8-102 | Of all actions the validator accepts from the player to act, exactly those raises break the invariant |
| `Departures.AcceptedIsLegalIff` | phase12/src/action_validator.cpp:8-102 | An accepted action is a legal move unless it is a fold for free, a bet under the smallest size, or a raise the stack cannot make in full |
| `Departures.AcceptedStepKeeps` | phase12/src/game_state.cpp:247-434 | The remaining actions, from any caller, are legal steps: they keep the invariant, the owner of the bet and every chip |
| `RawPlay.StepCounted` | phase12/src/game_state.cpp:247-475 | Play by any caller: an accepted action or an expired clock strictly lowers the measure (chips behind, active players and streets, each times the players, and pending actions) if and only if it is not a BET that moves nothing or a RAISE that leaves the bet where it is, for want of an amount or of chips, at a moment when somebody active has acted; players dealt in without a chip included |
| `RawPlay.RunsEnd` | phase12/src/game_state.cpp:247-475 | Whatever is sent by whomever and whenever clocks run out, a hand carries out at most its measure in events, and one round more for every such idle one |
| `RawPlay.SticksIff` | phase12/src/game_state.cpp:416-434 | Settling leaves a hand in play with nobody to act exactly when nobody is pending and the round is not complete |
| `RawPlay.StuckForEver` | phase12/src/game_state.cpp:247-475 | A hand in play with nobody to act never changes again, whatever is sent and however often the clock runs out |
| `RawPlay.MovesOnIff` | phase12/src/game_state.cpp:247-475 | A hand in play can be moved on if and only if somebody is to act |
| `RawPlay.UnsunkRunsAwait` | phase12/src/game_state.cpp:247-475 | From a table that awaits an action within the arena's invariant, every active player with chips behind and every bet within the current one, a run without sinking raises leaves the hand over or awaiting an action within it |
| `Sticking.LevelNeverSticks` | phase12/src/game_state.cpp:247-475 | From any level table with somebody to act (active bets within the current bet, and equal to it once acted; players without a chip included) no run of actions, expired clocks and departures without a sinking raise ever sticks, and what it leaves in play is level |
| `Sticking.DealtAny` | phase12/src/game_state.cpp:177-245 | Button, blinds and hole cards from any stacks: each blind as far as its stack goes, the big blind's stake as the current bet, and exactly those active who are seated and not left with nothing by a blind |
| `Sticking.OpensLevelIff` | phase12/src/game_state.cpp:638-669 | The table a hand opens with is level unless the player in the small blind holds more than that blind and the player in the big blind less than it, and then it is not: told from the stacks before the hand |
| `Sticking.HandSticksIff` | phase12/src/game_state.cpp:638-769 | Exactly which hands can get stuck by some run without a sinking raise: the player in the small blind holds more than that blind, the player in the big blind less than it, and the latter holds nothing or a third player holds more than the latter |
| `Sticking.LeavingFreesIff` | phase12/src/game_state.cpp:90-117 | A stuck hand moves on when a player leaves if and only if the player was active and the fold completes the round |
| `Stalls.SinkingRaiseSticks` | phase12/src/game_state.cpp:387-390 | Three players, stacks 100, 15 and 100, blinds 5 and 10: raise to 30, raise from 15, call, check are all accepted, and the hand is stuck |
| `Stalls.ShortBigSticks` | phase12/src/game_state.cpp:657-668 | No raise at all: three players, stacks 100, 100 and 3, blinds 5 and 10. The current bet is 3, the button calls, the small blind, who has bet 5, checks, and the hand is stuck |
| `Stalls.ShortBigCanStickIff` | phase12/src/game_state.cpp:657-668 | With any stack in place of the 3, the hand can get stuck if and only if it is less than the small blind, nothing included |
| `Stalls.ZeroBetsGoRound` | phase12/src/action_validator.cpp:58-63 | Two short stacks: any number of rounds of zero BETs is carried out and leaves the very same table, so idle actions alone can keep a hand going |
| `Stalls.PennilessBet` | phase12/src/action_validator.cpp:58-63 | While nothing is bet, a BET of any size from a player without chips is carried out as nothing, and brings the hand no nearer its end once somebody active has acted |
| `Stalls.BustsBetForEver` | phase12/src/game_state.cpp:825-862 | It happens after a showdown that busts two of three: both are dealt in again, the blinds come to 0, and a check followed by any number of rounds of BET 50, BET 50, CHECK is carried out |
| `Stalls.DuelReached` | phase12/src/action_validator.cpp:58-63 | Such a table is reached from every table of two seats, both taken, with stacks over one and up to two big blinds: both match the big blind, and the first to act on the flop checks |
| `Stalls.ShortPairExists` | phase12/src/action_validator.cpp:58-63 | There are such tables: two stacks of 15 with blinds of 5 and 10 |
| `Departures.BlindsLoseStacks` | phase12/src/game_state.cpp:638-696 | At a table of two seats with nobody holding more than the small blind both are all-in and undealt; the hand ends at once and their chips vanish |
| `Stalls.StacksAreLost` | phase12/src/game_state.cpp:638-696 | It happens: two stacks of 3 with blinds of 5 and 10 |
| `FirstActor.FirstActorIff` | phase12/src/game_state.cpp:554-587 | With three or more seated, the first to act is the player after the big blind if and only if the two seats right after the button are both taken; with one of them taken it is the big blind itself, with neither the small blind |
| `FirstActor.HandFirstActor` | phase12/src/game_state.cpp:177-245 | So it is for the turn of every hand as it starts with every stack above a big blind |
| `FirstActor.BigBlindActsFirst` | phase12/src/game_state.cpp:554-587 | An input that fails: four seats, the one after the button empty, and the big blind has the first turn |
| `PotManager.PotsRefineChipRule` | phase12/src/pot_manager.cpp:30-101 | A non-folded player may win the sum over everybody of the smaller of the two investments, or everything when his is the largest live one: layered peeling refines the chip-by-chip rule |
| `PotManager.FoldedWinsNothing` | phase12/src/pot_manager.cpp:55-72 | A folded contributor may win no pot |
| `PotManager.PotsConserve` | phase12/src/pot_manager.cpp:75-98 | The pots add up to everything invested if and only if some contributor has not folded or nothing was invested |
| `PotManager.LayersAndDead` | phase12/src/pot_manager.cpp:48-98 | Every pot is one layer, its height times the contributors who reach it, with no pending dead money in it; the last one has besides exactly what was staked above the largest live stake |
| `PotManager.DeadIsExcess` | phase12/src/pot_manager.cpp:48-98 | What is pending when the peeling ends is exactly what lies above the largest live stake, everything if nobody is live |
| `PotManager.PotsAreLayers` | phase12/src/pot_manager.cpp:48-72 | No pot built while peeling takes in pending dead money |
| `PotManager.PotsWellFormed` | phase12/src/pot_manager.cpp:30-101 | Every pot is positive and its eligible list names distinct live contributors |
| `PotManager.LastPotIsForLargest` | phase12/src/pot_manager.cpp:48-98 | The largest live contributor is eligible for every pot, and anybody smaller is left out of the last |
| `PotManager.PotManager.BuildPots` | phase12/src/pot_manager.cpp:30-101 | The loops over the player objects compute those pots and their total |
| `Showdown.PotPaidToBest` | phase12/src/showdown_evaluator.cpp:131-187 | A pot is shared by exactly the eligible, dealt players whose hand nobody eligible and dealt beats |
| `Showdown.PotPaidWhole` | phase12/src/showdown_evaluator.cpp:164-187 | The shares are never negative, differ by at most one chip, and add up to the pot, or to nothing when nobody eligible holds cards |
| `Showdown.SortDownSorts` | phase12/src/showdown_evaluator.cpp:150-152 | The evaluated hands come out by descending rank, none added and none dropped |
| `Showdown.EvaluatePot` | phase12/src/showdown_evaluator.cpp:131-187 | The loops (evaluate, sort, find winners, split) compute those awards |
| `Showdown.SplitIsExact` | phase12/src/showdown_evaluator.cpp:164-187 | Whole shares with the remainder handed out one chip each add up exactly |
| `Settlement.SeatReceives` | phase12/src/game_state.cpp:805-823 | Seat by seat: the stack after a showdown is the stack before plus the awards made out to the id of that seat |
| `Settlement.SeatGains` | phase12/src/game_state.cpp:781-823 | And those are its shares of the pots, one pot after another |
| `Settlement.SharesAreFair` | phase12/src/showdown_evaluator.cpp:131-187 | A seat's share of a pot is positive only if nobody eligible holds better cards, judged by its own two cards with the board; two seats nobody beats differ by at most one chip |
| `Settlement.SharesAddUp` | phase12/src/showdown_evaluator.cpp:164-187 | The shares of a pot add up to the whole of it as soon as somebody eligible holds cards, and to nothing otherwise |
| `Settlement.OddChipsFirst` | phase12/src/showdown_evaluator.cpp:164-187 | The winners of a pot come in the order of its claimants, none getting more than one before him: the odd chips go to the first |
| `Settlement.ClaimantsByStake` | phase12/src/pot_manager.cpp:48-72 | The claimants of a pot are listed by what they have put in, the least first |
| `Settlement.SeatMayWin` | phase12/src/pot_manager.cpp:30-101 | Told of the seats: the pots a player is in for add up to the smaller of his stake and each other's, or to everything staked if his is the largest; a folded player is in for none |
| `Settlement.RankIsBest` | phase12/src/showdown_evaluator.cpp:131-150 | On a full board the hands are compared by the value of the best five of a seat's own two cards and the board |
| `Payout.ShowdownConservesIff` | phase12/src/game_state.cpp:781-862 | A showdown never creates chips, and conserves them if and only if nothing was wagered or a largest claimant holds cards |
| `Payout.PotsPay` | phase12/src/game_state.cpp:781-823 | The pots pay at most their total, and all of it exactly when each has a dealt player |
| `Payout.AwardsHeldOnce` | phase12/src/game_state.cpp:805-823 | Every award goes to an id that exactly one occupied seat holds |
| `Payout.EmptySeatsUnpaid` | phase12/src/game_state.cpp:805-823 | No empty seat is paid |
| `Seats.BetMoves` | phase12/src/player_state.cpp:8-17 | A bet creates no chips: the stack loses what bet and investment gain, all that was asked if the stack has it; the seat is all-in exactly by a positive stake that empties it |
| `Seats.BetsAdd` | phase12/src/player_state.cpp:8-17 | Two bets in a row are one bet of the sum, as far as the stack goes |
| `Seats.ReceiveReturns` | phase12/src/player_state.cpp:19-23 | A payout never takes chips away, changes nothing exactly when it is not positive, and gives back what a bet took |
| `GameState.GameState.ProcessAction` | phase12/src/game_state.cpp:247-434 | One whole action on the objects is the specified step, rejected ones changing nothing; an expired clock is settled first |
| `GameState.GameState.CheckTimeout` | phase12/src/game_state.cpp:436-475 | The timeout on the objects is the specified step |
| `GameState.GameState.AdvanceStreet` | phase12/src/game_state.cpp:477-552 | The street change on the objects, recursion included, is the specified one |
| `GameState.GameState.StartBettingRound` | phase12/src/game_state.cpp:554-587 | The round start on the objects is the specified one |
| `GameState.GameState.DoShowdown` | phase12/src/game_state.cpp:781-862 | Pays every pot to the seat objects as specified, and returns chips paid less chips wagered |
| `GameState.GameState.StartHand` | phase12/src/game_state.cpp:177-245 | Reset, shuffle, button, blinds, hole cards and first turn on the objects are the specified start, refused without any change |
| `GameState.GameState.PostBlinds` | phase12/src/game_state.cpp:638-669 | The blinds on the objects, the big one measured before the small one is posted |
| `GameState.GameState.DealHoleCards` | phase12/src/game_state.cpp:671-696 | Two cards to each sitting seat object in order |
| `GameState.GameState.IsBettingRoundComplete` | phase12/src/game_state.cpp:730-769 | The loops decide exactly: nobody active, or one live player, or all active have acted with equal bets |
| `GameState.GameState.NextActionSeat` | phase12/src/game_state.cpp:886-910 | The ring scan picks the next pending seat, else the next active one, else stays |
| `GameState.GameState.GetCurrentPlayerId` | phase12/src/game_state.cpp:912-936 | The turn seat if it is pending, else the first pending seat, else -1 |
| `GameState.GameState.LegalActions` | phase12/src/game_state.cpp:982-1027 | The list offered, for every id |
| `GameState.GameState.ObserveFor` | phase12/src/game_state.cpp:951-980 | The redacted view of the table |
| `GameState.GameState.RequestCashOut` | phase12/src/game_state.cpp:90-130 | Leaving mid-hand folds and stays seated; otherwise the stack is handed over and the seat emptied |
| `GameState.GameState.VacateLeavingPlayers` | phase12/src/game_state.cpp:132-148 | The sweep between hands: every leaving seat emptied, its stack listed as a credit |
| `GameState.GameState.AddPlayerAtSeat` | phase12/src/game_state.cpp:27-42 | Seats a new id in an empty seat with any stack, or changes nothing; the table stays valid unless the stack is negative |
| `GameState.GameState.SetPlayerChips` | phase12/src/game_state.cpp:940-949 | Resets one player's stack to any number and reports whether the player was found |
| `GameState.GameState.DealCommunity` | phase12/src/game_state.cpp:713-722 | Burns one and shows one for each card, within five |
| `Engine.ProcessActionHealthy` | phase12/src/game_state.cpp:247-434 | Any action by anybody, accepted by the raw validator, keeps chips and bets non-negative, no card in two places, every card in sight dealt from one whole deck, and enough deck for the board |
| `Engine.StartHandHealthy` | phase12/src/game_state.cpp:177-245 | So does starting a hand, at up to 21 seats |
| `Engine.CheckTimeoutHealthy` | phase12/src/game_state.cpp:436-475 | So does a timeout |
| `Engine.CashOutHealthy` | phase12/src/game_state.cpp:90-130 | So does leaving, mid-hand or not |
| `Engine.HandsEvaluable` | phase12/src/game_state.cpp:781-823 | Every pair of hole cards can be evaluated together with the board: all cards distinct |
| `DealOrder.HandPlaysItsDeck` | phase12/src/game_state.cpp:671-722 | Whatever is proposed, whenever clocks expire and however many turns are taken, a hand is in play with the hole cards its deck and seating fix, on a prefix of the one board they fix, or ended by a showdown of just those |
| `DealOrder.OpeningPlaces` | phase12/src/game_state.cpp:671-696 | Seat i holds the two cards after those of the seated players before it, and nothing else has been drawn |
| `DealOrder.PlayPlaces` | phase12/src/game_state.cpp:477-552 | A run that goes on keeps the hole cards and the board where the deck puts them |
| `DealOrder.BoardFromSize` | phase12/src/game_state.cpp:698-722 | The j-th board card is the second of the j-th pair after the hole cards: a burn before every one |
| `Redaction.ViewerLearnsNothing` | phase12/src/game_state.cpp:951-1027 | Two hands in play that differ only in the others' hole cards give the viewer equal observations and everybody equal legal actions after every sequence of the same moves that leaves them in play, and end after the same moves |
| `Redaction.ViewerSeesOwn` | phase12/src/game_state.cpp:951-980 | A player is shown exactly the two cards of his own seat, and an id that no seat holds none |
| `Redaction.ViewerSeesTable` | phase12/src/game_state.cpp:951-980 | Entry i of the players shown carries the id, state, stack, bet, stake, mark of action and position of seat i and whether it holds cards; the pot is the sum of the stakes |
| `Redaction.ViewsAgree` | phase12/src/game_state.cpp:951-1027 | At one moment: the observation and all legal actions do not depend on the others' hole cards |
| `Redaction.DealtHandsAlike` | phase12/src/game_state.cpp:177-245 | Decks that differ only in the others' hole cards start such hands |
| `Redaction.ActionAlike` | phase12/src/game_state.cpp:247-434 | An action is accepted in both hands or in neither, and leaves them alike until showdown |
| `Redaction.TimeoutAlike` | phase12/src/game_state.cpp:436-475 | A timeout does too |
| `Redaction.LeaveAlike` | phase12/src/game_state.cpp:90-130 | A player leaving does too, with the same stack handed over |
| `MatchRunner.RunMatch` | arena/src/match_runner.cpp:168-299 | For arbitrary agents and clocks: each agent's net is, over the rotations and the hands dealt in them, the sum of what the seat it played, (a + k - r mod k) mod k, was left with less the starting stack; the hands dealt are counted; and the conservation flag stays set if and only if every hand of every rotation ends, in which case the nets add up to zero, otherwise to less |
| `MatchRunner.HandEndsUnlessStranded` | arena/src/match_runner.cpp:252-262 | Hand h of a rotation ends if and only if none of its turns strands it |
| `MatchRunner.OnTimeMatch` | arena/src/match_runner.cpp:168-299 | When every clock is in time every hand of every rotation ends, so the flag stays set |
| `MatchRunner.DefaultGuardSuffices` | arena/src/match_runner.cpp:144 | The guard is enough for every number of players at the default stack |
| `MatchRunner.PlayRotation` | arena/src/match_runner.cpp:193-289 | A rotation credits every agent with what its seat made of the hands dealt, conserves if and only if all its hands end, and deals none after one left open |
| `MatchRunner.PlayAndSettle` | arena/src/match_runner.cpp:252-287 | One hand, credited to the agents seat by seat: stacks reset and the hand total zero if it ended, a negative total if it was left in play; after that no hand starts |
| `MatchRunner.PlayScheduled` | arena/src/match_runner.cpp:252-287 | Hand h of rotation r is dealt from the deck and with the button fixed for hand h, comes to an end exactly when the model says that hand ends, and credits agent a with the result of seat (a + k - r mod k) mod k |
| `MatchRunner.DecidesFor` | arena/src/match_runner.cpp:200-204 | In rotation r agent a decides for the player at seat (a + k - r mod k) mod k, and another agent for any other |
| `MatchRunner.AgentDecides` | arena/src/match_runner.cpp:145-152 | So the turns that seat takes in a hand are played by the proposals of the very agent its result is credited to |
| `MatchRunner.CreditedNets` | arena/src/match_runner.cpp:259-268 | Crediting seats to agents gives every agent the result of its own seat in that hand |
| `MatchAccounts.CutShort` | arena/src/match_runner.cpp:252-289 | After a hand left open no other is dealt, and a rotation cut short stands as if all its hands had been gone through |
| `MatchRunner.PlayOneHand` | arena/src/match_runner.cpp:141-164 | The loop on the objects plays exactly the run the proposals and clocks determine, or refuses to start |
| `MatchRunner.HandComes` | arena/src/match_runner.cpp:141-164 | From a table between hands of a match a hand starts, keeps its players, and ends at rest with the button moved on or is left open with chips in the pot |
| `MatchRunner.OpeningFixed` | arena/src/match_runner.cpp:193-289 | Whatever was played before and whoever sits where, hand h opens as a fixed table: same button, blinds, hole cards per seat, first player and deck to come |
| `MatchRunner.SameOpening` | phase12/src/game_state.cpp:177-245 | How a hand opens depends on seats, button, blinds and deck, and on nothing else earlier hands leave |
| `MatchRunner.EachSeatOnce` | arena/src/match_runner.cpp:201-207 | Over the k rotations each agent plays each seat in exactly one |
| `MatchRunner.Tally` | arena/src/match_runner.cpp:259-268 | Crediting stack differences to agents is a permutation of the seats and adds up to the chips at the table less the stacks dealt in |
| `Evaluator.Evaluate7` | core/src/evaluator.cpp:130-241 | The single pass over seven distinct cards returns the best value the cards support |
| `Evaluator.Evaluate5` | core/src/evaluator.cpp:113-118 | So does the five-card evaluator |
| `Evaluator.Evaluate5Sorted` | core/src/evaluator.cpp:56-111 | On five rank-sorted cards the histogram branches return the best value supported |
| `Evaluator.BestIsMaxOverPositions` | core/src/evaluator.cpp:130-241 | The value of any hand is the maximum over its increasing five-position selections, and attained: Evaluate7 refines the 21-subset form of Evaluate5 |
| `Evaluator.Sort5ByRank` | core/src/evaluator.cpp:10-24 | The compare-and-swap network on the array sorts by rank and is the network of nine comparators the source lists |
| `Evaluator.NetworkSorts` | core/src/evaluator.cpp:10-24 | That network sorts every five cards |
| `Evaluator.StraightChecked` | core/src/evaluator.cpp:32-48 | CheckStraight finds a straight, the wheel included, exactly when the five sorted ranks form one |
| `Evaluator.StraightFlushHasWheel` | core/src/evaluator.cpp:50-54 | The loops over the cards decide exactly "a wheel in this suit" |
| `HandRanking.BestIsMaxOverFives` | phase12/src/showdown_evaluator.cpp:13-46 | The best value of a set of cards is the largest best value of its five-card subsets, and one attains it |
| `HandRanking.BestIsUnique` | core/src/evaluator.cpp:56-111 | A set of cards has one best value |
| `HandRanking.SupportMonotone` | core/src/evaluator.cpp:130-241 | More cards support every value fewer cards support |
| `HandRanking.ValueIsLexicographic` | phase12/src/showdown_evaluator.cpp:191-192 | Comparing packed values is comparing category then ranks, lexicographically |
| `HandRanking.CategoryFirst` | phase12/src/showdown_evaluator.cpp:191-192 | From high card to straight flush, a hand of a higher category has the larger packed value whatever its ranks |
| `BestHands.FlushExcludesMultiples` | core/src/evaluator.cpp:130-241 | Seven cards with five of a suit hold no quads and no full house, so testing the flush first is right |
| `BestHands.StraightExcludesMultiples` | core/src/evaluator.cpp:130-241 | Seven cards with a straight hold no quads and no full house |
| `BestHands.BestExists` | core/src/evaluator.cpp:130-241 | Five or more cards always have a best value |
| `BestHand.BestFromCards` | phase12/src/showdown_evaluator.cpp:17-71 | For every number of distinct cards from five up, the value is the best and the five cards returned are among them and attain it |
| `BestHand.BestFromSeven` | phase12/src/showdown_evaluator.cpp:20-46 | The 21-row table search always finds the five cards |
| `BestHand.BestByMasks` | phase12/src/showdown_evaluator.cpp:47-71 | The permutation loop over 0/1 masks finds the best five |
| `BestHand.Combos21Complete` | phase12/src/showdown_evaluator.cpp:27-34 | The table lists every five positions out of seven |
| `BestHand.Evaluate` | phase12/src/showdown_evaluator.cpp:74-129 | The value used at showdown, with the cards attaining it outside the Omaha case |
| `Enumeration.NextPermutation` | phase12/src/showdown_evaluator.cpp:50-68 | std::next_permutation in place on a 0/1 mask: the next mask, or the last one reached |
| `Enumeration.SuccessorWalks` | phase12/src/showdown_evaluator.cpp:47-68 | Walking from the first mask visits the masks in rank order and stops after exactly C(n, k) |
| `Enumeration.MaskAtInjective` | phase12/src/showdown_evaluator.cpp:47-68 | No mask is visited twice |
| `Enumeration.TupleWalks` | equity/src/equity_calculator.cpp:189-217 | The increasing index tuples in order are each the successor of the one before; exactly C(n, k) of them |
| `Enumeration.TupleAtInjective` | equity/src/equity_calculator.cpp:189-217 | No index tuple is visited twice |
| `Equity.NextCombination` | equity/src/equity_calculator.cpp:206-213 | In place on the index array: the next increasing tuple, or unchanged at the last |
| `Equity.EnumerateBoards` | equity/src/equity_calculator.cpp:189-217 | The loop counts the verdict of every completion of the board exactly once |
| `Equity.CountOne` | equity/src/equity_calculator.cpp:157-222 | The counters for one pair of hands are those of all completions from the unused cards |
| `Equity.TryHand` | equity/src/equity_calculator.cpp:157-187 | A pair sharing a card is skipped, and the used[] marks are restored |
| `Equity.CalculateExact` | equity/src/equity_calculator.cpp:122-235 | The whole routine: sampled, or the exact counts over all compatible pairs |
| `Equity.RangeTotal` | equity/src/equity_calculator.cpp:122-235 | Wins, losses and ties add up to the total, which is the number of compatible pairs times C(48 - b, 5 - b) |
| `Equity.Evaluate7Cards` | equity/src/equity_calculator.cpp:93-120 | The head-to-head verdict on a full board depends on the set of board cards, not their order |
| `HeadToHead.VerdictOf` | equity/src/equity_calculator.cpp:18-28 | On a complete board the first hand wins, loses or ties exactly as its best value is larger than, smaller than or equal to the other's |
| `HeadToHead.PairCounts` | equity/src/equity_calculator.cpp:157-222 | The counters of a pair: on how many of the ways to complete the board the first hand's best value is the larger, the second's is, and they are equal |
| `HeadToHead.RangeCounts` | equity/src/equity_calculator.cpp:122-235 | The counters of the whole calculation are those numbers added up over every pair of hands that share no card |
| `HeadToHead.EquityCounts` | equity/src/equity_calculator.cpp:225-235 | The equity of a hand against another: of all the ways to complete the board those it wins, and half of those that are split |
| `EquityMartingale.CombosCount` | equity/src/equity_calculator.cpp:145-147 | The work estimate built up term by term is a binomial coefficient, the ways to pick the missing cards from one less than the board leaves |
| `Equity.AvailSize` | equity/src/equity_calculator.cpp:189-193 | Two hands and b board cards leave 48 - b cards |
| `EquityMartingale.CountsMartingale` | equity/src/equity_calculator.cpp:122-235 | Summed over every next card, the win, loss or tie count is the cards still to come times the count now |
| `EquityMartingale.EquityIsMartingale` | arena/src/match_runner.cpp:36-46 | So the exact equity now is the average of the equities after the next card |
| `EquityMartingale.CalculatedEquityIsMartingale` | equity/src/equity_calculator.cpp:122-235 | The same of the counts CalculateExact returns for two hands when it enumerates, before and after one next card |
| `ControlVariate.EventAverages` | phase12/src/game_state.cpp:503-530 | Over every way the cards of one event may fall, one to five of them, the exact equity after them has the exact equity before them as its mean |
| `ControlVariate.MeanZeroIff` | arena/src/match_runner.cpp:53-66 | The control variate of a whole run-out, its events averaged over every way their cards may fall, has mean zero if and only if nothing is matched, the run-out starts from the flop or later, or the sampled equity before the flop equals the exact one |
| `ControlVariate.BeforeFlopMean` | arena/src/match_runner.cpp:53-66 | When it starts before the flop its mean is the exact equity less the sampled one, in chips: a bias that further events do not undo |
| `ControlVariate.HeadsUpEquity` | arena/src/match_runner.cpp:53-66 | 20000 samples before the flop, the exact counts from it on |
| `ControlVariate.RunoutTracker.Observe` | arena/src/match_runner.cpp:215-249 | The callback, given the seats: with exactly two players left and one all-in, the change in what the board is worth to the agent, in chips both have matched, is added; otherwise nothing is; every event moves the board compared with |
| `ControlVariate.ForcedIs` | arena/src/match_runner.cpp:233-236 | With two players left a run-out is forced exactly when one of them is all-in |
| `ControlVariate.WorthIs` | arena/src/match_runner.cpp:227-246 | What a board is worth to one of the two: twice the smaller of what they have put in, times the equity of his own cards against the other's, exact from the flop on |
| `ControlVariate.Collect` | arena/src/match_runner.cpp:215-230 | The loop over the players counts those left and those all-in and keeps the first two left |
| `EquityMartingale.RangeOfPair` | equity/src/equity_calculator.cpp:122-235 | One hand against one: the counts over the ranges are those of the pair |
| `EquityMartingale.DoubleCount` | equity/src/equity_calculator.cpp:189-217 | Counting pairs of a k-set and a member of it both ways |
| `EquityMartingale.CountsAreFamilies` | equity/src/equity_calculator.cpp:189-217 | The loop's counter is the size of a family of card sets: each completion counted once |
| `EquityMartingale.TrialsAfter` | equity/src/equity_calculator.cpp:189-217 | After any next card the number of completions is the same |
| `EquityMartingale.Absorption` | equity/src/equity_calculator.cpp:189-217 | n·C(n-1, k-1) = k·C(n, k) |
| `Hashing.Sha256Stream.Update` | phase12/src/dealer.cpp:27-36 | Absorbing in pieces of any size amounts to absorbing the bytes in order, over a 64-byte buffer |
| `Hashing.Sha256Stream.Finalize` | phase12/src/dealer.cpp:51-67 | The digest is the block function folded over the message padded as in section 5.1.1 of FIPS 180-4 |
| `Hashing.Sha256Stream.FillZeros` | phase12/src/dealer.cpp:55-56 | The zero-fill loop ends, having added exactly the zeros the padding asks for |
| `Hashing.HashPieces` | phase12/src/dealer.cpp:27-67 | Every way of splitting a message into pieces gives the same digest |
| `Hashing.HmacStream.Finalize` | phase12/src/dealer.cpp:144-188 | The streaming object computes the construction in section 2 of RFC 2104 |
| `Hashing.PaddedKey` | phase12/src/dealer.cpp:146-165 | Long keys are hashed, short ones padded with zeros to a block |
| `Dealer.PrfStream.NextByte` | phase12/src/dealer.cpp:197-212 | Byte i of the stream is byte i mod 32 of HMAC block i / 32 |
| `Dealer.TapeByte` | phase12/src/dealer.cpp:197-212 | Byte r of block i is byte r of the HMAC, under the seed, of the letters fy, the nonce and the number of the block |
| `Dealer.PrfStream.Uniform` | phase12/src/dealer.cpp:215-228 | For every n: below 2 nothing is drawn; otherwise the draw is the residue of the first word kept, below n, and consumes exactly the words up to it |
| `Dealer.SamplerBias` | phase12/src/dealer.cpp:215-228 | The test keeps one word too many: residue 0 has one more word than every other, which have equally many |
| `Dealer.ShufflePermutes` | phase12/src/dealer.cpp:266-269 | Fisher-Yates permutes the deck |
| `Dealer.ShuffleInjective` | phase12/src/dealer.cpp:266-269 | Different draws give different decks |
| `Dealer.ShuffleReaches` | phase12/src/dealer.cpp:266-269 | Every permutation is reached by some draws, so with injectivity by exactly one |
| `Dealer.ShuffleKeepsApart` | phase12/src/dealer.cpp:266-269 | The same draws take different starting orders to different decks |
| `Dealer.FirstDraw` | phase12/src/dealer.cpp:215-272 | The first word of the keyed stream that is small enough chooses by its residue the card that ends up last |
| `Dealer.PermutedIsFull` | phase12/src/dealer.cpp:246-272 | A permuted full deck is full |
| `Dealer.ReplayIff` | phase12/src/dealer.cpp:280-305 | Reseeding from the published hex and shuffling again reproduces the dealt deck if and only if it starts from the same order |
| `Dealer.HexRoundTrip` | phase12/src/dealer.cpp:112-123 | The seed read back from its hex is the seed |
| `Dealer.Dealer.Shuffle` | phase12/src/dealer.cpp:246-272 | The deck after a shuffle is the specified permutation of the deck before, not of a sorted one; seed, nonce, commitment and proof as specified |
| `Dealer.Dealer.Reseed` | phase12/src/dealer.cpp:280-292 | For every string: the seed bytes its pairs cover are replaced and the commitment recomputed, or the first pair that is not a number throws, with just the bytes before it replaced |
| `Dealer.Dealer.ShuffleWithSeed` | phase12/src/dealer.cpp:294-305 | The same shuffle under the stored seed and nonce |
| `Dealer.Dealer.FisherYatesInPlace` | phase12/src/dealer.cpp:264-269 | The in-place loop of swaps is Fisher-Yates with the stream's draws |
| `Dealer.Dealer.DealOne` | phase12/src/dealer.cpp:318-323 | The next card, or none after 52; the deck itself never moves |
| `ModelCodec.RoundTrip` | phase15/src/cfr_model.cpp:152-204 | Decompressing what was compressed returns the same keys in the same order and the same quantised values, for every list of nodes |
| `ModelCodec.ReadsBack` | phase15/src/cfr_model.cpp:132-150 | A varint is read back wherever it stands, consuming exactly what was written |
| `ModelCodec.Leb128` | phase15/src/cfr_model.cpp:132-138 | The code of a number: seven bits to a byte, the lowest first, the top bit set on all but the last byte, no byte more than needed |
| `ModelCodec.RecordIs` | phase15/src/cfr_model.cpp:155-169 | A node is written as its key less the key before modulo 2^64, then five regrets and five strategy sums in order, each as 2v or -2v - 1 |
| `ModelCodec.RecordsGrow` | phase15/src/cfr_model.cpp:155-169 | One more node at the end adds its record, told from the key of the node before it |
| `ModelCodec.ZigzagRoundTrip` | phase15/src/cfr_model.cpp:161-197 | Zigzag is 2v or -2v - 1 and every int64 comes back |
| `ModelCodec.ZigzagOnto` | phase15/src/cfr_model.cpp:161-197 | Every 64-bit code is the code of some value |
| `ModelCodec.DeltaRoundTrip` | phase15/src/cfr_model.cpp:155-186 | Keys in any order come back from their differences |
| `ModelCodec.DeltaIsModular` | phase15/src/cfr_model.cpp:155-186 | Those differences are subtraction and addition modulo 2^64 |
| `ModelCodec.WriteVarInt` | phase15/src/cfr_model.cpp:132-138 | The loop appends the unsigned LEB128 code of section 7.6 of DWARF 5 |
| `ModelCodec.ReadVarInt` | phase15/src/cfr_model.cpp:140-150 | The shifting loop returns the low 64 bits of the value and the advanced pointer, truncated data included |
| `ModelCodec.CompressNodes` | phase15/src/cfr_model.cpp:152-172 | The loops write the specified format |
| `ModelCodec.DecompressNodes` | phase15/src/cfr_model.cpp:174-204 | The loops read the specified format |
| `ChipLedger.RunAgrees` | phase14/src/chip_ledger.cpp:23-98 | After any run that opens each id once, with any successes and failures, every balance is the signed sum of its rows, every row's balance_after is its prefix sum, within 0 and INT64_MAX |
| `ChipLedger.DeltaAgrees` | phase14/src/chip_ledger.cpp:23-98 | ApplyDelta keeps the agreement, and a failure changes nothing |
| `Balances.DeltaDoes` | phase14/src/chip_ledger.cpp:23-98 | Exactly when the account exists, the new balance fits and no write is lost, a delta moves that one balance by its amount and leaves one row with player, kind, amount and new balance |
| `ChipLedger.SaveAgreesIff` | phase14/src/account_repository.cpp:67-95 | SaveAccount keeps the agreement if and only if the id's rows so far sum to zero |
| `ChipLedger.DeleteAgrees` | phase14/src/account_repository.cpp:131-144 | DeleteAccount, which removes the rows with the account, keeps it |
| `ChipLedger.RunningTotalFits` | phase14/src/chip_ledger.cpp:151-187 | No running total of Reconcile can leave the int64 range |
| `ChipLedger.RunReconciles` | phase14/src/chip_ledger.cpp:151-187 | After such a run every account reconciles |
| `ChipLedger.ChipLedger.ApplyDelta` | phase14/src/chip_ledger.cpp:23-98 | The transaction on the tables: checked, committed whole, or rolled back whole at any point of failure |
| `ChipLedger.ChipLedger.DebitBuyIn` | phase14/src/chip_ledger.cpp:100-106 | A non-positive amount is refused; otherwise a negative delta |
| `ChipLedger.ChipLedger.Credit` | phase14/src/chip_ledger.cpp:108-130 | A non-positive amount is refused; otherwise a positive delta of the given kind |
| `ChipLedger.ChipLedger.Reconcile` | phase14/src/chip_ledger.cpp:151-187 | The report says balanced if and only if every balance is the signed sum of its rows |
| `ChipLedger.SaveReadsBack` | phase14/src/account_repository.cpp:67-95 | A saved account reads back its chips, in one new row at the end of the log; no other balance or sum moves |
| `ChipLedger.ChipLedger.DeleteAccount` | phase14/src/account_repository.cpp:131-144 | Removes the account and its rows |
| `Ownership.RunOwned` | cli/poker_ws_server.cpp:646-759 | Over any run of buy-ins, refunds, hands, cash-outs and sweeps wallets plus stacks plus wagers rises by at most what unpaid buy-ins mint, and stays below that if and only if some step is not safe where it is taken |
| `Ownership.StepOwned` | cli/poker_ws_server.cpp:646-759 | No step creates a chip but for the amount of a seated buy-in whose id is not positive, and a step keeps all of them if and only if it is safe, a condition on the state before it: credits that reach a wallet, no wagers left behind, and a showdown, if the round closes into one, somebody can collect |
| `Ownership.BuyInOwned` | cli/poker_ws_server.cpp:732-759 | A buy-in conserves, but for what it mints, if and only if it is refused, seats the player, or its refund goes through |
| `Ownership.LeaveOwned` | phase12/src/game_state.cpp:90-130 | Leaving conserves if and only if the credit goes through and the seat leaves no wagers behind; a player who has folded in the live hand does |
| `Ownership.SweepOwned` | cli/poker_ws_server.cpp:1082-1101 | The hand-end sweep conserves if and only if every stack swept goes through to a wallet |
| `Ownership.ActOwned` | phase12/src/game_state.cpp:247-434 | Any action by anybody keeps every chip if and only if the round does not close into a showdown, or the showdown is funded |
| `Ownership.ExpireOwned` | phase12/src/game_state.cpp:436-475 | So does an expired clock |
| `Ownership.StartMoves` | phase12/src/game_state.cpp:177-245 | Starting a hand keeps every chip if and only if two players are dealt in able to bet, or the stakes are funded |
| `Ownership.UnpaidSeat` | cli/poker_ws_server.cpp:646-666 | For every id that is not positive nothing is debited or refunded: the amount appears from nowhere if and only if the player is seated |
| `Balances.BuyInDoes` | cli/poker_ws_server.cpp:732-759 | Balance by balance: a buy-in takes the amount from the buyer and puts it in front of him at that seat; refused, he has it back unless the refund is lost; nobody else's balance or seat changes |
| `Balances.CashOutDoes` | phase12/src/game_state.cpp:90-130 | Leaving: an active player folds and keeps his seat until the hand is over, an all-in one stays in, anybody else is paid his stack and the seat is emptied |
| `Balances.LeaveDoes` | cli/poker_ws_server.cpp:695-716 | The one who leaves, and nobody else, is credited with the stack of his seat, unless that is lost |
| `Balances.SweepDoes` | cli/poker_ws_server.cpp:1082-1101 | After the hand-end sweep each player who was leaving has the stack of his own seat more, unless his credit is lost |
| `Balances.SweepKeeps` | cli/poker_ws_server.cpp:1082-1101 | And nobody else's balance moves |
| `TableServer.TableServer.SeatPlayerWithBuyIn` | cli/poker_ws_server.cpp:732-759 | Debit, seat, refund on failure: on the objects, the specified step; true exactly when the buy-in is within limits, debited and seated |
| `TableServer.TableServer.LeaveTableWithCashOut` | cli/poker_ws_server.cpp:695-716 | Cash-out and credit on the objects are the specified step; it reports whether the player was at the table and the stack handed over |
| `TableServer.TableServer.SweepLeavers` | cli/poker_ws_server.cpp:1082-1101 | The sweep loop on the objects is the specified step |

## Left out

- GameState.GameState.DealHoleCards: the order in which the two DealOne calls of one seat are evaluated is unspecified in the source; the model takes the first argument first. The 0xFF card of an exhausted deck cannot occur within 21 seats.
- Dealer.PrfStream.Uniform: the four NextByte calls of one word are likewise taken left to right, and a draw of n > 1 is described when some word to come is kept; without one the source loops.
- Dealer.Dealer.Reseed: the exception is a returned flag; a hand is only started from a seed string all of whose pairs are numbers.
- Showdown.EvaluatePot: std::sort leaves the order of equal hands open, and with it who gets an odd chip; the model keeps eligible order; likewise contributors with equal stakes stay in seat order. Evaluation of all pots is done before any is paid, which is the same because evaluation reads no stack.
- BestHand.Evaluate: four hole cards on a full board get the value -1 and no cards, as in a build without the Omaha tables; the foreign evaluator of other builds is left out.
- Equity.CalculateExact: the first hand of a pair must avoid the board, which the source does not check (with a clash it evaluates seven cards of which two are the same); the Monte Carlo paths give an unspecified sampled result; ranges are lists of their hands, and the final division to percentages is not modelled.
- EquityMartingale.CalculatedEquityIsMartingale: stated over real numbers; the double arithmetic of the control variate and of the match statistics is not modelled.
- ControlVariate.RunoutTracker.Observe: in a forced run-out both players must hold cards that go with the board, as they do when stacks exceed a big blind; the sampled equity before the flop is a parameter, and the mean is taken over every card still unseen being equally likely to come.
- MatchRunner.PlayRotation: like RunMatch, for starting stacks above a big blind, since at or below it a blind leaves its owner all-in without cards (Departures.BlindsLoseStacks), and for at most 21 players, since with more the deck does not cover the board.
- MatchRunner.RunMatch: the same starting stacks and players as PlayRotation; decks come from a parameter rather than from the splitmix chain that derives per-hand seeds; statistics and confidence intervals are left out.
- ModelCodec.CompressNodes: quantised values are integers; the scaling to and from doubles and the visit counts, which the format does not store, are left out, and value lists have the full fixed length.
- ModelCodec.ReadVarInt: a malformed varint with more than ten bytes shifts by 64 or more, which C++ leaves undefined; the model keeps the low 64 bits.
- ModelCodec.DecompressNodes: values missing from truncated data are absent rather than uninitialised.
- Hashing.Sha256Stream.Finalize: the bit length is taken modulo 2^64 as in the source; the block function itself is uninterpreted.
- TableServer.TableServer.LeaveTableWithCashOut: the reply text and the balance reported to the client are not modelled; the hand-end callback is a separate sweep step between hands.
- ChipLedger.ChipLedger.ApplyDelta: a transaction is one atomic step with a parameter saying where it fails; SQL, the wallet mirror and UpdateStats are left out.
- Ownership.RunOwned: no buy-in for the id 0, with which the engine marks empty seats; an amount within the limits is positive.
- FirstActor.HandFirstActor: with shorter stacks a blind can be all-in without cards, and when that leaves two able to act the round starts at the button.
- RawPlay.RunsEnd: says nothing of chips; which showdowns conserve them is Payout.ShowdownConservesIff and Ownership.StepOwned.
- Chips are unbounded integers: no sum in the engine exceeds the chips at the table, and the ledger's int64 range is checked explicitly. Validate's use of double for the minimum raise is exact below 2^53.
- RemovePlayer, SitDown, StandUp, reconnects and disconnect grace, event callbacks, the event log, mutexes, the per-status counters num_active_, num_all_in_ and num_folded_, CheckCapEffect and the never-entered ERROR phase.
- Tournaments, replay files, matchmaking, chat, CFR training, anti-cheat scores, preflop tables, HTTP, WebSocket and JSON handling, and the front end.
