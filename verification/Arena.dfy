/** The agents' side of a decision (arena/src/match_runner.cpp): SafeFallback and Sanitize, for every
    proposal. */
module Arena {
  import opened Arithmetic
  import opened Cards
  import opened Seats
  import opened Betting
  import opened HandSpec
  import opened Payout
  import opened HandInvariant
  import opened LegalPlay
  import opened Opening

  datatype Pick = NoPick | Pick(action: GameAction)

  /** The last legal action of a kind, as the pointer-setting loop leaves it. */
  function LastOf(legal: seq<GameAction>, kinds: set<ActionType>): (p: Pick)
    ensures p.Pick? ==> p.action in legal && p.action.kind in kinds
    ensures p.NoPick? ==> forall a :: a in legal ==> a.kind !in kinds
  {
    if legal == [] then NoPick
    else
      var n := |legal| - 1;
      if legal[n].kind in kinds then Pick(legal[n]) else LastOf(legal[..n], kinds)
  }

  /** The first legal CHECK, where the source's loop returns. */
  function FirstCheck(legal: seq<GameAction>): (p: Pick)
    ensures p.Pick? ==> p.action in legal && p.action.kind == Check
    ensures p.NoPick? ==> forall a :: a in legal ==> a.kind != Check
  {
    if legal == [] then NoPick
    else
      var n := |legal| - 1;
      var p := FirstCheck(legal[..n]);
      if p.Pick? then p else if legal[n].kind == Check then Pick(legal[n]) else NoPick
  }

  /** Check if possible, else call, else fold. */
  function SafeFallback(legal: seq<GameAction>, id: int): GameAction {
    var check, call := FirstCheck(legal), LastOf(legal, {Call});
    if check.Pick? then check.action
    else if call.Pick? then call.action
    else GameAction(Fold, 0, id)
  }

  /** Chips plus current bet of the first seat holding the id. */
  function MaxTotal(seats: seq<Seat>, id: int): Chips {
    var i := SeatOf(seats, id);
    if i < 0 then 0 else seats[i].chips + seats[i].bet
  }

  /** The last legal action of each kind the proposal may be mapped to. */
  datatype Options = Options(check: Pick, call: Pick, minAgg: Pick, allIn: Pick)

  function OptionsOf(legal: seq<GameAction>): Options {
    Options(LastOf(legal, {Check}), LastOf(legal, {Call}), LastOf(legal, {Bet, Raise}), LastOf(legal, {AllInMove}))
  }

  /** Map a proposal onto the legal actions. */
  function Sanitize(legal: seq<GameAction>, seats: seq<Seat>, id: int, action: GameAction): GameAction {
    Choose(OptionsOf(legal), SafeFallback(legal, id), MaxTotal(seats, id), action)
  }

  function Choose(o: Options, fallback: GameAction, maxTotal: Chips, action: GameAction): GameAction {
    var passive := if o.check.Pick? then o.check.action else fallback;
    match action.kind
    case Fold => if o.check.Pick? then o.check.action else action
    case Check => passive
    case Call => if o.call.Pick? then o.call.action else passive
    case AllInMove => if o.allIn.Pick? then o.allIn.action else passive
    case Other => passive
    case _ =>
      if o.minAgg.NoPick? then (if o.allIn.Pick? then o.allIn.action else passive)
      else if action.amount > o.minAgg.action.amount then
        o.minAgg.action.(amount := Betting.Min(action.amount, maxTotal))
      else o.minAgg.action
  }

  // ---------- every proposal is playable ----------

  /** The seat to act is the one every lookup finds. */
  lemma {:induction false} ActorFound(t: Table)
    requires AwaitsAction(t)
    ensures CurrentSeat(t) == t.turn && CurrentPlayerId(t) == t.seats[t.turn].id > 0
    ensures ActiveSeatOf(t.seats, t.seats[t.turn].id) == t.turn
    ensures MaxTotal(t.seats, t.seats[t.turn].id) == t.seats[t.turn].chips + t.seats[t.turn].bet
  {
    var id := t.seats[t.turn].id;
    var k := ActiveSeatOf(t.seats, id);
    assert k == t.turn;
    assert SeatOf(t.seats, id) == t.turn;
  }

  /** What the player to act is offered: fold, check or call, the smallest raise if the stack
      reaches it, and all-in. */
  lemma {:induction false} LegalMembers(t: Table, a: GameAction)
    requires AwaitsAction(t)
    ensures var s := t.seats[t.turn]; var id := s.id;
      var mr := CalculateMinRaise(s, t.currentBet, t.bigBlind, t.lastRaise);
      a in LegalActions(t, id) <==>
        || a == GameAction(Fold, 0, id)
        || a == (if ToCall(s, t.currentBet) == 0 then GameAction(Check, 0, id) else GameAction(Call, 0, id))
        || (!mr.isAllInLess && a == GameAction(if t.currentBet == 0 then Bet else Raise, mr.minRaiseTo, id))
        || a == GameAction(AllInMove, 0, id)
  {
    var s := t.seats[t.turn];
    var id, mr := s.id, CalculateMinRaise(s, t.currentBet, t.bigBlind, t.lastRaise);
    var passive := if ToCall(s, t.currentBet) == 0 then GameAction(Check, 0, id) else GameAction(Call, 0, id);
    var raise := GameAction(if t.currentBet == 0 then Bet else Raise, mr.minRaiseTo, id);
    var fold, allIn := GameAction(Fold, 0, id), GameAction(AllInMove, 0, id);
    assert LegalActions(t, id) == if mr.isAllInLess then [fold, passive, allIn] else [fold, passive, raise, allIn];
  }

  /** No deadlock: the current player, and nobody else, is always offered something. */
  lemma {:induction false} OnlyActorIsOffered(t: Table, id: int)
    requires AwaitsAction(t)
    ensures LegalActions(t, id) != [] <==> id == CurrentPlayerId(t)
  {
    ActorFound(t);
    LegalMembers(t, GameAction(AllInMove, 0, t.seats[t.turn].id));
  }

  /** The pointers Sanitize and SafeFallback set from that list. */
  lemma {:induction false} LegalPicks(t: Table)
    requires AwaitsAction(t)
    ensures var s := t.seats[t.turn]; var id := s.id; var legal := LegalActions(t, id);
      var mr := CalculateMinRaise(s, t.currentBet, t.bigBlind, t.lastRaise);
      && LastOf(legal, {Check}) == (if ToCall(s, t.currentBet) == 0 then Pick(GameAction(Check, 0, id)) else NoPick)
      && FirstCheck(legal) == LastOf(legal, {Check})
      && LastOf(legal, {Call}) == (if ToCall(s, t.currentBet) > 0 then Pick(GameAction(Call, 0, id)) else NoPick)
      && LastOf(legal, {AllInMove}) == Pick(GameAction(AllInMove, 0, id))
      && LastOf(legal, {Bet, Raise}) ==
           (if mr.isAllInLess then NoPick else Pick(GameAction(if t.currentBet == 0 then Bet else Raise, mr.minRaiseTo, id)))
  {
    var s := t.seats[t.turn];
    var id, legal := s.id, LegalActions(t, s.id);
    var mr := CalculateMinRaise(s, t.currentBet, t.bigBlind, t.lastRaise);
    LegalMembers(t, GameAction(Check, 0, id));
    LegalMembers(t, GameAction(Call, 0, id));
    LegalMembers(t, GameAction(AllInMove, 0, id));
    LegalMembers(t, GameAction(if t.currentBet == 0 then Bet else Raise, mr.minRaiseTo, id));
    PickMember(t, LastOf(legal, {Check}));
    PickMember(t, FirstCheck(legal));
    PickMember(t, LastOf(legal, {Call}));
    PickMember(t, LastOf(legal, {AllInMove}));
    PickMember(t, LastOf(legal, {Bet, Raise}));
  }

  lemma {:induction false} PickMember(t: Table, p: Pick)
    requires AwaitsAction(t)
    ensures var s := t.seats[t.turn]; var id := s.id;
      var mr := CalculateMinRaise(s, t.currentBet, t.bigBlind, t.lastRaise);
      p.Pick? && p.action in LegalActions(t, id) ==>
        || p.action == GameAction(Fold, 0, id)
        || p.action == (if ToCall(s, t.currentBet) == 0 then GameAction(Check, 0, id) else GameAction(Call, 0, id))
        || (!mr.isAllInLess && p.action == GameAction(if t.currentBet == 0 then Bet else Raise, mr.minRaiseTo, id))
        || p.action == GameAction(AllInMove, 0, id)
  {
    if p.Pick? { LegalMembers(t, p.action); }
  }

  /** The action passes validation and is a legal move. */
  ghost predicate Playable(t: Table, a: GameAction)
    requires t.Shaped()
  {
    var v := Validate(a, t.seats[t.turn], t.currentBet, t.bigBlind, t.lastRaise);
    v.Valid? && LegalMove(t, a.kind, v.amount)
  }

  /** Check when that is free, call otherwise. */
  function Passive(t: Table): GameAction
    requires t.Shaped()
  {
    GameAction(if ToCall(t.seats[t.turn], t.currentBet) == 0 then Check else Call, 0, t.seats[t.turn].id)
  }

  /** What a proposal comes to: no fold for free, and a size held between the smallest full raise
      and all-in, or all-in when the stack falls short of it. */
  function Chosen(t: Table, proposal: GameAction): GameAction
    requires t.Shaped()
  {
    var s := t.seats[t.turn];
    var minTo, allInTo := MinRaiseTo(t.currentBet, t.bigBlind, t.lastRaise), s.chips + s.bet;
    match proposal.kind
    case Fold => if ToCall(s, t.currentBet) == 0 then Passive(t) else proposal
    case AllInMove => GameAction(AllInMove, 0, s.id)
    case Bet => Sized(t, proposal.amount, minTo, allInTo)
    case Raise => Sized(t, proposal.amount, minTo, allInTo)
    case _ => Passive(t)
  }

  function Sized(t: Table, amount: Chips, minTo: Chips, allInTo: Chips): GameAction
    requires t.Shaped()
  {
    var id := t.seats[t.turn].id;
    if allInTo < minTo then GameAction(AllInMove, 0, id)
    else GameAction(if t.currentBet == 0 then Bet else Raise, if amount > minTo then Betting.Min(amount, allInTo) else minTo, id)
  }

  lemma {:induction false} FallbackIsPassive(t: Table)
    requires AwaitsAction(t)
    ensures var id := t.seats[t.turn].id; SafeFallback(LegalActions(t, id), id) == Passive(t)
  {
    LegalPicks(t);
  }

  /** The options of the player to act. */
  function OptionsFor(t: Table): Options
    requires t.Shaped()
  {
    var s := t.seats[t.turn];
    var minTo := MinRaiseTo(t.currentBet, t.bigBlind, t.lastRaise);
    Options(if ToCall(s, t.currentBet) == 0 then Pick(Passive(t)) else NoPick,
            if ToCall(s, t.currentBet) == 0 then NoPick else Pick(Passive(t)),
            if s.chips + s.bet < minTo then NoPick else Pick(GameAction(if t.currentBet == 0 then Bet else Raise, minTo, s.id)),
            Pick(GameAction(AllInMove, 0, s.id)))
  }

  lemma {:induction false} OptionsFound(t: Table)
    requires AwaitsAction(t)
    ensures OptionsOf(LegalActions(t, t.seats[t.turn].id)) == OptionsFor(t)
  {
    LegalPicks(t);
  }

  lemma {:induction false} ChooseIsChosen(t: Table, proposal: GameAction)
    requires t.Shaped()
    ensures Choose(OptionsFor(t), Passive(t), t.seats[t.turn].chips + t.seats[t.turn].bet, proposal) == Chosen(t, proposal)
  {
  }

  lemma {:induction false} SanitizeChooses(t: Table, proposal: GameAction)
    requires AwaitsAction(t)
    ensures var id := t.seats[t.turn].id; Sanitize(LegalActions(t, id), t.seats, id, proposal) == Chosen(t, proposal)
  {
    var id := t.seats[t.turn].id;
    OptionsFound(t);
    ActorFound(t);
    FallbackIsPassive(t);
    SanitizeBy(LegalActions(t, id), t.seats, id, proposal, OptionsFor(t), Passive(t), t.seats[t.turn].chips + t.seats[t.turn].bet);
    ChooseIsChosen(t, proposal);
  }

  lemma {:induction false} SanitizeBy(legal: seq<GameAction>, seats: seq<Seat>, id: int, proposal: GameAction,
                                      o: Options, fallback: GameAction, maxTotal: Chips)
    requires o == OptionsOf(legal) && fallback == SafeFallback(legal, id) && maxTotal == MaxTotal(seats, id)
    ensures Sanitize(legal, seats, id, proposal) == Choose(o, fallback, maxTotal, proposal)
  {
  }

  lemma {:induction false} PassivePlayable(t: Table)
    requires AwaitsAction(t)
    ensures Playable(t, Passive(t)) && Passive(t).kind in {Check, Call}
  {
  }

  /** Whatever an agent proposes, the sanitised action is playable, unless it is a FOLD carrying a
      negative amount facing a bet, and then it is turned down. A fold is never chosen when checking
      is free. */
  lemma {:induction false} ChosenPlayable(t: Table, proposal: GameAction)
    requires AwaitsAction(t)
    ensures var a := Chosen(t, proposal);
      && (Playable(t, a) <==> !(proposal.kind == Fold && proposal.amount < 0 && ToCall(t.seats[t.turn], t.currentBet) > 0))
      && (!Playable(t, a) ==> Validate(a, t.seats[t.turn], t.currentBet, t.bigBlind, t.lastRaise).Invalid?)
      && (a.kind == Fold ==> ToCall(t.seats[t.turn], t.currentBet) > 0)
  {
    PassivePlayable(t);
    if proposal.kind in {Bet, Raise} { SizedPlayable(t, proposal.amount); }
  }

  lemma {:induction false} SizedPlayable(t: Table, amount: Chips)
    requires AwaitsAction(t)
    ensures var s := t.seats[t.turn];
      var a := Sized(t, amount, MinRaiseTo(t.currentBet, t.bigBlind, t.lastRaise), s.chips + s.bet);
      Playable(t, a) && a.kind in {Bet, Raise, AllInMove}
  {
    var s := t.seats[t.turn];
    var minTo, allInTo := MinRaiseTo(t.currentBet, t.bigBlind, t.lastRaise), s.chips + s.bet;
    if allInTo >= minTo {
      RaisePlayable(t, if amount > minTo then Betting.Min(amount, allInTo) else minTo);
    }
  }

  /** Any size between the minimum and all-in is playable. */
  lemma {:induction false} RaisePlayable(t: Table, amount: Chips)
    requires AwaitsAction(t)
    requires MinRaiseTo(t.currentBet, t.bigBlind, t.lastRaise) <= amount <= t.seats[t.turn].chips + t.seats[t.turn].bet
    ensures Playable(t, GameAction(if t.currentBet == 0 then Bet else Raise, amount, t.seats[t.turn].id))
  {
    assert SeatOk(t.seats[t.turn], t.currentBet);
  }

  // ---------- one decision of the loop ----------

  /** Ask, sanitise, act; on rejection act with the fallback; on a second rejection give up. */
  ghost function ArenaStep(t: Table, proposal: GameAction): Outcome
    requires t.Shaped()
  {
    var cur := CurrentPlayerId(t);
    if cur < 0 then Rejected
    else
      var legal := LegalActions(t, cur);
      var first := ProcessAction(t, cur, Sanitize(legal, t.seats, cur, proposal).(playerId := cur));
      if first.Accepted? then first
      else ProcessAction(t, cur, SafeFallback(legal, cur).(playerId := cur))
  }

  lemma {:induction false} PlayableIsProcessed(t: Table, a: GameAction)
    requires AwaitsAction(t) && Owned(t)
    ensures var id := t.seats[t.turn].id;
      var v := Validate(a, t.seats[t.turn], t.currentBet, t.bigBlind, t.lastRaise);
      && (v.Invalid? ==> ProcessAction(t, id, a).Rejected?)
      && (Playable(t, a) ==> ProcessAction(t, id, a).Accepted? && Stepped(t, ProcessAction(t, id, a).after))
  {
    ActorFound(t);
    if Playable(t, a) {
      StepKeeps(t, a.kind, Validate(a, t.seats[t.turn], t.currentBet, t.bigBlind, t.lastRaise).amount);
    }
  }

  /** The loop never gets stuck: every decision is carried out as a legal step. */
  lemma {:induction false} ArenaStepKeeps(t: Table, proposal: GameAction)
    requires AwaitsAction(t) && Owned(t)
    ensures ArenaStep(t, proposal).Accepted? && Stepped(t, ArenaStep(t, proposal).after)
  {
    ActorFound(t);
    var id := t.seats[t.turn].id;
    SanitizeChooses(t, proposal);
    ChosenPlayable(t, proposal);
    FallbackIsPassive(t);
    PassivePlayable(t);
    SamePlayable(t, Chosen(t, proposal), id);
    PlayableIsProcessed(t, Chosen(t, proposal).(playerId := id));
    PlayableIsProcessed(t, Passive(t));
  }

  lemma {:induction false} SamePlayable(t: Table, a: GameAction, id: int)
    requires t.Shaped()
    ensures Playable(t, a) == Playable(t, a.(playerId := id))
    ensures Validate(a, t.seats[t.turn], t.currentBet, t.bigBlind, t.lastRaise)
         == Validate(a.(playerId := id), t.seats[t.turn], t.currentBet, t.bigBlind, t.lastRaise)
  {
  }
}
