/** Where the engine does less than its guarantees say, and exactly when: actions the raw validator
    lets through, and blinds that leave nobody to win. */
module Departures {
  import opened Arithmetic
  import opened Cards
  import opened Seats
  import opened Betting
  import opened HandSpec
  import opened Payout
  import opened HandInvariant
  import opened LegalPlay
  import opened Opening
  import opened Arena

  // ---------- the raw validator ----------

  function Verdict(t: Table, a: GameAction): Validation
    requires t.Shaped()
  {
    Validate(a, t.seats[t.turn], t.currentBet, t.bigBlind, t.lastRaise)
  }

  /** A raise from a stack that cannot even match the bet. */
  predicate SinkingRaise(t: Table, a: GameAction)
    requires t.Shaped()
  {
    a.kind == Raise && t.seats[t.turn].bet + t.seats[t.turn].chips < t.currentBet
  }

  /** The bet to match falls after an accepted action in exactly one case. */
  lemma {:induction false} BetFallsIff(t: Table, a: GameAction)
    requires AwaitsAction(t) && Verdict(t, a).Valid?
    ensures Apply(t, t.turn, a.kind, Verdict(t, a).amount).currentBet < t.currentBet <==> SinkingRaise(t, a)
  {
    assert SeatOk(t.seats[t.turn], t.currentBet);
  }

  /** What the mover's seat becomes, for each action that leads the betting. */
  function Leader(t: Table, a: GameAction): Seat
    requires t.Shaped() && Verdict(t, a).Valid?
  {
    t.seats[t.turn].(acted := true).AfterBet(Verdict(t, a).amount)
  }

  lemma {:induction false} LeadingStaysSound(t: Table, a: GameAction)
    requires AwaitsAction(t) && Verdict(t, a).Valid? && !SinkingRaise(t, a)
    requires a.kind in {Bet, Raise} || (a.kind == AllInMove && t.seats[t.turn].bet + t.seats[t.turn].chips > t.currentBet)
    ensures Sound(Apply(t, t.turn, a.kind, Verdict(t, a).amount))
  {
    assert SeatOk(t.seats[t.turn], t.currentBet);
    LeadSound(t, Apply(t, t.turn, a.kind, Verdict(t, a).amount), Leader(t, a));
  }

  lemma {:induction false} FollowingStaysSound(t: Table, a: GameAction)
    requires AwaitsAction(t) && Verdict(t, a).Valid?
    requires a.kind in {Fold, Check, Call} || (a.kind == AllInMove && t.seats[t.turn].bet + t.seats[t.turn].chips <= t.currentBet)
    ensures Sound(Apply(t, t.turn, a.kind, Verdict(t, a).amount))
  {
    var u := Apply(t, t.turn, a.kind, Verdict(t, a).amount);
    assert SeatOk(t.seats[t.turn], t.currentBet);
    assert u == t.(seats := t.seats[t.turn := u.seats[t.turn]]);
    OneSeatKeeps(t, u, t.turn, u.seats[t.turn]);
  }

  lemma {:induction false} SinkingBreaks(t: Table, a: GameAction)
    requires AwaitsAction(t) && Owned(t) && Verdict(t, a).Valid? && SinkingRaise(t, a)
    ensures !Sound(Apply(t, t.turn, a.kind, Verdict(t, a).amount))
  {
    var u := Apply(t, t.turn, a.kind, Verdict(t, a).amount);
    assert SeatOk(t.seats[t.turn], t.currentBet);
    var k :| 0 <= k < |t.seats| && Owns(t, t.seats[k]);
    assert u.seats[k].bet == t.currentBet;
    assert !SeatOk(u.seats[k], u.currentBet);
  }

  lemma {:induction false} AcceptedStaysSound(t: Table, a: GameAction)
    requires AwaitsAction(t) && Verdict(t, a).Valid? && !SinkingRaise(t, a)
    ensures Sound(Apply(t, t.turn, a.kind, Verdict(t, a).amount))
  {
    if a.kind in {Bet, Raise} || (a.kind == AllInMove && t.seats[t.turn].bet + t.seats[t.turn].chips > t.currentBet) {
      LeadingStaysSound(t, a);
    } else {
      FollowingStaysSound(t, a);
    }
  }

  /** Of all the actions the validator accepts from the player to act, exactly the sinking raises
      break the invariant of a hand in progress. */
  lemma {:induction false} AcceptedIsSoundIff(t: Table, a: GameAction)
    requires AwaitsAction(t) && Owned(t) && Verdict(t, a).Valid?
    ensures Sound(Apply(t, t.turn, a.kind, Verdict(t, a).amount)) <==> !SinkingRaise(t, a)
  {
    if SinkingRaise(t, a) {
      SinkingBreaks(t, a);
    } else {
      AcceptedStaysSound(t, a);
    }
  }

  /** An accepted action is a move the arena could have made, unless it is a fold for free, a bet
      under the smallest size, or a raise the stack cannot make in full. */
  lemma {:induction false} AcceptedIsLegalIff(t: Table, a: GameAction)
    requires AwaitsAction(t) && Verdict(t, a).Valid?
    ensures LegalMove(t, a.kind, Verdict(t, a).amount) <==>
        && !(a.kind == Fold && ToCall(t.seats[t.turn], t.currentBet) == 0)
        && !(a.kind == Bet && Min(a.amount, t.seats[t.turn].chips) < t.lastRaise)
        && !(a.kind == Raise && t.seats[t.turn].bet + t.seats[t.turn].chips < MinRaiseTo(t.currentBet, t.bigBlind, t.lastRaise))
  {
    assert SeatOk(t.seats[t.turn], t.currentBet);
  }

  /** For callers other than the arena: apart from those three, every action the engine accepts from
      the player to act is a step that keeps the invariant and uses up potential. */
  lemma {:induction false} AcceptedStepKeeps(t: Table, a: GameAction)
    requires AwaitsAction(t) && Owned(t) && ProcessAction(t, t.seats[t.turn].id, a).Accepted?
    requires a.kind == Fold ==> ToCall(t.seats[t.turn], t.currentBet) > 0
    requires a.kind == Bet ==> Min(a.amount, t.seats[t.turn].chips) >= t.lastRaise
    requires a.kind == Raise ==> t.seats[t.turn].bet + t.seats[t.turn].chips >= MinRaiseTo(t.currentBet, t.bigBlind, t.lastRaise)
    ensures Stepped(t, ProcessAction(t, t.seats[t.turn].id, a).after)
  {
    ActorFound(t);
    AcceptedIsLegalIff(t, a);
    StepKeeps(t, a.kind, Verdict(t, a).amount);
  }

  // ---------- blinds that take whole stacks ----------

  /** Two players between hands, neither with more than the small blind. */
  ghost predicate ShortStacks(t: Table) {
    && t.Shaped() && t.phase in {Waiting, HandComplete} && |t.seats| == 2 && 0 < t.smallBlind <= t.bigBlind
    && IdsOk(t.seats)
    && forall i :: 0 <= i < 2 ==> t.seats[i].state == Sitting && 0 < t.seats[i].chips <= t.smallBlind
  }

  lemma {:induction false} SumOfTwo(seats: seq<Seat>, f: Seat -> int)
    requires |seats| == 2
    ensures Sum(seats, f) == f(seats[0]) + f(seats[1])
  {
    var one := seats[..1];
    assert Sum(one, f) == Sum(one[..0], f) + f(one[0]);
  }

  predicate Busted(s: Seat, stake: Chips) {
    s.state == AllIn && s.hole.Undealt? && s.chips == 0 && s.invested == stake
  }

  lemma {:induction false} BothSeated(t: Table, deck: seq<Card>)
    requires ShortStacks(t)
    ensures var d := RotateButton(Cleared(t, deck)); var b := BlindsFor(d);
      && Sum(d.seats, OneIfSeated) == 2 && b.small != b.big
  {
    var c := Cleared(t, deck);
    SumOfTwo(c.seats, OneIfSeated);
    NextSeatedIsOther(c.seats, c.button);
    var d := RotateButton(c);
    SumOfTwo(d.seats, OneIfSeated);
    NextSeatedIsOther(d.seats, d.button);
  }

  lemma {:induction false} BothAllIn(t: Table, deck: seq<Card>)
    requires ShortStacks(t)
    ensures var p := BlindsPostedTable(t, deck);
      && |p.seats| == 2 && forall i :: 0 <= i < 2 ==> Busted(p.seats[i], t.seats[i].chips) && p.seats[i].id == t.seats[i].id
  {
    BothSeated(t, deck);
    var d := RotateButton(Cleared(t, deck));
    forall i | 0 <= i < 2
      ensures d.seats[i].chips == t.seats[i].chips && d.seats[i].id == t.seats[i].id && d.seats[i].invested == 0
        && d.seats[i].state == Sitting && d.seats[i].hole.Undealt?
    {
    }
  }

  lemma {:induction false} NobodyDealt(p: Table, k: nat)
    requires k <= |p.seats| && forall i :: 0 <= i < |p.seats| ==> p.seats[i].state != Sitting
    ensures DealHoles(p, k) == p
  {
    if k > 0 { NobodyDealt(p, k - 1); }
  }

  lemma {:induction false} NobodyToAct(d: Table)
    requires d.Shaped() && |d.seats| == 2 && d.seats[0].state == AllIn && d.seats[1].state == AllIn
    ensures StartBettingRound(d) == DoShowdown(Runout(d.(lastRaise := d.bigBlind)))
  {
    SumOfTwo(d.seats, OneIfActive);
    SumOfTwo(d.seats, OneIfLive);
  }

  lemma {:induction false} NobodyToPay(d: Table, t: Table)
    requires ShortStacks(t) && |d.seats| == 2
    requires forall i :: 0 <= i < 2 ==> Busted(d.seats[i], t.seats[i].chips) && d.seats[i].id == t.seats[i].id
    ensures !Funded(d.seats) && Sum(d.seats, WealthOf) == Sum(t.seats, ChipsOf) && IdsOk(d.seats) && StakesOk(d.seats)
  {
    SumOfTwo(d.seats, InvestedOf);
    SumOfTwo(d.seats, WealthOf);
    SumOfTwo(t.seats, ChipsOf);
  }

  /** Both blinds all-in: neither player is dealt cards, so nobody can win, and chips are gone. */
  lemma {:induction false} BlindsLoseStacks(t: Table, deck: seq<Card>)
    requires ShortStacks(t)
    ensures StartHand(t, deck).Accepted?
    ensures Sum(StartHand(t, deck).after.seats, WealthOf) < Sum(t.seats, ChipsOf)
  {
    SumOfTwo(t.seats, OneIfWaiting);
    BothAllIn(t, deck);
    var p := BlindsPostedTable(t, deck);
    NobodyDealt(p, 2);
    var d := p.(phase := PreflopBetting);
    NobodyToAct(d);
    NobodyToPay(d, t);
    ShowdownConservesIff(Runout(d.(lastRaise := d.bigBlind)));
  }
}
