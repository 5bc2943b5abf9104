/** The rules of betting as a player meets them: what an action costs, how large the next raise must be,
    and whose turn comes next; told of the calls themselves, from one to the next. */
module ActionRules {
  import opened Seats
  import opened Betting
  import opened HandSpec
  import opened Payout
  import opened HandInvariant
  import opened Opening
  import opened RawPlay
  import opened FirstActor

  // ---------- within a street ----------

  lemma {:induction false} AdvanceLeaves(t: Table)
    requires t.Shaped() && IsBetting(t.phase) && AdvanceStreet(t).live
    ensures StreetsLeft(AdvanceStreet(t).phase) < StreetsLeft(t.phase)
    decreases StreetsLeft(t.phase), 0
  {
    if Closes(t) {
      ClosingShowsDown(t);
    } else {
      StartStays(NextStreetDealt(t));
    }
  }

  lemma {:induction false} StartStays(t: Table)
    requires t.Shaped() && IsBetting(t.phase) && StartBettingRound(t).live
    ensures StreetsLeft(StartBettingRound(t).phase) <= StreetsLeft(t.phase)
    decreases StreetsLeft(t.phase), 1
  {
    if ActiveCount(t.seats) <= 1 { AdvanceLeaves(t.(lastRaise := t.bigBlind)); }
  }

  /** A hand waiting for the player in the turn seat. */
  ghost predicate ToAct(t: Table) {
    t.Shaped() && t.live && IsBetting(t.phase) && IdsApart(t.seats) && Pending(t.seats[t.turn])
  }

  /** The player in the turn seat sends an action, it is accepted, and the street goes on. */
  ghost predicate GoesOnAfter(t: Table, a: GameAction, r: Table) {
    && ToAct(t) && ProcessAction(t, t.seats[t.turn].id, a) == Accepted(r)
    && r.Shaped() && r.live && r.phase == t.phase
  }

  lemma {:induction false} ActorIs(t: Table)
    requires ToAct(t)
    ensures ActiveSeatOf(t.seats, t.seats[t.turn].id) == t.turn == CurrentSeat(t)
  {
    OneSeatOfId(t.seats, ActiveSeatOf(t.seats, t.seats[t.turn].id), t.turn);
  }

  lemma {:induction false} Judgement(t: Table, a: GameAction)
    requires ToAct(t)
    ensures ProcessAction(t, t.seats[t.turn].id, a).Accepted? <==> VerdictAt(t, t.turn, a).Valid?
    ensures VerdictAt(t, t.turn, a).Valid? ==>
      ProcessAction(t, t.seats[t.turn].id, a) == Accepted(Settle(Apply(t, t.turn, a.kind, VerdictAt(t, t.turn, a).amount)))
  {
    ActorIs(t);
    AcceptedBy(t, t.seats[t.turn].id, a, t.turn, t.turn);
  }

  lemma {:induction false} StreetStays(t: Table, a: GameAction, r: Table)
    requires GoesOnAfter(t, a, r)
    ensures VerdictAt(t, t.turn, a).Valid?
    ensures var u := Apply(t, t.turn, a.kind, VerdictAt(t, t.turn, a).amount);
      r == u.(turn := NextTurn(u.seats, u.turn)) && !RoundComplete(u.seats)
  {
    Judgement(t, a);
    var u := Apply(t, t.turn, a.kind, VerdictAt(t, t.turn, a).amount);
    if RoundComplete(u.seats) { AdvanceLeaves(u); }
  }

  // ---------- how large a raise must be ----------

  /** Facing the current bet, raises start at m for the player to act: if the stack reaches m that is the
      one size offered, and the only sizes accepted are m and more; if it does not reach m no size is
      offered, and any raise is taken as all-in. */
  ghost predicate RaisesFrom(t: Table, m: Chips)
    requires t.Shaped()
  {
    var s := t.seats[t.turn];
    var reaches := s.bet + s.chips >= m;
    && (forall a :: a in LegalActions(t, s.id) && a.kind in {Bet, Raise} ==>
          reaches && a.amount == m && a.playerId == s.id && (a.kind == Bet <==> t.currentBet == 0))
    && (reaches && s.chips > 0 ==> exists a :: a in LegalActions(t, s.id) && a.kind in {Bet, Raise})
    && (forall size :: t.currentBet < size < m && size >= 0 ==>
          (ProcessAction(t, s.id, GameAction(Raise, size, s.id)).Accepted? <==> !reaches))
    && (forall size :: m <= size && size >= 0 ==> ProcessAction(t, s.id, GameAction(Raise, size, s.id)).Accepted?)
  }

  /** The list a player to act is offered: fold, check or call, the smallest raise if his chips reach it,
      and everything he has, in that order. */
  lemma {:induction false} LegalListed(t: Table)
    requires ToAct(t) && t.seats[t.turn].chips > 0
    ensures var s := t.seats[t.turn];
      var least := t.currentBet + if t.lastRaise > t.bigBlind then t.lastRaise else t.bigBlind;
      LegalActions(t, s.id) ==
        [GameAction(Fold, 0, s.id), GameAction(if s.bet < t.currentBet then Call else Check, 0, s.id)]
        + (if s.bet + s.chips < least then [] else [GameAction(if t.currentBet == 0 then Bet else Raise, least, s.id)])
        + [GameAction(AllInMove, 0, s.id)]
  {
  }


  lemma {:induction false} OfferedRaises(t: Table, m: Chips)
    requires ToAct(t) && m == t.currentBet + if t.lastRaise > t.bigBlind then t.lastRaise else t.bigBlind
    ensures var s := t.seats[t.turn];
      forall a :: (a in LegalActions(t, s.id) && a.kind in {Bet, Raise}) <==>
        (a == GameAction(if t.currentBet == 0 then Bet else Raise, m, s.id) && s.bet + s.chips >= m && s.chips > 0)
  {
  }

  lemma {:induction false} RaiseJudged(t: Table, m: Chips, size: Chips)
    requires ToAct(t) && m == t.currentBet + (if t.lastRaise > t.bigBlind then t.lastRaise else t.bigBlind) && size >= 0
    ensures var s := t.seats[t.turn];
      ProcessAction(t, s.id, GameAction(Raise, size, s.id)).Accepted? <==>
        size > t.currentBet && (size >= m || s.bet + s.chips < m)
  {
    Judgement(t, GameAction(Raise, size, t.seats[t.turn].id));
  }

  /** Raises start at the current bet and, above it, the last raise or the big blind, whichever is more. */
  lemma {:induction false} RaisesStartAt(t: Table)
    requires ToAct(t) && t.bigBlind > 0
    ensures RaisesFrom(t, t.currentBet + if t.lastRaise > t.bigBlind then t.lastRaise else t.bigBlind)
  {
    var s, m := t.seats[t.turn], t.currentBet + if t.lastRaise > t.bigBlind then t.lastRaise else t.bigBlind;
    OfferedRaises(t, m);
    if s.bet + s.chips >= m && s.chips > 0 {
      assert GameAction(if t.currentBet == 0 then Bet else Raise, m, s.id) in LegalActions(t, s.id);
    }
    forall size | size >= 0
      ensures ProcessAction(t, s.id, GameAction(Raise, size, s.id)).Accepted? <==>
        size > t.currentBet && (size >= m || s.bet + s.chips < m)
    {
      RaiseJudged(t, m, size);
    }
  }

  /** What a leading action makes of the bet and of the raise size. */
  lemma {:induction false} LeadSets(t: Table, a: GameAction, r: Table)
    requires GoesOnAfter(t, a, r) && a.kind in {Bet, Raise, AllInMove} && t.seats[t.turn].chips >= 0
    requires var s := t.seats[t.turn]; a.kind == Raise ==> s.bet + s.chips >= a.amount && a.amount >= s.bet
    ensures var s := t.seats[t.turn];
      var stake := if a.kind == AllInMove then s.bet + s.chips
                   else if a.kind == Raise then a.amount
                   else if a.amount < s.chips then s.bet + a.amount else s.bet + s.chips;
      a.kind != AllInMove || stake > t.currentBet ==>
        && r.currentBet == stake && r.bigBlind == t.bigBlind
        && r.lastRaise == if stake - t.currentBet >= t.lastRaise then stake - t.currentBet else t.lastRaise
  {
    StreetStays(t, a, r);
  }

  /** A raise to R over a bet of B, full in size: the next one must be to R + (R - B) at least. */
  lemma {:induction false} NextRaiseAsLarge(t: Table, a: GameAction, r: Table)
    requires GoesOnAfter(t, a, r) && a.kind == Raise && Pending(r.seats[r.turn])
    requires t.seats[t.turn].bet + t.seats[t.turn].chips >= a.amount && t.seats[t.turn].bet <= t.currentBet
    requires t.seats[t.turn].chips >= 0 && a.amount - t.currentBet >= t.lastRaise >= t.bigBlind > 0
    ensures r.currentBet == a.amount && RaisesFrom(r, a.amount + (a.amount - t.currentBet))
  {
    Judgement(t, a);
    LeadSets(t, a, r);
    StillApart(t, a, r);
    RaisesStartAt(r);
  }

  /** A bet into no bet: the next raise is to twice the bet at least, if that was a big blind or more. */
  lemma {:induction false} RaiseAfterBet(t: Table, a: GameAction, r: Table)
    requires GoesOnAfter(t, a, r) && a.kind == Bet && Pending(r.seats[r.turn])
    requires t.currentBet == 0 == t.seats[t.turn].bet && t.seats[t.turn].chips >= a.amount >= t.lastRaise == t.bigBlind > 0
    ensures r.currentBet == a.amount && RaisesFrom(r, 2 * a.amount)
  {
    LeadSets(t, a, r);
    StillApart(t, a, r);
    RaisesStartAt(r);
  }

  /** An all-in that raises by less than the last raise leaves the raise size as it was: raises started at
      the bet and that size before, and start at the all-in and that size after. */
  lemma {:induction false} ShortAllInKeepsSize(t: Table, a: GameAction, r: Table)
    requires GoesOnAfter(t, a, r) && a.kind == AllInMove && Pending(r.seats[r.turn])
    requires var s := t.seats[t.turn]; t.currentBet < s.bet + s.chips < t.currentBet + t.lastRaise
    requires t.seats[t.turn].chips >= 0 && t.lastRaise >= t.bigBlind > 0
    ensures var s := t.seats[t.turn];
      r.currentBet == s.bet + s.chips && RaisesFrom(t, t.currentBet + t.lastRaise) && RaisesFrom(r, s.bet + s.chips + t.lastRaise)
  {
    LeadSets(t, a, r);
    StillApart(t, a, r);
    RaisesStartAt(t);
    RaisesStartAt(r);
  }

  /** A check, a call or a fold leaves it too. */
  lemma {:induction false} PassiveKeepsSize(t: Table, a: GameAction, r: Table)
    requires GoesOnAfter(t, a, r) && a.kind in {Fold, Check, Call} && Pending(r.seats[r.turn])
    requires t.lastRaise >= t.bigBlind > 0
    ensures r.currentBet == t.currentBet && RaisesFrom(t, t.currentBet + t.lastRaise) && RaisesFrom(r, t.currentBet + t.lastRaise)
  {
    StreetStays(t, a, r);
    StillApart(t, a, r);
    RaisesStartAt(t);
    RaisesStartAt(r);
  }

  lemma {:induction false} StillApart(t: Table, a: GameAction, r: Table)
    requires GoesOnAfter(t, a, r)
    ensures IdsApart(r.seats) && r.bigBlind == t.bigBlind
  {
    StreetStays(t, a, r);
    var amount := VerdictAt(t, t.turn, a).amount;
    ApplyByMover(t, t.turn, a.kind, amount);
    var q := Mover(t.seats[t.turn], t.currentBet, a.kind, amount);
    var u := Apply(t, t.turn, a.kind, amount);
    forall i | 0 <= i < |t.seats| ensures u.seats[i].id == t.seats[i].id && (u.seats[i].state == Empty <==> t.seats[i].state == Empty) {
      assert i != t.turn ==> t.seats[t.turn := q][i] == t.seats[i];
    }
  }

  // ---------- what is accepted, and what it does ----------

  /** Which actions of the player to act are accepted. */
  lemma {:induction false} AcceptedIff(t: Table, a: GameAction)
    requires ToAct(t)
    ensures var s, floor := t.seats[t.turn], t.currentBet + if t.lastRaise > t.bigBlind then t.lastRaise else t.bigBlind;
      ProcessAction(t, s.id, a).Accepted? <==>
        a.amount >= 0 &&
        match a.kind
        case Fold => true
        case Check => s.bet >= t.currentBet
        case Call => s.bet < t.currentBet
        case Bet => t.currentBet <= 0 && (a.amount >= t.bigBlind || s.chips <= t.bigBlind)
        case Raise => a.amount > t.currentBet && (a.amount >= floor || s.bet + s.chips < floor)
        case AllInMove => s.chips > 0
        case Other => false
  {
    Judgement(t, a);
  }

  /** Nobody else's are. */
  lemma {:induction false} OthersRefused(t: Table, id: int, a: GameAction)
    requires ToAct(t) && id != t.seats[t.turn].id
    ensures ProcessAction(t, id, a).Rejected?
  {
    ActorIs(t);
  }

  /** The chips an accepted action costs. */
  function Cost(s: Seat, currentBet: Chips, a: GameAction): Chips {
    match a.kind
    case Call => if currentBet - s.bet <= s.chips then currentBet - s.bet else s.chips
    case Bet => if a.amount <= s.chips then a.amount else s.chips
    case Raise => if a.amount <= s.bet then 0 else if a.amount <= s.bet + s.chips then a.amount - s.bet else s.chips
    case AllInMove => s.chips
    case _ => 0
  }

  /** The mover's seat afterwards: the cost moved from the stack to the bet; folded after a fold, all-in
      after an all-in, and after a call or a stake that takes the last chip. */
  predicate Paid(s: Seat, q: Seat, currentBet: Chips, a: GameAction) {
    var cost := Cost(s, currentBet, a);
    && q.chips == s.chips - cost && q.bet == s.bet + cost && q.invested == s.invested + cost && q.acted
    && q == s.(chips := q.chips, bet := q.bet, invested := q.invested, acted := true, state := q.state)
    && q.state == (if a.kind == Fold then Folded
                   else if a.kind == AllInMove || (a.kind == Call && q.chips == 0) || (cost > 0 && q.chips == 0) then AllIn
                   else s.state)
  }

  /** The bet is led: everybody else who can still bet is asked again. */
  predicate Led(a: GameAction, q: Seat, currentBet: Chips) {
    a.kind == Bet || a.kind == Raise || (a.kind == AllInMove && q.bet > currentBet)
  }

  /** The table once the action is carried out, before the round is looked at. */
  ghost predicate Does(t: Table, a: GameAction, u: Table) {
    && u == t.(seats := u.seats, currentBet := u.currentBet, lastRaise := u.lastRaise) && |u.seats| == |t.seats|
    && t.turn < |t.seats| && Paid(t.seats[t.turn], u.seats[t.turn], t.currentBet, a)
    && var q := u.seats[t.turn];
       && (forall k :: 0 <= k < |t.seats| && k != t.turn ==>
             u.seats[k] == if Led(a, q, t.currentBet) && t.seats[k].state == Playing then t.seats[k].(acted := false) else t.seats[k])
       && u.currentBet == (if Led(a, q, t.currentBet) then q.bet else t.currentBet)
       && u.lastRaise == if Led(a, q, t.currentBet) && q.bet - t.currentBet >= t.lastRaise then q.bet - t.currentBet else t.lastRaise
  }

  /** The amount an accepted action is judged to have, and the stake it comes to, are its cost. */
  lemma {:induction false} StakeIsCost(s: Seat, t: Table, a: GameAction, amount: Chips)
    requires Pending(s) && s.chips >= 0 && Validate(a, s, t.currentBet, t.bigBlind, t.lastRaise) == Valid(amount)
    requires a.kind in {Call, Bet, Raise, AllInMove}
    ensures amount == Cost(s, t.currentBet, a)
    ensures var wanted := StakeFor(s, t.currentBet, a.kind, amount);
      (if wanted < s.chips then wanted else s.chips) == Cost(s, t.currentBet, a)
  {
  }

  lemma {:induction false} MoverPays(s: Seat, t: Table, a: GameAction)
    requires Pending(s) && s.chips >= 0 && Validate(a, s, t.currentBet, t.bigBlind, t.lastRaise).Valid?
    ensures var q := Mover(s, t.currentBet, a.kind, Validate(a, s, t.currentBet, t.bigBlind, t.lastRaise).amount);
      Paid(s, q, t.currentBet, a) && (Leads(q, t.currentBet, a.kind) <==> Led(a, q, t.currentBet))
  {
    if a.kind in {Call, Bet, Raise, AllInMove} {
      StakeIsCost(s, t, a, Validate(a, s, t.currentBet, t.bigBlind, t.lastRaise).amount);
    }
  }

  /** An accepted action does just that, and then the round is looked at. */
  lemma {:induction false} ActionDoes(t: Table, a: GameAction) returns (u: Table)
    requires ToAct(t) && t.seats[t.turn].chips >= 0 && ProcessAction(t, t.seats[t.turn].id, a).Accepted?
    ensures Does(t, a, u) && ProcessAction(t, t.seats[t.turn].id, a) == Accepted(Settle(u))
  {
    Judgement(t, a);
    var c := t.turn;
    var amount := VerdictAt(t, c, a).amount;
    u := Apply(t, c, a.kind, amount);
    MoverPays(t.seats[c], t, a);
    ApplyByMover(t, c, a.kind, amount);
    LeadDoes(t, a, Mover(t.seats[c], t.currentBet, a.kind, amount), u);
  }

  lemma {:induction false} LeadDoes(t: Table, a: GameAction, q: Seat, u: Table)
    requires ToAct(t) && Paid(t.seats[t.turn], q, t.currentBet, a)
    requires var m := t.(seats := t.seats[t.turn := q]); u == if Led(a, q, t.currentBet) then Lead(m, t.turn) else m
    ensures Does(t, a, u)
  {
    var c := t.turn;
    forall k | 0 <= k < |t.seats| && k != c
      ensures u.seats[k] == if Led(a, q, t.currentBet) && t.seats[k].state == Playing then t.seats[k].(acted := false) else t.seats[k]
    {
      assert t.seats[k].state == Playing ==> t.seats[k].id != t.seats[c].id;
    }
    assert u.seats[c] == q;
  }

  // ---------- whose turn ----------

  /** Going round the ring from a seat, the first with the property is k steps on. */
  ghost predicate FirstFrom(seats: seq<Seat>, from: nat, k: nat, p: Seat -> bool)
    requires seats != []
  {
    At(seats, from, k, p) && Gap(seats, from, 1, k, p)
  }

  lemma {:induction false} FindIsFirst(seats: seq<Seat>, from: nat, lo: nat, hi: nat, p: Seat -> bool) returns (k: nat)
    requires seats != [] && Find(seats, from, lo, hi, p) >= 0
    ensures lo <= k < hi && Find(seats, from, lo, hi, p) == (from + k) % |seats|
    ensures At(seats, from, k, p) && Gap(seats, from, lo, k, p)
    decreases hi - lo
  {
    if p(seats[(from + lo) % |seats|]) {
      k := lo;
    } else {
      k := FindIsFirst(seats, from, lo + 1, hi, p);
      forall i: nat | lo <= i < k ensures !At(seats, from, i, p) {
        if i > lo { assert !At(seats, from, i, p); }
      }
    }
  }

  /** With somebody to find, the scan round the table finds the first. */
  lemma {:induction false} ScanIsFirst(seats: seq<Seat>, from: nat, lo: nat, p: Seat -> bool, w: nat) returns (k: nat)
    requires w < |seats| && p(seats[w])
    ensures lo <= k < lo + |seats| && Find(seats, from, lo, lo + |seats|, p) == (from + k) % |seats|
    ensures At(seats, from, k, p) && Gap(seats, from, lo, k, p)
  {
    FindFinds(seats, from, lo, p, w);
    k := FindIsFirst(seats, from, lo, lo + |seats|, p);
  }

  lemma {:induction false} NextTurnIs(seats: seq<Seat>, turn: nat, w: nat) returns (k: nat)
    requires turn < |seats| && w < |seats| && Pending(seats[w])
    ensures 1 <= k <= |seats| && NextTurn(seats, turn) == (turn + k) % |seats| && FirstFrom(seats, turn, k, Pending)
  {
    k := ScanIsFirst(seats, turn, 1, Pending, w);
  }

  /** With nobody left to act the turn goes to the next active player, and stays if there is none. */
  lemma {:induction false} NobodyToAct(seats: seq<Seat>, turn: nat, start: nat, w: nat) returns (j: nat, k: nat)
    requires turn < |seats| && w < |seats| && forall i :: 0 <= i < |seats| ==> !Pending(seats[i])
    ensures (forall i :: 0 <= i < |seats| ==> !Active(seats[i])) ==>
      NextTurn(seats, turn) == turn == FirstTurn(seats, start, turn)
    ensures Active(seats[w]) ==> 1 <= j <= |seats| && NextTurn(seats, turn) == (turn + j) % |seats| && FirstFrom(seats, turn, j, Active)
    ensures Active(seats[w]) ==>
      && k < |seats| && FirstTurn(seats, start, turn) == (start + k) % |seats|
      && At(seats, start, k, Active) && Gap(seats, start, 0, k, Active)
  {
    if Active(seats[w]) {
      j := ScanIsFirst(seats, turn, 1, Active, w);
      k := ScanIsFirst(seats, start, 0, Active, w);
    } else {
      j, k := 0, 0;
    }
  }

  /** Within a street the turn goes to the next player round the table who is still to act. */
  lemma {:induction false} TurnGoesRound(t: Table, a: GameAction, r: Table) returns (k: nat)
    requires GoesOnAfter(t, a, r) && Pending(r.seats[r.turn])
    ensures 1 <= k <= |r.seats| && r.turn == (t.turn + k) % |r.seats| && FirstFrom(r.seats, t.turn, k, Pending)
  {
    StreetStays(t, a, r);
    k := NextTurnIs(r.seats, t.turn, r.turn);
  }

  lemma {:induction false} NextSeatedIs(seats: seq<Seat>, from: nat, w: nat) returns (k: nat)
    requires from < |seats| && w < |seats| && Seated(seats[w])
    ensures 1 <= k <= |seats| && NextSeated(seats, from) == (from + k) % |seats| && FirstFrom(seats, from, k, Seated)
  {
    k := ScanIsFirst(seats, from, 1, Seated, w);
  }

  /** The small blind is the next player seated after the button and the big blind the next after that;
      with two seated the button posts the small blind. */
  lemma {:induction false} BlindOrder(t: Table) returns (small: nat, big: nat)
    requires t.Shaped() && Seated(t.seats[t.button]) && Sum(t.seats, OneIfSeated) >= 2
    ensures 1 <= small <= |t.seats| && FirstFrom(t.seats, t.button, small, Seated)
    ensures var n, b, next := |t.seats|, BlindsFor(t), (t.button + small) % |t.seats|;
      if Sum(t.seats, OneIfSeated) == 2 then b == BlindSeats(t.button, next)
      else b.small == next && 1 <= big <= n && FirstFrom(t.seats, next, big, Seated) && b.big == (next + big) % n
  {
    small := NextSeatedIs(t.seats, t.button, t.button);
    big := NextSeatedIs(t.seats, NextSeated(t.seats, t.button), t.button);
  }

  /** The button goes to the next player seated. */
  lemma {:induction false} ButtonGoesOn(t: Table) returns (k: nat)
    requires t.Shaped() && Sum(t.seats, OneIfSeated) >= 1
    ensures 1 <= k <= |t.seats| && RotateButton(t).button == (t.button + k) % |t.seats| && FirstFrom(t.seats, t.button, k, Seated)
  {
    var j := SumWitness(t.seats, OneIfSeated);
    k := NextSeatedIs(t.seats, t.button, j);
  }

  lemma {:induction false} FirstTurnIs(seats: seq<Seat>, start: nat, turn: nat) returns (k: nat)
    requires turn < |seats| && PendingCount(seats) > 0
    ensures k < |seats| && FirstTurn(seats, start, turn) == (start + k) % |seats|
    ensures At(seats, start, k, Pending) && Gap(seats, start, 0, k, Pending)
  {
    var w := SumWitness(seats, OneIfPending);
    k := ScanIsFirst(seats, start, 0, Pending, w);
  }

  /** Who opens the betting: before the flop the button with two to act, else the first to act from the
      third seat after the button on; after it the first to act after the button. */
  lemma {:induction false} OpensBetting(t: Table) returns (k: nat)
    requires t.Shaped() && t.live && ActiveCount(t.seats) >= 2 && PendingCount(t.seats) == ActiveCount(t.seats)
    ensures var n := |t.seats|;
      var from := if t.phase != PreflopBetting then (t.button + 1) % n
                  else if ActiveCount(t.seats) == 2 then t.button else (t.button + 3) % n;
      && k < n && At(t.seats, from, k, Pending) && Gap(t.seats, from, 0, k, Pending)
      && StartBettingRound(t) == t.(lastRaise := t.bigBlind, turn := (from + k) % n)
  {
    k := FirstTurnIs(t.seats, StartSeat(t), t.turn);
  }

  // ---------- from street to street ----------

  /** A seat on a new street: nothing bet and nothing done, all else as it was. */
  predicate Refreshed(s: Seat, r: Seat) {
    r == s.(bet := 0, acted := false)
  }

  lemma {:induction false} StreetBegins(t: Table, u: Table) returns (k: nat)
    requires t.Shaped() && u.live && u.phase in {FlopBetting, TurnBetting, RiverBetting}
    requires u == NewStreet(t).(board := u.board, dealt := u.dealt, phase := u.phase)
    requires ActiveCount(u.seats) >= 2 && PendingCount(u.seats) == ActiveCount(u.seats)
    ensures var n := |t.seats|;
      && k < n && StartBettingRound(u) == u.(lastRaise := u.bigBlind, turn := ((t.button + 1) % n + k) % n)
      && At(t.seats, (t.button + 1) % n, k, Active) && Gap(t.seats, (t.button + 1) % n, 0, k, Active)
  {
    k := OpensBetting(u);
    AllRefreshed(t.seats, u.seats, (t.button + 1) % |t.seats|, k);
  }

  /** The streets follow each other, each with its cards, no bet, raises from the big blind, and everybody
      still to act. */
  lemma {:induction false} StreetFollows(t: Table) returns (k: nat)
    requires t.Shaped() && t.live && t.phase in {PreflopBetting, FlopBetting, TurnBetting} && ActiveCount(t.seats) >= 2
    requires |t.board| == (match t.phase case PreflopBetting => 0 case FlopBetting => 3 case _ => 4)
    requires t.dealt + 6 <= |t.deck|
    ensures var r, n := AdvanceStreet(t), |t.seats|;
      && r.live && |r.seats| == n && (forall i :: 0 <= i < n ==> Refreshed(t.seats[i], r.seats[i]))
      && r.currentBet == 0 && r.lastRaise == t.bigBlind == r.bigBlind && r.button == t.button
      && (t.phase == PreflopBetting ==> r.phase == FlopBetting && |r.board| == 3)
      && (t.phase == FlopBetting ==> r.phase == TurnBetting && |r.board| == 4)
      && (t.phase == TurnBetting ==> r.phase == RiverBetting && |r.board| == 5)
      && t.board <= r.board
      && k < n && r.turn == ((t.button + 1) % n + k) % n
      && At(t.seats, (t.button + 1) % n, k, Active) && Gap(t.seats, (t.button + 1) % n, 0, k, Active)
  {
    var u := NextStreetDealt(t);
    StreetIsDealt(t);
    StreetCards(t);
    k := StreetBegins(t, u);
  }

  lemma {:induction false} StreetIsDealt(t: Table)
    requires t.Shaped() && t.live && t.phase in {PreflopBetting, FlopBetting, TurnBetting} && ActiveCount(t.seats) >= 2
    ensures AdvanceStreet(t) == StartBettingRound(NextStreetDealt(t))
    ensures ActiveCount(NextStreetDealt(t).seats) == PendingCount(NextStreetDealt(t).seats) == ActiveCount(t.seats)
  {
    CountsBounded(t.seats);
    NewStreetCounts(t.seats);
  }

  lemma {:induction false} StreetCards(t: Table)
    requires t.phase in {PreflopBetting, FlopBetting, TurnBetting} && t.dealt + 6 <= |t.deck|
    requires |t.board| == (match t.phase case PreflopBetting => 0 case FlopBetting => 3 case _ => 4)
    ensures var u := NextStreetDealt(t);
      && u == NewStreet(t).(board := u.board, dealt := u.dealt, phase := u.phase) && t.board <= u.board
      && (t.phase == PreflopBetting ==> u.phase == FlopBetting && |u.board| == 3)
      && (t.phase == FlopBetting ==> u.phase == TurnBetting && |u.board| == 4)
      && (t.phase == TurnBetting ==> u.phase == RiverBetting && |u.board| == 5)
  {
    DealBoardDeals(NewStreet(t), if t.phase == PreflopBetting then 3 else 1);
  }

  lemma {:induction false} AllRefreshed(seats: seq<Seat>, after: seq<Seat>, from: nat, k: nat)
    requires seats != [] && after == MapSeats(seats, NewStreetSeat) && At(after, from, k, Pending) && Gap(after, from, 0, k, Pending)
    ensures At(seats, from, k, Active) && Gap(seats, from, 0, k, Active)
  {
    forall i: nat | 0 <= i < k ensures !At(seats, from, i, Active) {
      assert !At(after, from, i, Pending);
    }
  }

  // ---------- the end of the hand ----------

  /** The board the street has, and a deck that covers the rest of it. */
  predicate OnStreet(t: Table) {
    t.Shaped() && IsBetting(t.phase) && |t.board| == BoardSize(t.phase) && t.dealt + 2 * (5 - |t.board|) <= |t.deck|
  }

  /** The same seats but for what is cleared from street to street. */
  ghost predicate SameStakes(a: seq<Seat>, b: seq<Seat>) {
    |a| == |b| && forall i :: 0 <= i < |a| ==> b[i] == a[i].(bet := b[i].bet, acted := b[i].acted)
  }

  lemma {:induction false} RunoutFills(t: Table)
    requires OnStreet(t)
    ensures |Runout(t).board| == 5 && t.board <= Runout(t).board && Runout(t).seats == t.seats
  {
    if |t.board| < 5 { DealBoardDeals(t, 5 - |t.board|); }
  }

  /** With one player left to bet a street is dealt and passed over. */
  lemma {:induction false} StreetPassed(t: Table) returns (next: Table)
    requires OnStreet(t) && LiveCount(t.seats) >= 2 && ActiveCount(t.seats) == 1 && t.phase != RiverBetting
    ensures OnStreet(next) && LiveCount(next.seats) >= 2 && ActiveCount(next.seats) == 1
    ensures AdvanceStreet(t) == AdvanceStreet(next) && StreetsLeft(next.phase) < StreetsLeft(t.phase)
    ensures t.board <= next.board && SameStakes(t.seats, next.seats)
  {
    var u := NextStreetDealt(t);
    NewStreetCounts(t.seats);
    StreetDealtOn(t);
    next := u.(lastRaise := u.bigBlind);
  }

  /** With two or more players still in, a hand that comes to its end is judged on five board cards, the
      ones shown before among them. */
  lemma {:induction false} JudgedOnFullBoard(t: Table) returns (u: Table)
    requires OnStreet(t) && LiveCount(t.seats) >= 2 && (ActiveCount(t.seats) <= 1 || t.phase == RiverBetting)
    ensures AdvanceStreet(t) == DoShowdown(u) && |u.board| == 5 && t.board <= u.board && SameStakes(t.seats, u.seats)
    decreases StreetsLeft(t.phase)
  {
    CountsBounded(t.seats);
    if ActiveCount(t.seats) == 0 {
      u := Runout(t);
      RunoutFills(t);
    } else if t.phase == RiverBetting {
      u := NewStreet(t);
    } else {
      var next := StreetPassed(t);
      u := JudgedOnFullBoard(next);
    }
  }

  lemma {:induction false} StreetDealtOn(t: Table)
    requires OnStreet(t) && t.phase != RiverBetting
    ensures var u := NextStreetDealt(t); OnStreet(u) && t.board <= u.board && u.seats == NewStreet(t).seats
    ensures StreetsLeft(NextStreetDealt(t).phase) < StreetsLeft(t.phase)
  {
    DealBoardDeals(NewStreet(t), if t.phase == PreflopBetting then 3 else 1);
  }

  /** With everybody else folded it ends at once, the board as it is. */
  lemma {:induction false} LastOneCollects(t: Table)
    requires t.Shaped() && LiveCount(t.seats) <= 1
    ensures AdvanceStreet(t) == DoShowdown(t)
  {
  }
}
