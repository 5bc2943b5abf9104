/** Hands that never end, though every event is accepted: zero bets that go round for ever and a raise
    that leaves nobody to act, both from a table the arena would set up; bets of players dealt in
    without a chip; and a big blind too short for the small one, after which a call and a check leave
    nobody to act. */
module Stalls {
  import opened Cards
  import opened Seats
  import opened Betting
  import opened HandSpec
  import opened Payout
  import opened HandInvariant
  import opened LegalPlay
  import opened Opening
  import opened Arena
  import opened Departures
  import opened FirstActor
  import opened RawPlay
  import opened Sticking

  // ---------- the same few events over and over ----------

  lemma {:induction false} PlayedOn(c: Course, es: seq<Event>, fs: seq<Event>, next: (Course, Event) -> Course)
    ensures Played(c, es + fs, next) == Played(Played(c, es, next), fs, next)
  {
    if fs == [] {
      assert es + fs == es;
    } else {
      PlayedOn(c, es, fs[..|fs| - 1], next);
      assert es + fs == (es + fs[..|fs| - 1]) + [fs[|fs| - 1]];
      assert (es + fs)[..|es + fs| - 1] == es + fs[..|fs| - 1];
    }
  }

  lemma {:induction false} PlayedTwo(c: Course, e: Event, f: Event, next: (Course, Event) -> Course)
    ensures Played(c, [e, f], next) == next(next(c, e), f)
  {
    assert [e, f][..1] == [e] && [e][..0] == [];
    assert Played(c, [e], next) == next(c, e);
  }

  lemma {:induction false} PlayedThree(c: Course, e: Event, f: Event, g: Event, next: (Course, Event) -> Course)
    ensures Played(c, [e, f, g], next) == next(next(next(c, e), f), g)
  {
    assert [e, f, g][..2] == [e, f];
    PlayedTwo(c, e, f, next);
  }

  lemma {:induction false} PlayedFour(c: Course, e: Event, f: Event, g: Event, h: Event, next: (Course, Event) -> Course)
    ensures Played(c, [e, f, g, h], next) == next(Played(c, [e, f, g], next), h)
  {
    assert [e, f, g, h][..3] == [e, f, g];
  }

  function Again(round: seq<Event>, k: nat): (es: seq<Event>)
    ensures |es| == k * |round|
  {
    if k == 0 then [] else Again(round, k - 1) + round
  }

  ghost predicate Turns(round: seq<Event>, next: (Course, Event) -> Course, inv: (Course, nat) -> bool) {
    forall d: Course, j: nat :: inv(d, j) ==> inv(Played(d, round, next), j + 1)
  }

  /** What one round keeps, any number of rounds keeps. */
  lemma {:induction false} GoesRound(c: Course, round: seq<Event>, k: nat, next: (Course, Event) -> Course,
                                     inv: (Course, nat) -> bool)
    requires inv(c, 0) && Turns(round, next, inv)
    ensures inv(Played(c, Again(round, k), next), k)
  {
    if k > 0 {
      GoesRound(c, round, k - 1, next, inv);
      PlayedOn(c, Again(round, k - 1), round, next);
    }
  }

  // ---------- playing a valid action ----------

  function Own(t: Table, kind: ActionType, amount: Chips): Event
    requires t.Shaped()
  {
    Acts(t.seats[t.turn].id, GameAction(kind, amount, t.seats[t.turn].id))
  }

  /** A valid action of the turn seat is carried out. */
  lemma {:induction false} Plays(t: Table, kind: ActionType, amount: Chips)
    requires t.Shaped() && t.live && IdsApart(t.seats) && Pending(t.seats[t.turn])
    requires VerdictAt(t, t.turn, Own(t, kind, amount).action).Valid?
    ensures Takes(t, Own(t, kind, amount))
    ensures After(t, Own(t, kind, amount))
         == Settle(Apply(t, t.turn, kind, VerdictAt(t, t.turn, Own(t, kind, amount).action).amount))
  {
    var i := ActiveSeatOf(t.seats, t.seats[t.turn].id);
    OneSeatOfId(t.seats, i, t.turn);
    AcceptedBy(t, t.seats[t.turn].id, Own(t, kind, amount).action, i, t.turn);
  }

  /** With somebody to act and somebody else in the hand, only the turn passes. */
  lemma {:induction false} TurnPasses(u: Table, j: nat, k: nat)
    requires u.Shaped() && j < |u.seats| && k < |u.seats| && j != k && Pending(u.seats[j]) && u.seats[k].IsLive()
    ensures Settle(u) == u.(turn := NextTurn(u.seats, u.turn))
  {
    SumCovers(u.seats, OneIfLive, j);
    CountsOne(u.seats, j);
  }

  // ---------- zero bets ----------

  /** Two players with at most a big blind each, no bet yet, one of whom has acted. */
  ghost predicate Duel(t: Table) {
    && AwaitsAction(t) && |t.seats| == 2 && t.currentBet == 0
    && t.seats[1 - t.turn].IsActive() && t.seats[1 - t.turn].acted
    && forall i :: 0 <= i < 2 ==> t.seats[i].chips <= t.bigBlind
  }

  function ZeroBet(t: Table): GameAction
    requires t.Shaped()
  {
    GameAction(Bet, 0, t.seats[t.turn].id)
  }

  /** The mover has acted, the other has to act again, and nothing else has moved. */
  function Passed(t: Table): Table
    requires t.Shaped() && |t.seats| == 2
  {
    var i, j := t.turn, 1 - t.turn;
    t.(seats := t.seats[i := t.seats[i].(acted := true)][j := t.seats[j].(acted := false)])
  }

  lemma {:induction false} ApplyZeroBet(t: Table)
    requires Duel(t)
    ensures Verdict(t, ZeroBet(t)) == Valid(0)
    ensures Apply(t, t.turn, Bet, 0) == Passed(t)
  {
    assert SeatOk(t.seats[0], 0) && SeatOk(t.seats[1], 0);
    assert Apply(t, t.turn, Bet, 0).seats == Passed(t).seats;
  }

  lemma {:induction false} SettlePassed(t: Table)
    requires Duel(t)
    ensures Settle(Passed(t)) == Passed(t).(turn := 1 - t.turn) && Duel(Settle(Passed(t)))
  {
    assert SeatOk(t.seats[0], 0) && SeatOk(t.seats[1], 0);
    var u := Passed(t);
    assert Pending(u.seats[1 - t.turn]);
    SumOfTwo(u.seats, OneIfActive);
    SumOfTwo(u.seats, OneIfLive);
    assert (t.turn + 1) % 2 == 1 - t.turn;
    assert NextTurn(u.seats, t.turn) == 1 - t.turn;
  }

  /** A zero bet is accepted and hands the turn to the other player. */
  lemma {:induction false} ZeroBetPassesTurn(t: Table)
    requires Duel(t)
    ensures ProcessAction(t, t.seats[t.turn].id, ZeroBet(t)) == Accepted(Passed(t).(turn := 1 - t.turn))
    ensures Duel(Passed(t).(turn := 1 - t.turn))
  {
    ActorFound(t);
    ApplyZeroBet(t);
    SettlePassed(t);
  }

  lemma {:induction false} PassedTwice(t: Table)
    requires t.Shaped() && |t.seats| == 2 && !t.seats[t.turn].acted && t.seats[1 - t.turn].acted
    ensures Passed(Passed(t).(turn := 1 - t.turn)).(turn := t.turn) == t
  {
    assert Passed(Passed(t).(turn := 1 - t.turn)).seats == t.seats;
  }

  lemma {:induction false} ZeroBetIdles(t: Table)
    requires Duel(t)
    ensures var e := Acts(t.seats[t.turn].id, ZeroBet(t));
      Takes(t, e) && Idles(t, e) && !Sinks(t, e) && After(t, e) == Passed(t).(turn := 1 - t.turn)
  {
    ZeroBetPassesTurn(t);
    AwaitingIsRaw(t);
    assert Done(t.seats[1 - t.turn]);
  }

  /** A zero bet from each of the two. */
  function BothBet(t: Table): seq<Event>
    requires t.Shaped() && |t.seats| == 2
  {
    [Acts(t.seats[t.turn].id, ZeroBet(t)), Acts(t.seats[1 - t.turn].id, GameAction(Bet, 0, t.seats[1 - t.turn].id))]
  }

  lemma {:induction false} ZeroBetNext(t: Table, c: Course)
    requires Duel(t) && c.table == t
    ensures var u := Passed(t).(turn := 1 - t.turn);
      Duel(u) && Next(c, Acts(t.seats[t.turn].id, ZeroBet(t))) == Course(u, c.taken + 1, c.idle + 1, c.sunk)
  {
    ZeroBetPassesTurn(t);
    ZeroBetIdles(t);
    NextIs(c, Acts(t.seats[t.turn].id, ZeroBet(t)));
  }

  lemma {:induction false} OneRound(t: Table, c: Course)
    requires Duel(t) && c.table == t
    ensures Played(c, BothBet(t), Next) == Course(t, c.taken + 2, c.idle + 2, c.sunk)
  {
    var u := Passed(t).(turn := 1 - t.turn);
    ZeroBetNext(t, c);
    ZeroBetNext(u, Course(u, c.taken + 1, c.idle + 1, c.sunk));
    PassedTwice(t);
    BothBetPlayed(t, c);
  }

  lemma {:induction false} BothBetPlayed(t: Table, c: Course)
    requires t.Shaped() && |t.seats| == 2
    ensures var u := Passed(t).(turn := 1 - t.turn);
      Played(c, BothBet(t), Next) == Next(Next(c, Acts(t.seats[t.turn].id, ZeroBet(t))), Acts(u.seats[u.turn].id, ZeroBet(u)))
  {
    var u := Passed(t).(turn := 1 - t.turn);
    PlayedTwo(c, Acts(t.seats[t.turn].id, ZeroBet(t)), Acts(u.seats[u.turn].id, ZeroBet(u)), Next);
  }

  /** The validator lets two short stacks bet nothing for ever: any number of rounds of zero bets is
      carried out and leaves the very same table. */
  lemma {:induction false} ZeroBetsGoRound(t: Table, k: nat)
    requires Duel(t)
    ensures Run(t, Again(BothBet(t), k)) == Course(t, 2 * k, 2 * k, 0)
  {
    var inv := (d: Course, j: nat) => d == Course(t, 2 * j, 2 * j, 0);
    forall d: Course, j: nat | inv(d, j) ensures inv(Played(d, BothBet(t), Next), j + 1) {
      OneRound(t, d);
    }
    GoesRound(Course(t, 0, 0, 0), BothBet(t), k, Next, inv);
  }

  // ---------- zero bets are reached ----------

  /** Active, within the bet, and able to match it with at most a big blind to spare. */
  predicate Able(s: Seat, currentBet: Chips, bigBlind: Chips) {
    s.IsActive() && 0 <= s.bet <= currentBet < s.bet + s.chips <= currentBet + bigBlind
  }

  ghost predicate Pair(t: Table) {
    AwaitsAction(t) && |t.seats| == 2 && forall i :: 0 <= i < 2 ==> Able(t.seats[i], t.currentBet, t.bigBlind)
  }

  function MatchedSeat(s: Seat, currentBet: Chips): Seat {
    s.(acted := true, chips := s.chips + s.bet - currentBet, bet := currentBet, invested := s.invested + currentBet - s.bet)
  }

  function CheckOrCall(t: Table): Event
    requires t.Shaped()
  {
    Own(t, if t.seats[t.turn].bet < t.currentBet then Call else Check, 0)
  }

  function Matching(t: Table): Table
    requires t.Shaped()
  {
    t.(seats := t.seats[t.turn := MatchedSeat(t.seats[t.turn], t.currentBet)])
  }

  lemma {:induction false} PairMatches(t: Table)
    requires Pair(t)
    ensures var e := CheckOrCall(t);
      Takes(t, e) && After(t, e) == Settle(Matching(t)) && (After(t, e).live ==> AwaitsAction(After(t, e)))
  {
    MatchingApplied(t);
    Plays(t, CheckOrCall(t).action.kind, 0);
    UnsunkAwaits(t, CheckOrCall(t));
  }

  lemma {:induction false} MatchingApplied(t: Table)
    requires Pair(t)
    ensures var a := CheckOrCall(t).action;
      VerdictAt(t, t.turn, a).Valid? && Apply(t, t.turn, a.kind, VerdictAt(t, t.turn, a).amount) == Matching(t)
  {
    assert Able(t.seats[t.turn], t.currentBet, t.bigBlind);
  }

  lemma {:induction false} OtherTurns(t: Table)
    requires Pair(t) && !t.seats[1 - t.turn].acted
    ensures Settle(Matching(t)) == Matching(t).(turn := 1 - t.turn)
  {
    var u, i, j := Matching(t), t.turn, 1 - t.turn;
    assert Able(t.seats[i], t.currentBet, t.bigBlind) && Able(t.seats[j], t.currentBet, t.bigBlind);
    TurnPasses(u, j, i);
    assert (i + 1) % 2 == j;
    assert Find(u.seats, i, 1, 3, Pending) == j;
  }

  /** With the other still to act, the turn passes to the other. */
  lemma {:induction false} PairPasses(t: Table)
    requires Pair(t) && !t.seats[1 - t.turn].acted
    ensures Takes(t, CheckOrCall(t)) && After(t, CheckOrCall(t)) == Matching(t).(turn := 1 - t.turn)
    ensures Pair(Matching(t).(turn := 1 - t.turn))
  {
    PairMatches(t);
    OtherTurns(t);
    assert Able(t.seats[t.turn], t.currentBet, t.bigBlind) && Able(t.seats[1 - t.turn], t.currentBet, t.bigBlind);
  }

  lemma {:induction false} RoundBegins(d: Table)
    requires d.Shaped() && ActiveCount(d.seats) >= 2
    ensures StartBettingRound(d) == d.(lastRaise := d.bigBlind, turn := FirstTurn(d.seats, StartSeat(d), d.turn))
  {
  }

  /** With the other already in, the street is over and the next one opens. */
  lemma {:induction false} PairCloses(t: Table)
    requires Pair(t) && t.seats[1 - t.turn].acted && t.phase == PreflopBetting
    ensures Takes(t, CheckOrCall(t))
    ensures var r := After(t, CheckOrCall(t));
      && Pair(r) && r.currentBet == 0 && r.bigBlind == t.bigBlind && !r.seats[0].acted && !r.seats[1].acted
  {
    PairMatches(t);
    PairComplete(t);
    var u := Matching(t);
    MatchedIsRaw(t);
    StreetRaw(u);
    NewStreetCounts(u.seats);
    RoundBegins(NextStreetDealt(u));
  }

  lemma {:induction false} PairComplete(t: Table)
    requires Pair(t) && t.seats[1 - t.turn].acted
    ensures var u := Matching(t);
      && RoundComplete(u.seats) && ActiveCount(u.seats) == LiveCount(u.seats) == 2
      && forall i :: 0 <= i < 2 ==> Able(u.seats[i].(acted := false, bet := 0), 0, t.bigBlind)
  {
    var u := Matching(t);
    forall i | 0 <= i < 2 ensures In(u.seats[i], t.currentBet, t.bigBlind) {
      assert Able(t.seats[i], t.currentBet, t.bigBlind) && SeatOk(t.seats[i], t.currentBet);
    }
    BothIn(u.seats, t.currentBet, t.bigBlind);
  }

  /** Active, with the bet matched and at most a big blind behind. */
  predicate In(s: Seat, currentBet: Chips, bigBlind: Chips) {
    s.IsActive() && s.acted && s.bet == currentBet && 0 < s.chips <= bigBlind
  }

  lemma {:induction false} BothIn(seats: seq<Seat>, currentBet: Chips, bigBlind: Chips)
    requires |seats| == 2 && In(seats[0], currentBet, bigBlind) && In(seats[1], currentBet, bigBlind)
    ensures RoundComplete(seats) && ActiveCount(seats) == LiveCount(seats) == 2
    ensures forall i :: 0 <= i < 2 ==> Able(seats[i].(acted := false, bet := 0), 0, bigBlind)
  {
    SumOfTwo(seats, OneIfActive);
    SumOfTwo(seats, OneIfLive);
  }

  lemma {:induction false} MatchedIsRaw(t: Table)
    requires Pair(t)
    ensures Raw(Matching(t))
  {
    AwaitingIsRaw(t);
    assert Able(t.seats[t.turn], t.currentBet, t.bigBlind);
    SeatRaw(t, t.turn, MatchedSeat(t.seats[t.turn], t.currentBet));
  }

  /** Two players between hands, each with more than one big blind and at most two. */
  ghost predicate ShortPair(t: Table) {
    && Ready(t) && |t.seats| == 2
    && forall i :: 0 <= i < 2 ==> t.seats[i].state == Sitting && t.seats[i].chips <= 2 * t.bigBlind
  }

  lemma {:induction false} PairStarts(t: Table, deck: seq<Card>)
    requires ShortPair(t) && DeckCovers(t, deck)
    ensures StartHand(t, deck).Accepted?
    ensures var r := StartHand(t, deck).after;
      Fresh(r) && r.phase == PreflopBetting
  {
    StartHandOpens(t, deck);
    var d, b := DealtHand(t, deck);
    SumOfTwo(t.seats, OneIfSeated);
    RoundBegins(d);
    forall i | 0 <= i < 2 ensures Able(d.seats[i], t.bigBlind, t.bigBlind) && !d.seats[i].acted {
      assert SeatReady(t.seats[i], t.bigBlind);
      assert Opened(t.seats[i], d.seats[i], StakeOf(b, i, t.smallBlind, t.bigBlind));
    }
  }

  lemma {:induction false} CheckMakesDuel(t: Table)
    requires Pair(t) && t.currentBet == 0 && !t.seats[1 - t.turn].acted
    ensures Takes(t, CheckOrCall(t)) && Duel(After(t, CheckOrCall(t)))
  {
    PairPasses(t);
    var i, j := t.turn, 1 - t.turn;
    assert Able(t.seats[i], t.currentBet, t.bigBlind) && Able(t.seats[j], t.currentBet, t.bigBlind);
  }

  ghost predicate Fresh(t: Table) {
    Pair(t) && !t.seats[0].acted && !t.seats[1].acted
  }

  /** One checks or calls, the other closes the betting. */
  lemma {:induction false} BothMatch(t: Table) returns (e: Event, f: Event)
    requires Fresh(t) && t.phase == PreflopBetting
    ensures Takes(t, e) && Takes(After(t, e), f)
    ensures Fresh(After(After(t, e), f)) && After(After(t, e), f).currentBet == 0
  {
    e := CheckOrCall(t);
    PairPasses(t);
    f := CheckOrCall(After(t, e));
    PairCloses(After(t, e));
  }

  lemma {:induction false} DuelFrom(t: Table) returns (es: seq<Event>)
    requires Fresh(t) && t.phase == PreflopBetting
    ensures |es| == 3 && Run(t, es).taken == 3 && Duel(Run(t, es).table)
  {
    var e, f := BothMatch(t);
    var u := After(After(t, e), f);
    CheckMakesDuel(u);
    es := [e, f, CheckOrCall(u)];
    RunThree(t, e, f, CheckOrCall(u));
  }

  /** From two stacks of at most two big blinds, three ordinary actions lead to such a duel: both
      players see the flop for the big blind and the first checks. */
  lemma {:induction false} DuelReached(t: Table, deck: seq<Card>) returns (es: seq<Event>)
    requires ShortPair(t) && DeckCovers(t, deck)
    ensures StartHand(t, deck).Accepted? && |es| == 3
    ensures var c := Run(StartHand(t, deck).after, es); c.taken == 3 && Duel(c.table)
  {
    PairStarts(t, deck);
    es := DuelFrom(StartHand(t, deck).after);
  }

  /** Such a table: two stacks of 15 with blinds of 5 and 10. */
  lemma {:induction false} ShortPairExists(deck: seq<Card>) returns (t: Table)
    requires |deck| == 52
    ensures ShortPair(t) && DeckCovers(t, deck)
  {
    t := Table([NewPlayer(1, 15), NewPlayer(2, 15)], [], [], 0, Waiting, 0, 0, 0, 0, false, 5, 10);
    SumOfTwo(t.seats, OneIfSeated);
  }

  /** Two stacks of 3 with blinds of 5 and 10: both are gone with the blinds. */
  lemma {:induction false} StacksAreLost(deck: seq<Card>) returns (t: Table)
    ensures ShortStacks(t) && StartHand(t, deck).Accepted?
    ensures Sum(t.seats, ChipsOf) == 6 && Sum(StartHand(t, deck).after.seats, WealthOf) < 6
  {
    t := Table([NewPlayer(1, 3), NewPlayer(2, 3)], [], [], 0, Waiting, 0, 0, 0, 0, false, 5, 10);
    SumOfTwo(t.seats, ChipsOf);
    BlindsLoseStacks(t, deck);
  }

  lemma {:induction false} RunThree(t: Table, e0: Event, e1: Event, e2: Event)
    requires Takes(t, e0) && Takes(After(t, e0), e1) && Takes(After(After(t, e0), e1), e2)
    ensures var c := Run(t, [e0, e1, e2]); c.taken == 3 && c.table == After(After(After(t, e0), e1), e2)
    ensures Sinks(After(t, e0), e1) ==> Run(t, [e0, e1, e2]).sunk >= 1
  {
    var c := Course(t, 0, 0, 0);
    PlayedThree(c, e0, e1, e2, Next);
    NextIs(c, e0);
    NextIs(Next(c, e0), e1);
    NextIs(Next(Next(c, e0), e1), e2);
  }

  // ---------- a sinking raise leaves the hand stuck ----------

  /** Seat i as it stands: what is behind, what is bet, whether it acted. */
  predicate Stands(t: Table, i: nat, chips: Chips, bet: Chips, state: SeatState, acted: bool) {
    i < |t.seats| && t.seats[i].id == i + 1 && t.seats[i].chips == chips && t.seats[i].bet == bet
    && t.seats[i].state == state && t.seats[i].acted == acted
  }

  predicate Game(t: Table, turn: nat, currentBet: Chips, lastRaise: Chips) {
    && t.live && IsBetting(t.phase) && |t.seats| == 3 && t.turn == turn < 3 && t.Shaped()
    && t.currentBet == currentBet && t.lastRaise == lastRaise
    && t.bigBlind == 10 && t.seats[0].id == 1 && t.seats[1].id == 2 && t.seats[2].id == 3
    && t.seats[0].state != Empty && t.seats[1].state != Empty && t.seats[2].state != Empty
  }

  /** After the blinds: stacks of 100, 15 and 100 with blinds of 5 and 10. */
  predicate Blinds(t: Table) {
    && Game(t, 0, 10, 10)
    && Stands(t, 0, 100, 0, Playing, false) && Stands(t, 1, 10, 5, Playing, false) && Stands(t, 2, 90, 10, Playing, false)
  }

  predicate Raised(t: Table) {
    && Game(t, 1, 30, 20)
    && Stands(t, 0, 70, 30, Playing, true) && Stands(t, 1, 10, 5, Playing, false) && Stands(t, 2, 90, 10, Playing, false)
  }

  predicate Sunk(t: Table) {
    && Game(t, 2, 15, 20)
    && Stands(t, 0, 70, 30, Playing, false) && Stands(t, 1, 0, 15, AllIn, true) && Stands(t, 2, 90, 10, Playing, false)
  }

  predicate Called(t: Table) {
    && Game(t, 0, 15, 20)
    && Stands(t, 0, 70, 30, Playing, false) && Stands(t, 1, 0, 15, AllIn, true) && Stands(t, 2, 85, 15, Playing, true)
  }

  lemma {:induction false} Passes(u: Table, k: nat)
    requires u.Shaped() && |u.seats| == 3 && k < 3 && k != u.turn && Pending(u.seats[k]) && u.seats[u.turn].IsLive()
    requires k == (u.turn + 1) % 3 || (k == (u.turn + 2) % 3 && !Pending(u.seats[(u.turn + 1) % 3]))
    ensures Settle(u) == u.(turn := k)
  {
    TurnPasses(u, k, u.turn);
    assert Find(u.seats, u.turn, 1, 4, Pending) == k;
  }

  lemma {:induction false} PlaysInto(t: Table, kind: ActionType, amount: Chips, paid: Chips, u: Table, k: nat)
    requires t.Shaped() && t.live && IdsApart(t.seats) && Pending(t.seats[t.turn])
    requires VerdictAt(t, t.turn, Own(t, kind, amount).action) == Valid(paid) && u == Apply(t, t.turn, kind, paid)
    requires |u.seats| == 3 && k < 3 && k != u.turn && Pending(u.seats[k]) && u.seats[u.turn].IsLive()
    requires k == (u.turn + 1) % 3 || (k == (u.turn + 2) % 3 && !Pending(u.seats[(u.turn + 1) % 3]))
    ensures Takes(t, Own(t, kind, amount)) && After(t, Own(t, kind, amount)) == u.(turn := k)
  {
    Plays(t, kind, amount);
    Passes(u, k);
  }

  lemma {:induction false} IdsOfThree(t: Table, turn: nat, currentBet: Chips, lastRaise: Chips)
    requires Game(t, turn, currentBet, lastRaise)
    ensures IdsApart(t.seats)
  {
  }

  lemma {:induction false} RaiseTo30(t: Table)
    requires Blinds(t)
    ensures Takes(t, Own(t, Raise, 30)) && Raised(After(t, Own(t, Raise, 30)))
  {
    IdsOfThree(t, 0, 10, 10);
    PlaysInto(t, Raise, 30, 30, Apply(t, 0, Raise, 30), 1);
  }

  lemma {:induction false} RaiseTo31(t: Table)
    requires Raised(t)
    ensures Takes(t, Own(t, Raise, 31)) && Sinks(t, Own(t, Raise, 31)) && Sunk(After(t, Own(t, Raise, 31)))
  {
    IdsOfThree(t, 1, 30, 20);
    PlaysInto(t, Raise, 31, 10, Apply(t, 1, Raise, 10), 2);
  }

  lemma {:induction false} CallOf15(t: Table)
    requires Sunk(t)
    ensures Takes(t, Own(t, Call, 0)) && Called(After(t, Own(t, Call, 0)))
  {
    IdsOfThree(t, 2, 15, 20);
    PlaysInto(t, Call, 0, 5, Apply(t, 2, Call, 5), 0);
  }

  lemma {:induction false} LastCheck(t: Table)
    requires Called(t)
    ensures Takes(t, Own(t, Check, 0)) && Stuck(After(t, Own(t, Check, 0)))
  {
    IdsOfThree(t, 0, 15, 20);
    LastPasses(t, 0, 2, 0);
  }

  lemma {:induction false} ThreeSeated(u: Table)
    requires u.Shaped() && |u.seats| == 3 && Seated(u.seats[0]) && Seated(u.seats[1]) && Seated(u.seats[2])
    ensures Sum(u.seats, OneIfSeated) == 3 && NextSeated(u.seats, u.button) == (u.button + 1) % 3
    ensures u.button == 0 ==> BlindsFor(u) == BlindSeats(1, 2)
  {
    var s := u.seats;
    SumOfTwo(s[..2], OneIfSeated);
    assert Sum(s, OneIfSeated) == Sum(s[..2], OneIfSeated) + 1;
    assert Find(s, u.button, 1, 4, Seated) == (u.button + 1) % 3;
    assert Find(s, 1, 1, 4, Seated) == 2;
  }

  lemma {:induction false} ThreeRotated(t: Table, deck: seq<Card>)
    requires t.Shaped() && |t.seats| == 3 && t.button == 2
    requires t.seats[0].state == t.seats[1].state == t.seats[2].state == Sitting
    ensures Sum(t.seats, OneIfSeated) == 3 && NextSeated(t.seats, 2) == 0
    ensures BlindsFor(RotateButton(Cleared(t, deck))) == BlindSeats(1, 2)
  {
    var c := Cleared(t, deck);
    ThreeSeated(t);
    ThreeSeated(c);
    ThreeSeated(RotateButton(c));
  }

  /** Three players between hands, the button on the last of them. */
  function Trio(): Table {
    Table([NewPlayer(1, 100), NewPlayer(2, 15), NewPlayer(3, 100)], [], [], 0, Waiting, 2, 0, 0, 0, false, 5, 10)
  }

  lemma {:induction false} TrioDealt(deck: seq<Card>, d: Table)
    requires DealtFrom(Trio(), deck, d, BlindSeats(1, 2)) && d.button == 0 && ActiveCount(d.seats) == 3
    ensures Blinds(StartBettingRound(d))
  {
    var t := Trio();
    RoundBegins(d);
    assert Opened(t.seats[0], d.seats[0], 0) && Opened(t.seats[1], d.seats[1], 5) && Opened(t.seats[2], d.seats[2], 10);
    assert StartSeat(d) == 0;
    assert Find(d.seats, 0, 0, 3, Pending) == 0;
  }

  lemma {:induction false} TrioStarts(deck: seq<Card>)
    requires |deck| == 52
    ensures Ready(Trio()) && StartHand(Trio(), deck).Accepted? && Blinds(StartHand(Trio(), deck).after)
  {
    var t := Trio();
    ThreeRotated(t, deck);
    var d, b := DealtHand(t, deck);
    TrioDealt(deck, d);
  }

  lemma {:induction false} SunkHand(t: Table) returns (es: seq<Event>)
    requires Blinds(t)
    ensures |es| == 4 && Run(t, es).taken == 4 && Run(t, es).sunk >= 1 && Stuck(Run(t, es).table)
  {
    var e0 := Own(t, Raise, 30);
    RaiseTo30(t);
    var t1 := After(t, e0);
    var e1 := Own(t1, Raise, 31);
    RaiseTo31(t1);
    var t2 := After(t1, e1);
    var e2 := Own(t2, Call, 0);
    CallOf15(t2);
    var t3 := After(t2, e2);
    var e3 := Own(t3, Check, 0);
    LastCheck(t3);
    es := [e0, e1, e2, e3];
    RunFour(t, e0, e1, e2, e3);
  }

  lemma {:induction false} RunFour(t: Table, e0: Event, e1: Event, e2: Event, e3: Event)
    requires Takes(t, e0) && Takes(After(t, e0), e1) && Takes(After(After(t, e0), e1), e2)
    requires Takes(After(After(After(t, e0), e1), e2), e3) && Sinks(After(t, e0), e1)
    ensures var c := Run(t, [e0, e1, e2, e3]);
      c.taken == 4 && c.sunk >= 1 && c.table == After(After(After(After(t, e0), e1), e2), e3)
  {
    RunThree(t, e0, e1, e2);
    PlayedFour(Course(t, 0, 0, 0), e0, e1, e2, e3, Next);
    NextIs(Run(t, [e0, e1, e2]), e3);
  }

  /** A table the arena would set up, and four accepted actions after which the hand is stuck: a raise
      to 30, a raise from a stack of 15 that lowers the bet to 15, a call of that and a check. Nobody
      is left to act, two players have bet differently, and nothing sent can move the hand again. */
  lemma {:induction false} SinkingRaiseSticks(deck: seq<Card>) returns (es: seq<Event>)
    requires |deck| == 52
    ensures Ready(Trio()) && StartHand(Trio(), deck).Accepted? && |es| == 4
    ensures var c := Run(StartHand(Trio(), deck).after, es); c.taken == 4 && c.sunk >= 1 && Stuck(c.table)
  {
    TrioStarts(deck);
    es := SunkHand(StartHand(Trio(), deck).after);
  }

  // ---------- bets without chips go round for ever ----------

  /** A bet of any size from a player without chips is accepted as nothing; it idles as soon as somebody
      active has acted. */
  lemma {:induction false} PennilessBet(t: Table, amount: Chips)
    requires Raw(t) && t.live && Pending(t.seats[t.turn]) && t.seats[t.turn].chips == 0 && t.currentBet <= 0
    requires 0 <= amount && 0 <= t.bigBlind
    ensures Takes(t, Own(t, Bet, amount)) && (Idles(t, Own(t, Bet, amount)) <==> SomeDone(t.seats))
  {
    Plays(t, Bet, amount);
  }

  /** Two of three players have nothing behind, and nothing is bet. */
  predicate Broke(t: Table, turn: nat, first: bool, second: bool, third: bool) {
    && Game(t, turn, 0, 10)
    && Stands(t, 0, 100, 0, Playing, first) && Stands(t, 1, 0, 0, Playing, second) && Stands(t, 2, 0, 0, Playing, third)
  }

  lemma {:induction false} BrokeIsRaw(t: Table, turn: nat, first: bool, second: bool, third: bool)
    requires Broke(t, turn, first, second, third)
    ensures Raw(t)
  {
    IdsOfThree(t, turn, 0, 10);
  }

  lemma {:induction false} SecondBets(t: Table, third: bool)
    requires Broke(t, 1, true, false, third)
    ensures var e := Own(t, Bet, 50); Takes(t, e) && Idles(t, e) && Broke(After(t, e), 2, false, true, false)
  {
    BrokeIsRaw(t, 1, true, false, third);
    assert Done(t.seats[0]);
    PlaysInto(t, Bet, 50, 0, Apply(t, 1, Bet, 0), 2);
  }

  lemma {:induction false} ThirdBets(t: Table)
    requires Broke(t, 2, false, true, false)
    ensures var e := Own(t, Bet, 50); Takes(t, e) && Idles(t, e) && Broke(After(t, e), 0, false, false, true)
  {
    BrokeIsRaw(t, 2, false, true, false);
    assert Done(t.seats[1]);
    PlaysInto(t, Bet, 50, 0, Apply(t, 2, Bet, 0), 0);
  }

  lemma {:induction false} FirstChecks(t: Table, third: bool)
    requires Broke(t, 0, false, false, third)
    ensures var e := Own(t, Check, 0); Takes(t, e) && !Idles(t, e) && Broke(After(t, e), 1, true, false, third)
  {
    BrokeIsRaw(t, 0, false, false, third);
    PlaysInto(t, Check, 0, 0, Apply(t, 0, Check, 0), 1);
  }

  /** A bet of 50 from each of the two, and a check. */
  function BetBetCheck(): seq<Event> {
    [Acts(2, GameAction(Bet, 50, 2)), Acts(3, GameAction(Bet, 50, 3)), Acts(1, GameAction(Check, 0, 1))]
  }

  /** After the first check and j rounds. */
  ghost predicate StillBetting(c: Course, j: nat) {
    && c.taken == 3 * j + 1 && c.idle == 2 * j && c.table.live
    && exists third: bool :: Broke(c.table, 1, true, false, third)
  }

  lemma {:induction false} RoundOfBets(c: Course, j: nat)
    requires StillBetting(c, j)
    ensures StillBetting(Played(c, BetBetCheck(), Next), j + 1)
  {
    var third: bool :| Broke(c.table, 1, true, false, third);
    var e, f, g := Acts(2, GameAction(Bet, 50, 2)), Acts(3, GameAction(Bet, 50, 3)), Acts(1, GameAction(Check, 0, 1));
    PlayedThree(c, e, f, g, Next);
    SecondBets(c.table, third);
    NextIs(c, e);
    var c1 := Next(c, e);
    ThirdBets(c1.table);
    NextIs(c1, f);
    var c2 := Next(c1, f);
    FirstChecks(c2.table, true);
    NextIs(c2, g);
  }

  /** Three players after a hand that has busted two of them, the button on the last. */
  function Busts(): Table {
    Table([NewPlayer(1, 100), NewPlayer(2, 0), NewPlayer(3, 0)], [], [], 0, HandComplete, 2, 0, 0, 0, false, 5, 10)
  }

  /** Three sitting players between hands, the button on the last of them. */
  ghost predicate ThreeSit(t: Table) {
    && t.Shaped() && !t.live && t.phase in {Waiting, HandComplete} && |t.seats| == 3 && t.button == 2
    && t.smallBlind == 5 && t.bigBlind == 10 && IdsApart(t.seats)
    && t.seats[0].state == t.seats[1].state == t.seats[2].state == Sitting
    && Stacked(t.seats[0]) && Stacked(t.seats[1]) && Stacked(t.seats[2])
  }

  lemma {:induction false} ThreeStartable(t: Table)
    requires ThreeSit(t)
    ensures Startable(t) && ComingBlinds(t) == BlindSeats(1, 2)
    ensures forall deck :: RotateButton(Cleared(t, deck)).button == 0
  {
    forall deck ensures RotateButton(Cleared(t, deck)).button == 0 && BlindsFor(RotateButton(Cleared(t, deck))) == BlindSeats(1, 2) {
      ThreeRotated(t, deck);
      ThreeSeated(Cleared(t, deck));
    }
    ThreeSeated(Cleared(t, []));
    ThreeWaiting(t.seats);
  }

  /** The hand such a table starts: who holds what, and who acts first. */
  lemma {:induction false} ThreeStart(t: Table, deck: seq<Card>)
    requires ThreeSit(t) && |deck| == 52
    ensures StartHand(t, deck).Accepted?
    ensures var r, d, b := StartHand(t, deck).after, DealtIn(Cleared(t, deck)), BlindSeats(1, 2);
      && |d.seats| == 3 && d.button == 0 && d.live && d.phase == PreflopBetting && d.currentBet == Posts(t, b, 2) && Raw(d)
      && Joined(t.seats[0], d.seats[0], 0) && Joined(t.seats[1], d.seats[1], Posts(t, b, 1))
      && Joined(t.seats[2], d.seats[2], Posts(t, b, 2))
      && (ActiveCount(d.seats) > 1 ==>
            r.live && Raw(r) && r == d.(lastRaise := 10, turn := FirstTurn(d.seats, StartSeat(d), d.turn)))
  {
    ThreeStartable(t);
    HandStarts(t, deck);
    var b := ComingBlinds(t);
    JoinedIsRaw(t, b, DealtIn(Cleared(t, deck)));
    assert Posts(t, b, 0) == 0;
  }

  lemma {:induction false} ThreePlaying(seats: seq<Seat>)
    requires |seats| == 3 && seats[0].IsActive() && seats[1].IsActive() && seats[2].IsActive()
    ensures ActiveCount(seats) == 3
  {
    SumOfTwo(seats[..2], OneIfActive);
    assert Sum(seats, OneIfActive) == Sum(seats[..2], OneIfActive) + 1;
  }

  lemma {:induction false} ThreeWaiting(seats: seq<Seat>)
    requires |seats| == 3 && seats[0].state == seats[1].state == seats[2].state == Sitting
    ensures Sum(seats, OneIfWaiting) == 3
  {
    SumOfTwo(seats[..2], OneIfWaiting);
    assert Sum(seats, OneIfWaiting) == Sum(seats[..2], OneIfWaiting) + 1;
  }

  /** With the button on seat 0 and everybody active to act, seat 0 is first. */
  lemma {:induction false} ButtonFirst(d: Table)
    requires d.Shaped() && |d.seats| == 3 && d.button == 0 && d.phase == PreflopBetting && Pending(d.seats[0])
    ensures FirstTurn(d.seats, StartSeat(d), d.turn) == 0
  {
    assert StartSeat(d) == 0;
    assert Find(d.seats, 0, 0, 3, Pending) == 0;
  }

  lemma {:induction false} BustsOpen(d: Table)
    requires d.live && IsBetting(d.phase) && d.Shaped() && |d.seats| == 3 && d.currentBet == 0 && d.bigBlind == 10
    requires Joined(NewPlayer(1, 100), d.seats[0], 0) && Joined(NewPlayer(2, 0), d.seats[1], 0) && Joined(NewPlayer(3, 0), d.seats[2], 0)
    ensures ActiveCount(d.seats) == 3 && Broke(d.(lastRaise := 10, turn := 0), 0, false, false, false)
  {
    ThreePlaying(d.seats);
  }

  lemma {:induction false} BustsStart(deck: seq<Card>)
    requires |deck| == 52
    ensures StartHand(Busts(), deck).Accepted?
    ensures var r := StartHand(Busts(), deck).after; Broke(r, 0, false, false, false)
  {
    ThreeStart(Busts(), deck);
    var d := DealtIn(Cleared(Busts(), deck));
    BustsOpen(d);
    ButtonFirst(d);
  }

  lemma {:induction false} FirstCheck(t: Table)
    requires Broke(t, 0, false, false, false)
    ensures StillBetting(Next(Course(t, 0, 0, 0), Acts(1, GameAction(Check, 0, 1))), 0)
  {
    FirstChecks(t, false);
    NextIs(Course(t, 0, 0, 0), Acts(1, GameAction(Check, 0, 1)));
  }

  /** A hand dealt to two busted players goes on for as long as they keep betting, although no bet is
      of 0: after a first check any number of rounds is carried out. */
  lemma {:induction false} BustsBetForEver(deck: seq<Card>, k: nat)
    requires |deck| == 52
    ensures StartHand(Busts(), deck).Accepted?
    ensures var c := Run(StartHand(Busts(), deck).after, [Acts(1, GameAction(Check, 0, 1))] + Again(BetBetCheck(), k));
      c.taken == 3 * k + 1 && c.idle == 2 * k && c.table.live
  {
    BustsStart(deck);
    BetsGoRound(StartHand(Busts(), deck).after, k);
  }

  lemma {:induction false} BetsGoRound(t: Table, k: nat)
    requires Broke(t, 0, false, false, false)
    ensures StillBetting(Run(t, [Acts(1, GameAction(Check, 0, 1))] + Again(BetBetCheck(), k)), k)
  {
    var c, g := Course(t, 0, 0, 0), Acts(1, GameAction(Check, 0, 1));
    FirstCheck(t);
    forall d: Course, j: nat | StillBetting(d, j) ensures StillBetting(Played(d, BetBetCheck(), Next), j + 1) {
      RoundOfBets(d, j);
    }
    PlayedOn(c, [g], Again(BetBetCheck(), k), Next);
    assert [g][..0] == [];
    assert Played(c, [g], Next) == Next(c, g);
    GoesRound(Next(c, g), BetBetCheck(), k, Next, StillBetting);
  }

  // ---------- a short big blind leaves the hand stuck ----------

  /** Three players, the big blind with the given stack. */
  function ShortBig(chips: Chips): Table {
    Table([NewPlayer(1, 100), NewPlayer(2, 100), NewPlayer(3, chips)], [], [], 0, HandComplete, 2, 0, 0, 0, false, 5, 10)
  }

  /** A call and a check, each accepted. */
  function CallCheck(): seq<Event> {
    [Acts(1, GameAction(Call, 0, 1)), Acts(2, GameAction(Check, 0, 2))]
  }

  ghost predicate TwoToAct(t: Table) {
    && Loose(t, 1, 0) && |t.seats| == 3 && t.seats[0].id == 1 && t.seats[1].id == 2
    && Pending(t.seats[1]) && !Active(t.seats[2])
  }

  lemma {:induction false} FirstCalls(t: Table)
    requires TwoToAct(t) && t.turn == 0 && Pending(t.seats[0]) && t.seats[0].bet < t.currentBet
    ensures var e := CallCheck()[0];
      Takes(t, e) && !Sinks(t, e) && TwoToAct(After(t, e)) && !Pending(After(t, e).seats[0])
  {
    PassAccepted(t, 0);
    LoosePasses(t, 1, 0, 0);
    LooseGoesOn(t.(seats := t.seats[0 := AfterPass(t.seats[0], t.currentBet)]), 1, 0);
  }

  lemma {:induction false} SecondChecks(t: Table)
    requires TwoToAct(t) && !Pending(t.seats[0])
    ensures var e := CallCheck()[1]; Takes(t, e) && !Sinks(t, e) && Stuck(After(t, e))
  {
    LastPasses(t, 1, 0, 1);
  }

  lemma {:induction false} CallCheckSticks(t: Table)
    requires TwoToAct(t) && t.turn == 0 && Pending(t.seats[0]) && t.seats[0].bet < t.currentBet
    ensures var c := Run(t, CallCheck()); c.taken == 2 && c.idle == 0 && c.sunk == 0 && Stuck(c.table)
  {
    var c, e, f := Course(t, 0, 0, 0), CallCheck()[0], CallCheck()[1];
    FirstCalls(t);
    NextIs(c, e);
    SecondChecks(After(t, e));
    NextIs(Next(c, e), f);
    PlayedTwo(c, e, f, Next);
  }

  lemma {:induction false} ShortBigOpens(d: Table)
    requires d.live && d.Shaped() && |d.seats| == 3 && d.currentBet == 3 && Raw(d)
    requires Joined(NewPlayer(1, 100), d.seats[0], 0) && Joined(NewPlayer(2, 100), d.seats[1], 5) && Joined(NewPlayer(3, 3), d.seats[2], 3)
    ensures TwoToAct(d) && Pending(d.seats[0]) && d.seats[0].bet < d.currentBet && ActiveCount(d.seats) == 2
  {
    SumOfTwo(d.seats[..2], OneIfActive);
    assert Sum(d.seats, OneIfActive) == Sum(d.seats[..2], OneIfActive) + 0;
  }

  lemma {:induction false} ShortBigStarts(deck: seq<Card>)
    requires |deck| == 52
    ensures StartHand(ShortBig(3), deck).Accepted?
    ensures var r := StartHand(ShortBig(3), deck).after;
      TwoToAct(r) && r.turn == 0 && Pending(r.seats[0]) && r.seats[0].bet < r.currentBet
  {
    ThreeStart(ShortBig(3), deck);
    var d := DealtIn(Cleared(ShortBig(3), deck));
    ShortBigOpens(d);
    ButtonFirst(d);
  }

  /** Without any raise: stacks of 100, 100 and 3 with blinds of 5 and 10. The button calls 3, the small
      blind, who has bet 5, checks, and nobody is left to act on unequal bets. */
  lemma {:induction false} ShortBigSticks(deck: seq<Card>)
    requires |deck| == 52
    ensures StartHand(ShortBig(3), deck).Accepted?
    ensures var c := Run(StartHand(ShortBig(3), deck).after, CallCheck());
      c.taken == 2 && c.idle == 0 && c.sunk == 0 && Stuck(c.table)
  {
    ShortBigStarts(deck);
    CallCheckSticks(StartHand(ShortBig(3), deck).after);
  }

  /** The same table can get stuck exactly when the big blind has less than the small blind. */
  lemma {:induction false} ShortBigCanStickIff(chips: Chips)
    requires chips >= 0
    ensures Startable(ShortBig(chips)) && (CanStick(ShortBig(chips)) <==> chips < 5)
  {
    var t := ShortBig(chips);
    ThreeStartable(t);
    assert Comes(t.seats[0]);
  }
}
