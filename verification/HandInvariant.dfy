/** What every step of a hand keeps. */
module HandInvariant {
  import opened Arithmetic
  import opened Cards
  import opened Seats
  import opened Betting
  import opened Showdown
  import opened HandSpec
  import opened Payout

  // ---------- the invariant ----------

  predicate IsBetting(p: Phase) {
    p in {PreflopBetting, FlopBetting, TurnBetting, RiverBetting}
  }

  function BoardSize(p: Phase): nat {
    match p
    case FlopBetting => 3
    case TurnBetting => 4
    case RiverBetting => 5
    case _ => 0
  }

  /** Bets stay within the current bet, active seats that have acted have matched it, and only
      seats in the hand hold cards or have chips in. */
  predicate SeatOk(s: Seat, currentBet: Chips) {
    && s.chips >= 0 && 0 <= s.bet <= s.invested && s.bet <= currentBet
    && (s.state == Playing ==> s.chips > 0 && s.hole.Dealt? && (s.acted ==> s.bet == currentBet))
    && (s.state == AllIn ==> s.chips == 0 && s.hole.Dealt?)
    && (s.state in {Empty, Sitting, SittingOut} ==> s.invested == 0 && s.hole.Undealt?)
  }

  ghost predicate SeatsOk(seats: seq<Seat>, currentBet: Chips) {
    forall i :: 0 <= i < |seats| ==> SeatOk(seats[i], currentBet)
  }

  /** A hand in progress, at any point between actions or between streets. */
  ghost predicate Sound(t: Table) {
    && t.Shaped() && t.live && IsBetting(t.phase)
    && t.bigBlind > 0 && t.currentBet >= 0 && t.lastRaise >= t.bigBlind
    && IdsOk(t.seats) && SeatsOk(t.seats, t.currentBet)
    && |t.board| == BoardSize(t.phase) && t.dealt + 2 * (5 - |t.board|) <= |t.deck|
  }

  /** Some player still in the hand has chips in. */
  ghost predicate Backed(seats: seq<Seat>) {
    exists i :: 0 <= i < |seats| && seats[i].IsLive() && seats[i].invested > 0
  }

  /** Some such player owns the current bet. */
  ghost predicate Owned(t: Table) {
    exists i :: 0 <= i < |t.seats| && Owns(t, t.seats[i])
  }

  predicate Owns(t: Table, s: Seat) {
    s.IsLive() && s.bet == t.currentBet && s.invested > 0
  }

  /** Waiting for a player: the turn seat is active and has not acted, and the hand is contested. */
  ghost predicate AwaitsAction(t: Table) {
    Sound(t) && Pending(t.seats[t.turn]) && LiveCount(t.seats) >= 2
  }

  /** After the hand: everybody still seated is sitting with nothing wagered. */
  ghost predicate Finished(t: Table) {
    && t.Shaped() && !t.live && t.phase == HandComplete && t.board == [] && t.currentBet == 0
    && IdsOk(t.seats)
    && forall i :: 0 <= i < |t.seats| ==>
         t.seats[i].chips >= 0 && AtRest(t.seats[i]) && Unplaced(t.seats[i])
  }

  predicate Unplaced(s: Seat) {
    !s.isDealer && !s.isSmallBlind && !s.isBigBlind
  }

  predicate AtRest(s: Seat) {
    s.state in {Empty, Sitting} && s.bet == 0 && s.invested == 0 && s.hole.Undealt? && !s.acted
  }

  /** The same person, or the same empty seat. */
  predicate SamePlayer(a: Seat, b: Seat) {
    && a.id == b.id && a.leaving == b.leaving
    && (if a.state == Empty then b.state == Empty && a.chips == b.chips else b.state != Empty)
  }

  /** The same people in the same seats. */
  ghost predicate SamePlayers(a: seq<Seat>, b: seq<Seat>) {
    |a| == |b| && forall i :: 0 <= i < |a| ==> SamePlayer(a[i], b[i])
  }

  function Wealth(seats: seq<Seat>): Chips { Sum(seats, WealthOf) }

  function OneIfPlayer(s: Seat): int { if s.state == Empty then 0 else 1 }

  /** The number of seats taken. */
  function PlayerCount(seats: seq<Seat>): int { Sum(seats, OneIfPlayer) }

  /** What a step may not change. */
  ghost predicate SameTable(t: Table, r: Table) {
    && SamePlayers(t.seats, r.seats) && r.deck == t.deck && r.button == t.button
    && r.smallBlind == t.smallBlind && r.bigBlind == t.bigBlind
  }

  // ---------- scanning ----------

  lemma {:induction false} RingOffset(start: nat, lo: nat, j: nat, n: nat) returns (i: nat)
    requires j < n
    ensures lo <= i < lo + n && (start + i) % n == j
  {
    var d := j - start - lo;
    var q := d / n;
    i := lo + d % n;
    assert start + i == j - n * q;
    assert j - n * q == n * (-q) + j;
    ModUnique(start + i, n, -q, j);
  }

  lemma {:induction false} FindMisses(seats: seq<Seat>, start: nat, lo: nat, hi: nat, p: Seat -> bool, i: nat)
    requires seats != [] && lo <= i < hi && Find(seats, start, lo, hi, p) == -1
    ensures !p(seats[(start + i) % |seats|])
    decreases hi - lo
  {
    if i > lo { FindMisses(seats, start, lo + 1, hi, p, i); }
  }

  /** A full turn of the ring misses nobody. */
  lemma {:induction false} FindFinds(seats: seq<Seat>, start: nat, lo: nat, p: Seat -> bool, j: nat)
    requires j < |seats| && p(seats[j])
    ensures Find(seats, start, lo, lo + |seats|, p) >= 0
  {
    var i := RingOffset(start, lo, j, |seats|);
    if Find(seats, start, lo, lo + |seats|, p) == -1 {
      FindMisses(seats, start, lo, lo + |seats|, p, i);
    }
  }

  // ---------- counting ----------

  lemma {:induction false} CountsBounded(seats: seq<Seat>)
    ensures 0 <= ActiveCount(seats) <= LiveCount(seats) <= PlayerCount(seats) <= |seats|
    ensures 0 <= PendingCount(seats) <= ActiveCount(seats)
  {
    SumNonNegative(seats, OneIfPending);
    SumCompare(seats, seats, OneIfPending, OneIfActive);
    SumCompare(seats, seats, OneIfActive, OneIfLive);
    SumCompare(seats, seats, OneIfLive, OneIfPlayer);
    SumBounds(seats, OneIfPlayer, 0, 1);
  }

  /** The same people are as many. */
  lemma {:induction false} SameCount(a: seq<Seat>, b: seq<Seat>)
    requires SamePlayers(a, b)
    ensures PlayerCount(a) == PlayerCount(b)
  {
    forall i | 0 <= i < |a| ensures OneIfPlayer(a[i]) == OneIfPlayer(b[i]) {
      assert SamePlayer(a[i], b[i]);
    }
    SumCompare(a, b, OneIfPlayer, OneIfPlayer);
  }

  lemma {:induction false} CountsOne(seats: seq<Seat>, i: nat)
    requires i < |seats|
    ensures Pending(seats[i]) ==> PendingCount(seats) >= 1
    ensures Active(seats[i]) ==> ActiveCount(seats) >= 1
    ensures seats[i].IsLive() ==> LiveCount(seats) >= 1
  {
    SumCovers(seats, OneIfPending, i);
    SumCovers(seats, OneIfActive, i);
    SumCovers(seats, OneIfLive, i);
  }

  // ---------- showdown under the invariant ----------

  lemma {:induction false} LargestClaimant(seats: seq<Seat>) returns (i: nat)
    requires exists k :: 0 <= k < |seats| && Claims(seats[k])
    ensures i < |seats| && Claims(seats[i])
    ensures forall j :: 0 <= j < |seats| && Claims(seats[j]) ==> seats[j].invested <= seats[i].invested
  {
    var n := |seats| - 1;
    if exists k :: 0 <= k < n && Claims(seats[k]) {
      var k :| 0 <= k < n && Claims(seats[k]);
      assert seats[..n][k] == seats[k];
      var m := LargestClaimant(seats[..n]);
      i := if Claims(seats[n]) && seats[n].invested > seats[m].invested then n else m;
      forall j | 0 <= j < |seats| && Claims(seats[j]) ensures seats[j].invested <= seats[i].invested {
        if j < n { assert seats[..n][j] == seats[j]; }
      }
    } else {
      i := n;
    }
  }

  /** Under the invariant a showdown is funded exactly when someone live has chips in. */
  lemma {:induction false} BackedIsFunded(seats: seq<Seat>, currentBet: Chips)
    requires SeatsOk(seats, currentBet)
    ensures StakesOk(seats)
    ensures Funded(seats) <==> Backed(seats) || Sum(seats, InvestedOf) == 0
  {
    if Backed(seats) {
      var k :| 0 <= k < |seats| && seats[k].IsLive() && seats[k].invested > 0;
      assert Claims(seats[k]);
      var i := LargestClaimant(seats);
      assert LargestDealt(seats, i);
    }
    if i :| 0 <= i < |seats| && LargestDealt(seats, i) {
      assert seats[i].IsLive();
    }
  }

  lemma {:induction false} ShowdownFinishes(t: Table)
    requires t.Shaped() && IdsOk(t.seats) && SeatsOk(t.seats, t.currentBet)
    ensures Finished(DoShowdown(t)) && SameTable(t, DoShowdown(t))
  {
    BackedIsFunded(t.seats, t.currentBet);
    EmptySeatsUnpaid(t);
    PayAllKeeps(t.seats, Awards(t));
    PaidThenRested(t.seats, PayAll(t.seats, Awards(t)), t.currentBet);
  }

  lemma {:induction false} PaidThenRested(seats: seq<Seat>, paid: seq<Seat>, currentBet: Chips)
    requires |paid| == |seats| && IdsOk(seats) && SeatsOk(seats, currentBet)
    requires forall i :: 0 <= i < |seats| ==> paid[i] == seats[i].(chips := paid[i].chips) && paid[i].chips >= seats[i].chips
    requires forall i :: 0 <= i < |seats| && seats[i].state == Empty ==> paid[i] == seats[i]
    ensures var r := MapSeats(paid, AfterHandSeat);
      IdsOk(r) && SamePlayers(seats, r) && forall i :: 0 <= i < |r| ==> r[i].chips >= 0 && AtRest(r[i]) && Unplaced(r[i])
  {
    var r := MapSeats(paid, AfterHandSeat);
    forall i | 0 <= i < |r| ensures SamePlayer(seats[i], r[i]) && r[i].chips >= 0 && AtRest(r[i]) && Unplaced(r[i]) {
      assert SeatOk(seats[i], currentBet);
    }
  }

  // ---------- advancing the streets ----------

  /** What a completed step leaves: the same table, and either a hand awaiting action or a
      finished one. No chips are lost as long as someone live has chips in. */
  ghost predicate Kept(t: Table, r: Table) {
    && SameTable(t, r)
    && (if r.live then AwaitsAction(r) else Finished(r))
    && (Backed(t.seats) ==> Wealth(r.seats) == Wealth(t.seats))
    && (r.live && Backed(t.seats) ==> Backed(r.seats))
    && (r.live && Owned(t) ==> Owned(r))
  }

  lemma {:induction false} KeptAfter(t: Table, u: Table, r: Table)
    requires SameTable(t, u) && Wealth(u.seats) == Wealth(t.seats)
    requires Backed(t.seats) ==> Backed(u.seats)
    requires Owned(t) ==> Owned(u)
    requires Kept(u, r)
    ensures Kept(t, r)
  {
  }

  lemma {:induction false} ShowdownKeeps(t: Table)
    requires Sound(t)
    ensures Kept(t, DoShowdown(t))
  {
    BackedIsFunded(t.seats, t.currentBet);
    ShowdownFinishes(t);
    ShowdownConservesIff(t);
  }

  lemma {:induction false} NewStreetCounts(seats: seq<Seat>)
    ensures var r := MapSeats(seats, NewStreetSeat);
      && ActiveCount(r) == ActiveCount(seats) == PendingCount(r) && LiveCount(r) == LiveCount(seats)
      && Sum(r, ChipsOf) == Sum(seats, ChipsOf) && Wealth(r) == Wealth(seats)
  {
    var r := MapSeats(seats, NewStreetSeat);
    SumCompare(r, seats, WealthOf, WealthOf);
    SumCompare(r, seats, OneIfActive, OneIfActive);
    SumCompare(r, seats, OneIfPending, OneIfActive);
    SumCompare(r, seats, OneIfLive, OneIfLive);
    SumCompare(r, seats, ChipsOf, ChipsOf);
  }

  lemma {:induction false} NewStreetKeeps(t: Table)
    requires Sound(t)
    ensures var u := NewStreet(t);
      && Sound(u) && SameTable(t, u)
      && (Backed(t.seats) ==> Backed(u.seats)) && (Owned(t) ==> Owned(u))
  {
    var u := NewStreet(t);
    assert forall i :: 0 <= i < |t.seats| ==> u.seats[i] == t.seats[i].(acted := false, bet := 0);
    if Backed(t.seats) {
      var i :| 0 <= i < |t.seats| && t.seats[i].IsLive() && t.seats[i].invested > 0;
      assert u.seats[i].IsLive() && u.seats[i].invested > 0;
    }
    if Owned(t) {
      var i :| 0 <= i < |t.seats| && Owns(t, t.seats[i]);
      assert Owns(u, u.seats[i]);
    }
  }

  /** With the deck long enough, dealing shows exactly the cards asked for. */
  lemma {:induction false} DealBoardDeals(t: Table, count: nat)
    requires |t.board| + count <= 5 && t.dealt + 2 * count <= |t.deck|
    ensures |DealBoard(t, count).board| == |t.board| + count && DealBoard(t, count).dealt == t.dealt + 2 * count
    ensures t.board <= DealBoard(t, count).board
    decreases count
  {
    if count > 0 {
      DealBoardDeals(t.(board := t.board + [t.deck[t.dealt + 1]], dealt := t.dealt + 2), count - 1);
    }
  }

  /** The next street of the phase. */
  function NextPhase(p: Phase): Phase {
    match p
    case PreflopBetting => FlopBetting
    case FlopBetting => TurnBetting
    case _ => RiverBetting
  }

  function NextStreetDealt(t: Table): Table {
    StreetDealt(NewStreet(t))
  }

  lemma {:induction false} NextStreetSound(t: Table)
    requires Sound(t) && t.phase != RiverBetting
    ensures var u := NextStreetDealt(t);
      Sound(u) && u.seats == NewStreet(t).seats && u.phase == NextPhase(t.phase) && SameTable(t, u) && u.turn == t.turn
      && u.currentBet == 0
  {
    NewStreetKeeps(t);
    var count := if t.phase == PreflopBetting then 3 else 1;
    DealBoardDeals(NewStreet(t), count);
  }

  /** What is left to do in a hand, chips counted by the unit. */
  function Work(t: Table, unit: Chips): int {
    if !t.live then 0
    else PlayerCount(t.seats) * (Units(t.seats, unit) + ActiveCount(t.seats) + StreetsLeft(t.phase)) + PendingCount(t.seats)
  }

  /** How many units are still behind. */
  function Units(seats: seq<Seat>, unit: Chips): int {
    if unit > 0 then Sum(seats, ChipsOf) / unit else 0
  }

  /** Potential: every action of legal play lowers it by at least one. */
  function Potential(t: Table): int { Work(t, t.bigBlind) }

  ghost predicate Cheaper(t: Table, r: Table) {
    r.live ==> Potential(r) <= Potential(t)
  }

  /** A new street is paid for. */
  lemma {:induction false} StreetWork(t: Table, unit: Chips)
    requires t.live && StreetsLeft(t.phase) > 0
    ensures Work(NextStreetDealt(t), unit) <= Work(t, unit)
  {
    NewStreetCounts(t.seats);
    CountsBounded(t.seats);
    var u := NextStreetDealt(t);
    SumCompare(u.seats, t.seats, OneIfPlayer, OneIfPlayer);
    StreetPaid(t, u, unit);
  }

  lemma {:induction false} StreetPaid(t: Table, u: Table, unit: Chips)
    requires t.live && u.live && StreetsLeft(u.phase) == StreetsLeft(t.phase) - 1
    requires PlayerCount(u.seats) == PlayerCount(t.seats) && Sum(u.seats, ChipsOf) == Sum(t.seats, ChipsOf)
    requires ActiveCount(u.seats) == ActiveCount(t.seats) && PendingCount(t.seats) >= 0
    requires PendingCount(u.seats) <= PlayerCount(u.seats)
    ensures Work(u, unit) <= Work(t, unit)
  {
    var a := Units(t.seats, unit) + ActiveCount(t.seats) + StreetsLeft(t.phase);
    OneUnitLess(PlayerCount(t.seats), a, PendingCount(t.seats), PendingCount(u.seats));
  }

  /** One unit of the potential is worth as many actions as there are players. */
  lemma {:induction false} OneUnitLess(n: int, a: int, before: int, after: int)
    requires 0 <= before && after <= n
    ensures n * (a - 1) + after <= n * a + before
  {
    assert n * (a - 1) == n * a - n;
  }

  /** The hand goes to showdown at the end of this street. */
  predicate Closes(t: Table) {
    LiveCount(t.seats) <= 1 || ActiveCount(t.seats) == 0 || t.phase == RiverBetting
  }

  lemma {:induction false} ClosingShowsDown(t: Table)
    requires t.Shaped() && Closes(t)
    ensures !AdvanceStreet(t).live
  {
  }

  /** The street change taken when the hand goes on. */
  lemma {:induction false} AdvanceUnfolds(t: Table)
    requires Sound(t) && LiveCount(t.seats) > 1 && ActiveCount(t.seats) > 0 && t.phase != RiverBetting
    ensures AdvanceStreet(t) == StartBettingRound(NextStreetDealt(t))
  {
  }

  lemma {:induction false} AdvanceKeeps(t: Table)
    requires Sound(t)
    ensures Kept(t, AdvanceStreet(t)) && Cheaper(t, AdvanceStreet(t))
    decreases StreetsLeft(t.phase), 0
  {
    if LiveCount(t.seats) <= 1 {
      ShowdownKeeps(t);
    } else if ActiveCount(t.seats) == 0 {
      RunoutKeeps(t);
    } else if t.phase == RiverBetting {
      RiverKeeps(t);
    } else {
      CountsBounded(t.seats);
      AdvanceUnfolds(t);
      NextStreetReady(t);
      StartKeeps(NextStreetDealt(t));
      NextStreetLifts(t, StartBettingRound(NextStreetDealt(t)));
    }
  }

  lemma {:induction false} RiverKeeps(t: Table)
    requires Sound(t)
    ensures Kept(t, DoShowdown(NewStreet(t)))
  {
    NewStreetKeeps(t);
    NewStreetCounts(t.seats);
    ShowdownKeeps(NewStreet(t));
    KeptAfter(t, NewStreet(t), DoShowdown(NewStreet(t)));
  }

  lemma {:induction false} NextStreetReady(t: Table)
    requires Sound(t) && t.phase != RiverBetting
    ensures var u := NextStreetDealt(t);
      Sound(u) && LiveCount(u.seats) == LiveCount(t.seats) && PendingCount(u.seats) == ActiveCount(u.seats)
  {
    NewStreetCounts(t.seats);
    NextStreetSound(t);
  }

  /** What the next street keeps, this street keeps. */
  lemma {:induction false} NextStreetLifts(t: Table, r: Table)
    requires Sound(t) && t.phase != RiverBetting && ActiveCount(t.seats) >= 1
    requires Kept(NextStreetDealt(t), r) && Cheaper(NextStreetDealt(t), r)
    ensures Kept(t, r) && Cheaper(t, r)
  {
    var u := NextStreetDealt(t);
    NewStreetKeeps(t);
    NewStreetCounts(t.seats);
    NextStreetSound(t);
    StreetWork(t, t.bigBlind);
    OwnedMoves(t, u);
    KeptAfter(t, u, r);
  }

  lemma {:induction false} OwnedMoves(t: Table, u: Table)
    requires u.seats == NewStreet(t).seats && u.currentBet == 0
    ensures Owned(t) ==> Owned(u)
  {
    if Owned(t) {
      var i :| 0 <= i < |t.seats| && Owns(t, t.seats[i]);
      assert Owns(u, u.seats[i]);
    }
  }

  lemma {:induction false} RunoutKeeps(t: Table)
    requires Sound(t)
    ensures Kept(t, DoShowdown(Runout(t)))
  {
    var u := Runout(t);
    BackedIsFunded(t.seats, t.currentBet);
    ShowdownFinishes(u);
    ShowdownConservesIff(u);
  }

  /** At the start of a betting round nobody active has acted. */
  lemma {:induction false} StartKeeps(t: Table)
    requires Sound(t) && LiveCount(t.seats) >= 2 && PendingCount(t.seats) == ActiveCount(t.seats)
    ensures Kept(t, StartBettingRound(t)) && Cheaper(t, StartBettingRound(t))
    decreases StreetsLeft(t.phase), 1
  {
    var t1 := t.(lastRaise := t.bigBlind);
    if ActiveCount(t.seats) <= 1 {
      AdvanceKeeps(t1);
      SkipLifts(t, t1, AdvanceStreet(t1));
    } else {
      var j := SumWitness(t.seats, OneIfPending);
      FindFinds(t.seats, StartSeat(t), 0, Pending, j);
      TurnKeeps(t, t1.(turn := FirstTurn(t.seats, StartSeat(t), t.turn)));
    }
  }

  lemma {:induction false} SkipLifts(t: Table, t1: Table, r: Table)
    requires t1 == t.(lastRaise := t1.lastRaise) && Kept(t1, r) && Cheaper(t1, r)
    ensures Kept(t, r) && Cheaper(t, r)
  {
    OwnedStays(t, t1);
    KeptAfter(t, t1, r);
  }

  lemma {:induction false} OwnedStays(t: Table, r: Table)
    requires r.seats == t.seats && r.currentBet == t.currentBet
    ensures Owned(t) ==> Owned(r)
  {
    if Owned(t) {
      var i :| 0 <= i < |t.seats| && Owns(t, t.seats[i]);
      assert Owns(r, r.seats[i]);
    }
  }

  /** Passing the turn to a pending seat keeps everything. */
  lemma {:induction false} TurnKeeps(t: Table, r: Table)
    requires Sound(t) && LiveCount(t.seats) >= 2
    requires r == t.(turn := r.turn, lastRaise := r.lastRaise) && r.lastRaise >= t.bigBlind
    requires r.turn < |r.seats| && Pending(r.seats[r.turn])
    ensures Kept(t, r) && Potential(r) == Potential(t)
  {
    OwnedStays(t, r);
  }

  // ---------- after an action ----------

  /** If the round is not complete, someone active has not acted. */
  lemma {:induction false} SomebodyPending(t: Table) returns (j: nat)
    requires Sound(t) && !RoundComplete(t.seats)
    ensures j < |t.seats| && Pending(t.seats[j]) && LiveCount(t.seats) >= 2
  {
    if k :| 0 <= k < |t.seats| && Active(t.seats[k]) && !t.seats[k].acted {
      j := k;
    } else {
      MatchedIsComplete(t);
    }
  }

  /** Active seats that have all acted have all matched the current bet. */
  lemma {:induction false} MatchedIsComplete(t: Table)
    requires SeatsOk(t.seats, t.currentBet)
    requires forall i :: 0 <= i < |t.seats| && Active(t.seats[i]) ==> t.seats[i].acted
    ensures RoundComplete(t.seats)
  {
    assert forall i :: 0 <= i < |t.seats| && Active(t.seats[i]) ==> t.seats[i].bet == t.currentBet;
  }

  lemma {:induction false} SettleKeeps(t: Table)
    requires Sound(t)
    ensures Kept(t, Settle(t)) && Cheaper(t, Settle(t))
  {
    if RoundComplete(t.seats) {
      AdvanceKeeps(t);
    } else {
      var j := SomebodyPending(t);
      FindFinds(t.seats, t.turn, 1, Pending, j);
      TurnKeeps(t, t.(turn := NextTurn(t.seats, t.turn)));
    }
  }

  // ---------- when a hand is over ----------

  /** The round is complete and no more betting can follow: one player left, at most one who can
      still bet, or the river done. */
  ghost predicate HandCloses(t: Table) {
    RoundComplete(t.seats) && (LiveCount(t.seats) <= 1 || ActiveCount(t.seats) <= 1 || t.phase == RiverBetting)
  }

  lemma {:induction false} AdvanceLiveIff(t: Table)
    requires t.Shaped() && t.live && IsBetting(t.phase)
    ensures AdvanceStreet(t).live <==> LiveCount(t.seats) > 1 && ActiveCount(t.seats) > 1 && t.phase != RiverBetting
    decreases StreetsLeft(t.phase), 0
  {
    if Closes(t) {
      ClosingShowsDown(t);
    } else {
      NewStreetCounts(t.seats);
      CountsBounded(t.seats);
      StartLiveIff(NextStreetDealt(t));
    }
  }

  lemma {:induction false} StartLiveIff(t: Table)
    requires t.Shaped() && t.live && IsBetting(t.phase)
    ensures StartBettingRound(t).live <==> ActiveCount(t.seats) > 1
    decreases StreetsLeft(t.phase), 1
  {
    if ActiveCount(t.seats) <= 1 { AdvanceLiveIff(t.(lastRaise := t.bigBlind)); }
  }

  /** After an action the hand ends exactly when it closes. */
  lemma {:induction false} SettleLiveIff(t: Table)
    requires t.Shaped() && t.live && IsBetting(t.phase)
    ensures Settle(t).live <==> !HandCloses(t)
  {
    if RoundComplete(t.seats) { AdvanceLiveIff(t); }
  }

  lemma {:induction false} AdvanceStaysBetting(t: Table)
    requires t.Shaped() && IsBetting(t.phase) && AdvanceStreet(t).live
    ensures IsBetting(AdvanceStreet(t).phase)
    decreases StreetsLeft(t.phase), 0
  {
    if Closes(t) {
      ClosingShowsDown(t);
    } else {
      StartStaysBetting(NextStreetDealt(t));
    }
  }

  lemma {:induction false} StartStaysBetting(t: Table)
    requires t.Shaped() && IsBetting(t.phase) && StartBettingRound(t).live
    ensures IsBetting(StartBettingRound(t).phase)
    decreases StreetsLeft(t.phase), 1
  {
    if ActiveCount(t.seats) <= 1 { AdvanceStaysBetting(t.(lastRaise := t.bigBlind)); }
  }

  /** A hand that goes on is in a betting phase. */
  lemma {:induction false} SettleStaysBetting(t: Table)
    requires t.Shaped() && IsBetting(t.phase) && Settle(t).live
    ensures IsBetting(Settle(t).phase)
  {
    if RoundComplete(t.seats) { AdvanceStaysBetting(t); }
  }
}
