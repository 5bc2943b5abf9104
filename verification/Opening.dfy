/** StartHand: from a table at rest to a hand awaiting its first action. */
module Opening {
  import opened Arithmetic
  import opened Cards
  import opened Seats
  import opened Betting
  import opened HandSpec
  import opened Payout
  import opened HandInvariant
  import opened LegalPlay

  /** A table between hands as the arena sets it up: everybody seated is sitting with more than a
      big blind, at least two are, and the blinds are positive and ordered. */
  ghost predicate Ready(t: Table) {
    && t.Shaped() && !t.live && t.phase in {Waiting, HandComplete}
    && 0 < t.smallBlind <= t.bigBlind
    && IdsOk(t.seats) && Sum(t.seats, OneIfSeated) >= 2
    && forall i :: 0 <= i < |t.seats| ==> SeatReady(t.seats[i], t.bigBlind)
  }

  predicate SeatReady(s: Seat, bigBlind: Chips) {
    AtRest(s) && s.chips >= 0 && (s.state == Sitting ==> s.chips > bigBlind)
  }

  /** Two cards each, then five board cards each preceded by a burn. */
  ghost predicate DeckCovers(t: Table, deck: seq<Card>) {
    2 * Sum(t.seats, OneIfSeated) + 10 <= |deck|
  }

  // ---------- the next seated player ----------

  lemma {:induction false} FindFirst(seats: seq<Seat>, start: nat, lo: nat, hi: nat, p: Seat -> bool, i: nat) returns (k: nat)
    requires seats != [] && lo <= i < hi && p(seats[(start + i) % |seats|])
    ensures lo <= k <= i && Find(seats, start, lo, hi, p) == (start + k) % |seats| && p(seats[(start + k) % |seats|])
    decreases hi - lo
  {
    if p(seats[(start + lo) % |seats|]) {
      k := lo;
    } else {
      k := FindFirst(seats, start, lo + 1, hi, p, i);
    }
  }

  lemma {:induction false} RingMoves(from: nat, k: nat, n: nat)
    requires from < n && 0 < k < n
    ensures (from + k) % n != from
  {
    if from + k < n {
      ModUnique(from + k, n, 0, from + k);
    } else {
      ModUnique(from + k, n, 1, from + k - n);
    }
  }

  lemma {:induction false} RingReturns(from: nat, n: nat)
    requires from < n
    ensures (from + n) % n == from
  {
    ModUnique(from + n, n, 1, from);
  }

  /** With two or more seated, the next seated player is somebody else, and seated. */
  lemma {:induction false} NextSeatedIsOther(seats: seq<Seat>, from: nat)
    requires from < |seats| && Sum(seats, OneIfSeated) >= 2
    ensures NextSeated(seats, from) != from && Seated(seats[NextSeated(seats, from)])
  {
    var n := |seats|;
    var without := seats[from := seats[from].(state := Empty)];
    SumUpdate(seats, from, seats[from].(state := Empty), OneIfSeated);
    var j := SumWitness(without, OneIfSeated);
    var i := RingOffset(from, 1, j, n);
    if i == n { RingReturns(from, n); }
    var k := FindFirst(seats, from, 1, n + 1, Seated, i);
    RingMoves(from, k, n);
  }

  lemma {:induction false} NextSeatedIsSeated(seats: seq<Seat>, from: nat)
    requires from < |seats| && Sum(seats, OneIfSeated) >= 1
    ensures Seated(seats[NextSeated(seats, from)])
  {
    var j := SumWitness(seats, OneIfSeated);
    FindFinds(seats, from, 1, Seated, j);
  }

  // ---------- button, blinds, hole cards ----------

  /** The same seat but for the three position flags. */
  predicate SameButFlags(a: Seat, b: Seat) {
    b == a.(isDealer := b.isDealer, isSmallBlind := b.isSmallBlind, isBigBlind := b.isBigBlind)
  }

  lemma {:induction false} ButtonPlaced(t: Table)
    requires t.Shaped() && Sum(t.seats, OneIfSeated) >= 2
    ensures var r := RotateButton(t);
      && r.Shaped() && Seated(r.seats[r.button])
      && r == t.(button := r.button, seats := r.seats) && |r.seats| == |t.seats|
      && (forall i :: 0 <= i < |t.seats| ==> SameButFlags(t.seats[i], r.seats[i]))
      && Sum(r.seats, OneIfSeated) == Sum(t.seats, OneIfSeated)
  {
    var r := RotateButton(t);
    NextSeatedIsSeated(t.seats, t.button);
    SumCompare(r.seats, t.seats, OneIfSeated, OneIfSeated);
  }

  lemma {:induction false} BlindSeatsDiffer(t: Table)
    requires t.Shaped() && Seated(t.seats[t.button]) && Sum(t.seats, OneIfSeated) >= 2
    ensures var b := BlindsFor(t); b.small != b.big && Seated(t.seats[b.small]) && Seated(t.seats[b.big])
  {
    NextSeatedIsOther(t.seats, t.button);
    NextSeatedIsOther(t.seats, NextSeated(t.seats, t.button));
  }

  /** Seat s after posting: its stake is its bet, and it may be the one that owns the big blind. */
  predicate Posted(s: Seat, r: Seat, stake: Chips) {
    r == s.(chips := s.chips - stake, bet := stake, invested := stake, isSmallBlind := r.isSmallBlind, isBigBlind := r.isBigBlind)
  }

  function StakeOf(b: BlindSeats, i: nat, small: Chips, big: Chips): Chips {
    if i == b.small then small else if i == b.big then big else 0
  }

  lemma {:induction false} BlindsPosted(t: Table)
    requires t.Shaped() && Seated(t.seats[t.button]) && Sum(t.seats, OneIfSeated) >= 2
    requires 0 < t.smallBlind <= t.bigBlind
    requires forall i :: 0 <= i < |t.seats| ==> SeatReady(t.seats[i], t.bigBlind)
    ensures var r, b := PostBlinds(t), BlindsFor(t);
      && r == t.(seats := r.seats, currentBet := t.bigBlind) && |r.seats| == |t.seats|
      && b.small != b.big && Seated(t.seats[b.big])
      && forall i :: 0 <= i < |t.seats| ==> Posted(t.seats[i], r.seats[i], StakeOf(b, i, t.smallBlind, t.bigBlind))
  {
    BlindSeatsDiffer(t);
    var b := BlindsFor(t);
    assert SeatReady(t.seats[b.small], t.bigBlind) && SeatReady(t.seats[b.big], t.bigBlind);
  }

  /** The first k seats have been dealt in if they were sitting. */
  lemma {:induction false} HolesDealt(t: Table, k: nat)
    requires k <= |t.seats| && t.dealt + 2 * Sum(t.seats[..k], OneIfSitting) <= |t.deck|
    ensures var r := DealHoles(t, k);
      && r.dealt == t.dealt + 2 * Sum(t.seats[..k], OneIfSitting)
      && forall i :: 0 <= i < |t.seats| ==>
           if i < k && t.seats[i].state == Sitting
           then r.seats[i].hole.Dealt? && r.seats[i] == t.seats[i].(hole := r.seats[i].hole, state := Playing, acted := false)
           else r.seats[i] == t.seats[i]
  {
    if k > 0 {
      assert t.seats[..k][..k - 1] == t.seats[..k - 1];
      SumNonNegative(t.seats[..k - 1], OneIfSitting);
      HolesDealt(t, k - 1);
    }
  }

  function OneIfSitting(s: Seat): int { if s.state == Sitting then 1 else 0 }

  // ---------- the whole opening ----------

  /** A seat at rest, once it has posted `stake` and been dealt in. */
  predicate Opened(s: Seat, r: Seat, stake: Chips) {
    && r.chips == s.chips - stake && r.bet == stake == r.invested && r.id == s.id && r.leaving == s.leaving && !r.acted
    && (if s.state == Sitting then r.state == Playing && r.hole.Dealt? else r.state == Empty && r.hole.Undealt?)
  }

  lemma {:induction false} ClearedReady(t: Table, deck: seq<Card>)
    requires Ready(t)
    ensures var c := Cleared(t, deck);
      && Sum(c.seats, OneIfSeated) == Sum(t.seats, OneIfSeated) == Sum(t.seats, OneIfWaiting)
      && forall i :: 0 <= i < |t.seats| ==> SameButFlags(t.seats[i], c.seats[i]) && SeatReady(c.seats[i], t.bigBlind)
  {
    var c := Cleared(t, deck);
    assert forall i :: 0 <= i < |t.seats| ==> SeatReady(t.seats[i], t.bigBlind);
    SumCompare(c.seats, t.seats, OneIfSeated, OneIfSeated);
    SumCompare(t.seats, t.seats, OneIfSeated, OneIfWaiting);
  }

  function BlindsPostedTable(t: Table, deck: seq<Card>): Table
    requires t.Shaped()
  {
    PostBlinds(RotateButton(Cleared(t, deck)))
  }

  /** A seat at rest that has posted its stake but holds no cards yet. */
  predicate Staked(s: Seat, p: Seat, stake: Chips) {
    && p.state == s.state && p.hole.Undealt? && p.chips == s.chips - stake && p.bet == stake == p.invested
    && p.id == s.id && p.leaving == s.leaving && !p.acted
  }

  lemma {:induction false} BlindsShape(t: Table, deck: seq<Card>) returns (b: BlindSeats)
    requires Ready(t)
    ensures b == BlindsFor(RotateButton(Cleared(t, deck)))
    ensures b.small < |t.seats| && b.big < |t.seats| && b.small != b.big
    ensures t.seats[b.small].state == Sitting && t.seats[b.big].state == Sitting
    ensures var p := BlindsPostedTable(t, deck);
      && p == Cleared(t, deck).(seats := p.seats, button := p.button, currentBet := t.bigBlind)
      && p.Shaped() && |p.seats| == |t.seats|
      && forall i :: 0 <= i < |t.seats| ==> Staked(t.seats[i], p.seats[i], StakeOf(b, i, t.smallBlind, t.bigBlind))
  {
    var c := Cleared(t, deck);
    ClearedReady(t, deck);
    var d := RotateButton(c);
    ButtonPlaced(c);
    forall i | 0 <= i < |t.seats| ensures SeatReady(d.seats[i], d.bigBlind) && d.seats[i].state == t.seats[i].state {
      assert SameButFlags(c.seats[i], d.seats[i]) && SameButFlags(t.seats[i], c.seats[i]);
      assert SeatReady(t.seats[i], t.bigBlind);
    }
    b := BlindsFor(d);
    BlindsPosted(d);
    BlindSeatsDiffer(d);
    var p := PostBlinds(d);
    forall i | 0 <= i < |t.seats| ensures Staked(t.seats[i], p.seats[i], StakeOf(b, i, t.smallBlind, t.bigBlind)) {
      assert SeatReady(t.seats[i], t.bigBlind);
      assert SameButFlags(c.seats[i], d.seats[i]) && SameButFlags(t.seats[i], c.seats[i]);
      assert Posted(d.seats[i], p.seats[i], StakeOf(b, i, t.smallBlind, t.bigBlind));
    }
  }

  ghost predicate DealtFrom(t: Table, deck: seq<Card>, r: Table, b: BlindSeats) {
    && r == t.(seats := r.seats, board := [], deck := deck, dealt := r.dealt, phase := PreflopBetting,
               button := r.button, currentBet := t.bigBlind, live := true)
    && r.Shaped() && |r.seats| == |t.seats| && r.dealt + 10 <= |deck|
    && forall i :: 0 <= i < |t.seats| ==> Opened(t.seats[i], r.seats[i], StakeOf(b, i, t.smallBlind, t.bigBlind))
  }

  lemma {:induction false} DealtShape(t: Table, deck: seq<Card>) returns (b: BlindSeats)
    requires Ready(t) && DeckCovers(t, deck)
    ensures b == BlindsFor(RotateButton(Cleared(t, deck)))
    ensures b.small < |t.seats| && b.big < |t.seats| && b.small != b.big
    ensures t.seats[b.small].state == Sitting && t.seats[b.big].state == Sitting
    ensures DealtFrom(t, deck, DealtIn(Cleared(t, deck)), b)
  {
    b := BlindsShape(t, deck);
    DealingOpens(t, BlindsPostedTable(t, deck), b);
  }

  lemma {:induction false} DealingOpens(t: Table, p: Table, b: BlindSeats)
    requires Ready(t) && |p.seats| == |t.seats| && p.dealt == 0
    requires 2 * Sum(t.seats, OneIfSeated) + 10 <= |p.deck|
    requires forall i :: 0 <= i < |t.seats| ==> Staked(t.seats[i], p.seats[i], StakeOf(b, i, t.smallBlind, t.bigBlind))
    ensures var r := DealHoles(p, |p.seats|);
      && r.dealt + 10 <= |p.deck|
      && forall i :: 0 <= i < |t.seats| ==> Opened(t.seats[i], r.seats[i], StakeOf(b, i, t.smallBlind, t.bigBlind))
  {
    var n := |t.seats|;
    assert p.seats[..n] == p.seats;
    forall i | 0 <= i < n ensures OneIfSitting(p.seats[i]) == OneIfSeated(t.seats[i]) {
      assert SeatReady(t.seats[i], t.bigBlind);
      assert Staked(t.seats[i], p.seats[i], StakeOf(b, i, t.smallBlind, t.bigBlind));
    }
    SumCompare(p.seats, t.seats, OneIfSitting, OneIfSeated);
    HolesDealt(p, n);
    var r := DealHoles(p, n);
    forall i | 0 <= i < n ensures Opened(t.seats[i], r.seats[i], StakeOf(b, i, t.smallBlind, t.bigBlind)) {
      assert SeatReady(t.seats[i], t.bigBlind);
      assert Staked(t.seats[i], p.seats[i], StakeOf(b, i, t.smallBlind, t.bigBlind));
    }
  }

  /** Every hand that starts awaits an action, with the big blind owning the bet, every chip still
      on the table, and a bounded number of actions to go. */
  lemma {:induction false} StartHandOpens(t: Table, deck: seq<Card>)
    requires Ready(t) && DeckCovers(t, deck)
    ensures StartHand(t, deck).Accepted?
    ensures var r := StartHand(t, deck).after;
      && AwaitsAction(r) && Owned(r) && Wealth(r.seats) == Wealth(t.seats) && SamePlayers(t.seats, r.seats)
      && r.deck == deck && r.smallBlind == t.smallBlind && r.bigBlind == t.bigBlind
      && r.phase == PreflopBetting && r.board == [] && r.currentBet == t.bigBlind
      && Potential(r) <= HandBound(t)
  {
    ClearedReady(t, deck);
    var b := DealtShape(t, deck);
    var d := DealtIn(Cleared(t, deck));
    DealtIsSound(t, d, b);
    assert StartHand(t, deck) == Accepted(StartBettingRound(d));
    FirstToAct(d, b.big);
    OpeningPotential(t, StartBettingRound(d));
  }

  lemma {:induction false} FirstToAct(d: Table, big: nat)
    requires d.bigBlind > 0 && Sound(d.(lastRaise := d.bigBlind)) && big < |d.seats| && Owns(d, d.seats[big])
    requires ActiveCount(d.seats) == LiveCount(d.seats) == PendingCount(d.seats) >= 2
    ensures var r := StartBettingRound(d); r == d.(lastRaise := d.bigBlind, turn := r.turn) && AwaitsAction(r) && Owned(r)
  {
    var j := SumWitness(d.seats, OneIfPending);
    FindFinds(d.seats, StartSeat(d), 0, Pending, j);
    var r := d.(lastRaise := d.bigBlind, turn := FirstTurn(d.seats, StartSeat(d), d.turn));
    assert StartBettingRound(d) == r;
    assert Owns(r, r.seats[big]);
  }

  lemma {:induction false} OpenedSeat(s: Seat, d: Seat, stake: Chips, bigBlind: Chips)
    requires SeatReady(s, bigBlind) && Opened(s, d, stake) && 0 <= stake <= bigBlind && (stake > 0 ==> s.state == Sitting)
    ensures SeatOk(d, bigBlind) && WealthOf(d) == WealthOf(s) && SamePlayer(s, d)
    ensures OneIfActive(d) == OneIfLive(d) == OneIfPending(d) == OneIfSeated(s)
  {
  }

  lemma {:induction false} SeatsOpened(t: Table, d: Table, b: BlindSeats)
    requires Ready(t) && b.small < |t.seats| && b.big < |t.seats| && |d.seats| == |t.seats|
    requires t.seats[b.small].state == Sitting && t.seats[b.big].state == Sitting
    requires forall i :: 0 <= i < |t.seats| ==> Opened(t.seats[i], d.seats[i], StakeOf(b, i, t.smallBlind, t.bigBlind))
    ensures SeatsOk(d.seats, t.bigBlind) && SamePlayers(t.seats, d.seats)
    ensures forall i :: 0 <= i < |t.seats| ==> WealthOf(d.seats[i]) == WealthOf(t.seats[i])
    ensures forall i :: 0 <= i < |t.seats| ==>
      OneIfActive(d.seats[i]) == OneIfLive(d.seats[i]) == OneIfPending(d.seats[i]) == OneIfSeated(t.seats[i])
  {
    forall i | 0 <= i < |t.seats|
      ensures SeatOk(d.seats[i], t.bigBlind) && WealthOf(d.seats[i]) == WealthOf(t.seats[i]) && SamePlayer(t.seats[i], d.seats[i])
      ensures OneIfActive(d.seats[i]) == OneIfLive(d.seats[i]) == OneIfPending(d.seats[i]) == OneIfSeated(t.seats[i])
    {
      assert SeatReady(t.seats[i], t.bigBlind);
      OpenedSeat(t.seats[i], d.seats[i], StakeOf(b, i, t.smallBlind, t.bigBlind), t.bigBlind);
    }
  }

  lemma {:induction false} DealtIsSound(t: Table, d: Table, b: BlindSeats)
    requires Ready(t) && b.small < |t.seats| && b.big < |t.seats| && b.small != b.big
    requires t.seats[b.small].state == Sitting && t.seats[b.big].state == Sitting
    requires d.Shaped() && |d.seats| == |t.seats| && d.dealt + 10 <= |d.deck|
    requires d.board == [] && d.phase == PreflopBetting && d.live && d.currentBet == d.bigBlind == t.bigBlind
    requires forall i :: 0 <= i < |t.seats| ==> Opened(t.seats[i], d.seats[i], StakeOf(b, i, t.smallBlind, t.bigBlind))
    ensures Sound(d.(lastRaise := t.bigBlind)) && Wealth(d.seats) == Wealth(t.seats) && SamePlayers(t.seats, d.seats)
    ensures ActiveCount(d.seats) == LiveCount(d.seats) == PendingCount(d.seats) == Sum(t.seats, OneIfSeated)
    ensures Owns(d, d.seats[b.big])
  {
    SeatsOpened(t, d, b);
    assert Opened(t.seats[b.big], d.seats[b.big], StakeOf(b, b.big, t.smallBlind, t.bigBlind));
    SumCompare(d.seats, t.seats, WealthOf, WealthOf);
    SumCompare(d.seats, t.seats, OneIfActive, OneIfSeated);
    SumCompare(d.seats, t.seats, OneIfLive, OneIfSeated);
    SumCompare(d.seats, t.seats, OneIfPending, OneIfSeated);
  }

  /** n (S / bb + n + 4) for the n players seated and the S chips they hold. */
  function HandBound(t: Table): int {
    var n := Sum(t.seats, OneIfSeated);
    if t.bigBlind > 0 then n * (Wealth(t.seats) / t.bigBlind + n + 4) else 0
  }

  lemma {:induction false} OpeningPotential(t: Table, r: Table)
    requires Ready(t) && AwaitsAction(r) && r.bigBlind == t.bigBlind && SamePlayers(t.seats, r.seats)
    requires Wealth(r.seats) == Wealth(t.seats)
    ensures Potential(r) <= HandBound(t)
  {
    PlayersAreSeated(t);
    SameCount(t.seats, r.seats);
    var n := Sum(t.seats, OneIfSeated);
    CountsBounded(r.seats);
    SumCompare(r.seats, r.seats, ChipsOf, WealthOf);
    UnitsMonotone(r.bigBlind, Wealth(r.seats), Sum(r.seats, ChipsOf));
    WithinBound(n, Units(r.seats, r.bigBlind) + ActiveCount(r.seats) + StreetsLeft(r.phase), PendingCount(r.seats),
                Wealth(t.seats) / t.bigBlind);
  }

  lemma {:induction false} WithinBound(n: int, work: int, pending: int, units: int)
    requires n >= 0 && work <= units + n + 3 && pending <= n
    ensures n * work + pending <= n * (units + n + 4)
  {
    UnitsScale(n, work, units + n + 3);
    assert n * (units + n + 4) == n * (units + n + 3) + n;
  }

  /** Between hands of the arena everybody who has a seat is in the game. */
  lemma {:induction false} PlayersAreSeated(t: Table)
    requires Ready(t)
    ensures PlayerCount(t.seats) == Sum(t.seats, OneIfSeated)
  {
    forall i | 0 <= i < |t.seats| ensures OneIfPlayer(t.seats[i]) == OneIfSeated(t.seats[i]) {
      assert SeatReady(t.seats[i], t.bigBlind);
    }
    SumCompare(t.seats, t.seats, OneIfPlayer, OneIfSeated);
  }
}
