/** Who acts first before the flop. The source means the seat after the big blind, and takes the
    third seat from the button, seated or not, as the place to look from. */
module FirstActor {
  import opened Arithmetic
  import opened Cards
  import opened Seats
  import opened HandSpec
  import opened HandInvariant
  import opened Opening

  // ---------- offsets round the ring ----------

  predicate At(seats: seq<Seat>, start: nat, i: nat, p: Seat -> bool)
    requires seats != []
  {
    p(seats[(start + i) % |seats|])
  }

  /** Nobody with the property at offsets lo up to hi - 1. */
  ghost predicate Gap(seats: seq<Seat>, start: nat, lo: nat, hi: nat, p: Seat -> bool)
    requires seats != []
  {
    forall i: nat {:trigger At(seats, start, i, p)} :: lo <= i < hi ==> !At(seats, start, i, p)
  }

  lemma {:induction false} FindAt(seats: seq<Seat>, start: nat, lo: nat, hi: nat, p: Seat -> bool, k: nat)
    requires seats != [] && lo <= k < hi && At(seats, start, k, p) && Gap(seats, start, lo, k, p)
    ensures Find(seats, start, lo, hi, p) == (start + k) % |seats|
    decreases hi - lo
  {
    if lo < k {
      assert !At(seats, start, lo, p);
      FindAt(seats, start, lo + 1, hi, p, k);
    }
  }

  lemma {:induction false} ModShift(b: nat, o: nat, i: nat, n: nat)
    requires n > 0
    ensures ((b + o) % n + i) % n == (b + (o + i)) % n
  {
    var q, r := (b + o) / n, (b + o) % n;
    var q', r' := (r + i) / n, (r + i) % n;
    assert b + (o + i) == n * (q + q') + r';
    ModUnique(b + (o + i), n, q + q', r');
  }

  /** Scanning from the seat at offset o finds the one at offset k. */
  lemma {:induction false} FindFrom(seats: seq<Seat>, b: nat, o: nat, lo: nat, hi: nat, p: Seat -> bool, k: nat)
    requires seats != [] && o + lo <= k < o + hi && At(seats, b, k, p) && Gap(seats, b, o + lo, k, p)
    ensures Find(seats, (b + o) % |seats|, lo, hi, p) == (b + k) % |seats|
  {
    var start := (b + o) % |seats|;
    forall i: nat | lo <= i < hi ensures At(seats, start, i, p) == At(seats, b, o + i, p) {
      ModShift(b, o, i, |seats|);
    }
    FindAt(seats, start, lo, hi, p, k - o);
    ModShift(b, o, k - o, |seats|);
  }

  /** The first offset from lo at which somebody is seated. */
  lemma {:induction false} NextOffset(seats: seq<Seat>, b: nat, lo: nat, hi: nat) returns (o: nat)
    requires seats != [] && lo <= hi && At(seats, b, hi, Seated)
    ensures lo <= o <= hi && At(seats, b, o, Seated) && Gap(seats, b, lo, o, Seated)
    decreases hi - lo
  {
    if At(seats, b, lo, Seated) {
      o := lo;
    } else {
      o := NextOffset(seats, b, lo + 1, hi);
    }
  }

  /** A seated player other than two given ones. */
  lemma {:induction false} ThirdSeated(seats: seq<Seat>, i: nat, j: nat) returns (k: nat)
    requires i < |seats| && j < |seats| && i != j && Sum(seats, OneIfSeated) >= 3
    ensures k < |seats| && k != i && k != j && Seated(seats[k])
  {
    var one := seats[i := seats[i].(state := Empty)];
    SumUpdate(seats, i, seats[i].(state := Empty), OneIfSeated);
    SumUpdate(one, j, one[j].(state := Empty), OneIfSeated);
    k := SumWitness(one[j := one[j].(state := Empty)], OneIfSeated);
  }

  /** Where the small blind, the big blind and the player after it sit, counted from the button. */
  datatype Places = Places(small: nat, big: nat, next: nat)

  ghost predicate PlacesFrom(seats: seq<Seat>, b: nat, o: Places)
    requires seats != []
  {
    && 1 <= o.small < o.big < |seats| && o.big < o.next <= |seats|
    && At(seats, b, o.small, Seated) && At(seats, b, o.big, Seated) && At(seats, b, o.next, Seated)
    && Gap(seats, b, 1, o.small, Seated) && Gap(seats, b, o.small + 1, o.big, Seated) && Gap(seats, b, o.big + 1, o.next, Seated)
  }

  /** The offset of a seated player other than the button. */
  lemma {:induction false} OffsetOf(seats: seq<Seat>, b: nat, j: nat) returns (i: nat)
    requires b < |seats| && j < |seats| && j != b && Seated(seats[j])
    ensures 1 <= i < |seats| && At(seats, b, i, Seated) && (b + i) % |seats| == j
  {
    i := RingOffset(b, 1, j, |seats|);
    RingReturns(b, |seats|);
  }

  lemma {:induction false} SmallPlace(seats: seq<Seat>, b: nat) returns (o: nat)
    requires b < |seats| && Sum(seats, OneIfSeated) >= 3
    ensures 1 <= o < |seats| && At(seats, b, o, Seated) && Gap(seats, b, 1, o, Seated)
  {
    NextSeatedIsOther(seats, b);
    var i := OffsetOf(seats, b, NextSeated(seats, b));
    o := NextOffset(seats, b, 1, i);
  }

  lemma {:induction false} BigPlace(seats: seq<Seat>, b: nat, small: nat) returns (o: nat)
    requires b < |seats| && Sum(seats, OneIfSeated) >= 3
    requires 1 <= small < |seats| && Gap(seats, b, 1, small, Seated)
    ensures small < o < |seats| && At(seats, b, o, Seated) && Gap(seats, b, small + 1, o, Seated)
  {
    RingMoves(b, small, |seats|);
    var third := ThirdSeated(seats, b, (b + small) % |seats|);
    var j := OffsetOf(seats, b, third);
    o := NextOffset(seats, b, small + 1, j);
  }

  lemma {:induction false} PlacesExist(seats: seq<Seat>, b: nat) returns (o: Places)
    requires b < |seats| && Seated(seats[b]) && Sum(seats, OneIfSeated) >= 3
    ensures PlacesFrom(seats, b, o)
  {
    RingReturns(b, |seats|);
    var small := SmallPlace(seats, b);
    var big := BigPlace(seats, b, small);
    var next := NextOffset(seats, b, big + 1, |seats|);
    o := Places(small, big, next);
  }

  lemma {:induction false} DistinctOffsets(b: nat, i: nat, j: nat, n: nat)
    requires 1 <= i < j <= n
    ensures (b + i) % n != (b + j) % n
  {
    var qi, qj, r := (b + i) / n, (b + j) / n, (b + i) % n;
    if (b + j) % n == r {
      assert n * (qj - qi) == j - i;
      if qj > qi { AtLeastOnce(n, qj - qi); }
    }
  }

  // ---------- the first actor ----------

  /** Everybody seated at the table has yet to act, as after the deal. */
  ghost predicate AllToAct(seats: seq<Seat>) {
    forall i :: 0 <= i < |seats| ==> (Pending(seats[i]) <==> Seated(seats[i]))
  }

  function FirstActor(t: Table): nat
    requires t.Shaped()
  {
    FirstTurn(t.seats, StartSeat(t), t.turn)
  }

  lemma {:induction false} ScanFindsFirst(t: Table, k: nat)
    requires t.Shaped() && t.phase == PreflopBetting && ActiveCount(t.seats) != 2 && AllToAct(t.seats)
    requires 3 <= k < 3 + |t.seats| && At(t.seats, t.button, k, Seated) && Gap(t.seats, t.button, 3, k, Seated)
    ensures FirstActor(t) == (t.button + k) % |t.seats|
  {
    forall i: nat ensures At(t.seats, t.button, i, Pending) == At(t.seats, t.button, i, Seated) {
    }
    FindFrom(t.seats, t.button, 3, 0, |t.seats|, Pending, k);
  }

  lemma {:induction false} NextPlace(seats: seq<Seat>, b: nat, o: nat, k: nat)
    requires seats != [] && o < k <= o + |seats| && At(seats, b, k, Seated) && Gap(seats, b, o + 1, k, Seated)
    ensures NextSeated(seats, (b + o) % |seats|) == (b + k) % |seats|
  {
    FindFrom(seats, b, o, 1, |seats| + 1, Seated, k);
  }

  lemma {:induction false} BlindPlaces(t: Table, o: Places)
    requires t.Shaped() && Sum(t.seats, OneIfSeated) >= 3 && PlacesFrom(t.seats, t.button, o)
    ensures BlindsFor(t) == BlindSeats((t.button + o.small) % |t.seats|, (t.button + o.big) % |t.seats|)
    ensures NextSeated(t.seats, BlindsFor(t).big) == (t.button + o.next) % |t.seats|
  {
    ModUnique(t.button, |t.seats|, 0, t.button);
    NextPlace(t.seats, t.button, 0, o.small);
    NextPlace(t.seats, t.button, o.small, o.big);
    NextPlace(t.seats, t.button, o.big, o.next);
  }

  /** The scan from the third place finds the next player past whichever blinds sit before it. */
  lemma {:induction false} ActorPlace(t: Table, o: Places)
    requires t.Shaped() && t.phase == PreflopBetting && PlacesFrom(t.seats, t.button, o)
    requires ActiveCount(t.seats) != 2 && AllToAct(t.seats)
    ensures FirstActor(t) == (t.button + if o.big == 2 then o.next else if o.small <= 2 then o.big else o.small) % |t.seats|
  {
    ScanFindsFirst(t, if o.big == 2 then o.next else if o.small <= 2 then o.big else o.small);
  }

  /** With three or more seated, the player after the big blind acts first if and only if the two
      seats right after the button are both taken. With one of them taken the big blind itself acts
      first, with neither the small blind. */
  lemma {:induction false} FirstActorIff(t: Table)
    requires t.Shaped() && t.phase == PreflopBetting && Seated(t.seats[t.button])
    requires Sum(t.seats, OneIfSeated) >= 3 && ActiveCount(t.seats) != 2 && AllToAct(t.seats)
    ensures ActsFirst(t, FirstActor(t))
  {
    var o := PlacesExist(t.seats, t.button);
    BlindPlaces(t, o);
    ActorPlace(t, o);
    assert At(t.seats, t.button, 1, Seated) <==> o.small == 1;
    assert At(t.seats, t.button, 2, Seated) <==> o.small == 2 || o.big == 2;
    DistinctOffsets(t.button, o.small, o.big, |t.seats|);
    DistinctOffsets(t.button, o.small, o.next, |t.seats|);
    DistinctOffsets(t.button, o.big, o.next, |t.seats|);
  }

  predicate ActsFirst(t: Table, actor: nat)
    requires t.Shaped()
  {
    var one, two := Seated(t.seats[(t.button + 1) % |t.seats|]), Seated(t.seats[(t.button + 2) % |t.seats|]);
    && (actor == NextSeated(t.seats, BlindsFor(t).big) <==> one && two)
    && (actor == BlindsFor(t).big <==> one != two)
    && (actor == BlindsFor(t).small <==> !one && !two)
  }

  ghost predicate SeatedAlike(a: seq<Seat>, b: seq<Seat>) {
    |a| == |b| && forall i :: 0 <= i < |a| ==> Seated(a[i]) == Seated(b[i])
  }

  lemma {:induction false} FindSame(a: seq<Seat>, b: seq<Seat>, start: nat, lo: nat, hi: nat)
    requires a != [] && SeatedAlike(a, b)
    ensures Find(a, start, lo, hi, Seated) == Find(b, start, lo, hi, Seated)
    decreases hi - lo
  {
    if lo < hi { FindSame(a, b, start, lo + 1, hi); }
  }

  lemma {:induction false} SeatedStays(t: Table, deck: seq<Card>, d: Table, b: BlindSeats)
    requires Ready(t) && DealtFrom(t, deck, d, b)
    ensures SeatedAlike(t.seats, d.seats) && AllToAct(d.seats)
    ensures Sum(d.seats, OneIfSeated) == Sum(t.seats, OneIfSeated)
  {
    forall i | 0 <= i < |t.seats|
      ensures Seated(d.seats[i]) == Seated(t.seats[i]) && (Pending(d.seats[i]) <==> Seated(d.seats[i]))
    {
      assert SeatReady(t.seats[i], t.bigBlind);
      assert Opened(t.seats[i], d.seats[i], StakeOf(b, i, t.smallBlind, t.bigBlind));
    }
    SumCompare(d.seats, t.seats, OneIfSeated, OneIfSeated);
  }

  lemma {:induction false} ButtonMoves(t: Table, deck: seq<Card>)
    requires Ready(t)
    ensures RotateButton(Cleared(t, deck)).button == NextSeated(t.seats, t.button)
  {
    var c := Cleared(t, deck);
    forall i | 0 <= i < |t.seats| ensures Seated(c.seats[i]) == Seated(t.seats[i]) {
      assert SeatReady(t.seats[i], t.bigBlind);
    }
    FindSame(t.seats, c.seats, t.button, 1, |t.seats| + 1);
  }

  lemma {:induction false} DealtFirstActor(t: Table, deck: seq<Card>, d: Table, b: BlindSeats)
    requires Ready(t) && DealtFrom(t, deck, d, b) && Sum(t.seats, OneIfSeated) >= 3
    requires d.button == NextSeated(t.seats, t.button) && ActiveCount(d.seats) >= 3
    ensures ActsFirst(d, FirstActor(d)) && SeatedAlike(t.seats, d.seats)
  {
    SeatedStays(t, deck, d, b);
    NextSeatedIsSeated(t.seats, t.button);
    FirstActorIff(d);
  }

  lemma {:induction false} RoundOpens(d: Table)
    requires d.Shaped() && ActiveCount(d.seats) >= 2 && ActsFirst(d, FirstActor(d))
    ensures var r := StartBettingRound(d); r.seats == d.seats && r.button == d.button && r.Shaped() && ActsFirst(r, r.turn)
  {
  }

  lemma {:induction false} DealtHand(t: Table, deck: seq<Card>) returns (d: Table, b: BlindSeats)
    requires Ready(t) && DeckCovers(t, deck)
    ensures DealtFrom(t, deck, d, b) && StartHand(t, deck) == Accepted(StartBettingRound(d))
    ensures b == BlindsFor(RotateButton(Cleared(t, deck)))
    ensures d.button == NextSeated(t.seats, t.button) && ActiveCount(d.seats) == Sum(t.seats, OneIfSeated)
  {
    ClearedReady(t, deck);
    ButtonMoves(t, deck);
    b := DealtShape(t, deck);
    d := DealtIn(Cleared(t, deck));
    DealtIsSound(t, d, b);
  }

  /** The hand as it starts: the turn is on the player after the big blind if and only if the two
      seats right after the new button are both taken. */
  lemma {:induction false} HandFirstActor(t: Table, deck: seq<Card>)
    requires Ready(t) && DeckCovers(t, deck) && Sum(t.seats, OneIfSeated) >= 3
    ensures StartHand(t, deck).Accepted? && StartHand(t, deck).after.Shaped()
    ensures var r := StartHand(t, deck).after;
      ActsFirst(r, r.turn) && r.button == NextSeated(t.seats, t.button) && SeatedAlike(t.seats, r.seats)
  {
    var d, b := DealtHand(t, deck);
    DealtFirstActor(t, deck, d, b);
    RoundOpens(d);
  }

  lemma {:induction false} FourSeats(seats: seq<Seat>)
    requires |seats| == 4 && Seated(seats[0]) && seats[1].state == Empty && Seated(seats[2]) && Seated(seats[3])
    ensures Sum(seats, OneIfSeated) == 3
  {
    var s := seats;
    assert s[..4] == s && s[..4][..3] == s[..3] && s[..3][..2] == s[..2] && s[..2][..1] == s[..1] && s[..1][..0] == [];
    assert Sum(s[..2], OneIfSeated) == Sum(s[..1], OneIfSeated) == 1;
    assert Sum(s[..3], OneIfSeated) == 2;
  }

  lemma {:induction false} FromLastToFirst(seats: seq<Seat>)
    requires |seats| == 4 && Seated(seats[0])
    ensures NextSeated(seats, 3) == 0
  {
    assert Find(seats, 3, 1, 5, Seated) == 0;
  }

  /** Such a hand: four seats with the one after the new button empty. */
  lemma {:induction false} MissingSeat(t: Table, deck: seq<Card>)
    requires Ready(t) && DeckCovers(t, deck) && |t.seats| == 4 && t.button == 3
    requires Seated(t.seats[0]) && t.seats[1].state == Empty && Seated(t.seats[2]) && Seated(t.seats[3])
    ensures StartHand(t, deck).Accepted? && StartHand(t, deck).after.Shaped()
    ensures var r := StartHand(t, deck).after; r.turn == BlindsFor(r).big != NextSeated(r.seats, BlindsFor(r).big)
  {
    FourSeats(t.seats);
    FromLastToFirst(t.seats);
    HandFirstActor(t, deck);
    OnlyTwoTaken(t.seats, StartHand(t, deck).after);
  }

  lemma {:induction false} OnlyTwoTaken(seats: seq<Seat>, r: Table)
    requires r.Shaped() && ActsFirst(r, r.turn) && r.button == 0 && |seats| == 4 && SeatedAlike(seats, r.seats)
    requires !Seated(seats[1]) && Seated(seats[2])
    ensures r.turn == BlindsFor(r).big != NextSeated(r.seats, BlindsFor(r).big)
  {
    assert Seated(r.seats[1]) == Seated(seats[1]) && Seated(r.seats[2]) == Seated(seats[2]);
  }

  function Vacant(): Seat {
    Seat(0, 0, Empty, Undealt, 0, 0, false, false, false, false, false)
  }

  function NewPlayer(id: int, chips: Chips): Seat {
    Vacant().(id := id, chips := chips, state := Sitting)
  }

  /** It does happen: the big blind acts first, and not the player after it. */
  lemma {:induction false} BigBlindActsFirst(deck: seq<Card>) returns (t: Table)
    requires |deck| == 52
    ensures Ready(t) && StartHand(t, deck).Accepted? && StartHand(t, deck).after.Shaped()
    ensures var r := StartHand(t, deck).after; r.turn == BlindsFor(r).big != NextSeated(r.seats, BlindsFor(r).big)
  {
    t := Table([NewPlayer(1, 100), Vacant(), NewPlayer(2, 100), NewPlayer(3, 100)], [], [], 0, Waiting, 3, 0, 0, 0, false, 1, 2);
    FourSeats(t.seats);
    FourReady(t);
    MissingSeat(t, deck);
  }

  lemma {:induction false} FourReady(t: Table)
    requires t == Table([NewPlayer(1, 100), Vacant(), NewPlayer(2, 100), NewPlayer(3, 100)], [], [], 0, Waiting, 3, 0, 0, 0, false, 1, 2)
    requires Sum(t.seats, OneIfSeated) >= 2
    ensures Ready(t)
  {
    forall i | 0 <= i < |t.seats| ensures SeatReady(t.seats[i], t.bigBlind) {
    }
  }
}
