/** phase12/src/game_state.cpp: the table object whose methods update the seats, the deck and the
    betting state in place. Snap() is its value; every method is proved to take the step of the
    same name in HandSpec. Mutexes, event callbacks and clocks are not part of this model: an
    expired clock is an argument. */
module GameState {
  import opened Cards
  import opened Seats
  import opened Betting
  import opened Showdown
  import opened HandSpec
  import opened Engine
  import opened Payout
  import P = PlayerState
  import PM = PotManager
  import D = Dealer
  import H = Hashing

  /** Where a hand's shuffle gets its seed: fresh entropy, or a stored seed and nonce. */
  datatype DeckSource = Fresh(seed: seq<H.Byte>, nonceBytes: seq<H.Byte>) | Stored(seedHex: seq<H.Byte>, nonceHex: seq<H.Byte>)
  {
    predicate WellFormed() {
      match this
      case Fresh(seed, _) => |seed| == 32
      case Stored(hex, _) => D.AllReadable(hex)
    }

    function Seed(before: seq<H.Byte>): seq<H.Byte>
      requires WellFormed()
    {
      match this
      case Fresh(seed, _) => seed
      case Stored(hex, _) => D.SeedFromHex(before, hex)
    }

    function Nonce(): seq<H.Byte> {
      match this
      case Fresh(_, bytes) => D.ToHex(bytes)
      case Stored(_, hex) => hex
    }
  }

  const EMPTY_SEAT: Seat := Seat(0, 0, Empty, Undealt, 0, 0, false, false, false, false, false)

  method EmptySeats(n: nat) returns (made: seq<P.PlayerState>)
    ensures |made| == n && Distinct(made) && fresh(made) && forall i :: 0 <= i < n ==> PM.Views(made)[i] == EMPTY_SEAT
  {
    made := [];
    while |made| < n
      invariant |made| <= n && Distinct(made) && fresh(made) && forall i :: 0 <= i < |made| ==> made[i].View() == EMPTY_SEAT
    {
      var p := new P.PlayerState();
      made := made + [p];
    }
  }

  class GameState {
    const players: seq<P.PlayerState>
    const rngDealer: D.Dealer
    const potManager: PM.PotManager
    const smallBlind: Chips
    const bigBlind: Chips
    var community: seq<Card>
    var phase: Phase
    var dealerSeat: nat
    var actionSeat: nat
    var currentBet: Chips
    var lastRaiseSize: Chips
    var handStarted: bool

    ghost function Seats(): (seats: seq<Seat>)
      reads players
      ensures |seats| == |players|
    {
      PM.Views(players)
    }

    /** The value of the table. */
    ghost function Snap(): Table
      reads this, players, rngDealer, rngDealer.deck
    {
      Table(Seats(), community, rngDealer.deck[..], rngDealer.deckIndex, phase, dealerSeat, actionSeat, currentBet,
            lastRaiseSize, handStarted, smallBlind, bigBlind)
    }

    ghost predicate Valid()
      reads this, players, rngDealer, rngDealer.deck
    {
      Distinct(players) && rngDealer.Valid() && Healthy(Snap())
    }

    constructor (maxPlayers: nat, smallBlind: Chips, bigBlind: Chips, dealer: D.Dealer)
      requires 1 <= maxPlayers <= MAX_SEATS && smallBlind >= 0 && bigBlind >= 0 && dealer.Valid()
      ensures Valid() && |players| == maxPlayers && rngDealer == dealer
      ensures this.smallBlind == smallBlind && this.bigBlind == bigBlind && fresh(players) && fresh(potManager)
      ensures phase == Waiting && !handStarted && dealerSeat == 0
      ensures forall i :: 0 <= i < maxPlayers ==> Seats()[i] == EMPTY_SEAT
    {
      var made := EmptySeats(maxPlayers);
      var pots := new PM.PotManager();
      players, rngDealer, potManager := made, dealer, pots;
      this.smallBlind, this.bigBlind := smallBlind, bigBlind;
      community, phase, dealerSeat, actionSeat, currentBet, lastRaiseSize, handStarted := [], Waiting, 0, 0, 0, 0, false;
    }

    // ---------- counting and scanning ----------

    method ActivePlayerCount() returns (count: int)
      ensures count == ActiveCount(Seats())
    {
      count := 0;
      ghost var seats := Seats();
      var i := 0;
      while i < |players|
        invariant 0 <= i <= |players| && count == ActiveCount(seats[..i])
      {
        assert seats[..i + 1][..i] == seats[..i];
        if players[i].seatState == Playing { count := count + 1; }
        i := i + 1;
      }
      assert seats[..i] == seats;
    }

    /** Active, and active or all-in. */
    method CountPlaying() returns (active: int, playing: int)
      ensures active == ActiveCount(Seats()) && playing == LiveCount(Seats())
    {
      active, playing := 0, 0;
      ghost var seats := Seats();
      var i := 0;
      while i < |players|
        invariant 0 <= i <= |players| && active == ActiveCount(seats[..i]) && playing == LiveCount(seats[..i])
      {
        assert seats[..i + 1][..i] == seats[..i];
        if players[i].seatState == Playing {
          active, playing := active + 1, playing + 1;
        } else if players[i].seatState == AllIn {
          playing := playing + 1;
        }
        i := i + 1;
      }
      assert seats[..i] == seats;
    }

    method CountSeated() returns (count: int)
      ensures count == Sum(Seats(), OneIfSeated)
    {
      count := 0;
      ghost var seats := Seats();
      var i := 0;
      while i < |players|
        invariant 0 <= i <= |players| && count == Sum(seats[..i], OneIfSeated)
      {
        assert seats[..i + 1][..i] == seats[..i];
        if players[i].seatState == Sitting || players[i].seatState == Playing { count := count + 1; }
        i := i + 1;
      }
      assert seats[..i] == seats;
    }

    method CountWaiting() returns (count: int)
      ensures count == Sum(Seats(), OneIfWaiting)
    {
      count := 0;
      ghost var seats := Seats();
      var i := 0;
      while i < |players|
        invariant 0 <= i <= |players| && count == Sum(seats[..i], OneIfWaiting)
      {
        assert seats[..i + 1][..i] == seats[..i];
        if players[i].seatState == Sitting || players[i].seatState == SittingOut { count := count + 1; }
        i := i + 1;
      }
      assert seats[..i] == seats;
    }

    method GetPot() returns (total: Chips)
      ensures total == Pot(Seats())
    {
      total := 0;
      ghost var seats := Seats();
      var i := 0;
      while i < |players|
        invariant 0 <= i <= |players| && total == Pot(seats[..i])
      {
        assert seats[..i + 1][..i] == seats[..i];
        if players[i].seatState != Empty { total := total + players[i].totalInvested; }
        i := i + 1;
      }
      assert seats[..i] == seats;
    }

    method FindNextSeated(from: nat) returns (seat: nat)
      requires from < |players|
      ensures seat == NextSeated(Seats(), from)
    {
      var i := 1;
      while i <= |players|
        invariant 1 <= i <= |players| + 1
        invariant Find(Seats(), from, 1, |players| + 1, Seated) == Find(Seats(), from, i, |players| + 1, Seated)
      {
        seat := (from + i) % |players|;
        if players[seat].seatState == Sitting || players[seat].seatState == Playing { return; }
        i := i + 1;
      }
      seat := from;
    }

    /** The first seat round the ring, from offset lo to hi - 1, that has yet to act, or -1. */
    method ScanPending(from: nat, lo: nat, hi: nat) returns (found: int)
      requires players != [] && lo <= hi
      ensures found == Find(Seats(), from, lo, hi, Pending)
    {
      ghost var seats := Seats();
      var i := lo;
      while i < hi
        invariant lo <= i <= hi && Find(seats, from, lo, hi, Pending) == Find(seats, from, i, hi, Pending)
      {
        var seat := (from + i) % |players|;
        if players[seat].seatState == Playing && !players[seat].actedThisRound { return seat; }
        i := i + 1;
      }
      found := -1;
    }

    /** The first active one, whether or not it has acted. */
    method ScanActive(from: nat, lo: nat, hi: nat) returns (found: int)
      requires players != [] && lo <= hi
      ensures found == Find(Seats(), from, lo, hi, Active)
    {
      ghost var seats := Seats();
      var i := lo;
      while i < hi
        invariant lo <= i <= hi && Find(seats, from, lo, hi, Active) == Find(seats, from, i, hi, Active)
      {
        var seat := (from + i) % |players|;
        if players[seat].seatState == Playing { return seat; }
        i := i + 1;
      }
      found := -1;
    }

    method NextActionSeat()
      requires actionSeat < |players|
      modifies this`actionSeat
      ensures actionSeat == NextTurn(Seats(), old(actionSeat))
    {
      var found := ScanPending(actionSeat, 1, |players| + 1);
      if found < 0 { found := ScanActive(actionSeat, 1, |players| + 1); }
      if found >= 0 { actionSeat := found; }
    }

    method FindActiveSeat(from: nat)
      requires actionSeat < |players|
      modifies this`actionSeat
      ensures actionSeat == FirstTurn(Seats(), from, old(actionSeat))
    {
      var found := ScanPending(from, 0, |players|);
      if found < 0 { found := ScanActive(from, 0, |players|); }
      if found >= 0 { actionSeat := found; }
    }

    /** GetCurrentPlayer, as a seat number; -1 for null. */
    method GetCurrentPlayer() returns (seat: int)
      requires dealerSeat < |players| && actionSeat < |players|
      ensures seat == CurrentSeat(Snap())
    {
      ghost var seats := Seats();
      if players[actionSeat].seatState == Playing && !players[actionSeat].actedThisRound { return actionSeat; }
      seat := 0;
      while seat < |players|
        invariant 0 <= seat <= |players| && FirstPending(seats[..seat]) == -1
      {
        assert seats[..seat + 1][..seat] == seats[..seat];
        if players[seat].seatState == Playing && !players[seat].actedThisRound {
          FirstPendingFound(seats, seat);
          return;
        }
        seat := seat + 1;
      }
      assert seats[..seat] == seats;
      seat := -1;
    }

    method GetCurrentPlayerId() returns (id: int)
      requires dealerSeat < |players| && actionSeat < |players|
      ensures id == CurrentPlayerId(Snap())
    {
      var seat := GetCurrentPlayer();
      id := if seat >= 0 then players[seat].id else -1;
    }

    method IsBettingRoundComplete() returns (done: bool)
      requires AllSolvent(Seats())
      ensures done <==> RoundComplete(Seats())
    {
      var active, nonFolded := CountPlaying();
      if active <= 0 || nonFolded <= 1 { return true; }
      done := BetsMatched();
    }

    /** Everybody active has acted and holds the same bet. */
    method BetsMatched() returns (matched: bool)
      requires AllSolvent(Seats())
      ensures matched <==> AllMatched(Seats())
    {
      var refBet: Chips := -1;
      ghost var seats := Seats();
      var i := 0;
      while i < |players|
        invariant 0 <= i <= |players| && AllMatched(seats[..i])
        invariant refBet < 0 ==> forall k :: 0 <= k < i ==> !Active(seats[k])
        invariant refBet >= 0 ==> exists k :: 0 <= k < i && Active(seats[k]) && seats[k].bet == refBet
      {
        assert Solvent(seats[i]) && seats[i] == players[i].View();
        if players[i].seatState == Playing {
          if !players[i].actedThisRound { return false; }
          if refBet < 0 {
            refBet := players[i].currentBet;
          } else if players[i].currentBet != refBet {
            return false;
          }
        }
        MatchedExtends(seats, i, refBet);
        i := i + 1;
      }
      assert seats[..i] == seats;
      matched := true;
    }

    // ---------- betting ----------

    /** A stake that passed the current bet: the new bet, the raise size, and the others to act again. */
    method TakeLead(i: nat)
      requires Distinct(players) && i < |players|
      modifies players, this`currentBet, this`lastRaiseSize
      ensures Snap() == Lead(old(Snap()), i)
    {
      var player := players[i];
      var inc := player.currentBet - currentBet;
      if inc >= lastRaiseSize { lastRaiseSize := inc; }
      currentBet := player.currentBet;
      ReopenOthers(player.id);
    }

    method ReopenOthers(id: int)
      requires Distinct(players)
      modifies players
      ensures Seats() == Reopen(old(Seats()), id)
    {
      var i := 0;
      while i < |players|
        invariant 0 <= i <= |players|
        invariant forall k :: 0 <= k < |players| ==>
          players[k].View() == if k < i then ReopenSeat(old(Seats())[k], id) else old(Seats())[k]
      {
        if players[i].id != id && players[i].seatState == Playing { players[i].actedThisRound := false; }
        i := i + 1;
      }
    }

    /** The switch of ProcessAction on a validated action. */
    method ApplyAction(i: nat, kind: ActionType, amount: Chips)
      requires Distinct(players) && i < |players|
      modifies players, this`currentBet, this`lastRaiseSize
      ensures Snap() == Apply(old(Snap()), i, kind, amount)
    {
      MarkThenMove(Snap(), i, kind, amount);
      MarkActed(i);
      MoveChips(i, kind, amount);
    }

    method MoveChips(i: nat, kind: ActionType, amount: Chips)
      requires Distinct(players) && i < |players|
      modifies players, this`currentBet, this`lastRaiseSize
      ensures Snap() == Move(old(Snap()), i, kind, amount)
    {
      match kind {
        case Fold => SetState(i, Folded);
        case Check =>
        case Call => PutInCall(i);
        case Bet => PutInLead(i, amount);
        case Raise => PutInLead(i, amount);
        case AllInMove => ShoveAllIn(i);
        case Other =>
      }
    }

    method MarkActed(i: nat)
      requires Distinct(players) && i < |players|
      modifies players
      ensures Seats() == old(Seats())[i := old(Seats())[i].(acted := true)]
    {
      players[i].actedThisRound := true;
    }

    method SetState(i: nat, state: SeatState)
      requires Distinct(players) && i < |players|
      modifies players
      ensures Seats() == old(Seats())[i := old(Seats())[i].(state := state)]
    {
      players[i].seatState := state;
    }

    method PutInCall(i: nat)
      requires Distinct(players) && i < |players|
      modifies players
      ensures var p := old(Seats())[i]; var q := p.AfterBet(currentBet - p.bet);
        Seats() == old(Seats())[i := if q.chips <= 0 then q.(state := AllIn) else q]
    {
      var player := players[i];
      var called := player.Bet(currentBet - player.currentBet);
      if player.chips <= 0 { player.seatState := AllIn; }
    }

    method PutInLead(i: nat, amount: Chips)
      requires Distinct(players) && i < |players|
      modifies players, this`currentBet, this`lastRaiseSize
      ensures var t := old(Snap()); Snap() == Lead(t.(seats := t.seats[i := t.seats[i].AfterBet(amount)]), i)
    {
      var staked := players[i].Bet(amount);
      assert Seats() == old(Seats())[i := old(Seats())[i].AfterBet(amount)];
      TakeLead(i);
    }

    method ShoveAllIn(i: nat)
      requires Distinct(players) && i < |players|
      modifies players, this`currentBet, this`lastRaiseSize
      ensures var t := old(Snap()); var q := t.seats[i].AfterBet(t.seats[i].chips);
        var staked := t.(seats := t.seats[i := q.(state := AllIn)]);
        Snap() == if q.bet > t.currentBet then Lead(staked, i) else staked
    {
      var player := players[i];
      var allIn := player.Bet(player.chips);
      player.seatState := AllIn;
      assert Seats() == old(Seats())[i := player.View()];
      if player.currentBet > currentBet { TakeLead(i); }
    }

    /** The active seat holding the id, or -1. */
    method FindActivePlayer(id: int) returns (seat: int)
      ensures seat == ActiveSeatOf(Seats(), id)
    {
      ghost var seats := Seats();
      seat := 0;
      while seat < |players|
        invariant 0 <= seat <= |players| && ActiveSeatOf(seats[..seat], id) == -1
      {
        assert seats[..seat + 1][..seat] == seats[..seat];
        if players[seat].id == id && players[seat].seatState == Playing {
          ActiveFound(seats, id, seat);
          return;
        }
        seat := seat + 1;
      }
      assert seats[..seat] == seats;
      seat := -1;
    }

    /** The occupied seat holding the id, or -1. */
    method FindPlayer(id: int) returns (seat: int)
      ensures seat == OccupiedSeatOf(Seats(), id)
    {
      ghost var seats := Seats();
      seat := 0;
      while seat < |players|
        invariant 0 <= seat <= |players| && OccupiedSeatOf(seats[..seat], id) == -1
      {
        assert seats[..seat + 1][..seat] == seats[..seat];
        if players[seat].id == id && players[seat].seatState != Empty {
          OccupiedFound(seats, id, seat);
          return;
        }
        seat := seat + 1;
      }
      assert seats[..seat] == seats;
      seat := -1;
    }

    // ---------- dealing ----------

    method DealCommunity(count: nat)
      requires Valid() && handStarted
      modifies this`community, rngDealer`deckIndex
      ensures Valid() && Snap() == DealBoard(old(Snap()), count)
    {
      ghost var t := Snap();
      var i := 0;
      while i < count && |community| < 5
        invariant 0 <= i <= count && Valid() && handStarted
        invariant DealBoard(Snap(), count - i) == DealBoard(t, count)
      {
        DealBoardFirst(Snap(), count - i);
        BurnAndShow();
        i := i + 1;
      }
    }

    method BurnAndShow()
      requires Valid() && handStarted && |community| < 5
      modifies this`community, rngDealer`deckIndex
      ensures Valid() && Snap() == DealBoard(old(Snap()), 1)
    {
      DealBoardHealthy(Snap(), 1);
      rngDealer.Burn();
      var card := rngDealer.DealOne();
      if card.Drawn? { community := community + [card.card]; }
      assert Snap() == DealBoard(old(Snap()), 1);
    }

    method DealFlop()
      requires Valid() && handStarted
      modifies this`community, rngDealer`deckIndex
      ensures Valid() && Snap() == DealStreet(old(Snap()), 3, 3)
    {
      if |community| >= 3 { return; }
      DealCommunity(3);
    }

    method DealTurn()
      requires Valid() && handStarted
      modifies this`community, rngDealer`deckIndex
      ensures Valid() && Snap() == DealStreet(old(Snap()), 4, 1)
    {
      if |community| >= 4 { return; }
      DealCommunity(1);
    }

    method DealRiver()
      requires Valid() && handStarted
      modifies this`community, rngDealer`deckIndex
      ensures Valid() && Snap() == DealStreet(old(Snap()), 5, 1)
    {
      if |community| >= 5 { return; }
      DealCommunity(1);
    }

    /** The runout loop ends: the deck always lasts. */
    method DealRunout()
      requires Valid() && handStarted
      modifies this`community, rngDealer`deckIndex
      ensures Valid() && handStarted && Snap() == Runout(old(Snap()))
    {
      ghost var t := Snap();
      while |community| < 5
        invariant Valid() && handStarted && Runout(Snap()) == Runout(t)
        decreases 5 - |community|
      {
        ghost var u := Snap();
        var count := if |community| == 0 then 3 else 1;
        RunoutSplits(u, count);
        DealCommunity(count);
      }
    }

    // ---------- showdown ----------

    /** Everyone with chips in the hand, folded players included, and what they put in. */
    method CollectPlaying() returns (playing: seq<P.PlayerState>, totalInvested: Chips)
      ensures PM.Contribs(PM.Views(playing)) == Entries(Seats()) && totalInvested == PM.Staked(Entries(Seats()))
    {
      playing, totalInvested := [], 0;
      ghost var seats := Seats();
      var i := 0;
      while i < |players|
        invariant 0 <= i <= |players| && PM.Contribs(PM.Views(playing)) == Entries(seats[..i])
        invariant totalInvested == PM.Staked(Entries(seats[..i]))
      {
        EntriesExtend(seats, i);
        if players[i].seatState != Empty && players[i].totalInvested > 0 {
          ViewsAppend(playing, players[i]);
          playing := playing + [players[i]];
          totalInvested := totalInvested + players[i].totalInvested;
        }
        i := i + 1;
      }
      assert seats[..i] == seats;
    }

    method CollectHoleCards() returns (holes: HoleMap)
      ensures holes == HolesOf(Seats())
    {
      holes := map[];
      ghost var seats := Seats();
      var i := 0;
      while i < |players|
        invariant 0 <= i <= |players| && holes == HolesOf(seats[..i])
      {
        assert seats[..i + 1][..i] == seats[..i];
        if players[i].holeCards.Dealt? {
          holes := holes[players[i].id := [players[i].holeCards.card1, players[i].holeCards.card2]];
        }
        i := i + 1;
      }
      assert seats[..i] == seats;
    }

    /** One result paid to every seat with its id. */
    method PayResult(a: Award) returns (paid: Chips)
      requires Distinct(players) && a.amount >= 0
      modifies players
      ensures Seats() == PayOne(old(Seats()), a)
      ensures paid == Sum(Seats(), ChipsOf) - Sum(old(Seats()), ChipsOf)
    {
      paid := 0;
      ghost var before, after := Seats(), PayOne(Seats(), a);
      var i := 0;
      while i < |players|
        invariant 0 <= i <= |players| && Crossed(before, after, Seats(), i)
        invariant paid == Sum(after[..i], ChipsOf) - Sum(before[..i], ChipsOf)
      {
        CrossedNext(before, after, Seats(), i);
        var more := PayIfNamed(i, a);
        paid := paid + more;
        i := i + 1;
      }
      assert after[..i] == after && before[..i] == before;
    }

    method PayIfNamed(i: nat, a: Award) returns (paid: Chips)
      requires Distinct(players) && i < |players| && a.amount >= 0
      modifies players
      ensures Seats() == old(Seats())[i := PayOne(old(Seats()), a)[i]]
      ensures paid == PayOne(old(Seats()), a)[i].chips - old(Seats())[i].chips
    {
      paid := 0;
      if players[i].id == a.id {
        var received := players[i].Receive(a.amount);
        paid := a.amount;
      }
    }

    method PayResults(results: seq<Award>) returns (paid: Chips)
      requires Distinct(players) && NonNegative(results)
      modifies players
      ensures Seats() == PayAll(old(Seats()), results)
      ensures paid == Sum(Seats(), ChipsOf) - Sum(old(Seats()), ChipsOf)
    {
      paid := 0;
      var k := 0;
      while k < |results|
        invariant 0 <= k <= |results| && Seats() == PayAll(old(Seats()), results[..k])
        invariant paid == Sum(Seats(), ChipsOf) - Sum(old(Seats()), ChipsOf)
      {
        assert results[..k + 1][..k] == results[..k];
        var more := PayResult(results[k]);
        paid := paid + more;
        k := k + 1;
      }
      assert results[..k] == results;
    }

    /** The results of every pot, in pot order. */
    method EvaluatePots(pots: seq<PM.Pot>, holes: HoleMap) returns (results: seq<Award>)
      requires Evaluable(holes, community)
      ensures results == AwardsOfPots(pots, holes, community) && NonNegative(results)
    {
      results := [];
      var k := 0;
      while k < |pots|
        invariant 0 <= k <= |pots| && results == AwardsOfPots(pots[..k], holes, community)
      {
        NextAwards(pots, holes, community, k);
        var more := EvaluatePot(pots[k].eligible, holes, community, pots[k].amount);
        results := results + more;
        k := k + 1;
      }
      assert pots[..k] == pots;
      PotAwardsNonNegative(pots, holes, community);
    }

    /** All players back to sitting, nothing wagered, no cards. */
    method ClearHand()
      requires Distinct(players)
      modifies players
      ensures Seats() == MapSeats(old(Seats()), AfterHandSeat)
    {
      var i := 0;
      while i < |players|
        invariant 0 <= i <= |players|
        invariant forall k :: 0 <= k < |players| ==>
          players[k].View() == if k < i then AfterHandSeat(old(Seats())[k]) else old(Seats())[k]
      {
        if players[i].seatState != Empty { players[i].seatState := Sitting; }
        players[i].holeCards := Undealt;
        players[i].ResetBets();
        players[i].actedThisRound := false;
        players[i].isDealer, players[i].isSmallBlind, players[i].isBigBlind := false, false, false;
        i := i + 1;
      }
    }

    /** Pays every pot and ends the hand. The result is what the engine logs as a conservation
        violation when it is not zero: chips paid less chips wagered. */
    method DoShowdown() returns (delta: Chips)
      requires Valid()
      modifies this, players, potManager
      ensures Valid() && Snap() == HandSpec.DoShowdown(old(Snap()))
      ensures delta == Sum(Seats(), ChipsOf) - Sum(old(Seats()), ChipsOf) - PM.Staked(Entries(old(Seats())))
    {
      HandsReady(Snap());
      ghost var t := Snap();
      var paid, invested := PayPots();
      delta := paid - invested;
      ShowdownHealthy(t);
    }

    method PayPots() returns (paid: Chips, invested: Chips)
      requires Distinct(players) && Evaluable(HolesOf(Seats()), community)
      modifies this, players, potManager
      ensures Snap() == HandSpec.DoShowdown(old(Snap()))
      ensures paid == Sum(Seats(), ChipsOf) - Sum(old(Seats()), ChipsOf)
      ensures invested == PM.Staked(Entries(old(Seats())))
    {
      var results: seq<Award>;
      results, invested := CollectResults();
      ShowdownPays(Snap(), results);
      paid := PayAndFinish(results);
    }

    method PayAndFinish(results: seq<Award>) returns (paid: Chips)
      requires Distinct(players) && NonNegative(results)
      modifies this, players, potManager
      ensures Snap() == PaidOut(old(Snap()), results)
      ensures paid == Sum(Seats(), ChipsOf) - Sum(old(Seats()), ChipsOf)
    {
      PaidThenCleared(PayAll(Seats(), results));
      phase := ShowdownPhase;
      paid := PayResults(results);
      FinishHand();
    }

    method BuildHandPots() returns (pots: seq<PM.Pot>, totalInvested: Chips)
      modifies potManager
      ensures pots == PotsOf(Seats()) && totalInvested == PM.Staked(Entries(Seats()))
    {
      var playing: seq<P.PlayerState>;
      playing, totalInvested := CollectPlaying();
      pots := potManager.BuildPots(playing);
    }

    /** Builds and evaluates the pots; nobody is paid yet. */
    method CollectResults() returns (results: seq<Award>, totalInvested: Chips)
      requires Evaluable(HolesOf(Seats()), community)
      modifies potManager
      ensures results == AwardsOfPots(PotsOf(Seats()), HolesOf(Seats()), community)
      ensures NonNegative(results)
      ensures totalInvested == PM.Staked(Entries(Seats()))
    {
      var pots: seq<PM.Pot>;
      pots, totalInvested := BuildHandPots();
      var holes := CollectHoleCards();
      results := EvaluatePots(pots, holes);
    }

    method FinishHand()
      requires Distinct(players)
      modifies this, players, potManager
      ensures Snap() == Ended(old(Snap()))
    {
      phase := HandComplete;
      handStarted := false;
      ClearHand();
      currentBet := 0;
      community := [];
      potManager.Reset();
    }

    // ---------- streets ----------

    method ResetStreet()
      requires Distinct(players)
      modifies players, this`currentBet
      ensures Snap() == NewStreet(old(Snap()))
    {
      var i := 0;
      while i < |players|
        invariant 0 <= i <= |players| && currentBet == old(currentBet)
        invariant forall k :: 0 <= k < |players| ==>
          players[k].View() == if k < i then NewStreetSeat(old(Seats())[k]) else old(Seats())[k]
      {
        players[i].actedThisRound := false;
        players[i].currentBet := 0;
        i := i + 1;
      }
      currentBet := 0;
    }

    /** The switch of AdvanceStreet for the phases that deal another street. */
    method DealNextStreet()
      requires Valid() && handStarted && phase in {PreflopBetting, FlopBetting, TurnBetting}
      modifies this`phase, this`community, rngDealer`deckIndex
      ensures Valid() && Snap() == StreetDealt(old(Snap()))
    {
      ghost var t := Snap();
      if phase == PreflopBetting {
        ChangePhase(FlopDealing);
        DealFlop();
        DealingIgnoresPhase(t, FlopDealing, 3, 3);
        ChangePhase(FlopBetting);
      } else if phase == FlopBetting {
        ChangePhase(TurnDealing);
        DealTurn();
        DealingIgnoresPhase(t, TurnDealing, 4, 1);
        ChangePhase(TurnBetting);
      } else {
        ChangePhase(RiverDealing);
        DealRiver();
        DealingIgnoresPhase(t, RiverDealing, 5, 1);
        ChangePhase(RiverBetting);
      }
    }

    method ChangePhase(next: Phase)
      requires Valid()
      modifies this`phase
      ensures Valid() && Snap() == old(Snap()).(phase := next)
    {
      SeatsHealthy(Snap(), Snap().(phase := next));
      phase := next;
    }

    /** Close the street: pay out if the hand is decided or over, run the board out if everyone
        left is all-in, else deal and bet the next street. */
    method AdvanceStreet()
      requires Valid() && handStarted
      modifies this, players, potManager, rngDealer`deckIndex
      ensures Valid() && Snap() == HandSpec.AdvanceStreet(old(Snap()))
      decreases StreetsLeft(phase), 0, 2
    {
      var active, playing := CountPlaying();
      if playing <= 1 {
        var delta := DoShowdown();
      } else if active == 0 {
        RunOutAndShow();
      } else {
        NextStreet();
      }
    }

    method RunOutAndShow()
      requires Valid() && handStarted
      modifies this, players, potManager, rngDealer`deckIndex
      ensures Valid() && Snap() == HandSpec.DoShowdown(Runout(old(Snap())))
    {
      DealRunout();
      var delta := DoShowdown();
    }

    method NextStreet()
      requires Valid() && handStarted && LiveCount(Seats()) > 1 && ActiveCount(Seats()) != 0
      modifies this, players, potManager, rngDealer`deckIndex
      ensures Valid() && Snap() == HandSpec.AdvanceStreet(old(Snap()))
      decreases StreetsLeft(phase), 0, 1
    {
      AdvanceUnfolds(Snap());
      NewStreetHealthy(Snap());
      ResetStreet();
      PlayOn();
    }

    method PlayOn()
      requires Valid() && handStarted
      modifies this, players, potManager, rngDealer`deckIndex
      ensures Valid()
      ensures var t := old(Snap());
        Snap() == if t.phase == RiverBetting then HandSpec.DoShowdown(t)
                  else if StreetsLeft(t.phase) > 0 then HandSpec.StartBettingRound(StreetDealt(t))
                  else t
      decreases StreetsLeft(phase), 0, 0, 1
    {
      if phase == RiverBetting {
        var delta := DoShowdown();
      } else if phase in {PreflopBetting, FlopBetting, TurnBetting} {
        DealAndBet();
      }
    }

    method DealAndBet()
      requires Valid() && handStarted && phase in {PreflopBetting, FlopBetting, TurnBetting}
      modifies this, players, potManager, rngDealer`deckIndex
      ensures Valid() && Snap() == HandSpec.StartBettingRound(StreetDealt(old(Snap())))
      decreases StreetsLeft(phase), 0, 0, 0
    {
      DealNextStreet();
      StartBettingRound();
    }

    method StartBettingRound()
      requires Valid() && handStarted
      modifies this, players, potManager, rngDealer`deckIndex
      ensures Valid() && Snap() == HandSpec.StartBettingRound(old(Snap()))
      decreases StreetsLeft(phase), 2
    {
      StartUnfolds(Snap());
      RaiseSizeHealthy(Snap());
      lastRaiseSize := bigBlind;
      BeginRound();
    }

    method BeginRound()
      requires Valid() && handStarted
      modifies this, players, potManager, rngDealer`deckIndex
      ensures Valid() && Snap() == RoundBegun(old(Snap()))
      decreases StreetsLeft(phase), 1
    {
      var active := ActivePlayerCount();
      if active <= 1 {
        AdvanceStreet();
      } else {
        TurnHealthy(Snap(), FirstTurn(Seats(), StartSeat(Snap()), actionSeat));
        FirstToAct(active);
      }
    }

    method FirstToAct(active: int)
      requires dealerSeat < |players| && actionSeat < |players| && active == ActiveCount(Seats())
      modifies this`actionSeat
      ensures Snap() == old(Snap()).(turn := FirstTurn(old(Seats()), StartSeat(old(Snap())), old(actionSeat)))
    {
      var start := (dealerSeat + 1) % |players|;
      if phase == PreflopBetting {
        start := if active == 2 then dealerSeat else (dealerSeat + 3) % |players|;
      }
      FindActiveSeat(start);
    }

    /** What follows every action and every fold. */
    method Settle()
      requires Valid() && handStarted
      modifies this, players, potManager, rngDealer`deckIndex
      ensures Valid() && Snap() == HandSpec.Settle(old(Snap()))
    {
      var done := IsBettingRoundComplete();
      if done {
        AdvanceStreet();
      } else {
        SettleHealthy(Snap());
        NextActionSeat();
      }
    }

    // ---------- player calls ----------

    /** A player's action; `expired` says that the clock of the player to act has run out, which is
        dealt with first. */
    method ProcessAction(id: int, action: GameAction, expired: bool) returns (ok: bool)
      requires Valid()
      modifies this, players, potManager, rngDealer`deckIndex
      ensures Valid() && RespondsAfterClock(old(Snap()), id, action, expired, ok, Snap())
    {
      if !handStarted { return false; }
      if expired { CheckTimeout(); }
      if !handStarted { return false; }
      ok := TakeTurn(id, action);
    }

    /** The part of ProcessAction that looks at the action. */
    method TakeTurn(id: int, action: GameAction) returns (ok: bool)
      requires Valid() && handStarted
      modifies this, players, potManager, rngDealer`deckIndex
      ensures Valid() && Responds(HandSpec.ProcessAction(old(Snap()), id, action), old(Snap()), ok, Snap())
    {
      var seat := FindActivePlayer(id);
      if seat < 0 { return false; }
      var current := GetCurrentPlayer();
      if current < 0 || players[current].id != id { return false; }
      var validation := Validate(action, players[seat].View(), currentBet, bigBlind, lastRaiseSize);
      if validation.Invalid? { return false; }
      Perform(seat, action, validation.amount);
      ok := true;
    }

    method Perform(seat: nat, action: GameAction, amount: Chips)
      requires Valid() && handStarted && seat < |players|
      requires Validate(action, Seats()[seat], currentBet, bigBlind, lastRaiseSize) == Validation.Valid(amount)
      modifies this, players, potManager, rngDealer`deckIndex
      ensures Valid() && Snap() == HandSpec.Settle(Apply(old(Snap()), seat, action.kind, amount))
    {
      ApplyHealthy(Snap(), seat, action);
      ApplyAction(seat, action.kind, amount);
      Settle();
    }

    /** An expired clock: check if that is free, fold otherwise. */
    method CheckTimeout()
      requires Valid()
      modifies this, players, potManager, rngDealer`deckIndex
      ensures Valid() && Snap() == HandSpec.CheckTimeout(old(Snap()))
    {
      if !handStarted { return; }
      var current := GetCurrentPlayer();
      if current < 0 { return; }
      TimeOutSeat(current);
      Settle();
    }

    method TimeOutSeat(seat: nat)
      requires Valid() && seat < |players|
      modifies players
      ensures var s := old(Seats())[seat];
        var s' := if currentBet - s.bet <= 0 then s.(acted := true) else s.(state := Folded);
        Valid() && Snap() == old(Snap()).(seats := old(Seats())[seat := s'])
    {
      ghost var s := Seats()[seat];
      assert Solvent(s);
      SeatHealthy(Snap(), seat, if currentBet - s.bet <= 0 then s.(acted := true) else s.(state := Folded));
      var toCall := currentBet - players[seat].currentBet;
      if toCall <= 0 {
        MarkActed(seat);
      } else {
        SetState(seat, Folded);
      }
    }

    method LegalActions(id: int) returns (actions: seq<GameAction>)
      requires actionSeat < |players|
      ensures actions == HandSpec.LegalActions(Snap(), id)
    {
      actions := [];
      if !handStarted { return; }
      var player := players[actionSeat].View();
      if player.id != id || !player.IsActive() { return; }
      var toCall := if currentBet - player.bet < 0 then 0 else currentBet - player.bet;
      actions := actions + [GameAction(Fold, 0, id)];
      if toCall == 0 {
        actions := actions + [GameAction(Check, 0, id)];
      } else if player.chips > 0 {
        actions := actions + [GameAction(Call, 0, id)];
      }
      if player.chips > 0 {
        var mr := CalculateMinRaise(player, currentBet, bigBlind, lastRaiseSize);
        if !mr.isAllInLess {
          actions := actions + [GameAction(if currentBet == 0 then Bet else Raise, mr.minRaiseTo, id)];
        }
        actions := actions + [GameAction(AllInMove, 0, id)];
      }
    }

    /** The seat records. */
    method AllPlayers() returns (seats: seq<Seat>)
      ensures seats == Seats()
    {
      seats := [];
      while |seats| < |players|
        invariant |seats| <= |players| && seats == Seats()[..|seats|]
      {
        seats := seats + [players[|seats|].View()];
      }
    }

    /** The redacted view: everybody's public record and only the viewer's cards. */
    method ObserveFor(viewer: int) returns (obs: Observation)
      ensures obs == HandSpec.ObserveFor(Snap(), viewer)
    {
      var pot := GetPot();
      var mine, views := Undealt, [];
      ghost var seats := Seats();
      var i := 0;
      while i < |players|
        invariant 0 <= i <= |players| && mine == HoleCardsOf(seats[..i], viewer)
        invariant |views| == i && forall k :: 0 <= k < i ==> views[k] == ViewOf(seats[k])
      {
        assert seats[..i + 1][..i] == seats[..i];
        views := views + [ViewOf(players[i].View())];
        if players[i].id == viewer { mine := players[i].holeCards; }
        i := i + 1;
      }
      assert seats[..i] == seats;
      obs := Observation(phase, currentBet, pot, bigBlind, community, viewer, mine, views);
    }

    // ---------- seating and leaving ----------

    /** The stack is stored as given; only a negative one makes the table invalid. */
    method AddPlayerAtSeat(id: int, chips: Chips, seat: nat) returns (ok: bool)
      requires Valid()
      modifies players
      ensures Responds(HandSpec.AddPlayerAtSeat(old(Snap()), id, chips, seat), old(Snap()), ok, Snap())
      ensures !ok || chips >= 0 ==> Valid()
    {
      if seat >= |players| { return false; }
      if players[seat].seatState != Empty { return false; }
      var taken := FindPlayer(id);
      if taken >= 0 { return false; }
      if chips >= 0 { Reseated(seat, Seats()[seat].(id := id, chips := chips, state := Sitting)); }
      Occupy(seat, id, chips);
      ok := true;
    }

    /** Seat i with another id, stack or state is as healthy as its stack is. */
    ghost method Reseated(i: nat, s: Seat)
      requires Valid() && i < |players| && s == Seats()[i].(id := s.id, chips := s.chips, state := s.state) && s.chips >= 0
      ensures Healthy(Snap().(seats := Seats()[i := s]))
    {
      assert Solvent(Seats()[i]);
      SeatHealthy(Snap(), i, s);
    }

    method Occupy(seat: nat, id: int, chips: Chips)
      requires Distinct(players) && seat < |players|
      modifies players
      ensures Seats() == old(Seats())[seat := old(Seats())[seat].(id := id, chips := chips, state := Sitting)]
    {
      players[seat].id, players[seat].chips, players[seat].seatState := id, chips, Sitting;
    }

    method SetPlayerChips(id: int, chips: Chips) returns (ok: bool)
      requires Valid()
      modifies players
      ensures Snap() == HandSpec.SetPlayerChips(old(Snap()), id, chips)
      ensures ok <==> OccupiedSeatOf(old(Seats()), id) >= 0
      ensures !ok || chips >= 0 ==> Valid()
    {
      var seat := FindPlayer(id);
      if seat < 0 { return false; }
      if chips >= 0 { Reseated(seat, Seats()[seat].(chips := chips, state := Sitting)); }
      Restack(seat, chips);
      ok := true;
    }

    method Restack(seat: nat, chips: Chips)
      requires Distinct(players) && seat < |players|
      modifies players
      ensures Seats() == old(Seats())[seat := old(Seats())[seat].(chips := chips, state := Sitting)]
    {
      players[seat].chips, players[seat].seatState := chips, Sitting;
    }

    /** Hand the stack over and empty the seat. */
    method Vacate(seat: nat) returns (stack: Chips)
      requires Distinct(players) && seat < |players|
      modifies players
      ensures Seats() == old(Seats())[seat := Vacated(old(Seats())[seat])] && stack == old(Seats())[seat].chips
    {
      var p := players[seat];
      stack := p.chips;
      p.chips, p.seatState, p.id, p.holeCards, p.leaving := 0, Empty, 0, Undealt, false;
      p.ResetBets();
      assert Seats() == old(Seats())[seat := Vacated(old(Seats())[seat])];
    }

    /** Mark a live player as leaving, folding one who could still act. */
    method MarkLeaving(seat: nat) returns (folded: bool)
      requires Valid() && seat < |players|
      modifies players
      ensures folded == old(Seats())[seat].IsActive()
      ensures Valid() && Snap() == old(Snap()).(seats := old(Seats())[seat := Left(old(Seats())[seat])])
    {
      assert Solvent(Seats()[seat]);
      SeatHealthy(Snap(), seat, Left(Seats()[seat]));
      folded := LeaveSeat(seat);
      assert Snap() == old(Snap()).(seats := Seats());
    }

    method LeaveSeat(seat: nat) returns (folded: bool)
      requires Distinct(players) && seat < |players|
      modifies players
      ensures folded == old(Seats())[seat].IsActive() && Seats() == old(Seats())[seat := Left(old(Seats())[seat])]
    {
      var p := players[seat];
      p.leaving := true;
      folded := p.seatState == Playing;
      if folded { p.seatState, p.actedThisRound := Folded, true; }
    }

    /** The stack that can be cashed now: none while the player is in a live hand. */
    method RequestCashOut(id: int) returns (r: CashOutReply)
      requires Valid()
      modifies this, players, potManager, rngDealer`deckIndex
      ensures Valid()
      ensures match HandSpec.RequestCashOut(old(Snap()), id)
        case NotSeated => r == NotAtTable && Snap() == old(Snap())
        case CashOut(after, stack) => r == Cash(stack) && Snap() == after
    {
      var seat := FindPlayer(id);
      if seat < 0 { return NotAtTable; }
      if handStarted && (players[seat].seatState == Playing || players[seat].seatState == AllIn) {
        LeaveMidHand(seat);
        return Cash(0);
      }
      var stack := LeaveNow(seat);
      r := Cash(stack);
    }

    method LeaveMidHand(seat: nat)
      requires Valid() && handStarted && seat < |players|
      modifies this, players, potManager, rngDealer`deckIndex
      ensures var t, s := old(Snap()), old(Seats())[seat]; var u := t.(seats := t.seats[seat := Left(s)]);
        Valid() && u.Shaped() && Snap() == if s.IsActive() then HandSpec.Settle(u) else u
    {
      var folded := MarkLeaving(seat);
      if folded { Settle(); }
    }

    method LeaveNow(seat: nat) returns (stack: Chips)
      requires Valid() && seat < |players|
      modifies players
      ensures Valid() && Snap() == old(Snap()).(seats := old(Seats())[seat := Vacated(old(Seats())[seat])])
      ensures stack == old(Seats())[seat].chips
    {
      SeatHealthy(Snap(), seat, Vacated(Seats()[seat]));
      stack := Vacate(seat);
      assert Snap() == old(Snap()).(seats := Seats());
    }

    /** The sweep between hands: every leaving seat emptied, its stack owed to its wallet. */
    method VacateLeavingPlayers() returns (credits: seq<Credit>)
      requires Valid()
      modifies players
      ensures Valid() && (Snap(), credits) == VacateLeaving(old(Snap()))
    {
      credits := [];
      if handStarted { return; }
      SweepHealthy(Snap());
      credits := Sweep();
      assert Snap() == old(Snap()).(seats := Seats());
    }

    method Sweep() returns (credits: seq<Credit>)
      requires Distinct(players)
      modifies players
      ensures Seats() == MapSeats(old(Seats()), VacateSeat) && credits == LeavingCredits(old(Seats()))
    {
      credits := [];
      ghost var before := Seats();
      var i := 0;
      while i < |players|
        invariant 0 <= i <= |players| && credits == LeavingCredits(before[..i]) && SweptTo(before, Seats(), i)
      {
        SweptNext(before, Seats(), i);
        var credit := SweepSeat(i);
        credits := credits + credit;
        i := i + 1;
      }
      assert before[..i] == before;
    }

    method SweepSeat(i: nat) returns (credit: seq<Credit>)
      requires Distinct(players) && i < |players|
      modifies players
      ensures Seats() == old(Seats())[i := VacateSeat(old(Seats())[i])] && credit == CreditOf(old(Seats())[i])
    {
      credit := [];
      if players[i].seatState != Empty && players[i].leaving {
        var id := players[i].id;
        var stack := Vacate(i);
        credit := [Credit(id, stack)];
      }
    }

    // ---------- starting a hand ----------

    method ResetHand()
      requires Distinct(players)
      modifies this, players, potManager
      ensures Snap() == old(Snap()).(seats := MapSeats(old(Seats()), ResetHandSeat), board := [], currentBet := 0,
                                     live := true, phase := Dealing)
    {
      ResetSeats();
      community := [];
      potManager.Reset();
      currentBet := 0;
      handStarted, phase := true, Dealing;
    }

    method ResetSeats()
      requires Distinct(players)
      modifies players
      ensures Seats() == MapSeats(old(Seats()), ResetHandSeat)
    {
      var i := 0;
      while i < |players|
        invariant 0 <= i <= |players|
        invariant forall k :: 0 <= k < |players| ==>
          players[k].View() == if k < i then ResetHandSeat(old(Seats())[k]) else old(Seats())[k]
      {
        players[i].ResetBets();
        players[i].actedThisRound := false;
        players[i].isDealer, players[i].isSmallBlind, players[i].isBigBlind := false, false, false;
        if players[i].seatState in {Playing, Folded, AllIn} { players[i].seatState := Sitting; }
        players[i].holeCards := Undealt;
        i := i + 1;
      }
    }

    method RotateDealer()
      requires Distinct(players) && dealerSeat < |players| && actionSeat < |players|
      modifies players, this`dealerSeat
      ensures Snap() == RotateButton(old(Snap()))
    {
      ButtonMoves(Snap());
      var next := FindNextSeated(dealerSeat);
      PlaceButton(next);
    }

    method PlaceButton(next: nat)
      requires Distinct(players) && next < |players|
      modifies players, this`dealerSeat
      ensures Snap() == old(Snap()).(button := next, seats := WithButton(old(Seats()), next))
    {
      dealerSeat := next;
      ClearPositions();
      players[next].isDealer := true;
      assert Seats() == WithButton(old(Seats()), next);
    }

    method ClearPositions()
      requires Distinct(players)
      modifies players
      ensures Seats() == MapSeats(old(Seats()), NoPosition)
    {
      var i := 0;
      while i < |players|
        invariant 0 <= i <= |players|
        invariant forall k :: 0 <= k < |players| ==>
          players[k].View() == if k < i then NoPosition(old(Seats())[k]) else old(Seats())[k]
      {
        players[i].isDealer, players[i].isSmallBlind, players[i].isBigBlind := false, false, false;
        i := i + 1;
      }
    }

    /** Small blind next to the button and big blind next to that; heads-up the button posts small. */
    method ChooseBlinds() returns (sbSeat: nat, bbSeat: nat)
      requires dealerSeat < |players| && actionSeat < |players|
      ensures BlindSeats(sbSeat, bbSeat) == BlindsFor(Snap())
    {
      sbSeat := FindNextSeated(dealerSeat);
      bbSeat := FindNextSeated(sbSeat);
      var seated := CountSeated();
      if seated == 2 {
        bbSeat := sbSeat;
        sbSeat := dealerSeat;
      }
    }

    method PostBlinds()
      requires Distinct(players) && dealerSeat < |players| && actionSeat < |players|
      modifies players, this`currentBet
      ensures Snap() == HandSpec.PostBlinds(old(Snap()))
    {
      var sbSeat, bbSeat := ChooseBlinds();
      FlagBlinds(sbSeat, bbSeat);
      PostAmounts(sbSeat, bbSeat);
    }

    method FlagBlinds(sbSeat: nat, bbSeat: nat)
      requires Distinct(players) && sbSeat < |players| && bbSeat < |players|
      modifies players
      ensures Seats() == Flagged(old(Seats()), BlindSeats(sbSeat, bbSeat))
    {
      players[sbSeat].isSmallBlind := true;
      assert Seats() == old(Seats())[sbSeat := old(Seats())[sbSeat].(isSmallBlind := true)];
      players[bbSeat].isBigBlind := true;
    }

    method PostAmounts(sbSeat: nat, bbSeat: nat)
      requires Distinct(players) && sbSeat < |players| && bbSeat < |players|
      modifies players, this`currentBet
      ensures Seats() == Stakes(old(Seats()), BlindSeats(sbSeat, bbSeat), smallBlind, bigBlind)
      ensures currentBet == Betting.Min(bigBlind, old(Seats())[bbSeat].chips)
    {
      var sbAmount := Betting.Min(smallBlind, players[sbSeat].chips);
      var bbAmount := Betting.Min(bigBlind, players[bbSeat].chips);
      var sb := players[sbSeat].Bet(sbAmount);
      assert Seats() == old(Seats())[sbSeat := old(Seats())[sbSeat].AfterBet(sbAmount)];
      var bb := players[bbSeat].Bet(bbAmount);
      currentBet := bbAmount;
    }

    method DealHoleCards()
      requires Distinct(players) && rngDealer.Valid() && rngDealer.deckIndex + 2 * |players| <= 52
      modifies players, rngDealer`deckIndex
      ensures rngDealer.Valid() && Snap() == DealHoles(old(Snap()), |players|)
    {
      ghost var t := Snap();
      ghost var deals := seq(|players| + 1, i requires 0 <= i <= |players| => DealHoles(t, i));
      forall i | 0 <= i < |players| ensures DealtAt(deals, i) {
        NextDealt(t, i + 1);
      }
      DealRound(deals);
    }

    /** Seat by seat, through the tables in the list. */
    method DealRound(ghost deals: seq<Table>)
      requires Distinct(players) && rngDealer.Valid() && rngDealer.deckIndex + 2 * |players| <= 52
      requires |deals| == |players| + 1 && Snap() == deals[0] && forall i :: 0 <= i < |players| ==> DealtAt(deals, i)
      modifies players, rngDealer`deckIndex
      ensures rngDealer.Valid() && Snap() == deals[|players|]
    {
      var i := 0;
      while i < |players|
        invariant 0 <= i <= |players| && rngDealer.Valid() && Snap() == deals[i]
        invariant rngDealer.deckIndex + 2 * (|players| - i) <= 52
      {
        assert DealtAt(deals, i);
        DealSeat(i);
        i := i + 1;
      }
    }

    method DealSeat(i: nat)
      requires Distinct(players) && rngDealer.Valid() && i < |players| && rngDealer.deckIndex + 2 <= 52
      modifies players, rngDealer`deckIndex
      ensures rngDealer.Valid() && Snap() == DealtOne(old(Snap()), i) && rngDealer.deckIndex <= old(rngDealer.deckIndex) + 2
    {
      if players[i].seatState == Sitting { DealPair(i); }
    }

    method DealPair(i: nat)
      requires Distinct(players) && rngDealer.Valid() && i < |players| && rngDealer.deckIndex + 2 <= 52
      modifies players, rngDealer`deckIndex
      ensures rngDealer.Valid()
      ensures var t := old(Snap()); var s := t.seats[i];
        Snap() == t.(dealt := t.dealt + 2,
          seats := t.seats[i := s.(hole := Dealt(t.deck[t.dealt], t.deck[t.dealt + 1]), state := Playing, acted := false)])
    {
      var first := rngDealer.DealOne();
      var second := rngDealer.DealOne();
      players[i].holeCards := Dealt(first.card, second.card);
      players[i].seatState, players[i].actedThisRound := Playing, false;
    }

    /** Button, blinds and hole cards. */
    method DealIn()
      requires Valid() && Engine.Fresh(Snap())
      modifies this, players, rngDealer`deckIndex
      ensures Valid() && Snap() == DealtIn(old(Snap()))
    {
      DealtInHealthy(Snap());
      RotateDealer();
      PostBlinds();
      DealAndOpen();
    }

    method DealAndOpen()
      requires Distinct(players) && rngDealer.Valid() && rngDealer.deckIndex + 2 * |players| <= 52
      modifies players, this`phase, rngDealer`deckIndex
      ensures rngDealer.Valid() && Snap() == DealHoles(old(Snap()), |players|).(phase := PreflopBetting)
    {
      DealHoleCards();
      phase := PreflopBetting;
    }

    /** Reset, then shuffle before anything else is decided. */
    method PrepareHand(source: DeckSource)
      requires Valid() && source.WellFormed() && Shuffles(source)
      modifies this, players, potManager, rngDealer, rngDealer.deck
      ensures Valid() && Engine.Fresh(Snap()) && Snap() == Cleared(old(Snap()), rngDealer.deck[..])
      ensures ShuffledBy(source, old(rngDealer.deck[..]), old(rngDealer.seed))
    {
      ghost var t := Snap();
      ResetHand();
      ShuffleFrom(source);
      ClearedHealthy(t, rngDealer.deck[..]);
    }

    /** The keyed stream the source names does not dry up. */
    ghost predicate Shuffles(source: DeckSource)
      requires source.WellFormed()
      reads this, rngDealer
    {
      D.Productive(D.TapeOf(rngDealer.compress, source.Seed(rngDealer.seed), source.Nonce()))
    }

    /** The deck in use is the previous one, shuffled under the source's seed and nonce. */
    ghost predicate ShuffledBy(source: DeckSource, deck: seq<Card>, seed: seq<H.Byte>)
      requires source.WellFormed() && |deck| == 52
      reads this, rngDealer, rngDealer.deck
    {
      rngDealer.seed == source.Seed(seed) &&
      forall key, nonce {:trigger D.ShuffledDeck(rngDealer.compress, deck, key, nonce)} ::
        key == source.Seed(seed) && nonce == source.Nonce() && D.Productive(D.TapeOf(rngDealer.compress, key, nonce)) ==>
          rngDealer.deck[..] == D.ShuffledDeck(rngDealer.compress, deck, key, nonce)
    }

    method ShuffleFrom(source: DeckSource)
      requires rngDealer.Valid() && source.WellFormed() && Shuffles(source)
      modifies rngDealer, rngDealer.deck
      ensures rngDealer.Valid() && rngDealer.deckIndex == 0 && ShuffledBy(source, old(rngDealer.deck[..]), old(rngDealer.seed))
    {
      match source {
        case Fresh(seed, nonceBytes) =>
          rngDealer.Shuffle(seed, nonceBytes);
        case Stored(seedHex, nonceHex) =>
          var read := rngDealer.Reseed(seedHex, nonceHex);
          rngDealer.ShuffleWithSeed();
      }
    }

    method OpenHand(source: DeckSource)
      requires Valid() && source.WellFormed() && Shuffles(source)
      modifies this, players, potManager, rngDealer, rngDealer.deck
      ensures Valid() && Cleared(old(Snap()), rngDealer.deck[..]).Shaped()
      ensures Snap() == HandSpec.StartBettingRound(DealtIn(Cleared(old(Snap()), rngDealer.deck[..])))
      ensures ShuffledBy(source, old(rngDealer.deck[..]), old(rngDealer.seed))
    {
      PrepareHand(source);
      DealAndStart();
    }

    method DealAndStart()
      requires Valid() && Snap().live && Engine.Fresh(Snap())
      modifies this, players, potManager, rngDealer`deckIndex
      ensures Valid() && old(Snap()).Shaped() && Snap() == HandSpec.StartBettingRound(DealtIn(old(Snap())))
    {
      DealIn();
      StartBettingRound();
    }

    method StartHand(source: DeckSource) returns (ok: bool)
      requires Valid() && source.WellFormed() && Shuffles(source)
      modifies this, players, potManager, rngDealer, rngDealer.deck
      ensures Valid()
      ensures Responds(HandSpec.StartHand(old(Snap()), rngDealer.deck[..]), old(Snap()), ok, Snap())
      ensures ok ==> ShuffledBy(source, old(rngDealer.deck[..]), old(rngDealer.seed))
    {
      if phase !in {Waiting, HandComplete} { return false; }
      var sitting := CountWaiting();
      if sitting < 2 { return false; }
      OpenHand(source);
      ok := true;
    }
  }

  ghost predicate AllMatched(seats: seq<Seat>) {
    && (forall i :: 0 <= i < |seats| && Active(seats[i]) ==> seats[i].acted)
    && (forall i, j :: 0 <= i < |seats| && 0 <= j < |seats| && Active(seats[i]) && Active(seats[j])
          ==> seats[i].bet == seats[j].bet)
  }

  lemma {:induction false} MatchedExtends(seats: seq<Seat>, i: nat, refBet: Chips)
    requires i < |seats| && AllMatched(seats[..i])
    requires (forall k :: 0 <= k < i ==> !Active(seats[k])) || exists k :: 0 <= k < i && Active(seats[k]) && seats[k].bet == refBet
    requires Active(seats[i]) ==> seats[i].acted && seats[i].bet == refBet
    ensures AllMatched(seats[..i + 1])
  {
    forall k | 0 <= k < i && Active(seats[k]) ensures seats[k].bet == refBet && seats[k].acted {
      assert seats[..i][k] == seats[k];
    }
  }

  lemma {:induction false} FirstPendingFound(seats: seq<Seat>, i: nat)
    requires i < |seats| && FirstPending(seats[..i]) == -1 && Pending(seats[i])
    ensures FirstPending(seats) == i
  {
    if i == |seats| - 1 {
    } else {
      assert seats[..|seats| - 1][..i] == seats[..i];
      FirstPendingFound(seats[..|seats| - 1], i);
    }
  }

  /** Apply on a seat already marked as having acted. */
  ghost function Move(t: Table, i: nat, kind: ActionType, amount: Chips): Table
    requires i < |t.seats|
  {
    var p := t.seats[i];
    match kind
    case Fold => t.(seats := t.seats[i := p.(state := Folded)])
    case Call =>
      var q := p.AfterBet(t.currentBet - p.bet);
      t.(seats := t.seats[i := if q.chips <= 0 then q.(state := AllIn) else q])
    case Bet => Lead(t.(seats := t.seats[i := p.AfterBet(amount)]), i)
    case Raise => Lead(t.(seats := t.seats[i := p.AfterBet(amount)]), i)
    case AllInMove =>
      var q := p.AfterBet(p.chips);
      var staked := t.(seats := t.seats[i := q.(state := AllIn)]);
      if q.bet > t.currentBet then Lead(staked, i) else staked
    case _ => t
  }

  lemma {:induction false} MarkThenMove(t: Table, i: nat, kind: ActionType, amount: Chips)
    requires i < |t.seats|
    ensures Move(t.(seats := t.seats[i := t.seats[i].(acted := true)]), i, kind, amount) == Apply(t, i, kind, amount)
  {
    var p := t.seats[i].(acted := true);
    var called := p.AfterBet(t.currentBet - p.bet);
    SecondUpdate(t.seats, i, p, p.(state := Folded));
    SecondUpdate(t.seats, i, p, if called.chips <= 0 then called.(state := AllIn) else called);
    SecondUpdate(t.seats, i, p, p.AfterBet(amount));
    SecondUpdate(t.seats, i, p, p.AfterBet(p.chips).(state := AllIn));
  }

  lemma {:induction false} SecondUpdate(seats: seq<Seat>, i: nat, p: Seat, q: Seat)
    requires i < |seats|
    ensures seats[i := p][i := q] == seats[i := q]
  {
  }

  lemma {:induction false} ActiveFound(seats: seq<Seat>, id: int, i: nat)
    requires i < |seats| && ActiveSeatOf(seats[..i], id) == -1 && Active(seats[i]) && seats[i].id == id
    ensures ActiveSeatOf(seats, id) == i
  {
    if i < |seats| - 1 {
      assert seats[..|seats| - 1][..i] == seats[..i];
      ActiveFound(seats[..|seats| - 1], id, i);
    }
  }

  lemma {:induction false} OccupiedFound(seats: seq<Seat>, id: int, i: nat)
    requires i < |seats| && OccupiedSeatOf(seats[..i], id) == -1 && seats[i].state != Empty && seats[i].id == id
    ensures OccupiedSeatOf(seats, id) == i
  {
    if i < |seats| - 1 {
      assert seats[..|seats| - 1][..i] == seats[..i];
      OccupiedFound(seats[..|seats| - 1], id, i);
    }
  }

  lemma {:induction false} DealBoardFirst(t: Table, count: nat)
    requires Healthy(t) && t.live && |t.board| < 5 && count > 0
    ensures DealBoard(DealBoard(t, 1), count - 1) == DealBoard(t, count)
  {
    DealBoardSplits(t, 1, 0);
    var next := t.(board := t.board + [t.deck[t.dealt + 1]], dealt := t.dealt + 2);
    assert DealBoard(t, 1) == DealBoard(next, 0) == next;
  }

  /** Dealing the board in two goes is dealing it in one. */
  lemma {:induction false} DealBoardSplits(t: Table, a: nat, b: nat)
    requires t.dealt + 2 * (a + b) <= |t.deck|
    ensures DealBoard(DealBoard(t, a), b) == DealBoard(t, a + b)
    decreases a
  {
    if a > 0 && |t.board| < 5 {
      DealBoardSplits(t.(board := t.board + [t.deck[t.dealt + 1]], dealt := t.dealt + 2), a - 1, b);
    }
  }

  lemma {:induction false} DealBoardGrows(t: Table, a: nat)
    requires t.dealt + 2 * a <= |t.deck| && |t.board| + a <= 5
    ensures |DealBoard(t, a).board| == |t.board| + a
    decreases a
  {
    if a > 0 { DealBoardGrows(t.(board := t.board + [t.deck[t.dealt + 1]], dealt := t.dealt + 2), a - 1); }
  }

  lemma {:induction false} RunoutSplits(t: Table, count: nat)
    requires Healthy(t) && t.live && 0 < count <= 5 - |t.board|
    ensures Runout(DealBoard(t, count)) == Runout(t) && |DealBoard(t, count).board| == |t.board| + count
  {
    DealBoardGrows(t, count);
    DealBoardSplits(t, count, 5 - |t.board| - count);
  }

  lemma {:induction false} EntriesExtend(seats: seq<Seat>, i: nat)
    requires i < |seats|
    ensures var last := seats[i];
      && Entries(seats[..i + 1]) ==
           Entries(seats[..i]) + (if last.state != Empty && last.invested > 0 then [PM.ContribOf(last)] else [])
      && PM.Staked(Entries(seats[..i + 1])) ==
           PM.Staked(Entries(seats[..i])) + (if last.state != Empty && last.invested > 0 then last.invested else 0)
  {
    var whole, occupied := seats[..i + 1], OccupiedSeats(seats[..i]);
    assert whole[..i] == seats[..i] && whole[i] == seats[i];
    if seats[i].state != Empty {
      assert OccupiedSeats(whole) == occupied + [seats[i]];
      assert (occupied + [seats[i]])[..|occupied|] == occupied;
      assert Entries(seats[..i]) + [] == Entries(seats[..i]);
      StakedAppend(Entries(seats[..i]), PM.ContribOf(seats[i]));
    } else {
      assert OccupiedSeats(whole) == occupied;
    }
  }

  lemma {:induction false} ViewsAppend(list: seq<P.PlayerState>, p: P.PlayerState)
    requires p.totalInvested > 0
    ensures PM.Contribs(PM.Views(list + [p])) == PM.Contribs(PM.Views(list)) + [PM.ContribOf(p.View())]
  {
    var views := PM.Views(list + [p]);
    assert views[..|list|] == PM.Views(list);
  }

  lemma {:induction false} AwardsNonNegative(eligible: seq<int>, holes: HoleMap, board: seq<Card>, pot: Chips)
    ensures NonNegative(AwardsFor(eligible, holes, board, pot))
  {
    if pot > 0 {
      PotPaidWhole(eligible, holes, board, pot);
      NearestNonNegative(AwardsFor(eligible, holes, board, pot));
    }
  }

  ghost predicate DealtAt(deals: seq<Table>, i: nat) {
    i + 1 < |deals| && i < |deals[i].seats| && deals[i + 1] == DealtOne(deals[i], i)
  }

  /** The first i seats have gone from one list to the other. */
  ghost predicate Crossed(before: seq<Seat>, after: seq<Seat>, now: seq<Seat>, i: nat) {
    && |now| == |before| == |after| && forall k :: 0 <= k < |now| ==> now[k] == if k < i then after[k] else before[k]
  }

  lemma {:induction false} CrossedNext(before: seq<Seat>, after: seq<Seat>, now: seq<Seat>, i: nat)
    requires i < |before| && Crossed(before, after, now, i)
    ensures now[i] == before[i] && Crossed(before, after, now[i := after[i]], i + 1)
    ensures Sum(after[..i + 1], ChipsOf) - Sum(before[..i + 1], ChipsOf)
         == Sum(after[..i], ChipsOf) - Sum(before[..i], ChipsOf) + (after[i].chips - before[i].chips)
  {
    assert after[..i + 1][..i] == after[..i] && before[..i + 1][..i] == before[..i];
  }

  ghost predicate NonNegative(awards: seq<Award>) {
    forall k :: 0 <= k < |awards| ==> awards[k].amount >= 0
  }

  lemma {:induction false} PotAwardsNonNegative(pots: seq<PM.Pot>, holes: HoleMap, board: seq<Card>)
    ensures NonNegative(AwardsOfPots(pots, holes, board))
  {
    if pots != [] {
      var init, last := pots[..|pots| - 1], pots[|pots| - 1];
      PotAwardsNonNegative(init, holes, board);
      AwardsNonNegative(last.eligible, holes, board, last.amount);
      AwardsSplit(pots, holes, board);
      BothNonNegative(AwardsOfPots(init, holes, board), AwardsFor(last.eligible, holes, board, last.amount));
    }
  }

  lemma {:induction false} BothNonNegative(a: seq<Award>, b: seq<Award>)
    requires NonNegative(a) && NonNegative(b)
    ensures NonNegative(a + b)
  {
  }

  lemma {:induction false} NextAwards(pots: seq<PM.Pot>, holes: HoleMap, board: seq<Card>, k: nat)
    requires k < |pots|
    ensures AwardsOfPots(pots[..k + 1], holes, board)
         == AwardsOfPots(pots[..k], holes, board) + AwardsFor(pots[k].eligible, holes, board, pots[k].amount)
  {
    assert pots[..k + 1][..k] == pots[..k];
    AwardsSplit(pots[..k + 1], holes, board);
  }

  lemma {:induction false} NearestNonNegative(awards: seq<Award>)
    requires FairShares(awards)
    ensures NonNegative(awards)
  {
    forall k | 0 <= k < |awards| ensures awards[k].amount >= 0 {
      assert WithinOne(awards[k], awards[k]);
    }
  }

  /** Every hand can be evaluated together with the board. */
  ghost predicate Evaluable(holes: HoleMap, board: seq<Card>) {
    forall id :: id in holes ==> Distinct(holes[id] + board)
  }

  lemma {:induction false} HandsReady(t: Table)
    requires Healthy(t)
    ensures Evaluable(HolesOf(t.seats), t.board)
  {
    HandsEvaluable(t.seats, t.board, t.deck[..t.dealt]);
  }

  /** The table after the results are paid and the hand is over. */
  ghost function PaidOut(t: Table, results: seq<Award>): Table {
    Ended(t.(seats := PayAll(t.seats, results)))
  }

  function Ended(t: Table): Table {
    t.(seats := MapSeats(t.seats, AfterHandSeat), phase := HandComplete, live := false, currentBet := 0, board := [])
  }

  lemma {:induction false} ShowdownPays(t: Table, results: seq<Award>)
    requires results == AwardsOfPots(PotsOf(t.seats), HolesOf(t.seats), t.board)
    ensures HandSpec.DoShowdown(t) == PaidOut(t, results)
  {
  }

  lemma {:induction false} PaidThenCleared(seats: seq<Seat>)
    ensures Sum(MapSeats(seats, AfterHandSeat), ChipsOf) == Sum(seats, ChipsOf)
  {
    SumCompare(MapSeats(seats, AfterHandSeat), seats, ChipsOf, ChipsOf);
  }

  lemma {:induction false} AdvanceUnfolds(t: Table)
    requires t.Shaped() && LiveCount(t.seats) > 1 && ActiveCount(t.seats) != 0
    ensures HandSpec.AdvanceStreet(t) ==
      if t.phase == RiverBetting then HandSpec.DoShowdown(NewStreet(t))
      else if StreetsLeft(t.phase) > 0 then HandSpec.StartBettingRound(StreetDealt(NewStreet(t)))
      else NewStreet(t)
  {
  }

  lemma {:induction false} TurnHealthy(t: Table, turn: nat)
    requires Healthy(t) && turn < |t.seats|
    ensures Healthy(t.(turn := turn))
  {
    SeatsHealthy(t, t.(turn := turn));
  }

  /** The betting round once its raise size is set. */
  ghost function RoundBegun(t: Table): Table
    requires t.Shaped()
  {
    if ActiveCount(t.seats) <= 1 then HandSpec.AdvanceStreet(t)
    else t.(turn := FirstTurn(t.seats, StartSeat(t), t.turn))
  }

  lemma {:induction false} StartUnfolds(t: Table)
    requires t.Shaped()
    ensures HandSpec.StartBettingRound(t) == RoundBegun(t.(lastRaise := t.bigBlind))
  {
  }

  lemma {:induction false} RaiseSizeHealthy(t: Table)
    requires Healthy(t)
    ensures Healthy(t.(lastRaise := t.bigBlind))
  {
    SeatsHealthy(t, t.(lastRaise := t.bigBlind));
  }

  lemma {:induction false} BoardIgnoresPhase(t: Table, phase: Phase, count: nat)
    ensures DealBoard(t.(phase := phase), count) == DealBoard(t, count).(phase := phase)
    decreases count
  {
    if count > 0 && |t.board| < 5 && t.dealt + 1 < |t.deck| {
      BoardIgnoresPhase(t.(board := t.board + [t.deck[t.dealt + 1]], dealt := t.dealt + 2), phase, count - 1);
    }
  }

  lemma {:induction false} DealingIgnoresPhase(t: Table, phase: Phase, upTo: nat, count: nat)
    ensures DealStreet(t.(phase := phase), upTo, count) == DealStreet(t, upTo, count).(phase := phase)
  {
    BoardIgnoresPhase(t, phase, count);
  }

  /** What a call that may be refused did. */
  ghost predicate Responds(o: Outcome, before: Table, ok: bool, after: Table) {
    match o
    case Rejected => !ok && after == before
    case Accepted(r) => ok && after == r
  }

  /** The clock first, then the action. */
  ghost predicate RespondsAfterClock(t: Table, id: int, action: GameAction, expired: bool, ok: bool, after: Table)
    requires t.Shaped()
  {
    var u := if expired then HandSpec.CheckTimeout(t) else t;
    u.Shaped() && Responds(HandSpec.ProcessAction(u, id, action), u, ok, after)
  }

  datatype CashOutReply = NotAtTable | Cash(stack: Chips)

  /** A player in the hand who asks to leave: folded if still able to act. */
  function Left(s: Seat): Seat {
    if s.IsActive() then s.(leaving := true, state := Folded, acted := true) else s.(leaving := true)
  }

  lemma {:induction false} SweepHealthy(t: Table)
    requires Healthy(t)
    ensures Healthy(t.(seats := MapSeats(t.seats, VacateSeat)))
  {
    var seats := MapSeats(t.seats, VacateSeat);
    assert forall i :: 0 <= i < |t.seats| ==> Solvent(t.seats[i]) && Solvent(seats[i]);
    SeatsHealthy(t, t.(seats := seats));
  }

  function CreditOf(s: Seat): seq<Credit> {
    if s.state != Empty && s.leaving then [Credit(s.id, s.chips)] else []
  }

  lemma {:induction false} SweptNext(before: seq<Seat>, after: seq<Seat>, i: nat)
    requires i < |before| && SweptTo(before, after, i)
    ensures SweptTo(before, after[i := VacateSeat(after[i])], i + 1) && after[i] == before[i]
    ensures LeavingCredits(before[..i + 1]) == LeavingCredits(before[..i]) + CreditOf(before[i])
  {
    assert before[..i + 1][..i] == before[..i];
  }

  ghost predicate SweptTo(before: seq<Seat>, after: seq<Seat>, i: nat) {
    |after| == |before| && forall k :: 0 <= k < |before| ==> after[k] == if k < i then VacateSeat(before[k]) else before[k]
  }

  function WithButton(seats: seq<Seat>, b: nat): seq<Seat>
    requires b < |seats|
  {
    MapSeats(seats, NoPosition)[b := NoPosition(seats[b]).(isDealer := true)]
  }

  lemma {:induction false} ButtonMoves(t: Table)
    requires t.Shaped()
    ensures var b := NextSeated(t.seats, t.button); RotateButton(t) == t.(button := b, seats := WithButton(t.seats, b))
  {
    var b := NextSeated(t.seats, t.button);
    assert RotateButton(t).seats == WithButton(t.seats, b);
  }

  function NoPosition(s: Seat): Seat {
    s.(isDealer := false, isSmallBlind := false, isBigBlind := false)
  }
}
