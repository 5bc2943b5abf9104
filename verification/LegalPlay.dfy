/** Legal play: every move the arena lets through keeps the invariant, keeps an owner of the
    current bet in the hand, and uses up potential. */
module LegalPlay {
  import opened Arithmetic
  import opened Cards
  import opened Seats
  import opened Betting
  import opened HandSpec
  import opened Payout
  import opened HandInvariant

  /** The moves Sanitize can produce for the player to act, with the chips they move. */
  predicate LegalMove(t: Table, kind: ActionType, amount: Chips)
    requires t.Shaped()
  {
    var s := t.seats[t.turn];
    match kind
    case Fold => ToCall(s, t.currentBet) > 0
    case Check => ToCall(s, t.currentBet) == 0
    case Call => ToCall(s, t.currentBet) > 0
    case Bet => t.currentBet == 0 && Max(t.bigBlind, t.lastRaise) <= amount <= s.chips
    case Raise => MinRaiseTo(t.currentBet, t.bigBlind, t.lastRaise) <= s.bet + amount <= s.bet + s.chips
    case AllInMove => true
    case Other => false
  }

  /** What one move keeps, before the round is settled. */
  ghost predicate Moved(t: Table, u: Table) {
    && Sound(u) && SameTable(t, u) && Wealth(u.seats) == Wealth(t.seats) && Owned(u)
    && Potential(u) <= Potential(t) - 1 && u.lastRaise >= t.lastRaise && u.phase == t.phase && u.board == t.board
  }

  // ---------- arithmetic of the potential ----------

  lemma {:induction false} UnitsMonotone(bb: int, before: int, after: int)
    requires bb > 0 && after <= before
    ensures after / bb <= before / bb
  {
    var q, q' := before / bb, after / bb;
    if q' > q { AtLeastOnce(bb, q' - q); }
  }

  lemma {:induction false} UnitSpent(bb: int, before: int, after: int)
    requires bb > 0 && after <= before - bb
    ensures after / bb <= before / bb - 1
  {
    UnitsMonotone(bb, before - bb, after);
    var q, r := before / bb, before % bb;
    assert before - bb == bb * (q - 1) + r;
    ModUnique(before - bb, bb, q - 1, r);
    assert bb * ((before - bb) / bb) == bb * (q - 1);
    SameFactor(bb, (before - bb) / bb, q - 1);
  }

  lemma {:induction false} SameFactor(n: int, a: int, b: int)
    requires n > 0 && n * a == n * b
    ensures a == b
  {
  }

  lemma {:induction false} UnitsScale(n: int, a: int, b: int)
    requires n >= 0 && a <= b
    ensures n * a <= n * b
  {
  }

  lemma {:induction false} PendingRoom(seats: seq<Seat>, i: nat)
    requires i < |seats| && !Pending(seats[i]) && seats[i].state != Empty
    ensures PendingCount(seats) <= PlayerCount(seats) - 1
  {
    var s := seats[i].(state := Playing, acted := false);
    SumUpdate(seats, i, s, OneIfPending);
    SumUpdate(seats, i, s, OneIfPlayer);
    CountsBounded(seats[i := s]);
  }

  /** A pending seat acts and leaves everyone else as they were. */
  lemma {:induction false} PassiveWork(t: Table, i: nat, q: Seat, unit: Chips)
    requires t.live && unit > 0 && i < |t.seats| && Pending(t.seats[i])
    requires !Pending(q) && q.state != Empty && q.chips <= t.seats[i].chips
    ensures Work(t.(seats := t.seats[i := q]), unit) <= Work(t, unit) - 1
  {
    var u := t.(seats := t.seats[i := q]);
    SumUpdate(t.seats, i, q, ChipsOf);
    SumUpdate(t.seats, i, q, OneIfActive);
    SumUpdate(t.seats, i, q, OneIfPending);
    SumUpdate(t.seats, i, q, OneIfPlayer);
    CountsBounded(t.seats);
    UnitsMonotone(unit, Sum(t.seats, ChipsOf), Sum(u.seats, ChipsOf));
    UnitsScale(PlayerCount(t.seats), Units(u.seats, unit) + ActiveCount(u.seats) + StreetsLeft(u.phase),
               Units(t.seats, unit) + ActiveCount(t.seats) + StreetsLeft(t.phase));
  }

  /** A pending seat acts and reopens the betting, at the cost of a whole unit: of chips, or a player. */
  lemma {:induction false} LeadWork(t: Table, u: Table, i: nat, q: Seat, unit: Chips)
    requires t.live && u.live && u.phase == t.phase && unit > 0 && i < |t.seats| && Pending(t.seats[i])
    requires q.id == t.seats[i].id && u.seats == Reopen(t.seats[i := q], q.id)
    requires !Pending(q) && q.state != Empty && q.chips <= t.seats[i].chips
    requires q.chips <= t.seats[i].chips - unit || !q.IsActive()
    ensures Work(u, unit) <= Work(t, unit) - 1
  {
    var mid := t.seats[i := q];
    SumUpdate(t.seats, i, q, ChipsOf);
    SumUpdate(t.seats, i, q, OneIfActive);
    SumUpdate(t.seats, i, q, OneIfPlayer);
    SumCompare(u.seats, mid, ChipsOf, ChipsOf);
    SumCompare(u.seats, mid, OneIfActive, OneIfActive);
    SumCompare(u.seats, mid, OneIfPlayer, OneIfPlayer);
    CountsOne(t.seats, i);
    CountsBounded(t.seats);
    PendingRoom(u.seats, i);
    UnitPaid(t, u, unit, q.IsActive());
  }

  lemma {:induction false} UnitPaid(t: Table, u: Table, unit: Chips, stillActive: bool)
    requires t.live && u.live && unit > 0 && u.phase == t.phase && PlayerCount(u.seats) == PlayerCount(t.seats) >= 0
    requires PendingCount(t.seats) >= 1 && PendingCount(u.seats) <= PlayerCount(t.seats) - 1
    requires Sum(u.seats, ChipsOf) <= Sum(t.seats, ChipsOf) - (if stillActive then unit else 0)
    requires ActiveCount(u.seats) <= ActiveCount(t.seats) - (if stillActive then 0 else 1)
    ensures Work(u, unit) <= Work(t, unit) - 1
  {
    var n, before, after := PlayerCount(t.seats), Sum(t.seats, ChipsOf), Sum(u.seats, ChipsOf);
    if stillActive { UnitSpent(unit, before, after); } else { UnitsMonotone(unit, before, after); }
    var a := Units(t.seats, unit) + ActiveCount(t.seats) + StreetsLeft(t.phase);
    UnitsScale(n, Units(u.seats, unit) + ActiveCount(u.seats) + StreetsLeft(u.phase), a - 1);
    OneUnitLess(n, a, 0, n);
  }

  // ---------- the end of a round ----------

  /** In a contested hand a round is complete exactly when nobody is left to act, and then every
      active player has matched the bet. */
  lemma {:induction false} RoundCompleteIff(t: Table)
    requires Sound(t) && LiveCount(t.seats) >= 2
    ensures RoundComplete(t.seats) <==> PendingCount(t.seats) == 0
    ensures RoundComplete(t.seats) ==> forall i :: 0 <= i < |t.seats| && Active(t.seats[i]) ==> t.seats[i].bet == t.currentBet
  {
    CountsBounded(t.seats);
    if PendingCount(t.seats) > 0 {
      var i := SumWitness(t.seats, OneIfPending);
      CountsOne(t.seats, i);
    } else {
      forall i | 0 <= i < |t.seats| && Active(t.seats[i]) ensures t.seats[i].acted && t.seats[i].bet == t.currentBet {
        assert SeatOk(t.seats[i], t.currentBet);
        if !t.seats[i].acted { CountsOne(t.seats, i); }
      }
    }
  }

  // ---------- one move ----------

  /** Only seat i changed, keeping its owner, its id and its chips on the table. */
  lemma {:induction false} OneSeatKeeps(t: Table, u: Table, i: nat, q: Seat)
    requires Sound(t) && i < |t.seats| && u == t.(seats := t.seats[i := q])
    requires SeatOk(q, t.currentBet) && q == t.seats[i].(chips := q.chips, state := q.state, bet := q.bet,
                                                        invested := q.invested, acted := q.acted)
    requires q.state != Empty && t.seats[i].state != Empty && WealthOf(q) == WealthOf(t.seats[i])
    ensures Sound(u) && SameTable(t, u) && Wealth(u.seats) == Wealth(t.seats)
  {
    SumUpdate(t.seats, i, q, WealthOf);
    forall k | 0 <= k < |t.seats|
      ensures u.seats[k].id == t.seats[k].id && (u.seats[k].state == Empty <==> t.seats[k].state == Empty)
    {
    }
  }

  /** Whoever owned the bet before and is not the mover still does. */
  lemma {:induction false} OwnerStays(t: Table, i: nat, q: Seat)
    requires Owned(t) && i < |t.seats| && (Owns(t, t.seats[i]) ==> Owns(t, q))
    ensures Owned(t.(seats := t.seats[i := q]))
  {
    var u := t.(seats := t.seats[i := q]);
    var k :| 0 <= k < |t.seats| && Owns(t, t.seats[k]);
    assert Owns(u, u.seats[k]);
  }

  /** Check, fold, call, or an all-in that does not pass the current bet. */
  lemma {:induction false} PassiveMoves(t: Table, kind: ActionType, amount: Chips)
    requires AwaitsAction(t) && Owned(t) && LegalMove(t, kind, amount)
    requires kind in {Fold, Check, Call} || (kind == AllInMove && t.seats[t.turn].bet + t.seats[t.turn].chips <= t.currentBet)
    ensures Moved(t, Apply(t, t.turn, kind, amount))
  {
    var i := t.turn;
    var u := Apply(t, i, kind, amount);
    var q := u.seats[i];
    assert u == t.(seats := t.seats[i := q]);
    OneSeatKeeps(t, u, i, q);
    OwnerStays(t, i, q);
    PassiveWork(t, t.turn, q, t.bigBlind);
  }

  /** The seat after a stake that passes the current bet, and the table it leads. */
  lemma {:induction false} LeadMoves(t: Table, q: Seat)
    requires AwaitsAction(t) && q.IsLive() && q.acted && q.bet > t.currentBet
    requires q == t.seats[t.turn].(chips := q.chips, state := q.state, bet := q.bet, invested := q.invested, acted := true)
    requires q.chips >= 0 && 0 <= q.bet <= q.invested && WealthOf(q) == WealthOf(t.seats[t.turn])
    requires if q.chips == 0 then q.state == AllIn else q.state == Playing && q.chips <= t.seats[t.turn].chips - t.bigBlind
    ensures Moved(t, Lead(t.(seats := t.seats[t.turn := q]), t.turn))
  {
    var i := t.turn;
    var mid := t.seats[i := q];
    var u := Lead(t.(seats := mid), i);
    SumUpdate(t.seats, i, q, WealthOf);
    SumCompare(u.seats, mid, WealthOf, WealthOf);
    LeadWork(t, u, t.turn, q, t.bigBlind);
    LeadSound(t, u, q);
    assert Owns(u, u.seats[i]);
  }

  lemma {:induction false} LeadSound(t: Table, u: Table, q: Seat)
    requires AwaitsAction(t) && q.acted && q.bet >= t.currentBet && q.IsLive()
    requires q == t.seats[t.turn].(chips := q.chips, state := q.state, bet := q.bet, invested := q.invested, acted := true)
    requires 0 <= q.bet <= q.invested && (if q.chips == 0 then q.state == AllIn else q.state == Playing && q.chips > 0)
    requires u == Lead(t.(seats := t.seats[t.turn := q]), t.turn)
    ensures Sound(u) && SameTable(t, u)
  {
    var mid := t.seats[t.turn := q];
    forall k | 0 <= k < |t.seats|
      ensures SeatOk(u.seats[k], u.currentBet) && u.seats[k].id == t.seats[k].id
        && (u.seats[k].state == Empty <==> t.seats[k].state == Empty) && u.seats[k].leaving == t.seats[k].leaving
    {
      assert k != t.turn ==> mid[k] == t.seats[k];
    }
  }

  /** Every legal move keeps the hand sound and owned, and uses up potential. */
  lemma {:induction false} MoveKeeps(t: Table, kind: ActionType, amount: Chips)
    requires AwaitsAction(t) && Owned(t) && LegalMove(t, kind, amount)
    ensures Moved(t, Apply(t, t.turn, kind, amount))
  {
    var s := t.seats[t.turn];
    match kind {
      case Bet =>
        LeadMoves(t, s.(acted := true).AfterBet(amount));
      case Raise =>
        LeadMoves(t, s.(acted := true).AfterBet(amount));
      case AllInMove =>
        if s.bet + s.chips > t.currentBet {
          LeadMoves(t, s.(acted := true).AfterBet(s.chips).(state := AllIn));
        } else {
          PassiveMoves(t, kind, amount);
        }
      case _ =>
        PassiveMoves(t, kind, amount);
    }
  }

  lemma {:induction false} OwnedIsBacked(t: Table)
    requires Owned(t)
    ensures Backed(t.seats)
  {
  }

  /** One whole step: the move, and the settling that follows. */
  ghost predicate Stepped(t: Table, r: Table) {
    && SameTable(t, r) && Wealth(r.seats) == Wealth(t.seats)
    && (if r.live then AwaitsAction(r) && Owned(r) && Potential(r) <= Potential(t) - 1 else Finished(r))
  }

  lemma {:induction false} MovedThenSettled(t: Table, u: Table)
    requires Moved(t, u)
    ensures Stepped(t, Settle(u))
  {
    OwnedIsBacked(u);
    SettleKeeps(u);
    KeptIsStepped(t, u, Settle(u));
  }

  lemma {:induction false} KeptIsStepped(t: Table, u: Table, r: Table)
    requires Moved(t, u) && Backed(u.seats) && Kept(u, r) && Cheaper(u, r)
    ensures Stepped(t, r)
  {
  }

  lemma {:induction false} StepKeeps(t: Table, kind: ActionType, amount: Chips)
    requires AwaitsAction(t) && Owned(t) && LegalMove(t, kind, amount)
    ensures Stepped(t, Settle(Apply(t, t.turn, kind, amount)))
  {
    MoveKeeps(t, kind, amount);
    MovedThenSettled(t, Apply(t, t.turn, kind, amount));
  }

  /** An expired clock checks when checking is free and folds otherwise; either way it is a legal
      step. The folded seat is not marked as having acted, unlike after a FOLD action. */
  lemma {:induction false} TimeoutKeeps(t: Table)
    requires AwaitsAction(t) && Owned(t)
    ensures Stepped(t, CheckTimeout(t))
  {
    var s := t.seats[t.turn];
    var q := if t.currentBet - s.bet <= 0 then s.(acted := true) else s.(state := Folded);
    SeatSteps(t, q);
    MovedThenSettled(t, t.(seats := t.seats[t.turn := q]));
    TimeoutUnfolds(t, q);
  }

  lemma {:induction false} TimeoutUnfolds(t: Table, q: Seat)
    requires AwaitsAction(t)
    requires q == if t.currentBet - t.seats[t.turn].bet <= 0 then t.seats[t.turn].(acted := true) else t.seats[t.turn].(state := Folded)
    ensures CheckTimeout(t) == Settle(t.(seats := t.seats[t.turn := q]))
  {
  }

  lemma {:induction false} SeatSteps(t: Table, q: Seat)
    requires AwaitsAction(t) && Owned(t)
    requires var s := t.seats[t.turn];
      q == if t.currentBet - s.bet <= 0 then s.(acted := true) else s.(state := Folded)
    ensures Moved(t, t.(seats := t.seats[t.turn := q]))
  {
    var u := t.(seats := t.seats[t.turn := q]);
    OneSeatKeeps(t, u, t.turn, q);
    OwnerStays(t, t.turn, q);
    PassiveWork(t, t.turn, q, t.bigBlind);
  }

  // ---------- the minimum raise within a street ----------

  lemma {:induction false} AdvanceLeavesStreet(t: Table)
    requires Sound(t) && AdvanceStreet(t).live
    ensures StreetsLeft(AdvanceStreet(t).phase) < StreetsLeft(t.phase)
    decreases StreetsLeft(t.phase), 0
  {
    CountsBounded(t.seats);
    if Closes(t) { ClosingShowsDown(t); }
    AdvanceUnfolds(t);
    NextStreetReady(t);
    StartStaysOnStreet(NextStreetDealt(t));
  }

  lemma {:induction false} StartStaysOnStreet(t: Table)
    requires Sound(t) && StartBettingRound(t).live
    ensures StreetsLeft(StartBettingRound(t).phase) <= StreetsLeft(t.phase)
    decreases StreetsLeft(t.phase), 1
  {
    if ActiveCount(t.seats) <= 1 { AdvanceLeavesStreet(t.(lastRaise := t.bigBlind)); }
  }

  /** Within a street the size the next raise must have never falls. */
  lemma {:induction false} RaiseSizeNeverFalls(t: Table, kind: ActionType, amount: Chips)
    requires AwaitsAction(t) && Owned(t) && LegalMove(t, kind, amount)
    ensures var r := Settle(Apply(t, t.turn, kind, amount)); r.live && r.phase == t.phase ==> r.lastRaise >= t.lastRaise
  {
    MoveKeeps(t, kind, amount);
    var u := Apply(t, t.turn, kind, amount);
    if RoundComplete(u.seats) && AdvanceStreet(u).live { AdvanceLeavesStreet(u); }
  }
}
