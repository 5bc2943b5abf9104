/** Single ownership of chips across wallets and table (cli/poker_ws_server.cpp): the wallets, the
    stacks and the pot together hold the same chips after every step, under exactly the stated
    conditions. */
module Ownership {
  import opened Seats
  import opened Betting
  import opened HandSpec
  import opened HandInvariant
  import opened Payout
  import opened Cards
  import L = ChipLedger

  /** The wallets and one table. */
  datatype World = World(books: L.Books, table: Table)

  function Wallets(accounts: seq<L.Account>): int {
    if accounts == [] then 0 else Wallets(accounts[..|accounts| - 1]) + accounts[|accounts| - 1].chips
  }

  /** Every chip there is: in wallets, in stacks, in the pot. */
  function Owned(w: World): int {
    Wallets(w.books.accounts) + Wealth(w.table.seats)
  }

  /** A table as the calls keep it: distinct ids other than 0, no debts, nothing in empty seats, and
      nothing wagered between hands. */
  ghost predicate Fit(t: Table) {
    && t.Shaped() && IdsApart(t.seats) && StakesOk(t.seats) && t.smallBlind >= 0 && t.bigBlind >= 0
    && forall i :: 0 <= i < |t.seats| ==> SeatFit(t.seats[i], t.live)
  }

  /** The books in order, and a fit table that is between hands or in a betting phase. */
  ghost predicate Orderly(w: World) {
    L.InOrder(w.books.accounts) && Fit(w.table) && (w.table.live ==> IsBetting(w.table.phase))
  }

  predicate SeatFit(s: Seat, live: bool) {
    s.chips >= 0 && (s.state == Empty ==> s.chips == 0) && (!live ==> s.invested == 0)
  }

  // ---------- wallets ----------

  lemma {:induction false} PutMoves(accounts: seq<L.Account>, id: int, chips: int)
    requires L.InOrder(accounts)
    ensures Wallets(L.Put(accounts, id, chips)) ==
      Wallets(accounts) + chips - if L.Lookup(accounts, id).Chips? then L.Lookup(accounts, id).amount else 0
  {
    if accounts != [] {
      var n := |accounts| - 1;
      PutMoves(accounts[..n], id, chips);
      var rest := L.Put(accounts[..n], id, chips);
      assert (accounts[..n] + [L.Account(id, chips)])[..n] == accounts[..n];
      assert (accounts + [L.Account(id, chips)])[..n + 1] == accounts;
      assert (rest + [accounts[n]])[..|rest|] == rest;
      L.AllButLast(accounts);
      if accounts[n].id < id {
        L.OneMore(accounts, L.Account(id, chips));
        L.NotThere(accounts, id);
      }
    }
  }

  /** A movement that succeeds moves exactly its amount, and one that fails moves nothing. */
  lemma {:induction false} DeltaMoves(b: L.Books, id: int, delta: int, kind: L.TxKind, fault: L.Fault)
    requires L.InOrder(b.accounts)
    ensures Wallets(L.AfterDelta(b, id, delta, kind, fault).accounts) ==
      Wallets(b.accounts) + if L.ResultOf(b, id, delta, fault).Success? then delta else 0
  {
    match L.ResultOf(b, id, delta, fault) {
      case Success(next) => PutMoves(b.accounts, id, next);
      case Failure(_) =>
    }
  }

  // ---------- what a hand step does to the chips on the table ----------

  lemma {:induction false} FundedSame(a: seq<Seat>, b: seq<Seat>)
    requires |a| == |b|
    requires forall i :: 0 <= i < |a| ==> b[i].invested == a[i].invested && b[i].state == a[i].state && b[i].hole == a[i].hole
    ensures Funded(a) ==> Funded(b)
  {
    SumCompare(a, b, InvestedOf, InvestedOf);
    if i :| 0 <= i < |a| && LargestDealt(a, i) {
      forall j | 0 <= j < |b| && Claims(b[j]) ensures b[j].invested <= b[i].invested {
        assert Claims(a[j]);
      }
      assert LargestDealt(b, i);
    }
  }

  /** What a step may do to the chips on the table: never add any, and keep them all exactly when
      the hand goes on or its showdown is funded. */
  ghost predicate Conserving(t: Table, r: Table) {
    && Wealth(r.seats) <= Wealth(t.seats)
    && (Wealth(r.seats) == Wealth(t.seats) <==> r.live || Funded(t.seats))
  }

  lemma {:induction false} ConservingAfter(t: Table, u: Table, r: Table)
    requires Wealth(u.seats) == Wealth(t.seats) && Conserving(u, r) && (Funded(t.seats) <==> Funded(u.seats))
    ensures Conserving(t, r)
  {
  }

  lemma {:induction false} ShowdownConserving(t: Table)
    requires Fit(t)
    ensures Fit(DoShowdown(t)) && Conserving(t, DoShowdown(t))
  {
    ShowdownConservesIff(t);
    ShowdownFit(t);
  }

  lemma {:induction false} ShowdownFit(t: Table)
    requires Fit(t)
    ensures Fit(DoShowdown(t))
  {
    EmptySeatsUnpaid(t);
    Showdown.PayAllKeeps(t.seats, Awards(t));
    RestedFit(t, Showdown.PayAll(t.seats, Awards(t)), DoShowdown(t));
  }

  lemma {:induction false} RestedFit(t: Table, paid: seq<Seat>, r: Table)
    requires Fit(t) && |paid| == |t.seats|
    requires forall i :: 0 <= i < |paid| ==> paid[i] == t.seats[i].(chips := paid[i].chips) && paid[i].chips >= t.seats[i].chips
    requires forall i :: 0 <= i < |paid| && t.seats[i].state == Empty ==> paid[i] == t.seats[i]
    requires r == t.(seats := MapSeats(paid, AfterHandSeat), phase := r.phase, live := false, currentBet := r.currentBet, board := r.board)
    ensures Fit(r)
  {
    forall i | 0 <= i < |r.seats|
      ensures SeatFit(r.seats[i], false) && r.seats[i].id == t.seats[i].id && (r.seats[i].state == Empty <==> t.seats[i].state == Empty)
    {
      assert SeatFit(t.seats[i], t.live) && r.seats[i] == AfterHandSeat(paid[i]);
    }
  }

  /** Only the bets and flags of the seats, the board and the turn changed. */
  ghost predicate Reshaped(t: Table, u: Table) {
    && u == t.(seats := u.seats, board := u.board, dealt := u.dealt, phase := u.phase, currentBet := u.currentBet,
               lastRaise := u.lastRaise, turn := u.turn)
    && |u.seats| == |t.seats| && u.turn < |u.seats|
    && forall i :: 0 <= i < |t.seats| ==> u.seats[i] == t.seats[i].(bet := u.seats[i].bet, acted := u.seats[i].acted)
  }

  lemma {:induction false} ReshapedKeeps(t: Table, u: Table)
    requires Fit(t) && Reshaped(t, u)
    ensures Fit(u) && Wealth(u.seats) == Wealth(t.seats) && (Funded(t.seats) <==> Funded(u.seats))
  {
    SumCompare(t.seats, u.seats, WealthOf, WealthOf);
    FundedSame(t.seats, u.seats);
    FundedSame(u.seats, t.seats);
    assert forall i :: 0 <= i < |t.seats| ==> SeatFit(t.seats[i], t.live);
  }

  lemma {:induction false} AdvanceConserving(t: Table)
    requires Fit(t) && t.live
    ensures Fit(AdvanceStreet(t)) && Conserving(t, AdvanceStreet(t))
    decreases StreetsLeft(t.phase), 0
  {
    var next := NewStreet(t);
    if LiveCount(t.seats) <= 1 {
      ShowdownConserving(t);
    } else if ActiveCount(t.seats) == 0 {
      ShowdownAfter(t, Runout(t));
    } else if t.phase == RiverBetting {
      ShowdownAfter(t, next);
    } else if StreetsLeft(t.phase) > 0 {
      var u := StreetDealt(next);
      ReshapedKeeps(t, u);
      StartConserving(u);
      ConservingAfter(t, u, StartBettingRound(u));
    } else {
      ReshapedKeeps(t, next);
    }
  }

  lemma {:induction false} ShowdownAfter(t: Table, u: Table)
    requires Fit(t) && Reshaped(t, u)
    ensures Fit(DoShowdown(u)) && Conserving(t, DoShowdown(u))
  {
    ReshapedKeeps(t, u);
    ShowdownConserving(u);
    ConservingAfter(t, u, DoShowdown(u));
  }

  lemma {:induction false} StartConserving(t: Table)
    requires Fit(t) && t.live
    ensures Fit(StartBettingRound(t)) && Conserving(t, StartBettingRound(t))
    decreases StreetsLeft(t.phase), 1
  {
    var t1 := t.(lastRaise := t.bigBlind);
    if ActiveCount(t.seats) <= 1 {
      ReshapedKeeps(t, t1);
      AdvanceConserving(t1);
    } else {
      ReshapedKeeps(t, StartBettingRound(t));
    }
  }

  /** Settling after any action, fold or timeout, legal or not. */
  lemma {:induction false} SettleConserving(t: Table)
    requires Fit(t) && t.live
    ensures Fit(Settle(t)) && Conserving(t, Settle(t))
  {
    if RoundComplete(t.seats) {
      AdvanceConserving(t);
    } else {
      ReshapedKeeps(t, Settle(t));
    }
  }

  // ---------- the calls of a hand ----------

  /** One seat changed hands with itself: same owner, same chips between stack and stake. */
  ghost predicate Moved(a: Seat, b: Seat) {
    && b == a.(chips := b.chips, state := b.state, bet := b.bet, invested := b.invested, acted := b.acted, leaving := b.leaving)
    && WealthOf(b) == WealthOf(a) && b.chips >= 0 && b.invested >= 0 && a.state != Empty && b.state != Empty
  }

  lemma {:induction false} SeatMoves(t: Table, i: nat, b: Seat)
    requires Fit(t) && t.live && i < |t.seats| && Moved(t.seats[i], b)
    ensures Fit(t.(seats := t.seats[i := b])) && Wealth(t.seats[i := b]) == Wealth(t.seats)
  {
    SumUpdate(t.seats, i, b, WealthOf);
    assert forall k :: 0 <= k < |t.seats| ==> SeatFit(t.seats[k], true);
  }

  lemma {:induction false} LeadMoves(t: Table, i: nat)
    requires Fit(t) && i < |t.seats|
    ensures Fit(Lead(t, i)) && Wealth(Lead(t, i).seats) == Wealth(t.seats)
  {
    ReshapedKeeps(t, Lead(t, i));
  }

  lemma {:induction false} StakeMoves(t: Table, i: nat, q: Seat)
    requires Fit(t) && t.live && i < |t.seats| && Moved(t.seats[i], q)
    ensures var u := t.(seats := t.seats[i := q]);
      Fit(u) && Fit(Lead(u, i)) && Wealth(u.seats) == Wealth(Lead(u, i).seats) == Wealth(t.seats)
  {
    SeatMoves(t, i, q);
    LeadMoves(t.(seats := t.seats[i := q]), i);
  }

  /** Fold, check and call. */
  lemma {:induction false} PassiveMoves(t: Table, i: nat, a: GameAction, amount: Chips)
    requires Fit(t) && t.live && i < |t.seats| && a.kind in {Fold, Check, Call}
    requires Validate(a, t.seats[i], t.currentBet, t.bigBlind, t.lastRaise) == Valid(amount)
    ensures Fit(Apply(t, i, a.kind, amount)) && Apply(t, i, a.kind, amount).live
    ensures Wealth(Apply(t, i, a.kind, amount).seats) == Wealth(t.seats)
  {
    assert SeatFit(t.seats[i], true);
    SeatMoves(t, i, Apply(t, i, a.kind, amount).seats[i]);
  }

  /** Any action that passes validation moves chips from a stack to the pot and nowhere else. */
  lemma {:induction false} ApplyMoves(t: Table, i: nat, a: GameAction, amount: Chips)
    requires Fit(t) && t.live && i < |t.seats|
    requires Validate(a, t.seats[i], t.currentBet, t.bigBlind, t.lastRaise) == Valid(amount)
    ensures Fit(Apply(t, i, a.kind, amount)) && Apply(t, i, a.kind, amount).live
    ensures Wealth(Apply(t, i, a.kind, amount).seats) == Wealth(t.seats)
  {
    var p := t.seats[i].(acted := true);
    assert SeatFit(t.seats[i], true);
    if a.kind in {Fold, Check, Call} {
      PassiveMoves(t, i, a, amount);
    } else if a.kind == AllInMove {
      StakeMoves(t, i, p.AfterBet(p.chips).(state := AllIn));
    } else {
      StakeMoves(t, i, p.AfterBet(amount));
    }
  }

  lemma {:induction false} MovedThenSettled(t: Table, u: Table)
    requires Fit(t) && Fit(u) && u.live && IsBetting(u.phase) && Wealth(u.seats) == Wealth(t.seats)
    ensures Fit(Settle(u)) && Wealth(Settle(u).seats) <= Wealth(t.seats)
    ensures Settle(u).live ==> IsBetting(Settle(u).phase)
    ensures Wealth(Settle(u).seats) == Wealth(t.seats) <==> !HandCloses(u) || Funded(u.seats)
  {
    SettleConserving(u);
    SettleLiveIff(u);
    if Settle(u).live { SettleStaysBetting(u); }
  }

  // ---------- starting a hand ----------

  /** The same person or the same empty seat, still fit. */
  predicate KeepsPlace(a: Seat, b: Seat, live: bool) {
    && b.id == a.id && (b.state == Empty <==> a.state == Empty) && SeatFit(b, live) && WealthOf(b) == WealthOf(a)
    && b.invested >= 0 && (b.state == Empty ==> b.invested == 0 && b.hole.Undealt?)
  }

  lemma {:induction false} PlacesFit(t: Table, u: Table)
    requires Fit(t) && |u.seats| == |t.seats| && u.Shaped() && u.smallBlind >= 0 && u.bigBlind >= 0
    requires forall i :: 0 <= i < |t.seats| ==> KeepsPlace(t.seats[i], u.seats[i], u.live)
    ensures Fit(u) && Wealth(u.seats) == Wealth(t.seats)
  {
    SumCompare(t.seats, u.seats, WealthOf, WealthOf);
  }

  lemma {:induction false} ClearedMoves(t: Table, deck: seq<Card>)
    requires Fit(t) && !t.live
    ensures Fit(Cleared(t, deck)) && Wealth(Cleared(t, deck).seats) == Wealth(t.seats)
  {
    var c := Cleared(t, deck);
    forall i | 0 <= i < |t.seats| ensures KeepsPlace(t.seats[i], c.seats[i], true) {
      assert SeatFit(t.seats[i], false) && c.seats[i] == ResetHandSeat(t.seats[i]);
    }
    PlacesFit(t, c);
  }

  lemma {:induction false} ButtonMoves(t: Table)
    requires Fit(t) && t.live
    ensures Fit(RotateButton(t)) && Wealth(RotateButton(t).seats) == Wealth(t.seats)
  {
    var r := RotateButton(t);
    assert forall i :: 0 <= i < |t.seats| ==> SeatFit(t.seats[i], true);
    SumCompare(t.seats, r.seats, WealthOf, WealthOf);
  }

  /** A blind comes out of the stack that posts it; an empty seat posts nothing. */
  lemma {:induction false} BlindMoves(seats: seq<Seat>, i: nat, blind: Chips)
    requires i < |seats| && IdsApart(seats) && StakesOk(seats) && blind >= 0 && forall k :: 0 <= k < |seats| ==> SeatFit(seats[k], true)
    ensures var r := seats[i := seats[i].AfterBet(Min(blind, seats[i].chips))];
      IdsApart(r) && StakesOk(r) && Wealth(r) == Wealth(seats) && forall k :: 0 <= k < |r| ==> SeatFit(r[k], true)
  {
    assert SeatFit(seats[i], true);
    SumUpdate(seats, i, seats[i].AfterBet(Min(blind, seats[i].chips)), WealthOf);
  }

  lemma {:induction false} FlagsMove(seats: seq<Seat>, b: BlindSeats)
    requires b.small < |seats| && b.big < |seats|
    requires IdsApart(seats) && StakesOk(seats) && forall k :: 0 <= k < |seats| ==> SeatFit(seats[k], true)
    ensures var r := Flagged(seats, b);
      IdsApart(r) && StakesOk(r) && Wealth(r) == Wealth(seats) && forall k :: 0 <= k < |r| ==> SeatFit(r[k], true)
  {
    var r := Flagged(seats, b);
    assert forall k :: 0 <= k < |r| ==> r[k] == seats[k].(isSmallBlind := r[k].isSmallBlind, isBigBlind := r[k].isBigBlind);
    SumCompare(seats, r, WealthOf, WealthOf);
  }

  /** The big blind is measured against the stack before the small one is posted; heads-up with one
      seat for both, what is left is posted. */
  lemma {:induction false} StakesMove(seats: seq<Seat>, b: BlindSeats, smallBlind: Chips, bigBlind: Chips)
    requires b.small < |seats| && b.big < |seats| && smallBlind >= 0 && bigBlind >= 0
    requires IdsApart(seats) && StakesOk(seats) && forall k :: 0 <= k < |seats| ==> SeatFit(seats[k], true)
    ensures var r := Stakes(seats, b, smallBlind, bigBlind);
      IdsApart(r) && StakesOk(r) && Wealth(r) == Wealth(seats) && forall k :: 0 <= k < |r| ==> SeatFit(r[k], true)
  {
    assert SeatFit(seats[b.small], true) && SeatFit(seats[b.big], true);
    BlindMoves(seats, b.small, smallBlind);
    var posted := seats[b.small := seats[b.small].AfterBet(Min(smallBlind, seats[b.small].chips))];
    var bigAmount := Min(bigBlind, seats[b.big].chips);
    BlindMoves(posted, b.big, bigAmount);
    assert posted[b.big].AfterBet(bigAmount) == posted[b.big].AfterBet(Min(bigAmount, posted[b.big].chips));
  }

  lemma {:induction false} BlindsMove(t: Table)
    requires Fit(t) && t.live
    ensures Fit(PostBlinds(t)) && Wealth(PostBlinds(t).seats) == Wealth(t.seats) && PostBlinds(t).live
  {
    var b := BlindsFor(t);
    FlagsMove(t.seats, b);
    StakesMove(Flagged(t.seats, b), b, t.smallBlind, t.bigBlind);
  }

  ghost function SameWealth(t: Table): (Table, nat) -> bool {
    (u: Table, k: nat) => Fit(u) && u.live && Wealth(u.seats) == Wealth(t.seats)
  }

  lemma {:induction false} DealMoves(t: Table, k: nat)
    requires Fit(t) && t.live && k <= |t.seats|
    ensures Fit(DealHoles(t, k)) && Wealth(DealHoles(t, k).seats) == Wealth(t.seats)
  {
    var inv := SameWealth(t);
    forall u: Table, i: nat | inv(u, i) && i < k && |u.seats| == |t.seats| ensures inv(DealtOne(u, i), i + 1) {
      DealOneMoves(u, i);
    }
    DealHolesLifts(t, k, inv);
  }

  lemma {:induction false} DealOneMoves(u: Table, i: nat)
    requires Fit(u) && u.live && i < |u.seats|
    ensures Fit(DealtOne(u, i)) && Wealth(DealtOne(u, i).seats) == Wealth(u.seats)
  {
    var r := DealtOne(u, i);
    forall k | 0 <= k < |u.seats| ensures KeepsPlace(u.seats[k], r.seats[k], true) {
      assert SeatFit(u.seats[k], true);
    }
    PlacesFit(u, r);
  }

  lemma {:induction false} DealtInMoves(c: Table)
    requires Fit(c) && c.live
    ensures Fit(DealtIn(c)) && DealtIn(c).live && Wealth(DealtIn(c).seats) == Wealth(c.seats)
  {
    ButtonMoves(c);
    BlindsMove(RotateButton(c));
    var posted := PostBlinds(RotateButton(c));
    DealMoves(posted, |posted.seats|);
    ReshapedKeeps(DealHoles(posted, |posted.seats|), DealtIn(c));
  }

  /** A hand that starts keeps every chip, unless the blinds leave nobody to act and its showdown
      is not funded. */
  lemma {:induction false} StartMoves(t: Table, deck: seq<Card>)
    requires Fit(t) && !t.live && StartHand(t, deck).Accepted?
    ensures var r := StartHand(t, deck).after;
      && Fit(r) && Wealth(r.seats) <= Wealth(t.seats) && (r.live ==> IsBetting(r.phase))
      && (Wealth(r.seats) == Wealth(t.seats) <==>
            ActiveCount(DealtIn(Cleared(t, deck)).seats) > 1 || Funded(DealtIn(Cleared(t, deck)).seats))
  {
    ClearedMoves(t, deck);
    var d := DealtIn(Cleared(t, deck));
    DealtInMoves(Cleared(t, deck));
    StartConserving(d);
    StartLiveIff(d);
    if StartBettingRound(d).live { StartStaysBetting(d); }
  }

  // ---------- the server's steps ----------

  datatype Step =
    | BuyIn(id: int, amount: Chips, seat: nat, withinLimits: bool, debitFault: L.Fault, refundFault: L.Fault)
    | Start(deck: seq<Card>)
    | Act(player: int, action: GameAction)
    | Expire
    | Leave(leaver: int, creditFault: L.Fault)
    | Sweep(faults: nat -> L.Fault)

  /** debitBuyIn takes nothing from an id that is not positive, and lets it in. */
  function Debit(b: L.Books, id: int, amount: Chips, fault: L.Fault): L.LedgerResult {
    if id <= 0 then L.Success(0)
    else if amount <= 0 then L.Failure(L.InvalidAmount)
    else L.ResultOf(b, id, -amount, fault)
  }

  function AfterDebit(b: L.Books, id: int, amount: Chips, fault: L.Fault): L.Books
    requires L.InOrder(b.accounts)
  {
    if id <= 0 || amount <= 0 then b else L.AfterDelta(b, id, -amount, L.BuyIn, fault)
  }

  /** creditCashOut and refundBuyIn: nothing to do for no chips, and for an id that is not positive. */
  function CreditGoes(b: L.Books, id: int, amount: Chips, fault: L.Fault): bool {
    id <= 0 || amount <= 0 || L.ResultOf(b, id, amount, fault).Success?
  }

  function AfterCredit(b: L.Books, id: int, amount: Chips, kind: L.TxKind, fault: L.Fault): L.Books
    requires L.InOrder(b.accounts)
  {
    if id <= 0 || amount <= 0 then b else L.AfterDelta(b, id, amount, kind, fault)
  }

  /** seatPlayerWithBuyIn: debit, seat, and refund if the seat is refused. */
  function AfterBuyIn(w: World, id: int, amount: Chips, seat: nat, withinLimits: bool, debitFault: L.Fault, refundFault: L.Fault): World
    requires L.InOrder(w.books.accounts)
  {
    if !withinLimits || Debit(w.books, id, amount, debitFault).Failure? then w
    else
      var paid := AfterDebit(w.books, id, amount, debitFault);
      match AddPlayerAtSeat(w.table, id, amount, seat)
      case Accepted(seated) => World(paid, seated)
      case Rejected => World(AfterCredit(paid, id, amount, L.Refund, refundFault), w.table)
  }

  /** leaveTableWithCashOut. */
  ghost function AfterLeave(w: World, id: int, fault: L.Fault): World
    requires L.InOrder(w.books.accounts) && w.table.Shaped()
  {
    if id <= 0 then w
    else match RequestCashOut(w.table, id)
      case NotSeated => w
      case CashOut(after, stack) => World(AfterCredit(w.books, id, stack, L.CashOut, fault), after)
  }

  /** The books once the first n of the swept stacks have been credited. */
  function Swept(b: L.Books, credits: seq<Credit>, n: nat, faults: nat -> L.Fault): (r: L.Books)
    requires L.InOrder(b.accounts) && n <= |credits|
    ensures L.InOrder(r.accounts)
  {
    if n == 0 then b
    else AfterCredit(Swept(b, credits, n - 1, faults), credits[n - 1].id, credits[n - 1].chips, L.CashOut, faults(n - 1))
  }

  /** The hand-end sweep: seats emptied, then stacks credited one by one. */
  function AfterSweep(w: World, faults: nat -> L.Fault): World
    requires L.InOrder(w.books.accounts)
  {
    var (table, credits) := VacateLeaving(w.table);
    World(Swept(w.books, credits, |credits|, faults), table)
  }

  ghost function Next(w: World, s: Step): World
    requires L.InOrder(w.books.accounts) && w.table.Shaped()
  {
    match s
    case BuyIn(id, amount, seat, within, df, rf) => AfterBuyIn(w, id, amount, seat, within, df, rf)
    case Start(deck) => (match StartHand(w.table, deck) case Rejected => w case Accepted(r) => w.(table := r))
    case Act(id, a) => (match ProcessAction(w.table, id, a) case Rejected => w case Accepted(r) => w.(table := r))
    case Expire => w.(table := CheckTimeout(w.table))
    case Leave(id, fault) => AfterLeave(w, id, fault)
    case Sweep(faults) => AfterSweep(w, faults)
  }

  // ---------- buying in ----------

  lemma {:induction false} CreditMoves(b: L.Books, id: int, amount: Chips, kind: L.TxKind, fault: L.Fault)
    requires L.InOrder(b.accounts) && amount >= 0
    ensures L.InOrder(AfterCredit(b, id, amount, kind, fault).accounts)
    ensures Wallets(AfterCredit(b, id, amount, kind, fault).accounts) ==
      Wallets(b.accounts) + if id > 0 && CreditGoes(b, id, amount, fault) then amount else 0
  {
    if id > 0 && amount > 0 { DeltaMoves(b, id, amount, kind, fault); }
  }

  lemma {:induction false} SeatTaken(t: Table, id: int, chips: Chips, seat: nat)
    requires Fit(t) && chips >= 0 && id != 0 && AddPlayerAtSeat(t, id, chips, seat).Accepted?
    ensures var r := AddPlayerAtSeat(t, id, chips, seat).after; Fit(r) && Wealth(r.seats) == Wealth(t.seats) + chips
  {
    var r := AddPlayerAtSeat(t, id, chips, seat).after;
    assert SeatFit(t.seats[seat], t.live);
    SumUpdate(t.seats, seat, r.seats[seat], WealthOf);
    forall k | 0 <= k < |r.seats| ensures SeatFit(r.seats[k], t.live) {
      assert SeatFit(t.seats[k], t.live);
    }
  }

  /** What a debit takes from the wallets. */
  lemma {:induction false} DebitMoves(b: L.Books, id: int, amount: Chips, fault: L.Fault)
    requires L.InOrder(b.accounts) && id > 0 && Debit(b, id, amount, fault).Success?
    ensures amount > 0 && L.InOrder(AfterDebit(b, id, amount, fault).accounts)
    ensures Wallets(AfterDebit(b, id, amount, fault).accounts) == Wallets(b.accounts) - amount
  {
    DeltaMoves(b, id, -amount, L.BuyIn, fault);
  }

  /** The chips a step brings into being: a buy-in for an id that is not positive is neither debited
      nor refunded, and seats its amount all the same. */
  function Minted(w: World, s: Step): Chips {
    if s.BuyIn? && s.id <= 0 && s.withinLimits && AddPlayerAtSeat(w.table, s.id, s.amount, s.seat).Accepted? then s.amount
    else 0
  }

  lemma {:induction false} UnpaidOwned(w: World, id: int, amount: Chips, seat: nat, within: bool, df: L.Fault, rf: L.Fault)
    requires Orderly(w) && id < 0 && (within ==> amount > 0)
    ensures var r := AfterBuyIn(w, id, amount, seat, within, df, rf);
      Orderly(r) && Owned(r) == Owned(w) + Minted(w, BuyIn(id, amount, seat, within, df, rf))
  {
    if within && AddPlayerAtSeat(w.table, id, amount, seat).Accepted? { SeatTaken(w.table, id, amount, seat); }
  }

  /** A buy-in moves the chips from the wallet to the seat, or back; they are lost exactly when the
      seat is refused and the refund fails. */
  lemma {:induction false} BuyInOwned(w: World, id: int, amount: Chips, seat: nat, within: bool, df: L.Fault, rf: L.Fault)
    requires Orderly(w) && id != 0 && (within ==> amount > 0)
    ensures var r := AfterBuyIn(w, id, amount, seat, within, df, rf);
      Orderly(r) && Worth(w, BuyIn(id, amount, seat, within, df, rf), r, BuyInSafe(w, id, amount, seat, within, df, rf))
  {
    if id < 0 {
      UnpaidOwned(w, id, amount, seat, within, df, rf);
    } else if within && Debit(w.books, id, amount, df).Success? {
      DebitMoves(w.books, id, amount, df);
      PaidOwned(w, AfterDebit(w.books, id, amount, df), id, amount, seat, rf);
    }
  }

  /** A step adds no more than it mints, and just that when it is safe. */
  predicate Worth(w: World, s: Step, r: World, safe: bool) {
    Owned(r) <= Owned(w) + Minted(w, s) && (Owned(r) == Owned(w) + Minted(w, s) <==> safe)
  }

  /** What happens once the buy-in has been debited. */
  lemma {:induction false} PaidOwned(w: World, paid: L.Books, id: int, amount: Chips, seat: nat, rf: L.Fault)
    requires Fit(w.table) && id > 0 && amount > 0 && L.InOrder(paid.accounts)
    requires Wallets(paid.accounts) == Wallets(w.books.accounts) - amount
    ensures var join := AddPlayerAtSeat(w.table, id, amount, seat);
      var r := if join.Accepted? then World(paid, join.after) else World(AfterCredit(paid, id, amount, L.Refund, rf), w.table);
      L.InOrder(r.books.accounts) && Fit(r.table) && Owned(r) <= Owned(w)
      && (Owned(r) == Owned(w) <==> join.Accepted? || CreditGoes(paid, id, amount, rf))
  {
    if AddPlayerAtSeat(w.table, id, amount, seat).Accepted? {
      SeatTaken(w.table, id, amount, seat);
    } else {
      CreditMoves(paid, id, amount, L.Refund, rf);
    }
  }

  /** Refused, seated, or refunded. */
  predicate BuyInSafe(w: World, id: int, amount: Chips, seat: nat, within: bool, df: L.Fault, rf: L.Fault)
    requires L.InOrder(w.books.accounts)
  {
    || !within || Debit(w.books, id, amount, df).Failure?
    || AddPlayerAtSeat(w.table, id, amount, seat).Accepted?
    || CreditGoes(AfterDebit(w.books, id, amount, df), id, amount, rf)
  }

  // ---------- leaving ----------

  /** A player still in a live hand leaves no chips behind, except in an unfunded showdown his fold
      brings about; anybody else takes the stack to the wallet, if the credit goes through, and
      loses what he has in the pot of a hand he folded. */
  ghost predicate LeaveSafe(w: World, id: int, fault: L.Fault)
    requires w.table.Shaped()
  {
    var t, i := w.table, OccupiedSeatOf(w.table.seats, id);
    id <= 0 || i < 0 ||
      var s := t.seats[i];
      if t.live && s.IsLive() then
        s.IsActive() ==>
          var u := t.(seats := t.seats[i := s.(leaving := true, state := Folded, acted := true)]);
          !HandCloses(u) || Funded(u.seats)
      else s.invested == 0 && CreditGoes(w.books, id, s.chips, fault)
  }

  lemma {:induction false} VacateMoves(t: Table, i: nat)
    requires Fit(t) && i < |t.seats| && t.seats[i].state != Empty
    ensures var u := t.(seats := t.seats[i := Vacated(t.seats[i])]);
      Fit(u) && Wealth(u.seats) == Wealth(t.seats) - t.seats[i].chips - t.seats[i].invested
  {
    SumUpdate(t.seats, i, Vacated(t.seats[i]), WealthOf);
    var seats := t.seats[i := Vacated(t.seats[i])];
    forall k | 0 <= k < |t.seats| ensures SeatFit(seats[k], t.live) {
      assert SeatFit(t.seats[k], t.live);
    }
  }

  lemma {:induction false} LeaveOwned(w: World, id: int, fault: L.Fault)
    requires Orderly(w)
    ensures var r := AfterLeave(w, id, fault);
      && Orderly(r)
      && Owned(r) <= Owned(w) && (Owned(r) == Owned(w) <==> LeaveSafe(w, id, fault))
  {
    var t, i := w.table, OccupiedSeatOf(w.table.seats, id);
    if id > 0 && i >= 0 {
      var s := t.seats[i];
      assert SeatFit(s, t.live);
      if t.live && s.IsLive() {
        LiveLeaves(t, i);
      } else {
        VacateMoves(t, i);
        CreditMoves(w.books, id, s.chips, L.CashOut, fault);
      }
    }
  }

  lemma {:induction false} LiveLeaves(t: Table, i: nat)
    requires Fit(t) && t.live && IsBetting(t.phase) && i < |t.seats| && t.seats[i].IsLive()
    ensures var s := t.seats[i];
      && Fit(t.(seats := t.seats[i := s.(leaving := true)])) && Wealth(t.seats[i := s.(leaving := true)]) == Wealth(t.seats)
      && var u := t.(seats := t.seats[i := s.(leaving := true, state := Folded, acted := true)]);
        && Fit(Settle(u)) && Wealth(Settle(u).seats) <= Wealth(t.seats) && (Settle(u).live ==> IsBetting(Settle(u).phase))
        && (Wealth(Settle(u).seats) == Wealth(t.seats) <==> !HandCloses(u) || Funded(u.seats))
  {
    var s := t.seats[i];
    assert SeatFit(s, true);
    SeatMoves(t, i, s.(leaving := true));
    SeatMoves(t, i, s.(leaving := true, state := Folded, acted := true));
    MovedThenSettled(t, t.(seats := t.seats[i := s.(leaving := true, state := Folded, acted := true)]));
  }

  // ---------- the sweep between hands ----------

  function SumCredits(credits: seq<Credit>): int {
    if credits == [] then 0 else SumCredits(credits[..|credits| - 1]) + credits[|credits| - 1].chips
  }

  ghost predicate CreditsOk(credits: seq<Credit>) {
    forall n :: 0 <= n < |credits| ==> credits[n].chips >= 0
  }

  lemma {:induction false} CreditAppend(credits: seq<Credit>, c: Credit)
    requires CreditsOk(credits) && c.chips >= 0
    ensures CreditsOk(credits + [c]) && SumCredits(credits + [c]) == SumCredits(credits) + c.chips
  {
    assert (credits + [c])[..|credits|] == credits;
  }

  lemma {:induction false} SweptSum(seats: seq<Seat>)
    requires seats != []
    ensures var n := |seats| - 1;
      Wealth(MapSeats(seats, VacateSeat)) == Wealth(MapSeats(seats[..n], VacateSeat)) + WealthOf(VacateSeat(seats[n]))
  {
    assert MapSeats(seats, VacateSeat)[..|seats| - 1] == MapSeats(seats[..|seats| - 1], VacateSeat);
  }

  lemma {:induction false} SweepSeats(seats: seq<Seat>)
    requires forall i :: 0 <= i < |seats| ==> SeatFit(seats[i], false)
    ensures CreditsOk(LeavingCredits(seats))
    ensures Wealth(MapSeats(seats, VacateSeat)) == Wealth(seats) - SumCredits(LeavingCredits(seats))
  {
    if seats != [] {
      var n := |seats| - 1;
      var last, rest := seats[n], LeavingCredits(seats[..n]);
      SweepSeats(seats[..n]);
      SweptSum(seats);
      assert SeatFit(last, false);
      if last.state != Empty && last.leaving {
        CreditAppend(rest, Credit(last.id, last.chips));
      } else {
        assert LeavingCredits(seats) == rest;
      }
    }
  }

  /** A stack reaches a wallet: one that is credited, or nothing at all. */
  predicate Lands(b: L.Books, c: Credit, fault: L.Fault) {
    c.chips == 0 || (c.id > 0 && CreditGoes(b, c.id, c.chips, fault))
  }

  /** The first n credits of the sweep all reach a wallet. */
  predicate CreditsGo(b: L.Books, credits: seq<Credit>, n: nat, faults: nat -> L.Fault)
    requires L.InOrder(b.accounts) && n <= |credits|
  {
    n == 0 || (CreditsGo(b, credits, n - 1, faults)
               && Lands(Swept(b, credits, n - 1, faults), credits[n - 1], faults(n - 1)))
  }

  function Purse(b: L.Books): int { Wallets(b.accounts) }

  /** What a worth gains is at most what is owed, and all of it exactly when it goes through. */
  predicate Gains(worth: L.Books -> int, b: L.Books, r: L.Books, owed: int, go: bool) {
    worth(r) - worth(b) <= owed && (worth(r) - worth(b) == owed <==> go)
  }

  function Credited(m: L.Books, c: Credit, fault: L.Fault): L.Books
    requires L.InOrder(m.accounts)
  {
    AfterCredit(m, c.id, c.chips, L.CashOut, fault)
  }

  /** What the sweep adds: all it owes, exactly when every credit reaches a wallet. */
  lemma {:induction false} SweptMoves(worth: L.Books -> int, b: L.Books, credits: seq<Credit>, n: nat, faults: nat -> L.Fault)
    requires L.InOrder(b.accounts) && n <= |credits| && CreditsOk(credits)
    requires forall m: L.Books, c: Credit, fault: L.Fault {:trigger Credited(m, c, fault)} :: L.InOrder(m.accounts) && c.chips >= 0 ==>
               Gains(worth, m, Credited(m, c, fault), c.chips, Lands(m, c, fault))
    ensures Gains(worth, b, Swept(b, credits, n, faults), SumCredits(credits[..n]), CreditsGo(b, credits, n, faults))
  {
    if n > 0 {
      SweptMoves(worth, b, credits, n - 1, faults);
      var m, c := Swept(b, credits, n - 1, faults), credits[n - 1];
      assert Gains(worth, m, Credited(m, c, faults(n - 1)), c.chips, Lands(m, c, faults(n - 1)));
      assert credits[..n][..n - 1] == credits[..n - 1];
    }
  }

  lemma {:induction false} SweepFit(t: Table)
    requires Fit(t) && !t.live
    ensures Fit(VacateLeaving(t).0)
  {
    var seats := MapSeats(t.seats, VacateSeat);
    forall i | 0 <= i < |seats| ensures seats[i] == VacateSeat(t.seats[i]) && SeatFit(seats[i], false) {
      assert SeatFit(t.seats[i], false);
    }
  }

  lemma {:induction false} SweepOwned(w: World, faults: nat -> L.Fault)
    requires Orderly(w)
    ensures var r := AfterSweep(w, faults); var credits := VacateLeaving(w.table).1;
      && Orderly(r) && Owned(r) <= Owned(w)
      && (Owned(r) == Owned(w) <==> CreditsGo(w.books, credits, |credits|, faults))
  {
    var (table, credits) := VacateLeaving(w.table);
    if w.table.live {
      assert credits == [] && table == w.table;
    } else {
      SweepFit(w.table);
      SweepWealth(w.table);
      SweptAll(w.books, credits, faults);
      SweepBalance(w, Swept(w.books, credits, |credits|, faults), table, SumCredits(credits),
                   CreditsGo(w.books, credits, |credits|, faults));
    }
  }

  lemma {:induction false} SweptAll(b: L.Books, credits: seq<Credit>, faults: nat -> L.Fault)
    requires L.InOrder(b.accounts) && CreditsOk(credits)
    ensures Gains(Purse, b, Swept(b, credits, |credits|, faults), SumCredits(credits), CreditsGo(b, credits, |credits|, faults))
  {
    forall m: L.Books, c: Credit, fault: L.Fault | L.InOrder(m.accounts) && c.chips >= 0
      ensures Gains(Purse, m, Credited(m, c, fault), c.chips, Lands(m, c, fault))
    {
      CreditMoves(m, c.id, c.chips, L.CashOut, fault);
    }
    SweptMoves(Purse, b, credits, |credits|, faults);
    assert credits[..|credits|] == credits;
  }

  lemma {:induction false} SweepBalance(w: World, books: L.Books, table: Table, owed: int, go: bool)
    requires Wealth(table.seats) == Wealth(w.table.seats) - owed
    requires Gains(Purse, w.books, books, owed, go)
    ensures Owned(World(books, table)) <= Owned(w) && (Owned(World(books, table)) == Owned(w) <==> go)
  {
  }

  lemma {:induction false} SweepWealth(t: Table)
    requires Fit(t) && !t.live
    ensures CreditsOk(LeavingCredits(t.seats))
    ensures Wealth(VacateLeaving(t).0.seats) == Wealth(t.seats) - SumCredits(LeavingCredits(t.seats))
  {
    assert forall i :: 0 <= i < |t.seats| ==> SeatFit(t.seats[i], false);
    SweepSeats(t.seats);
  }

  // ---------- any step, and any run ----------

  /** The table just before an action is settled. */
  ghost function Acted(t: Table, player: int, a: GameAction): Table
    requires t.Shaped() && ProcessAction(t, player, a).Accepted?
  {
    var i := ActiveSeatOf(t.seats, player);
    Apply(t, i, a.kind, Validate(a, t.seats[i], t.currentBet, t.bigBlind, t.lastRaise).amount)
  }

  ghost function TimedOut(t: Table): Table
    requires t.Shaped() && CurrentSeat(t) >= 0
  {
    var s := t.seats[CurrentSeat(t)];
    t.(seats := t.seats[CurrentSeat(t) := if t.currentBet - s.bet <= 0 then s.(acted := true) else s.(state := Folded)])
  }

  /** The exact condition under which a step keeps every chip, checked before it: credits and refunds
      go through, an action, timeout or fold that closes the hand leaves a dealt player behind the
      largest stake still in it, a hand dealt to fewer than two who can act has one too, and nobody
      who has folded the live hand cashes out with chips in its pot. */
  ghost predicate Safe(w: World, s: Step)
    requires L.InOrder(w.books.accounts) && Fit(w.table)
  {
    var t := w.table;
    match s
    case BuyIn(id, amount, seat, within, df, rf) => BuyInSafe(w, id, amount, seat, within, df, rf)
    case Start(deck) =>
      StartHand(t, deck).Accepted? ==>
        var dealt := DealtIn(Cleared(t, deck)).seats;
        ActiveCount(dealt) > 1 || Funded(dealt)
    case Act(player, a) =>
      ProcessAction(t, player, a).Accepted? ==> !HandCloses(Acted(t, player, a)) || Funded(Acted(t, player, a).seats)
    case Expire => t.live && CurrentSeat(t) >= 0 ==> !HandCloses(TimedOut(t)) || Funded(TimedOut(t).seats)
    case Leave(id, fault) => LeaveSafe(w, id, fault)
    case Sweep(faults) => CreditsGo(w.books, VacateLeaving(t).1, |VacateLeaving(t).1|, faults)
  }

  /** Steps as the server makes them: an amount within the limits is positive. The id 0 is what marks
      an empty seat. */
  predicate Admissible(s: Step) {
    s.BuyIn? ==> s.id != 0 && (s.withinLimits ==> s.amount > 0)
  }

  lemma {:induction false} ActOwned(t: Table, player: int, a: GameAction)
    requires Fit(t) && IsBetting(t.phase) && ProcessAction(t, player, a).Accepted?
    ensures var r := ProcessAction(t, player, a).after;
      && Fit(r) && Wealth(r.seats) <= Wealth(t.seats) && (r.live ==> IsBetting(r.phase))
      && (Wealth(r.seats) == Wealth(t.seats) <==> !HandCloses(Acted(t, player, a)) || Funded(Acted(t, player, a).seats))
  {
    var i := ActiveSeatOf(t.seats, player);
    ApplyMoves(t, i, a, Validate(a, t.seats[i], t.currentBet, t.bigBlind, t.lastRaise).amount);
    ApplyByMover(t, i, a.kind, Validate(a, t.seats[i], t.currentBet, t.bigBlind, t.lastRaise).amount);
    MovedThenSettled(t, Acted(t, player, a));
  }

  lemma {:induction false} ExpireOwned(t: Table)
    requires Fit(t) && (t.live ==> IsBetting(t.phase))
    ensures var r := CheckTimeout(t);
      && Fit(r) && Wealth(r.seats) <= Wealth(t.seats) && (r.live ==> IsBetting(r.phase))
      && (Wealth(r.seats) == Wealth(t.seats) <==>
            (t.live && CurrentSeat(t) >= 0 ==> !HandCloses(TimedOut(t)) || Funded(TimedOut(t).seats)))
  {
    var cur := CurrentSeat(t);
    if t.live && cur >= 0 {
      assert SeatFit(t.seats[cur], true);
      SeatMoves(t, cur, TimedOut(t).seats[cur]);
      MovedThenSettled(t, TimedOut(t));
    }
  }

  /** No step creates a chip but for what an unpaid buy-in mints, and a step keeps all of them if and
      only if it is safe. */
  lemma {:induction false} StepOwned(w: World, s: Step)
    requires Orderly(w) && Admissible(s)
    ensures Orderly(Next(w, s)) && Worth(w, s, Next(w, s), Safe(w, s))
  {
    match s {
      case BuyIn(id, amount, seat, within, df, rf) => BuyInOwned(w, id, amount, seat, within, df, rf);
      case Start(deck) => if StartHand(w.table, deck).Accepted? { StartMoves(w.table, deck); }
      case Act(player, a) => if ProcessAction(w.table, player, a).Accepted? { ActOwned(w.table, player, a); }
      case Expire => ExpireOwned(w.table);
      case Leave(id, fault) => LeaveOwned(w, id, fault);
      case Sweep(faults) => SweepOwned(w, faults);
    }
  }

  /** The world after the first n steps. */
  ghost function Through(next: (World, Step) -> World, w: World, steps: seq<Step>, n: nat): World
    requires n <= |steps|
  {
    if n == 0 then w else next(Through(next, w, steps, n - 1), steps[n - 1])
  }

  ghost predicate AllAlong(next: (World, Step) -> World, p: (World, Step) -> bool, w: World, steps: seq<Step>, n: nat)
    requires n <= |steps|
  {
    n == 0 || (AllAlong(next, p, w, steps, n - 1) && p(Through(next, w, steps, n - 1), steps[n - 1]))
  }

  lemma {:induction false} AlongIff(next: (World, Step) -> World, p: (World, Step) -> bool, w: World, steps: seq<Step>, n: nat)
    requires n <= |steps|
    ensures AllAlong(next, p, w, steps, n) <==> forall m: nat :: m < n ==> p(Through(next, w, steps, m), steps[m])
  {
    if n > 0 { AlongIff(next, p, w, steps, n - 1); }
  }

  /** What the first n steps add up to. */
  ghost function Along(next: (World, Step) -> World, gift: (World, Step) -> int, w: World, steps: seq<Step>, n: nat): int
    requires n <= |steps|
  {
    if n == 0 then 0 else Along(next, gift, w, steps, n - 1) + gift(Through(next, w, steps, n - 1), steps[n - 1])
  }

  /** A worth no step raises by more than its gift, and by just that when it is safe, is raised by a run
      by just its gifts if and only if all its steps are safe. */
  lemma {:induction false} WorthKept(next: (World, Step) -> World, safe: (World, Step) -> bool, gift: (World, Step) -> int,
                                     good: World -> bool, may: Step -> bool, worth: World -> int,
                                     w: World, steps: seq<Step>, n: nat)
    requires n <= |steps| && good(w) && forall m :: 0 <= m < n ==> may(steps[m])
    requires forall v, s {:trigger next(v, s)} :: good(v) && may(s) ==>
               good(next(v, s)) && worth(next(v, s)) <= worth(v) + gift(v, s)
               && (worth(next(v, s)) == worth(v) + gift(v, s) <==> safe(v, s))
    ensures var r, total := Through(next, w, steps, n), worth(w) + Along(next, gift, w, steps, n);
      good(r) && worth(r) <= total && (worth(r) == total <==> AllAlong(next, safe, w, steps, n))
  {
    if n > 0 {
      WorthKept(next, safe, gift, good, may, worth, w, steps, n - 1);
    }
  }

  /** A step where it can be taken. */
  ghost function Advance(w: World, s: Step): World {
    if Orderly(w) then Next(w, s) else w
  }

  ghost predicate SafeAt(w: World, s: Step) {
    Orderly(w) && Safe(w, s)
  }

  ghost function Reached(w: World, steps: seq<Step>, n: nat): World
    requires n <= |steps|
  {
    Through(Advance, w, steps, n)
  }

  /** What the unpaid buy-ins of a run bring into being. */
  ghost function MintedBy(w: World, steps: seq<Step>): Chips {
    Along(Advance, Minted, w, steps, |steps|)
  }

  /** Over any run of buy-ins, refunds, hands, cash-outs and sweeps no chip is created but by unpaid
      buy-ins, and every chip keeps exactly one owner if and only if every step is safe where it is
      taken. */
  lemma {:induction false} RunOwned(w: World, steps: seq<Step>)
    requires Orderly(w) && forall n :: 0 <= n < |steps| ==> Admissible(steps[n])
    ensures var r, total := Reached(w, steps, |steps|), Owned(w) + MintedBy(w, steps);
      && Orderly(r) && Owned(r) <= total
      && (Owned(r) < total <==> exists n: nat :: n < |steps| && !SafeAt(Reached(w, steps, n), steps[n]))
  {
    forall v: World, s: Step | Orderly(v) && Admissible(s)
      ensures Orderly(Advance(v, s)) && Owned(Advance(v, s)) <= Owned(v) + Minted(v, s)
      ensures Owned(Advance(v, s)) == Owned(v) + Minted(v, s) <==> SafeAt(v, s)
    {
      StepOwned(v, s);
    }
    AlongIff(Advance, SafeAt, w, steps, |steps|);
    WorthKept(Advance, SafeAt, Minted, Orderly, Admissible, Owned, w, steps, |steps|);
  }

  /** A buy-in for an id that is not positive is never debited and never refunded: the amount appears
      from nowhere exactly when the player is seated. */
  lemma {:induction false} UnpaidSeat(w: World, id: int, amount: Chips, seat: nat, within: bool, df: L.Fault, rf: L.Fault)
    requires L.InOrder(w.books.accounts) && Fit(w.table) && id <= 0
    ensures Owned(AfterBuyIn(w, id, amount, seat, within, df, rf))
         == Owned(w) + if within && AddPlayerAtSeat(w.table, id, amount, seat).Accepted? then amount else 0
  {
    var t := w.table;
    if within && AddPlayerAtSeat(t, id, amount, seat).Accepted? {
      assert SeatFit(t.seats[seat], t.live);
      SumUpdate(t.seats, seat, t.seats[seat].(id := id, chips := amount, state := Sitting), WealthOf);
    }
  }
}
