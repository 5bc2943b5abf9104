/** The hand state machine of phase12/src/game_state.cpp on values: one function per engine step.
    The class in GameState.dfy is proved to take exactly these steps. */
module HandSpec {
  import opened Cards
  import opened Seats
  import opened Betting
  import opened Showdown
  import PM = PotManager

  datatype Phase =
    | Waiting | Dealing | PreflopBetting | FlopDealing | FlopBetting | TurnDealing | TurnBetting
    | RiverDealing | RiverBetting | ShowdownPhase | HandComplete

  datatype Table = Table(
    seats: seq<Seat>, board: seq<Card>, deck: seq<Card>, dealt: nat,
    phase: Phase, button: nat, turn: nat, currentBet: Chips, lastRaise: Chips, live: bool,
    smallBlind: Chips, bigBlind: Chips)
  {
    /** Seat indices are in range and there is at least one seat. */
    predicate Shaped() {
      button < |seats| && turn < |seats|
    }
  }

  // ---------- scanning the ring of seats ----------

  function Active(s: Seat): bool { s.IsActive() }
  function Pending(s: Seat): bool { s.Pending() }
  function Seated(s: Seat): bool { s.IsSeated() }

  /** The first seat (start + i) % n with the property, for i from lo up to hi - 1; or -1. */
  function Find(seats: seq<Seat>, start: nat, lo: nat, hi: nat, p: Seat -> bool): (r: int)
    requires seats != []
    ensures r == -1 || (0 <= r < |seats| && p(seats[r]))
    decreases hi - lo
  {
    if lo >= hi then -1
    else if p(seats[(start + lo) % |seats|]) then (start + lo) % |seats|
    else Find(seats, start, lo + 1, hi, p)
  }

  /** The seat to act after `turn`: the next pending one, else the next active one, else the same. */
  function NextTurn(seats: seq<Seat>, turn: nat): (r: nat)
    requires turn < |seats|
    ensures r < |seats|
  {
    var a := Find(seats, turn, 1, |seats| + 1, Pending);
    var b := Find(seats, turn, 1, |seats| + 1, Active);
    if a >= 0 then a else if b >= 0 then b else turn
  }

  /** FindActiveSeat(start). */
  function FirstTurn(seats: seq<Seat>, start: nat, turn: nat): (r: nat)
    requires turn < |seats|
    ensures r < |seats|
  {
    var a := Find(seats, start, 0, |seats|, Pending);
    var b := Find(seats, start, 0, |seats|, Active);
    if a >= 0 then a else if b >= 0 then b else turn
  }

  function NextSeated(seats: seq<Seat>, from: nat): (r: nat)
    requires from < |seats|
    ensures r < |seats|
  {
    var a := Find(seats, from, 1, |seats| + 1, Seated);
    if a >= 0 then a else from
  }

  /** The first pending seat in seat order, or -1. */
  function FirstPending(seats: seq<Seat>): (r: int)
    ensures r == -1 || (0 <= r < |seats| && Pending(seats[r]))
    ensures r == -1 ==> forall i :: 0 <= i < |seats| ==> !Pending(seats[i])
  {
    if seats == [] then -1
    else
      var n := |seats| - 1;
      var r := FirstPending(seats[..n]);
      if r >= 0 then r else if Pending(seats[n]) then n else -1
  }

  /** GetCurrentPlayer: the turn seat if it is pending, else the first pending seat, else -1. */
  function CurrentSeat(t: Table): (r: int)
    requires t.Shaped()
    ensures r == -1 || (0 <= r < |t.seats| && Pending(t.seats[r]))
  {
    if Pending(t.seats[t.turn]) then t.turn else FirstPending(t.seats)
  }

  function CurrentPlayerId(t: Table): int
    requires t.Shaped()
  {
    if CurrentSeat(t) >= 0 then t.seats[CurrentSeat(t)].id else -1
  }

  /** The first active seat holding the id, or -1. */
  function ActiveSeatOf(seats: seq<Seat>, id: int): (r: int)
    ensures r == -1 || (0 <= r < |seats| && Active(seats[r]) && seats[r].id == id)
    ensures r == -1 ==> forall i :: 0 <= i < |seats| && Active(seats[i]) ==> seats[i].id != id
  {
    if seats == [] then -1
    else
      var n := |seats| - 1;
      var r := ActiveSeatOf(seats[..n], id);
      if r >= 0 then r else if Active(seats[n]) && seats[n].id == id then n else -1
  }

  // ---------- whole-table updates ----------

  function ActiveCount(seats: seq<Seat>): int { Sum(seats, OneIfActive) }
  function LiveCount(seats: seq<Seat>): int { Sum(seats, OneIfLive) }
  function PendingCount(seats: seq<Seat>): int { Sum(seats, OneIfPending) }

  /** Every chip wagered this hand. */
  function Pot(seats: seq<Seat>): Chips { Sum(seats, PotShare) }
  function PotShare(s: Seat): Chips { if s.state == Empty then 0 else s.invested }

  function MapSeats(seats: seq<Seat>, f: Seat -> Seat): (r: seq<Seat>)
    ensures |r| == |seats| && forall i :: 0 <= i < |seats| ==> r[i] == f(seats[i])
  {
    seq(|seats|, i requires 0 <= i < |seats| => f(seats[i]))
  }

  function NewStreetSeat(s: Seat): Seat { s.(acted := false, bet := 0) }

  function ReopenSeat(s: Seat, id: int): Seat {
    if s.id != id && s.IsActive() then s.(acted := false) else s
  }

  /** A bet reopens the action for everyone active with another id. */
  function Reopen(seats: seq<Seat>, id: int): (r: seq<Seat>)
    ensures |r| == |seats| && forall k :: 0 <= k < |seats| ==> r[k] == ReopenSeat(seats[k], id)
  {
    seq(|seats|, k requires 0 <= k < |seats| => ReopenSeat(seats[k], id))
  }

  /** IsBettingRoundComplete. */
  ghost predicate RoundComplete(seats: seq<Seat>) {
    || ActiveCount(seats) <= 0
    || LiveCount(seats) <= 1
    || (&& (forall i :: 0 <= i < |seats| && Active(seats[i]) ==> seats[i].acted)
        && (forall i, j :: 0 <= i < |seats| && 0 <= j < |seats| && Active(seats[i]) && Active(seats[j])
              ==> seats[i].bet == seats[j].bet))
  }

  // ---------- dealing ----------

  /** Burn one, show one, `count` times, while the board has room and the deck lasts. */
  function DealBoard(t: Table, count: nat): (r: Table)
    ensures r == t.(board := r.board, dealt := r.dealt)
    decreases count
  {
    if count == 0 || |t.board| >= 5 then t
    else if t.dealt + 1 >= |t.deck| then t.(dealt := Min(t.dealt + 1, Max(t.dealt, |t.deck|)))
    else DealBoard(t.(board := t.board + [t.deck[t.dealt + 1]], dealt := t.dealt + 2), count - 1)
  }

  function Runout(t: Table): (r: Table)
    ensures r == t.(board := r.board, dealt := r.dealt)
  {
    if |t.board| >= 5 then t else DealBoard(t, 5 - |t.board|)
  }

  // ---------- showdown ----------

  function OccupiedSeats(seats: seq<Seat>): seq<Seat> {
    if seats == [] then []
    else OccupiedSeats(seats[..|seats| - 1]) + (if seats[|seats| - 1].state == Empty then [] else [seats[|seats| - 1]])
  }

  function HandOf(s: Seat): seq<Card>
    requires s.hole.Dealt?
  {
    [s.hole.card1, s.hole.card2]
  }

  /** hole_map[p.id] for every player holding cards. */
  function HolesOf(seats: seq<Seat>): HoleMap {
    if seats == [] then map[]
    else
      var last := seats[|seats| - 1];
      var rest := HolesOf(seats[..|seats| - 1]);
      if last.hole.Dealt? then rest[last.id := HandOf(last)] else rest
  }

  function PotsOf(seats: seq<Seat>): seq<PM.Pot> {
    PM.PotsFrom(PM.SortByInvested(PM.Contribs(OccupiedSeats(seats))))
  }

  function AfterHandSeat(s: Seat): Seat {
    s.(state := if s.state == Empty then Empty else Sitting, hole := Undealt, bet := 0, invested := 0,
       acted := false, isDealer := false, isSmallBlind := false, isBigBlind := false)
  }

  ghost function Awards(t: Table): seq<Award> {
    AwardsOfPots(PotsOf(t.seats), HolesOf(t.seats), t.board)
  }

  ghost function DoShowdown(t: Table): Table {
    t.(seats := MapSeats(PayAll(t.seats, Awards(t)), AfterHandSeat),
       phase := HandComplete, live := false, currentBet := 0, board := [])
  }

  // ---------- streets ----------

  function StreetsLeft(p: Phase): nat {
    match p
    case PreflopBetting => 3
    case FlopBetting => 2
    case TurnBetting => 1
    case _ => 0
  }

  function NewStreet(t: Table): Table {
    t.(seats := MapSeats(t.seats, NewStreetSeat), currentBet := 0)
  }

  /** Deal the next street's cards, unless they are already out. */
  function DealStreet(t: Table, upTo: nat, count: nat): (r: Table)
    ensures r == t.(board := r.board, dealt := r.dealt)
  {
    if |t.board| >= upTo then t else DealBoard(t, count)
  }

  /** The next street's cards on the board, its betting open. */
  function StreetDealt(t: Table): Table {
    match t.phase
    case PreflopBetting => DealStreet(t, 3, 3).(phase := FlopBetting)
    case FlopBetting => DealStreet(t, 4, 1).(phase := TurnBetting)
    case _ => DealStreet(t, 5, 1).(phase := RiverBetting)
  }

  ghost function AdvanceStreet(t: Table): Table
    requires t.Shaped()
    decreases StreetsLeft(t.phase), 0
  {
    if LiveCount(t.seats) <= 1 then DoShowdown(t)
    else if ActiveCount(t.seats) == 0 then DoShowdown(Runout(t))
    else
      var next := NewStreet(t);
      if t.phase == RiverBetting then DoShowdown(next)
      else if StreetsLeft(t.phase) > 0 then StartBettingRound(StreetDealt(next))
      else next
  }

  function StartSeat(t: Table): nat
    requires t.Shaped()
  {
    if t.phase == PreflopBetting then
      if ActiveCount(t.seats) == 2 then t.button else (t.button + 3) % |t.seats|
    else (t.button + 1) % |t.seats|
  }

  ghost function StartBettingRound(t: Table): Table
    requires t.Shaped()
    decreases StreetsLeft(t.phase), 1
  {
    var t1 := t.(lastRaise := t.bigBlind);
    if ActiveCount(t.seats) <= 1 then AdvanceStreet(t1)
    else t1.(turn := FirstTurn(t.seats, StartSeat(t), t.turn))
  }

  // ---------- actions ----------

  /** After an action or a fold: close the street if the round is complete, else pass the turn. */
  ghost function Settle(t: Table): Table
    requires t.Shaped()
  {
    if RoundComplete(t.seats) then AdvanceStreet(t) else t.(turn := NextTurn(t.seats, t.turn))
  }

  /** A seat's stake passed the current bet: it sets the new bet and raise size and reopens the action. */
  function Lead(t: Table, i: nat): (r: Table)
    requires i < |t.seats|
    ensures r == t.(seats := r.seats, currentBet := r.currentBet, lastRaise := r.lastRaise) && |r.seats| == |t.seats|
  {
    var inc := t.seats[i].bet - t.currentBet;
    t.(seats := Reopen(t.seats, t.seats[i].id), currentBet := t.seats[i].bet,
       lastRaise := if inc >= t.lastRaise then inc else t.lastRaise)
  }

  /** The switch of ProcessAction: seat i, already validated, moves `amount` chips. */
  function Apply(t: Table, i: nat, kind: ActionType, amount: Chips): (r: Table)
    requires i < |t.seats|
    ensures r == t.(seats := r.seats, currentBet := r.currentBet, lastRaise := r.lastRaise) && |r.seats| == |t.seats|
  {
    var p := t.seats[i].(acted := true);
    match kind
    case Fold => t.(seats := t.seats[i := p.(state := Folded)])
    case Check => t.(seats := t.seats[i := p])
    case Call =>
      var q := p.AfterBet(t.currentBet - p.bet);
      t.(seats := t.seats[i := if q.chips <= 0 then q.(state := AllIn) else q])
    case Bet => Lead(t.(seats := t.seats[i := p.AfterBet(amount)]), i)
    case Raise => Lead(t.(seats := t.seats[i := p.AfterBet(amount)]), i)
    case AllInMove =>
      var q := p.AfterBet(p.chips);
      var staked := t.(seats := t.seats[i := q.(state := AllIn)]);
      if q.bet > t.currentBet then Lead(staked, i) else staked
    case Other => t.(seats := t.seats[i := p])
  }

  /** Seat i after the chips of a move have gone in, before anything is reopened. */
  function Mover(s: Seat, currentBet: Chips, kind: ActionType, amount: Chips): Seat {
    if kind in {Fold, Check, Other} then s.(acted := true, state := if kind == Fold then Folded else s.state)
    else
      var q := s.(acted := true).AfterBet(StakeFor(s, currentBet, kind, amount));
      if kind == AllInMove || (kind == Call && q.chips <= 0) then q.(state := AllIn) else q
  }

  function StakeFor(s: Seat, currentBet: Chips, kind: ActionType, amount: Chips): Chips {
    if kind == Call then currentBet - s.bet else if kind == AllInMove then s.chips else amount
  }

  function Leads(s: Seat, currentBet: Chips, kind: ActionType): bool {
    kind in {Bet, Raise} || (kind == AllInMove && s.bet > currentBet)
  }

  /** The switch, case by case: the mover's stake goes in, and a stake that leads reopens the action. */
  lemma {:induction false} ApplyByMover(t: Table, i: nat, kind: ActionType, amount: Chips)
    requires i < |t.seats|
    ensures var q := Mover(t.seats[i], t.currentBet, kind, amount);
      var m := t.(seats := t.seats[i := q]);
      Apply(t, i, kind, amount) == if Leads(q, t.currentBet, kind) then Lead(m, i) else m
  {
  }

  datatype Outcome = Rejected | Accepted(after: Table)

  ghost function ProcessAction(t: Table, id: int, a: GameAction): Outcome
    requires t.Shaped()
  {
    if !t.live then Rejected
    else
      var i := ActiveSeatOf(t.seats, id);
      var cur := CurrentSeat(t);
      if i < 0 || cur < 0 || t.seats[cur].id != id then Rejected
      else match Validate(a, t.seats[i], t.currentBet, t.bigBlind, t.lastRaise)
        case Invalid(_) => Rejected
        case Valid(amount) => Accepted(Settle(Apply(t, i, a.kind, amount)))
  }

  /** CheckTimeout once the deadline has passed: check if that is free, fold otherwise. */
  ghost function CheckTimeout(t: Table): Table
    requires t.Shaped()
  {
    var cur := CurrentSeat(t);
    if !t.live || cur < 0 then t
    else
      var s := t.seats[cur];
      var s' := if t.currentBet - s.bet <= 0 then s.(acted := true) else s.(state := Folded);
      Settle(t.(seats := t.seats[cur := s']))
  }

  // ---------- starting a hand ----------

  function ResetHandSeat(s: Seat): Seat {
    s.(bet := 0, invested := 0, acted := false, isDealer := false, isSmallBlind := false, isBigBlind := false,
       state := if s.state in {Playing, Folded, AllIn} then Sitting else s.state, hole := Undealt)
  }

  function OneIfWaiting(s: Seat): int { if s.state == Sitting || s.state == SittingOut then 1 else 0 }

  /** RotateDealer: the button moves to the next seated player. */
  function RotateButton(t: Table): Table
    requires t.Shaped()
  {
    var b := NextSeated(t.seats, t.button);
    t.(button := b,
       seats := seq(|t.seats|, i requires 0 <= i < |t.seats| =>
         t.seats[i].(isDealer := i == b, isSmallBlind := false, isBigBlind := false)))
  }

  datatype BlindSeats = BlindSeats(small: nat, big: nat)

  function BlindsFor(t: Table): (b: BlindSeats)
    requires t.Shaped()
    ensures b.small < |t.seats| && b.big < |t.seats|
  {
    var sb := NextSeated(t.seats, t.button);
    if Sum(t.seats, OneIfSeated) == 2 then BlindSeats(t.button, sb)
    else BlindSeats(sb, NextSeated(t.seats, sb))
  }

  function Flagged(seats: seq<Seat>, b: BlindSeats): (r: seq<Seat>)
    requires b.small < |seats| && b.big < |seats|
    ensures |r| == |seats|
  {
    var small := seats[b.small := seats[b.small].(isSmallBlind := true)];
    small[b.big := small[b.big].(isBigBlind := true)]
  }

  /** Each blind as far as the stack goes; the big blind is measured before the small one is posted. */
  function Stakes(seats: seq<Seat>, b: BlindSeats, smallBlind: Chips, bigBlind: Chips): (r: seq<Seat>)
    requires b.small < |seats| && b.big < |seats|
    ensures |r| == |seats|
  {
    var posted := seats[b.small := seats[b.small].AfterBet(Min(smallBlind, seats[b.small].chips))];
    posted[b.big := posted[b.big].AfterBet(Min(bigBlind, seats[b.big].chips))]
  }

  function PostBlinds(t: Table): Table
    requires t.Shaped()
  {
    var b := BlindsFor(t);
    var flagged := Flagged(t.seats, b);
    t.(seats := Stakes(flagged, b, t.smallBlind, t.bigBlind), currentBet := Min(t.bigBlind, flagged[b.big].chips))
  }

  /** Two cards to seat i, if it is sitting and they are there. */
  function DealtOne(t: Table, i: nat): (r: Table)
    requires i < |t.seats|
    ensures r == t.(seats := r.seats, dealt := r.dealt) && |r.seats| == |t.seats| && r.dealt >= t.dealt
  {
    var s := t.seats[i];
    if s.state == Sitting && t.dealt + 2 <= |t.deck| then
      t.(seats := t.seats[i := s.(hole := Dealt(t.deck[t.dealt], t.deck[t.dealt + 1]), state := Playing, acted := false)],
         dealt := t.dealt + 2)
    else t
  }

  /** Hole cards, in seat order, for the first k seats. */
  function DealHoles(t: Table, k: nat): (r: Table)
    requires k <= |t.seats|
    ensures r == t.(seats := r.seats, dealt := r.dealt) && |r.seats| == |t.seats| && r.dealt >= t.dealt
  {
    if k == 0 then t else DealtOne(DealHoles(t, k - 1), k - 1)
  }

  lemma {:induction false} NextDealt(t: Table, k: nat)
    requires 0 < k <= |t.seats|
    ensures DealHoles(t, k) == DealtOne(DealHoles(t, k - 1), k - 1)
  {
  }

  /** Induction over the seats being dealt in. */
  lemma {:induction false} DealHolesLifts(t: Table, k: nat, inv: (Table, nat) -> bool)
    requires k <= |t.seats| && inv(t, 0)
    requires forall u: Table, i: nat {:trigger inv(u, i)} :: inv(u, i) && i < k && |u.seats| == |t.seats| ==> inv(DealtOne(u, i), i + 1)
    ensures inv(DealHoles(t, k), k)
  {
    if k > 0 { DealHolesLifts(t, k - 1, inv); }
  }

  /** The table reset for a hand with the deck the shuffle produced. */
  function Cleared(t: Table, deck: seq<Card>): Table {
    t.(seats := MapSeats(t.seats, ResetHandSeat), board := [], currentBet := 0, live := true, phase := Dealing,
       deck := deck, dealt := 0)
  }

  /** Button moved, blinds posted, hole cards out. */
  function DealtIn(cleared: Table): (r: Table)
    requires cleared.Shaped()
    ensures r.Shaped()
  {
    var posted := PostBlinds(RotateButton(cleared));
    DealHoles(posted, |posted.seats|).(phase := PreflopBetting)
  }

  /** StartHand with the deck the shuffle produced; None when the engine refuses to start. */
  ghost function StartHand(t: Table, deck: seq<Card>): Outcome
    requires t.Shaped()
  {
    if t.phase !in {Waiting, HandComplete} then Rejected
    else if Sum(t.seats, OneIfWaiting) < 2 then Rejected
    else
      Accepted(StartBettingRound(DealtIn(Cleared(t, deck))))
  }

  // ---------- seating and leaving ----------

  function AddPlayerAtSeat(t: Table, id: int, chips: Chips, seat: nat): Outcome {
    if seat >= |t.seats| || t.seats[seat].state != Empty then Rejected
    else if exists i :: 0 <= i < |t.seats| && t.seats[i].id == id && t.seats[i].state != Empty then Rejected
    else Accepted(t.(seats := t.seats[seat := t.seats[seat].(id := id, chips := chips, state := Sitting)]))
  }

  function Vacated(s: Seat): Seat {
    s.(chips := 0, state := Empty, id := 0, hole := Undealt, bet := 0, invested := 0, leaving := false)
  }

  /** The first occupied seat holding the id, or -1. */
  function OccupiedSeatOf(seats: seq<Seat>, id: int): (r: int)
    ensures r == -1 || (0 <= r < |seats| && seats[r].state != Empty && seats[r].id == id)
    ensures r == -1 ==> forall i :: 0 <= i < |seats| && seats[i].state != Empty ==> seats[i].id != id
  {
    if seats == [] then -1
    else
      var n := |seats| - 1;
      var r := OccupiedSeatOf(seats[..n], id);
      if r >= 0 then r else if seats[n].state != Empty && seats[n].id == id then n else -1
  }

  datatype CashOut = NotSeated | CashOut(after: Table, stack: Chips)

  /** RequestCashOut: mid-hand the player folds and leaves at hand end; otherwise the stack is
      handed over and the seat emptied. */
  ghost function RequestCashOut(t: Table, id: int): CashOut
    requires t.Shaped()
  {
    var i := OccupiedSeatOf(t.seats, id);
    if i < 0 then NotSeated
    else
      var s := t.seats[i];
      if t.live && s.IsLive() then
        if s.IsActive() then
          CashOut(Settle(t.(seats := t.seats[i := s.(leaving := true, state := Folded, acted := true)])), 0)
        else
          CashOut(t.(seats := t.seats[i := s.(leaving := true)]), 0)
      else CashOut(t.(seats := t.seats[i := Vacated(s)]), s.chips)
  }

  function VacateSeat(s: Seat): Seat {
    if s.state != Empty && s.leaving then Vacated(s) else s
  }

  datatype Credit = Credit(id: int, chips: Chips)

  function LeavingCredits(seats: seq<Seat>): seq<Credit> {
    if seats == [] then []
    else
      var s := seats[|seats| - 1];
      LeavingCredits(seats[..|seats| - 1]) + (if s.state != Empty && s.leaving then [Credit(s.id, s.chips)] else [])
  }

  /** VacateLeavingPlayers: a no-op while a hand is in progress. */
  function VacateLeaving(t: Table): (Table, seq<Credit>) {
    if t.live then (t, []) else (t.(seats := MapSeats(t.seats, VacateSeat)), LeavingCredits(t.seats))
  }

  /** SetPlayerChips, as the arena resets stacks between hands. */
  function SetPlayerChips(t: Table, id: int, chips: Chips): Table {
    var i := OccupiedSeatOf(t.seats, id);
    if i < 0 then t else t.(seats := t.seats[i := t.seats[i].(chips := chips, state := Sitting)])
  }

  // ---------- what a player sees and may do ----------

  function LegalActions(t: Table, id: int): seq<GameAction> {
    if !t.live || t.turn >= |t.seats| || t.seats[t.turn].id != id || !t.seats[t.turn].IsActive() then []
    else
      var player := t.seats[t.turn];
      var toCall := ToCall(player, t.currentBet);
      var passive := if toCall == 0 then [GameAction(Check, 0, id)]
                     else if player.chips > 0 then [GameAction(Call, 0, id)] else [];
      var mr := CalculateMinRaise(player, t.currentBet, t.bigBlind, t.lastRaise);
      var raise := if mr.isAllInLess then []
                   else [GameAction(if t.currentBet == 0 then Bet else Raise, mr.minRaiseTo, id)];
      [GameAction(Fold, 0, id)] + passive + (if player.chips > 0 then raise + [GameAction(AllInMove, 0, id)] else [])
  }

  /** A PlayerView: the public part of a seat. */
  datatype PlayerView = PlayerView(
    id: int, state: SeatState, chips: Chips, bet: Chips, invested: Chips, acted: bool, hasCards: bool,
    isDealer: bool, isSmallBlind: bool, isBigBlind: bool)

  datatype Observation = Observation(
    phase: Phase, currentBet: Chips, pot: Chips, bigBlind: Chips, community: seq<Card>, viewer: int,
    myHoleCards: HoleCards, players: seq<PlayerView>)

  function ViewOf(s: Seat): PlayerView {
    PlayerView(s.id, s.state, s.chips, s.bet, s.invested, s.acted, s.hole.Dealt?, s.isDealer, s.isSmallBlind, s.isBigBlind)
  }

  /** The hole cards of the last seat holding the id, as the copying loop leaves them. */
  function HoleCardsOf(seats: seq<Seat>, id: int): HoleCards {
    if seats == [] then Undealt
    else if seats[|seats| - 1].id == id then seats[|seats| - 1].hole
    else HoleCardsOf(seats[..|seats| - 1], id)
  }

  function ObserveFor(t: Table, viewer: int): Observation {
    Observation(t.phase, t.currentBet, Pot(t.seats), t.bigBlind, t.board, viewer, HoleCardsOf(t.seats, viewer),
                seq(|t.seats|, i requires 0 <= i < |t.seats| => ViewOf(t.seats[i])))
  }
}
