/** PlayOneHand and RunMatch (arena/src/match_runner.cpp) on the table object. The agents are an
    arbitrary function: what each proposes at each turn of each hand of each rotation. */
module MatchRunner {
  import opened Arithmetic
  import opened Cards
  import opened Seats
  import opened Betting
  import opened HandSpec
  import opened Payout
  import opened HandInvariant
  import opened Opening
  import opened Arena
  import opened DecisionLoop
  import opened MatchAccounts
  import G = GameState
  import D = Dealer
  import H = Hashing

  const GUARD: nat := 100_000

  /** A turn of the loop was taken: `ok` unless it broke off. */
  ghost predicate Took(turn: Turn, ok: bool, after: Table) {
    match turn
    case GoesOn(r) => ok && after == r
    case Breaks(r) => !ok && after == r
  }

  lemma {:induction false} Submitted(t: Table, late: bool, id: int, a: GameAction, ok: bool, after: Table)
    requires t.Shaped() && G.RespondsAfterClock(t, id, a, late, ok, after)
    ensures Submit(t, late, id, a) == Judged(ok, after)
  {
  }

  /** One turn of the loop: ask, sanitise, act; on rejection act with the fallback. The clock may run
      out before either. */
  method TakeDecision(state: G.GameState, decisions: Decisions, guard: nat) returns (ok: bool)
    requires state.Valid()
    modifies state, state.players, state.potManager, state.rngDealer`deckIndex
    ensures state.Valid()
    ensures var t := old(state.Snap()); Took(LoopTurn(t, decisions(Asked(t), guard)), ok, state.Snap())
  {
    var cur := state.GetCurrentPlayerId();
    if cur < 0 { return false; }
    var d := decisions(cur, guard);
    var legal := state.LegalActions(cur);
    var seats := state.AllPlayers();
    var action := Sanitize(legal, seats, cur, d.proposal).(playerId := cur);
    ok := ActOrFallBack(state, cur, action, SafeFallback(legal, cur).(playerId := cur), d.late, d.lateAgain);
  }

  method ActOrFallBack(state: G.GameState, cur: int, action: GameAction, fallback: GameAction, late: bool, lateAgain: bool)
    returns (ok: bool)
    requires state.Valid()
    modifies state, state.players, state.potManager, state.rngDealer`deckIndex
    ensures state.Valid()
    ensures var first := Submit(old(state.Snap()), late, cur, action);
      Judged(ok, state.Snap()) == if first.ok then first else Submit(first.after, lateAgain, cur, fallback)
  {
    ok := SubmitTo(state, cur, action, late);
    if !ok { ok := SubmitTo(state, cur, fallback, lateAgain); }
  }

  method SubmitTo(state: G.GameState, cur: int, action: GameAction, late: bool) returns (ok: bool)
    requires state.Valid()
    modifies state, state.players, state.potManager, state.rngDealer`deckIndex
    ensures state.Valid() && Judged(ok, state.Snap()) == Submit(old(state.Snap()), late, cur, action)
  {
    ghost var t := state.Snap();
    ok := state.ProcessAction(cur, action, late);
    Submitted(t, late, cur, action, ok, state.Snap());
  }

  /** The step of the loop, kept out of sight until a turn is taken. */
  ghost predicate StepsBy(step: (Table, nat) -> Turn, decisions: Decisions) {
    forall t: Table, i: nat {:trigger LoopTurn(t, decisions(Asked(t), i))} :: step(t, i) == LoopTurn(t, decisions(Asked(t), i))
  }

  /** From t, with `guard` turns taken, the run ends at `end`. */
  ghost predicate RunsTo(step: (Table, nat) -> Turn, t: Table, guard: nat, end: Table) {
    guard <= GUARD && PlayOut(step, t, guard, GUARD - guard) == end
  }

  lemma {:induction false} RunDone(step: (Table, nat) -> Turn, t: Table, guard: nat, end: Table)
    requires RunsTo(step, t, guard, end) && (!t.live || guard == GUARD)
    ensures t == end
  {
  }

  /** The decision loop: it computes exactly the run the agents and their clocks determine. */
  method PlayDecisions(state: G.GameState, decisions: Decisions)
    requires state.Valid()
    modifies state, state.players, state.potManager, state.rngDealer`deckIndex
    ensures state.Valid() && RunsTo(Driver(decisions), old(state.Snap()), 0, state.Snap())
  {
    ghost var end := PlayOut(Driver(decisions), state.Snap(), 0, GUARD);
    TakeTurns(state, decisions, Driver(decisions), end);
  }

  method TakeTurns(state: G.GameState, decisions: Decisions, ghost step: (Table, nat) -> Turn, ghost end: Table)
    requires state.Valid() && StepsBy(step, decisions) && RunsTo(step, state.Snap(), 0, end)
    modifies state, state.players, state.potManager, state.rngDealer`deckIndex
    ensures state.Valid() && state.Snap() == end
  {
    var guard := 0;
    while state.handStarted && guard < GUARD
      invariant guard <= GUARD && state.Valid() && RunsTo(step, state.Snap(), guard, end)
    {
      var ok := OneTurn(state, decisions, step, guard, end);
      if !ok { return; }
      guard := guard + 1;
    }
    RunDone(step, state.Snap(), guard, end);
  }

  method OneTurn(state: G.GameState, decisions: Decisions, ghost step: (Table, nat) -> Turn, guard: nat, ghost end: Table)
    returns (ok: bool)
    requires state.Valid() && state.handStarted && StepsBy(step, decisions)
    requires guard < GUARD && RunsTo(step, state.Snap(), guard, end)
    modifies state, state.players, state.potManager, state.rngDealer`deckIndex
    ensures state.Valid() && if ok then RunsTo(step, state.Snap(), guard + 1, end) else state.Snap() == end
  {
    ghost var t := state.Snap();
    ok := TakeDecision(state, decisions, guard);
    TurnTaken(decisions, step, t, guard, ok, state.Snap());
  }

  lemma {:induction false} TurnTaken(decisions: Decisions, step: (Table, nat) -> Turn, t: Table, guard: nat, ok: bool, r: Table)
    requires t.live && guard < GUARD && StepsBy(step, decisions) && Took(LoopTurn(t, decisions(Asked(t), guard)), ok, r)
    ensures PlayOut(step, t, guard, GUARD - guard) == if ok then PlayOut(step, r, guard + 1, GUARD - guard - 1) else r
  {
    assert step(t, guard) == LoopTurn(t, decisions(Asked(t), guard));
  }

  /** One hand, if it can start: the run the agents and their clocks determine. */
  method PlayOneHand(state: G.GameState, source: G.DeckSource, decisions: Decisions) returns (started: bool)
    requires state.Valid() && source.WellFormed() && state.Shuffles(source)
    modifies state, state.players, state.potManager, state.rngDealer, state.rngDealer.deck
    ensures state.Valid()
    ensures started ==> state.ShuffledBy(source, old(state.rngDealer.deck[..]), old(state.rngDealer.seed))
    ensures var t := old(state.Snap()); match StartHand(t, state.rngDealer.deck[..])
      case Rejected => !started && state.Snap() == t
      case Accepted(r) => started && RunsTo(Driver(decisions), r, 0, state.Snap())
  {
    started := state.StartHand(source);
    if started { PlayDecisions(state, decisions); }
  }

  /** The run of a hand that started from t. */
  ghost function PlayedOut(t: Table, deck: seq<Card>, decisions: Decisions): Table
    requires t.Shaped() && StartHand(t, deck).Accepted?
  {
    PlayOut(Driver(decisions), StartHand(t, deck).after, 0, GUARD)
  }

  // ---------- the match ----------

  datatype MatchConfig = MatchConfig(hands: nat, maxPlayers: nat, smallBlind: Chips, bigBlind: Chips,
                                     startingStack: Chips, duplicate: bool)
  {
    function Stack(): Chips { if startingStack > 0 then startingStack else 200 * bigBlind }

    function Reps(k: nat): nat { if duplicate then k else 1 }

    /** Room for the agents, ordered blinds, and stacks above a big blind. */
    predicate Playable(k: nat) {
      2 <= k <= maxPlayers <= 21 && 0 < smallBlind <= bigBlind < Stack()
    }

    /** Stacks at which no hand can reach the guard. */
    predicate GuardSuffices(k: nat)
      requires bigBlind > 0
    {
      k * ((k * Stack()) / bigBlind + k + 4) <= GUARD
    }
  }

  /** Seat i between hands: the first k seats hold players 1 to k with a full stack. */
  function BaseSeat(i: nat, k: nat, stack: Chips): Seat {
    if i < k then G.EMPTY_SEAT.(id := i + 1, chips := stack, state := Sitting) else G.EMPTY_SEAT
  }

  function BaseSeats(n: nat, k: nat, stack: Chips): (seats: seq<Seat>)
    ensures |seats| == n && forall i :: 0 <= i < n ==> seats[i] == BaseSeat(i, k, stack)
  {
    seq(n, i requires 0 <= i < n => BaseSeat(i, k, stack))
  }

  /** The table between two hands of a match. */
  ghost predicate Between(t: Table, c: MatchConfig, k: nat) {
    && t.Shaped() && !t.live && t.phase in {Waiting, HandComplete}
    && t.smallBlind == c.smallBlind && t.bigBlind == c.bigBlind
    && t.seats == BaseSeats(c.maxPlayers, k, c.Stack())
  }

  lemma {:induction false} BaseSum(n: nat, k: nat, stack: Chips, f: Seat -> int, each: int)
    requires k <= n && forall i: nat :: f(BaseSeat(i, k, stack)) == if i < k then each else 0
    ensures Sum(BaseSeats(n, k, stack), f) == k * each
  {
    if n > 0 {
      var seats := BaseSeats(n, k, stack);
      var k' := if k < n then k else n - 1;
      BaseSumPrefix(seats[..n - 1], k', k, stack, f, each);
      assert k == k' || k * each == k' * each + each;
    }
  }

  lemma {:induction false} BaseSumPrefix(seats: seq<Seat>, m: nat, k: nat, stack: Chips, f: Seat -> int, each: int)
    requires forall i :: 0 <= i < |seats| ==> seats[i] == BaseSeat(i, k, stack)
    requires forall i: nat :: f(BaseSeat(i, k, stack)) == if i < k then each else 0
    requires m == if k < |seats| then k else |seats|
    ensures Sum(seats, f) == m * each
  {
    if seats != [] {
      var n := |seats| - 1;
      var m' := if k < n then k else n;
      BaseSumPrefix(seats[..n], m', k, stack, f, each);
      assert m == m' || m * each == m' * each + each;
    }
  }

  /** How many seats are taken and what they hold. */
  lemma {:induction false} BaseTotals(n: nat, k: nat, stack: Chips)
    requires k <= n
    ensures var seats := BaseSeats(n, k, stack);
      Sum(seats, OneIfSeated) == k && Sum(seats, ChipsOf) == Wealth(seats) == k * stack
  {
    BaseSum(n, k, stack, OneIfSeated, 1);
    BaseSum(n, k, stack, ChipsOf, stack);
    BaseSum(n, k, stack, WealthOf, stack);
  }

  lemma {:induction false} BaseReady(n: nat, k: nat, stack: Chips, bigBlind: Chips)
    requires k <= n && 0 < bigBlind < stack
    ensures var seats := BaseSeats(n, k, stack);
      IdsOk(seats) && forall i :: 0 <= i < n ==> SeatReady(seats[i], bigBlind)
  {
  }

  lemma {:induction false} BetweenReady(t: Table, c: MatchConfig, k: nat)
    requires Between(t, c, k) && c.Playable(k) && Sum(t.seats, OneIfSeated) == k
    ensures Ready(t)
  {
    BaseReady(c.maxPlayers, k, c.Stack(), c.bigBlind);
  }

  lemma {:induction false} GuardIff(t: Table, c: MatchConfig, k: nat)
    requires t.bigBlind == c.bigBlind > 0 && Sum(t.seats, OneIfSeated) == k && Wealth(t.seats) == k * c.Stack()
    ensures HandBound(t) <= GUARD <==> c.GuardSuffices(k)
  {
  }

  lemma {:induction false} BetweenIsReady(t: Table, c: MatchConfig, k: nat)
    requires Between(t, c, k) && c.Playable(k)
    ensures Ready(t) && Sum(t.seats, ChipsOf) == k * c.Stack() && Sum(t.seats, OneIfSeated) == k
    ensures HandBound(t) <= GUARD <==> c.GuardSuffices(k)
  {
    BaseTotals(c.maxPlayers, k, c.Stack());
    GuardIff(t, c, k);
    BetweenReady(t, c, k);
  }

  /** Everybody sits down with the starting stack, or with 200 big blinds if none is given. */
  lemma {:induction false} StartsWith(c: MatchConfig, k: nat, i: nat)
    requires i < k <= c.maxPlayers
    ensures BaseSeats(c.maxPlayers, k, c.Stack())[i].chips == if c.startingStack <= 0 then 200 * c.bigBlind else c.startingStack
    ensures BaseSeats(c.maxPlayers, k, c.Stack())[i].id == i + 1
  {
  }

  /** At the default stack the guard suffices for every number of agents. */
  lemma {:induction false} DefaultGuardSuffices(c: MatchConfig, k: nat)
    requires c.Playable(k) && c.startingStack <= 0
    ensures c.GuardSuffices(k)
  {
    var t := BaseTable(c, k, 0);
    BetweenIsReady(t, c, k);
    BaseTotals(c.maxPlayers, k, c.Stack());
    GuardNeverFires(t);
  }

  // ---------- seating, settling up, resetting ----------

  /** Sits player s + 1 at seat s, for the first k seats. */
  method SeatPlayers(state: G.GameState, c: MatchConfig, k: nat)
    requires state.Valid() && k <= c.maxPlayers == |state.players| && c.Stack() >= 0
    requires state.Seats() == BaseSeats(c.maxPlayers, 0, c.Stack())
    modifies state.players
    ensures state.Valid() && state.Snap() == old(state.Snap()).(seats := BaseSeats(c.maxPlayers, k, c.Stack()))
  {
    var s := 0;
    while s < k
      invariant 0 <= s <= k && state.Valid()
      invariant state.Snap() == old(state.Snap()).(seats := BaseSeats(c.maxPlayers, s, c.Stack()))
    {
      SeatOne(state, c, s);
      s := s + 1;
    }
  }

  method SeatOne(state: G.GameState, c: MatchConfig, s: nat)
    requires state.Valid() && s < c.maxPlayers && c.Stack() >= 0 && state.Seats() == BaseSeats(c.maxPlayers, s, c.Stack())
    modifies state.players
    ensures state.Valid() && state.Snap() == old(state.Snap()).(seats := BaseSeats(c.maxPlayers, s + 1, c.Stack()))
  {
    SeatTaken(state.Snap(), c.maxPlayers, s, c.Stack());
    var ok := state.AddPlayerAtSeat(s + 1, c.Stack(), s);
  }

  lemma {:induction false} SeatTaken(t: Table, n: nat, s: nat, stack: Chips)
    requires s < n && t.seats == BaseSeats(n, s, stack)
    ensures AddPlayerAtSeat(t, s + 1, stack, s) == Accepted(t.(seats := BaseSeats(n, s + 1, stack)))
  {
    var next := t.seats[s := t.seats[s].(id := s + 1, chips := stack, state := Sitting)];
    assert next == BaseSeats(n, s + 1, stack);
  }

  /** During a match: the players are where they were, with what they now have. */
  ghost predicate Held(seats: seq<Seat>, c: MatchConfig, k: nat) {
    |seats| == c.maxPlayers && k <= |seats| && forall i :: 0 <= i < |seats| ==> SamePlayer(BaseSeat(i, k, c.Stack()), seats[i])
  }

  /** After a hand that ended they are at rest. */
  ghost predicate Settled(seats: seq<Seat>) {
    forall i :: 0 <= i < |seats| ==> AtRest(seats[i]) && Unplaced(seats[i])
  }

  /** SetPlayerChips for each of the k players. */
  method ResetStacks(state: G.GameState, c: MatchConfig, k: nat)
    requires state.Valid() && c.Stack() >= 0 && Held(state.Seats(), c, k)
    modifies state.players
    ensures state.Valid() && state.Snap() == old(state.Snap()).(seats := state.Seats())
    ensures old(Settled(state.Seats())) ==> state.Seats() == BaseSeats(c.maxPlayers, k, c.Stack())
  {
    var s := 0;
    ghost var settled := Settled(state.Seats());
    while s < k
      invariant 0 <= s <= k && state.Valid() && state.Snap() == old(state.Snap()).(seats := state.Seats())
      invariant settled ==> PartlyReset(state.Seats(), c.maxPlayers, s, k, c.Stack())
    {
      if settled { StackReset(state.Snap(), c.maxPlayers, s, k, c.Stack()); }
      ResetOne(state, s, c.Stack());
      s := s + 1;
    }
    if settled { AllReset(state.Seats(), c.maxPlayers, k, c.Stack()); }
  }

  method ResetOne(state: G.GameState, s: nat, stack: Chips)
    requires state.Valid() && stack >= 0
    modifies state.players
    ensures state.Valid() && state.Snap() == SetPlayerChips(old(state.Snap()), s + 1, stack)
    ensures state.Snap() == old(state.Snap()).(seats := state.Seats())
  {
    var ok := state.SetPlayerChips(s + 1, stack);
  }

  ghost predicate PartlyReset(seats: seq<Seat>, n: nat, s: nat, k: nat, stack: Chips) {
    |seats| == n && forall i :: 0 <= i < n ==>
      if i < s then seats[i] == BaseSeat(i, k, stack)
      else SamePlayer(BaseSeat(i, k, stack), seats[i]) && AtRest(seats[i]) && Unplaced(seats[i])
  }

  lemma {:induction false} StackReset(t: Table, n: nat, s: nat, k: nat, stack: Chips)
    requires s < k <= n && PartlyReset(t.seats, n, s, k, stack)
    ensures PartlyReset(SetPlayerChips(t, s + 1, stack).seats, n, s + 1, k, stack)
  {
    assert SamePlayer(BaseSeat(s, k, stack), t.seats[s]);
    var i := OccupiedSeatOf(t.seats, s + 1);
    assert i == s;
  }

  lemma {:induction false} AllReset(seats: seq<Seat>, n: nat, k: nat, stack: Chips)
    requires k <= n && PartlyReset(seats, n, k, k, stack)
    ensures seats == BaseSeats(n, k, stack)
  {
    forall i | 0 <= i < n ensures seats[i] == BaseSeat(i, k, stack) {
      if i >= k { assert SamePlayer(BaseSeat(i, k, stack), seats[i]); }
    }
  }

  /** The chips of the first seat holding the id. */
  function StackIn(seats: seq<Seat>, id: int): Chips {
    var i := SeatOf(seats, id);
    if i < 0 then 0 else seats[i].chips
  }

  /** The agent playing seat s in rotation r of k. */
  function AgentAt(s: nat, r: nat, k: nat): (a: nat)
    requires k > 0
    ensures a < k
  {
    (s + r) % k
  }

  /** Each of the first s seats has had its result credited to its agent, the others not yet. */
  ghost predicate Credited(seats: seq<Seat>, stack: Chips, r: nat, k: nat, s: nat, before: seq<Chips>, after: seq<Chips>) {
    s <= k <= |seats| && |before| == k == |after| && k > 0 && forall i :: 0 <= i < k ==>
      after[AgentAt(i, r, k)] == before[AgentAt(i, r, k)] + if i < s then seats[i].chips - stack else 0
  }

  /** One seat's result. */
  lemma {:induction false} CreditOne(seats: seq<Seat>, stack: Chips, r: nat, k: nat, s: nat, before: seq<Chips>, net: seq<Chips>)
    requires Credited(seats, stack, r, k, s, before, net) && s < k
    ensures var a := AgentAt(s, r, k); var after := net[a := net[a] + (seats[s].chips - stack)];
      Credited(seats, stack, r, k, s + 1, before, after) && SumOf(after) == SumOf(net) + (seats[s].chips - stack)
  {
    var a := AgentAt(s, r, k);
    SumOfUpdate(net, a, net[a] + (seats[s].chips - stack));
    forall i | 0 <= i < k && i != s ensures AgentAt(i, r, k) != a {
      if AgentAt(i, r, k) == a { ShiftInjective(i, s, r, k); }
    }
  }

  /** What the first s seats have won between them. */
  ghost predicate Won(seats: seq<Seat>, stack: Chips, s: nat, handSum: Chips) {
    s <= |seats| && handSum == Sum(seats[..s], ChipsOf) - s * stack
  }

  lemma {:induction false} WonMore(seats: seq<Seat>, stack: Chips, s: nat, handSum: Chips)
    requires s < |seats| && Won(seats, stack, s, handSum)
    ensures Won(seats, stack, s + 1, handSum + (seats[s].chips - stack))
  {
    assert seats[..s + 1][..s] == seats[..s];
    assert (s + 1) * stack == s * stack + stack;
  }

  /** What they have won between them is what all seats hold less what they bought in for. */
  lemma {:induction false} WonTogether(seats: seq<Seat>, c: MatchConfig, k: nat, handSum: Chips)
    requires Held(seats, c, k) && Won(seats, c.Stack(), k, handSum)
    ensures handSum == Sum(seats, ChipsOf) - k * c.Stack()
  {
    PlayersHoldAll(seats, c, k, |seats|);
    assert seats[..|seats|] == seats;
  }

  /** Credit every seat's result to the agent that played it. */
  method Tally(seats: seq<Seat>, c: MatchConfig, k: nat, r: nat, net: seq<Chips>) returns (after: seq<Chips>, handSum: Chips)
    requires k > 0 && |net| == k && Held(seats, c, k)
    ensures handSum == Sum(seats, ChipsOf) - k * c.Stack()
    ensures Credited(seats, c.Stack(), r, k, k, net, after) && SumOf(after) == SumOf(net) + handSum
  {
    var stack := c.Stack();
    after, handSum := net, 0;
    var s := 0;
    while s < k
      invariant 0 <= s <= k && Credited(seats, stack, r, k, s, net, after)
      invariant SumOf(after) == SumOf(net) + handSum && Won(seats, stack, s, handSum)
    {
      PlayerFound(seats, c, k, s);
      CreditOne(seats, stack, r, k, s, net, after);
      WonMore(seats, stack, s, handSum);
      var chips := StackIn(seats, s + 1);
      handSum := handSum + (chips - stack);
      after := after[AgentAt(s, r, k) := after[AgentAt(s, r, k)] + (chips - stack)];
      s := s + 1;
    }
    WonTogether(seats, c, k, handSum);
  }

  lemma {:induction false} PlayerFound(seats: seq<Seat>, c: MatchConfig, k: nat, s: nat)
    requires Held(seats, c, k) && s < k
    ensures StackIn(seats, s + 1) == seats[s].chips
  {
    assert SamePlayer(BaseSeat(s, k, c.Stack()), seats[s]);
    forall i | 0 <= i < s ensures seats[i].id != seats[s].id {
      assert SamePlayer(BaseSeat(i, k, c.Stack()), seats[i]);
    }
    assert SeatOf(seats, s + 1) == s;
  }

  lemma {:induction false} PlayersHoldAll(seats: seq<Seat>, c: MatchConfig, k: nat, n: nat)
    requires Held(seats, c, k) && k <= n <= |seats|
    ensures Sum(seats[..n], ChipsOf) == Sum(seats[..k], ChipsOf)
    decreases n
  {
    if n > k {
      PlayersHoldAll(seats, c, k, n - 1);
      assert seats[..n][..n - 1] == seats[..n - 1];
      assert SamePlayer(BaseSeat(n - 1, k, c.Stack()), seats[n - 1]);
    }
  }

  // ---------- what the cards depend on ----------

  const NO_SEED: seq<H.Byte> := H.Repeat(0, 32)

  /** A stored seed of full length, so that nothing of an earlier seed is left, and its nonce. */
  ghost predicate SourceOk(f: H.Compress, source: G.DeckSource) {
    && source.Stored? && source.WellFormed() && |source.seedHex| >= 64
    && D.Productive(D.TapeOf(f, source.Seed(NO_SEED), source.Nonce()))
  }

  ghost predicate SourcesOk(f: H.Compress, sources: nat -> G.DeckSource) {
    forall h: nat {:trigger SourceOk(f, sources(h))} :: SourceOk(f, sources(h))
  }

  lemma {:induction false} SeedReplaced(source: G.DeckSource, before: seq<H.Byte>)
    requires source.Stored? && source.WellFormed() && |source.seedHex| >= 64 && |before| == 32
    ensures source.Seed(before) == source.Seed(NO_SEED)
  {
  }

  /** The decks of a rotation: entry h is the deck before hand h. */
  type Decks = nat -> seq<Card>

  /** The deck after one more shuffle, from a source that can key one. */
  ghost function NextDeck(f: H.Compress, deck: seq<Card>, source: G.DeckSource): (next: seq<Card>)
    ensures |deck| == 52 ==> |next| == 52
  {
    if |deck| == 52 && SourceOk(f, source) then D.ShuffledDeck(f, deck, source.Seed(NO_SEED), source.Nonce()) else deck
  }

  /** The deck before hand h: the sorted deck, shuffled once per hand already dealt. */
  ghost function DeckAt(f: H.Compress, sources: nat -> G.DeckSource, h: nat): (deck: seq<Card>)
    ensures |deck| == 52
  {
    if h == 0 then D.SORTED_DECK else NextDeck(f, DeckAt(f, sources, h - 1), sources(h - 1))
  }

  ghost function DecksOf(f: H.Compress, sources: nat -> G.DeckSource): (decks: Decks)
    ensures Dealt(decks) && Shuffled(decks, f, sources) && decks(0) == D.SORTED_DECK
  {
    (h: nat) => DeckAt(f, sources, h)
  }

  ghost predicate Dealt(decks: Decks) {
    forall h: nat {:trigger decks(h)} :: |decks(h)| == 52
  }

  /** Each deck is the one before, shuffled from the source of its hand. */
  ghost predicate Shuffled(decks: Decks, f: H.Compress, sources: nat -> G.DeckSource) {
    forall h: nat {:trigger NextDeck(f, decks(h), sources(h))} :: decks(h + 1) == NextDeck(f, decks(h), sources(h))
  }

  /** Where the button goes next. */
  function NextButton(c: MatchConfig, k: nat, b: nat): nat {
    if b < c.maxPlayers then NextSeated(BaseSeats(c.maxPlayers, k, c.Stack()), b) else b
  }

  /** The button before hand h. */
  function ButtonAt(c: MatchConfig, k: nat, h: nat): nat {
    if h == 0 then 0 else NextButton(c, k, ButtonAt(c, k, h - 1))
  }

  /** The table between hands with nothing left of the hands before but the button. */
  function BaseTable(c: MatchConfig, k: nat, button: nat): Table {
    Table(BaseSeats(c.maxPlayers, k, c.Stack()), [], [], 0, HandComplete, button, 0, 0, 0, false, c.smallBlind, c.bigBlind)
  }

  /** The table once hand h has been dealt: it mentions no agent, no rotation and no earlier hand. */
  ghost function OpeningAt(decks: Decks, c: MatchConfig, k: nat, h: nat): Outcome
    requires ButtonAt(c, k, h) < c.maxPlayers
  {
    StartHand(BaseTable(c, k, ButtonAt(c, k, h)), decks(h + 1))
  }

  /** Dealing reads only the seats and the deck. */
  lemma {:induction false} DealHolesSame(t: Table, u: Table, k: nat)
    requires k <= |t.seats| && u.seats == t.seats && u.deck == t.deck && u.dealt == t.dealt
    ensures SameDeal(DealHoles(t, k), DealHoles(u, k))
  {
    if k > 0 {
      DealHolesSame(t, u, k - 1);
      DealOneSame(DealHoles(t, k - 1), DealHoles(u, k - 1), k - 1);
      NextDealt(t, k);
      NextDealt(u, k);
    }
  }

  ghost predicate SameDeal(t: Table, u: Table) {
    u.seats == t.seats && u.deck == t.deck && u.dealt == t.dealt
  }

  lemma {:induction false} DealOneSame(t: Table, u: Table, i: nat)
    requires i < |t.seats| && SameDeal(t, u)
    ensures SameDeal(DealtOne(t, i), DealtOne(u, i))
  {
  }

  lemma {:induction false} DealtInIgnores(x: Table, turn: nat, lastRaise: Chips)
    requires x.Shaped() && turn < |x.seats|
    ensures DealtIn(x.(turn := turn, lastRaise := lastRaise)) == DealtIn(x).(turn := turn, lastRaise := lastRaise)
  {
    var posted := PostBlinds(RotateButton(x));
    var posted' := PostBlinds(RotateButton(x.(turn := turn, lastRaise := lastRaise)));
    assert posted' == posted.(turn := turn, lastRaise := lastRaise);
    DealHolesSame(posted, posted', |posted.seats|);
  }

  lemma {:induction false} StartIgnores(d: Table, turn: nat, lastRaise: Chips)
    requires d.Shaped() && turn < |d.seats| && ActiveCount(d.seats) >= 2 && PendingCount(d.seats) > 0
    ensures StartBettingRound(d.(turn := turn, lastRaise := lastRaise)) == StartBettingRound(d)
    ensures StartBettingRound(d).button == d.button
  {
    var j := SumWitness(d.seats, OneIfPending);
    FindFinds(d.seats, StartSeat(d), 0, Pending, j);
  }

  /** How a hand opens depends on the seats, the button, the blinds and the deck, and on nothing else
      that earlier hands may have left. */
  lemma {:induction false} SameOpening(t: Table, c: MatchConfig, k: nat, deck: seq<Card>)
    requires Between(t, c, k) && c.Playable(k) && |deck| == 52
    ensures StartHand(t, deck) == StartHand(BaseTable(c, k, t.button), deck)
    ensures StartHand(t, deck).Accepted? && StartHand(t, deck).after.button == NextSeated(t.seats, t.button)
  {
    var u := BaseTable(c, k, t.button);
    BetweenIsReady(t, c, k);
    ClearedReady(t, deck);
    SumBounds(t.seats, OneIfSeated, 0, 1);
    var d := DealtIn(Cleared(u, deck));
    assert Cleared(t, deck) == Cleared(u, deck).(turn := t.turn, lastRaise := t.lastRaise);
    DealtInIgnores(Cleared(u, deck), t.turn, t.lastRaise);
    DealtCounts(u, c, k, deck);
    StartIgnores(d, t.turn, t.lastRaise);
  }

  /** Whatever was played before it and whoever sits where, hand h opens the same way: same button,
      same blinds, same hole cards in each seat, same first player to act, same deck to come. */
  lemma {:induction false} OpeningFixed(t: Table, c: MatchConfig, k: nat, decks: Decks, h: nat)
    requires Between(t, c, k) && c.Playable(k) && Dealt(decks) && t.button == ButtonAt(c, k, h)
    ensures StartHand(t, decks(h + 1)) == OpeningAt(decks, c, k, h)
  {
    SameOpening(t, c, k, decks(h + 1));
  }

  lemma {:induction false} DealtCounts(u: Table, c: MatchConfig, k: nat, deck: seq<Card>)
    requires Between(u, c, k) && c.Playable(k) && |deck| == 52
    ensures var d := DealtIn(Cleared(u, deck));
      ActiveCount(d.seats) == PendingCount(d.seats) >= 2 && d.button == NextSeated(u.seats, u.button)
  {
    BetweenIsReady(u, c, k);
    SumBounds(u.seats, OneIfSeated, 0, 1);
    DealtActive(u, deck);
    ClearedSeats(u, c, k);
    ButtonNext(Cleared(u, deck));
  }

  lemma {:induction false} ClearedSeats(u: Table, c: MatchConfig, k: nat)
    requires Between(u, c, k)
    ensures MapSeats(u.seats, ResetHandSeat) == u.seats
  {
  }

  lemma {:induction false} ButtonNext(x: Table)
    requires x.Shaped()
    ensures DealtIn(x).button == NextSeated(x.seats, x.button)
  {
  }

  lemma {:induction false} DealtActive(u: Table, deck: seq<Card>)
    requires Ready(u) && DeckCovers(u, deck)
    ensures var d := DealtIn(Cleared(u, deck)); ActiveCount(d.seats) == PendingCount(d.seats) >= 2
  {
    var b := DealtShape(u, deck);
    DealtIsSound(u, DealtIn(Cleared(u, deck)), b);
  }

  // ---------- one hand of a match ----------

  /** A hand of the match: it starts as the schedule has it, and comes to its end or stays open. */
  lemma {:induction false} HandComes(t: Table, c: MatchConfig, k: nat, deck: seq<Card>, decisions: Decisions)
    requires Between(t, c, k) && c.Playable(k) && |deck| == 52
    ensures StartHand(t, deck).Accepted? && StartHand(t, deck) == StartHand(BaseTable(c, k, t.button), deck)
    ensures var r := PlayedOut(t, deck, decisions);
      CameTo(t, r) && Held(r.seats, c, k) && (!r.live ==> r.button == NextButton(c, k, t.button))
  {
    BetweenIsReady(t, c, k);
    SameOpening(t, c, k, deck);
    HandComesTo(t, deck, decisions, GUARD);
    var r := PlayedOut(t, deck, decisions);
    forall i | 0 <= i < |r.seats| ensures SamePlayer(BaseSeat(i, k, c.Stack()), r.seats[i]) {
      assert SamePlayer(t.seats[i], r.seats[i]);
    }
  }

  /** The hand the agents play from t with the deck, as far as the loop carries it. */
  ghost predicate PlaysTo(t: Table, deck: seq<Card>, decisions: Decisions, end: Table) {
    t.Shaped() && StartHand(t, deck).Accepted? && end == PlayedOut(t, deck, decisions)
  }

  /** The state after a hand, before the stacks are reset. */
  ghost predicate HandOver(end: Table, c: MatchConfig, k: nat, button: nat) {
    && end.Shaped() && Held(end.seats, c, k)
    && end.smallBlind == c.smallBlind && end.bigBlind == c.bigBlind
    && if end.live then IsBetting(end.phase)
       else end.phase == HandComplete && end.button == button && Settled(end.seats)
  }

  lemma {:induction false} CameOver(t: Table, end: Table, c: MatchConfig, k: nat, button: nat)
    requires CameTo(t, end) && Held(end.seats, c, k) && (!end.live ==> end.button == button)
    requires end.smallBlind == c.smallBlind && end.bigBlind == c.bigBlind
    ensures HandOver(end, c, k, button)
  {
  }

  /** A hand of the match starts, unless one was left open: then it is refused and nothing changes. */
  method PlayHand(state: G.GameState, c: MatchConfig, k: nat, source: G.DeckSource, decisions: Decisions, ghost open: bool)
    returns (started: bool)
    requires state.Valid() && c.Playable(k) && source.WellFormed() && state.Shuffles(source)
    requires if open then IsBetting(state.phase) else Between(state.Snap(), c, k)
    modifies state, state.players, state.potManager, state.rngDealer, state.rngDealer.deck
    ensures state.Valid() && started == !open
    ensures open ==> state.Snap() == old(state.Snap())
    ensures !open ==> state.ShuffledBy(source, old(state.rngDealer.deck[..]), old(state.rngDealer.seed))
    ensures !open ==> HandPlayed(old(state.Snap()), state.rngDealer.deck[..], decisions, state.Snap(), c, k)
  {
    ghost var t := state.Snap();
    started := PlayOneHand(state, source, decisions);
    if !open {
      HandComes(t, c, k, state.rngDealer.deck[..], decisions);
      CameOver(t, state.Snap(), c, k, NextButton(c, k, t.button));
    }
  }

  ghost predicate HandPlayed(t: Table, deck: seq<Card>, decisions: Decisions, end: Table, c: MatchConfig, k: nat) {
    PlaysTo(t, deck, decisions, end) && CameTo(t, end) && HandOver(end, c, k, NextButton(c, k, t.button))
  }

  /** Credit the results of the hand just played from t and reset the stacks for the next. */
  method SettleUp(state: G.GameState, c: MatchConfig, k: nat, r: nat, net: seq<Chips>, ghost t: Table)
    returns (after: seq<Chips>, handSum: Chips)
    requires state.Valid() && c.Playable(k) && |net| == k && Between(t, c, k)
    requires CameTo(t, state.Snap()) && HandOver(state.Snap(), c, k, NextButton(c, k, t.button))
    modifies state.players
    ensures state.Valid() && |after| == k && SumOf(after) == SumOf(net) + handSum
    ensures if state.handStarted then handSum < 0 && IsBetting(state.phase)
            else handSum == 0 && Between(state.Snap(), c, k) && state.dealerSeat == NextButton(c, k, t.button)
    ensures Credited(old(state.Seats()), c.Stack(), r, k, k, net, after)
  {
    HandSumSign(t, state.Snap(), c, k);
    var seats := state.AllPlayers();
    after, handSum := Tally(seats, c, k, r, net);
    ResetStacks(state, c, k);
  }

  lemma {:induction false} HandSumSign(t: Table, end: Table, c: MatchConfig, k: nat)
    requires Between(t, c, k) && c.Playable(k) && CameTo(t, end)
    ensures var handSum := Sum(end.seats, ChipsOf) - k * c.Stack(); if end.live then handSum < 0 else handSum == 0
  {
    BetweenIsReady(t, c, k);
  }

  /** One hand of a match: played as far as the loop carries it and credited to the agents, the stacks
      reset. The hand adds up to zero if and only if it ended; left open, nothing more can start. */
  method PlayAndSettle(state: G.GameState, c: MatchConfig, k: nat, r: nat, source: G.DeckSource,
                       decisions: Decisions, net: seq<Chips>, ghost open: bool)
    returns (started: bool, after: seq<Chips>, handSum: Chips, ghost end: Table)
    requires state.Valid() && c.Playable(k) && source.WellFormed() && state.Shuffles(source) && |net| == k
    requires if open then IsBetting(state.phase) else Between(state.Snap(), c, k)
    modifies state, state.players, state.potManager, state.rngDealer, state.rngDealer.deck
    ensures state.Valid() && started == !open && |after| == k && SumOf(after) == SumOf(net) + handSum
    ensures open ==> after == net && IsBetting(state.phase)
    ensures !open ==> state.ShuffledBy(source, old(state.rngDealer.deck[..]), old(state.rngDealer.seed))
    ensures !open ==> PlaysTo(old(state.Snap()), state.rngDealer.deck[..], decisions, end)
    ensures !open ==> if end.live then handSum < 0 && IsBetting(state.phase)
                      else handSum == 0 && Between(state.Snap(), c, k) && state.dealerSeat == NextButton(c, k, old(state.dealerSeat))
    ensures !open ==> Credited(end.seats, c.Stack(), r, k, k, net, after)
  {
    ghost var t := state.Snap();
    started := PlayHand(state, c, k, source, decisions, open);
    end := state.Snap();
    after, handSum := net, 0;
    if started {
      after, handSum := SettleUp(state, c, k, r, net, t);
    }
  }

  // ---------- the whole match ----------

  /** What each agent decides and what its clock does: by agent, rotation, hand and turn. */
  type Agents = (nat, nat, nat, nat) -> Decision

  /** The player with a given id is played by the agent at the seat of that number, counted from one. */
  function AgentFor(id: int, r: nat, k: nat): nat {
    if id >= 1 && k > 0 then AgentAt(id - 1, r, k) else 0
  }

  function DecisionsOf(agents: Agents, k: nat, r: nat, h: nat): Decisions {
    (id: int, i: nat) => agents(AgentFor(id, r, k), r, h, i)
  }

  /** The seat agent a has in rotation r. */
  function SeatPlayed(a: nat, r: nat, k: nat): (s: nat)
    requires a < k
    ensures s < k
  {
    (a + k - r % k) % k
  }

  lemma {:induction false} SeatIsPlayed(a: nat, r: nat, k: nat)
    requires a < k
    ensures AgentAt(SeatPlayed(a, r, k), r, k) == a
  {
    var q, d, s := r % k, r / k, SeatPlayed(a, r, k);
    ModUnique(a + k - q, k, if q > a then 0 else 1, if q > a then a + k - q else a - q);
    assert k * (d + 1) == k * d + k;
    ModUnique(s + r, k, if q > a then d + 1 else d, a);
  }

  lemma {:induction false} SeatIsOf(s: nat, a: nat, r: nat, k: nat)
    requires a < k && s < k
    ensures AgentAt(s, r, k) == a <==> s == SeatPlayed(a, r, k)
  {
    SeatIsPlayed(a, r, k);
    if AgentAt(s, r, k) == a { ShiftInjective(s, SeatPlayed(a, r, k), r, k); }
  }

  /** Agent a decides for the player at seat (a + k - r % k) % k, and another agent for any other. */
  lemma {:induction false} DecidesFor(agents: Agents, k: nat, r: nat, h: nat, i: nat, s: nat, a: nat)
    requires a < k && s < k
    ensures s == (a + k - r % k) % k ==> DecisionsOf(agents, k, r, h)(s + 1, i) == agents(a, r, h, i)
    ensures s != (a + k - r % k) % k ==> exists b: nat :: b < k && b != a && DecisionsOf(agents, k, r, h)(s + 1, i) == agents(b, r, h, i)
  {
    SeatIsOf(s, a, r, k);
    var b := AgentAt(s, r, k);
    assert AgentFor(s + 1, r, k) == b;
    assert DecisionsOf(agents, k, r, h)(s + 1, i) == agents(b, r, h, i);
  }

  lemma {:induction false} PlayerAtSeat(t: Table, c: MatchConfig, k: nat)
    requires Contested(t) && Held(t.seats, c, k)
    ensures t.turn < k && t.seats[t.turn].id == t.turn + 1
  {
    assert SamePlayer(BaseSeat(t.turn, k, c.Stack()), t.seats[t.turn]);
    assert SeatOk(t.seats[t.turn], t.currentBet);
  }

  /** In a hand of rotation r every turn of seat (a + k - r % k) % k is agent a's. */
  lemma {:induction false} AgentDecides(t: Table, c: MatchConfig, k: nat, agents: Agents, r: nat, h: nat, i: nat, a: nat)
    requires Contested(t) && Held(t.seats, c, k) && a < k && t.turn == SeatPlayed(a, r, k)
    ensures Driver(DecisionsOf(agents, k, r, h))(t, i) == LoopTurn(t, agents(a, r, h, i))
  {
    PlayerAtSeat(t, c, k);
    DecidesFor(agents, k, r, h, i, t.turn, a);
    ActorAsked(t);
    DriverAsks(t, DecisionsOf(agents, k, r, h), i, agents(a, r, h, i));
  }

  /** Hand h, dealt from its deck and with its button, comes to its end. */
  ghost predicate HandEnds(decks: Decks, c: MatchConfig, k: nat, decisions: Decisions, h: nat) {
    && ButtonAt(c, k, h) < c.maxPlayers && OpeningAt(decks, c, k, h).Accepted?
    && !PlayOut(Driver(decisions), OpeningAt(decks, c, k, h).after, 0, GUARD).live
  }

  /** What seat s makes of hand h: the stack it is left with, less the stack it started from. */
  ghost function HandNet(decks: Decks, c: MatchConfig, k: nat, decisions: Decisions, h: nat, s: nat): int {
    if ButtonAt(c, k, h) < c.maxPlayers && OpeningAt(decks, c, k, h).Accepted? then
      var end := PlayOut(Driver(decisions), OpeningAt(decks, c, k, h).after, 0, GUARD);
      if s < |end.seats| then end.seats[s].chips - c.Stack() else 0
    else 0
  }

  /** Each agent has been credited with what the seat it played made of hand h. */
  ghost predicate NetsOf(before: seq<Chips>, after: seq<Chips>, decks: Decks, c: MatchConfig, k: nat, agents: Agents, r: nat, h: nat) {
    |before| == k == |after| && forall a: nat :: a < k ==>
      after[a] == before[a] + HandNet(decks, c, k, DecisionsOf(agents, k, r, h), h, SeatPlayed(a, r, k))
  }

  lemma {:induction false} CreditedNets(before: seq<Chips>, after: seq<Chips>, decks: Decks, c: MatchConfig, k: nat,
                                        agents: Agents, r: nat, h: nat, t: Table, end: Table)
    requires Between(t, c, k) && c.Playable(k) && Dealt(decks) && t.button == ButtonAt(c, k, h)
    requires PlaysTo(t, decks(h + 1), DecisionsOf(agents, k, r, h), end)
    requires Credited(end.seats, c.Stack(), r, k, k, before, after)
    ensures NetsOf(before, after, decks, c, k, agents, r, h)
  {
    ButtonInRange(c, k, h);
    OpeningFixed(t, c, k, decks, h);
    forall a: nat | a < k
      ensures after[a] == before[a] + HandNet(decks, c, k, DecisionsOf(agents, k, r, h), h, SeatPlayed(a, r, k))
    {
      SeatIsPlayed(a, r, k);
      assert after[AgentAt(SeatPlayed(a, r, k), r, k)] == before[a] + (end.seats[SeatPlayed(a, r, k)].chips - c.Stack());
    }
  }

  /** Exactly when no turn strands it, if the guard suffices. */
  lemma {:induction false} HandEndsUnlessStranded(decks: Decks, c: MatchConfig, k: nat, decisions: Decisions, h: nat)
    requires Dealt(decks) && c.Playable(k) && c.GuardSuffices(k)
    ensures ButtonAt(c, k, h) < c.maxPlayers && OpeningAt(decks, c, k, h).Accepted?
    ensures HandEnds(decks, c, k, decisions, h) <==>
      !exists n: nat :: n < GUARD && StrandedAt(decisions, OpeningAt(decks, c, k, h).after, n)
  {
    ButtonInRange(c, k, h);
    var t := BaseTable(c, k, ButtonAt(c, k, h));
    BetweenIsReady(t, c, k);
    HandEndsIff(t, decks(h + 1), decisions, GUARD);
  }

  /** In particular when every clock is in time. */
  lemma {:induction false} OnTimeHandsEnd(decks: Decks, c: MatchConfig, k: nat, decisions: Decisions, h: nat)
    requires Dealt(decks) && c.Playable(k) && c.GuardSuffices(k) && forall id: int, i: nat :: decisions(id, i).OnTime()
    ensures HandEnds(decks, c, k, decisions, h)
  {
    ButtonInRange(c, k, h);
    var t := BaseTable(c, k, ButtonAt(c, k, h));
    BetweenIsReady(t, c, k);
    HandConservesAndEnds(t, decks(h + 1), decisions, GUARD);
  }

  lemma {:induction false} ButtonInRange(c: MatchConfig, k: nat, h: nat)
    requires c.Playable(k)
    ensures ButtonAt(c, k, h) < c.maxPlayers
  {
    if h > 0 { ButtonInRange(c, k, h - 1); }
  }

  /** The deck and the button are those fixed for hand h. */
  ghost predicate OnSchedule(t: Table, decks: Decks, c: MatchConfig, k: nat, h: nat) {
    t.deck == decks(h) && t.button == ButtonAt(c, k, h)
  }

  lemma {:induction false} DeckMoved(state: G.GameState, decks: Decks, sources: nat -> G.DeckSource, h: nat, seed: seq<H.Byte>)
    requires SourceOk(state.rngDealer.compress, sources(h)) && |seed| == 32
    requires Dealt(decks) && Shuffled(decks, state.rngDealer.compress, sources)
    requires state.ShuffledBy(sources(h), decks(h), seed)
    ensures state.rngDealer.deck[..] == decks(h + 1)
  {
    SeedReplaced(sources(h), seed);
    assert decks(h + 1) == NextDeck(state.rngDealer.compress, decks(h), sources(h));
  }

  lemma {:induction false} ScheduledEnd(t: Table, c: MatchConfig, k: nat, decks: Decks, h: nat, decisions: Decisions, end: Table)
    requires Between(t, c, k) && c.Playable(k) && Dealt(decks) && t.button == ButtonAt(c, k, h)
    requires PlaysTo(t, decks(h + 1), decisions, end)
    ensures end.live <==> !HandEnds(decks, c, k, decisions, h)
  {
    ButtonInRange(c, k, h);
    OpeningFixed(t, c, k, decks, h);
  }

  /** Hand h of a rotation: whatever was played before, it is dealt from the deck and with the button
      fixed for hand h, and adds up to zero if and only if that hand comes to its end. After a hand
      left open it is refused. */
  method PlayScheduled(state: G.GameState, c: MatchConfig, k: nat, sources: nat -> G.DeckSource, ghost decks: Decks,
                       agents: Agents, r: nat, h: nat, net: seq<Chips>, ghost open: bool)
    returns (started: bool, after: seq<Chips>, handSum: Chips)
    requires state.Valid() && c.Playable(k) && |net| == k && SourcesOk(state.rngDealer.compress, sources)
    requires Dealt(decks) && Shuffled(decks, state.rngDealer.compress, sources)
    requires open ==> IsBetting(state.phase)
    requires !open ==> Between(state.Snap(), c, k) && OnSchedule(state.Snap(), decks, c, k, h)
    modifies state, state.players, state.potManager, state.rngDealer, state.rngDealer.deck
    ensures state.Valid() && started == !open && |after| == k && SumOf(after) == SumOf(net) + handSum
    ensures open ==> after == net && IsBetting(state.phase)
    ensures !open ==>
              if HandEnds(decks, c, k, DecisionsOf(agents, k, r, h), h)
              then handSum == 0 && Between(state.Snap(), c, k) && OnSchedule(state.Snap(), decks, c, k, h + 1)
              else handSum < 0 && IsBetting(state.phase)
    ensures !open ==> NetsOf(net, after, decks, c, k, agents, r, h)
  {
    ghost var seed, t := state.rngDealer.seed, state.Snap();
    ScheduledSource(state, sources, h);
    ghost var end: Table;
    started, after, handSum, end := PlayAndSettle(state, c, k, r, sources(h), DecisionsOf(agents, k, r, h), net, open);
    if !open {
      DeckMoved(state, decks, sources, h, seed);
      ScheduledEnd(t, c, k, decks, h, DecisionsOf(agents, k, r, h), end);
      CreditedNets(net, after, decks, c, k, agents, r, h, t, end);
    }
  }

  lemma {:induction false} ScheduledSource(state: G.GameState, sources: nat -> G.DeckSource, h: nat)
    requires state.Valid() && SourcesOk(state.rngDealer.compress, sources)
    ensures SourceOk(state.rngDealer.compress, sources(h)) && sources(h).WellFormed() && state.Shuffles(sources(h))
  {
    assert SourceOk(state.rngDealer.compress, sources(h));
    SeedReplaced(sources(h), state.rngDealer.seed);
  }

  /** A new table with the agents seated, on schedule for the first hand. */
  method OpenTable(c: MatchConfig, k: nat, compress: H.Compress, entropy: seq<H.Byte>) returns (state: G.GameState)
    requires c.Playable(k) && |entropy| == 32
    ensures state.Valid() && Between(state.Snap(), c, k) && state.rngDealer.compress == compress
    ensures state.Snap().deck == D.SORTED_DECK && state.dealerSeat == 0
    ensures fresh(state) && fresh(state.players) && fresh(state.potManager) && fresh(state.rngDealer) && fresh(state.rngDealer.deck)
  {
    var dealer := new D.Dealer(compress, entropy);
    state := new G.GameState(c.maxPlayers, c.smallBlind, c.bigBlind, dealer);
    assert state.Seats() == BaseSeats(c.maxPlayers, 0, c.Stack());
    SeatPlayers(state, c, k);
  }

  /** Where the table stands after n hands of a rotation: on schedule while they all ended, and
      blocked from the first left open. */
  ghost predicate InRotation(t: Table, decks: Decks, c: MatchConfig, k: nat, n: nat, conserved: bool) {
    if conserved then Between(t, c, k) && OnSchedule(t, decks, c, k, n) else IsBetting(t.phase)
  }

  /** How the hands of the match go: the result of agent a is that of the seat it plays. */
  ghost function CourseOf(decks: Decks, c: MatchConfig, k: nat, agents: Agents): Course {
    Course((r: nat, h: nat) => HandEnds(decks, c, k, DecisionsOf(agents, k, r, h), h),
           (r: nat, h: nat, a: nat) =>
             if a < k then HandNet(decks, c, k, DecisionsOf(agents, k, r, h), h, SeatPlayed(a, r, k)) else 0)
  }

  /** The same, kept out of sight between hands. */
  ghost predicate Follows(course: Course, decks: Decks, c: MatchConfig, k: nat, agents: Agents) {
    && (forall r: nat, h: nat {:trigger HandEnds(decks, c, k, DecisionsOf(agents, k, r, h), h)} ::
          course.ends(r, h) <==> HandEnds(decks, c, k, DecisionsOf(agents, k, r, h), h))
    && (forall r: nat, h: nat, a: nat {:trigger HandNet(decks, c, k, DecisionsOf(agents, k, r, h), h, SeatPlayed(a, r, k))} ::
          a < k ==> course.nets(r, h, a) == HandNet(decks, c, k, DecisionsOf(agents, k, r, h), h, SeatPlayed(a, r, k)))
  }

  lemma {:induction false} CourseFollows(decks: Decks, c: MatchConfig, k: nat, agents: Agents)
    ensures Follows(CourseOf(decks, c, k, agents), decks, c, k, agents)
  {
  }

  /** A hand that was dealt, entered into the accounts. */
  lemma {:induction false} HandEntered(net: seq<Chips>, before: seq<Chips>, after: seq<Chips>, still: bool, course: Course,
                                       decks: Decks, c: MatchConfig, k: nat, agents: Agents, r: nat, n: nat)
    requires Follows(course, decks, c, k, agents) && Tallied(net, before, n, true, course, r, n)
    requires NetsOf(before, after, decks, c, k, agents, r, n)
    requires still <==> HandEnds(decks, c, k, DecisionsOf(agents, k, r, n), n)
    requires if still then SumOf(after) == SumOf(before) else SumOf(after) < SumOf(before)
    ensures Tallied(net, after, n + 1, still, course, r, n + 1)
  {
    forall a: nat | a < |before| ensures after[a] == before[a] + course.nets(r, n, a) {
      assert course.nets(r, n, a) == HandNet(decks, c, k, DecisionsOf(agents, k, r, n), n, SeatPlayed(a, r, k));
    }
    HandTallied(net, before, after, n, still, course, r, n);
  }

  /** The next hand of a rotation. */
  method NextHand(state: G.GameState, c: MatchConfig, k: nat, sources: nat -> G.DeckSource, ghost decks: Decks, agents: Agents,
                  r: nat, n: nat, conserved: bool, ghost net: seq<Chips>, before: seq<Chips>, ghost course: Course)
    returns (started: bool, after: seq<Chips>, still: bool)
    requires state.Valid() && c.Playable(k) && |before| == k && SourcesOk(state.rngDealer.compress, sources)
    requires Dealt(decks) && Shuffled(decks, state.rngDealer.compress, sources)
    requires InRotation(state.Snap(), decks, c, k, n, conserved) && Follows(course, decks, c, k, agents)
    requires n < c.hands && Tallied(net, before, n, conserved, course, r, n)
    modifies state, state.players, state.potManager, state.rngDealer, state.rngDealer.deck
    ensures state.Valid() && started == conserved && |after| == k
    ensures started ==> InRotation(state.Snap(), decks, c, k, n + 1, still) && Tallied(net, after, n + 1, still, course, r, n + 1)
    ensures !started ==> Tallied(net, before, n, false, course, r, c.hands)
  {
    var handSum;
    started, after, handSum := PlayScheduled(state, c, k, sources, decks, agents, r, n, before, !conserved);
    still := conserved && handSum == 0;
    if started {
      HandEntered(net, before, after, still, course, decks, c, k, agents, r, n);
    } else {
      CutShort(net, before, n, course, r, n, c.hands);
    }
  }

  /** The hands of a rotation on a table that is ready for them. */
  method PlayHands(state: G.GameState, c: MatchConfig, k: nat, sources: nat -> G.DeckSource, ghost decks: Decks, agents: Agents,
                   r: nat, net: seq<Chips>, ghost course: Course)
    returns (after: seq<Chips>, played: nat, conserved: bool)
    requires state.Valid() && c.Playable(k) && |net| == k && SourcesOk(state.rngDealer.compress, sources)
    requires Dealt(decks) && Shuffled(decks, state.rngDealer.compress, sources)
    requires InRotation(state.Snap(), decks, c, k, 0, true) && Follows(course, decks, c, k, agents)
    modifies state, state.players, state.potManager, state.rngDealer, state.rngDealer.deck
    ensures |after| == k && Tallied(net, after, played, conserved, course, r, c.hands)
  {
    after, played, conserved := net, 0, true;
    NothingTallied(net, course, r);
    while played < c.hands
      invariant played <= c.hands && |after| == k && Tallied(net, after, played, conserved, course, r, played)
      invariant state.Valid() && InRotation(state.Snap(), decks, c, k, played, conserved)
    {
      var started, more, still := NextHand(state, c, k, sources, decks, agents, r, played, conserved, net, after, course);
      if !started { return after, played, false; }
      after, conserved, played := more, still, played + 1;
    }
  }

  /** All the hands of one rotation, up to the first left open. */
  method PlayRotation(c: MatchConfig, k: nat, sources: nat -> G.DeckSource, ghost decks: Decks, agents: Agents, r: nat,
                      compress: H.Compress, entropy: seq<H.Byte>, net: seq<Chips>, ghost course: Course)
    returns (after: seq<Chips>, played: nat, conserved: bool)
    requires c.Playable(k) && |entropy| == 32 && SourcesOk(compress, sources) && |net| == k
    requires Dealt(decks) && Shuffled(decks, compress, sources) && decks(0) == D.SORTED_DECK
    requires Follows(course, decks, c, k, agents)
    ensures |after| == k && Tallied(net, after, played, conserved, course, r, c.hands)
  {
    var state := OpenTable(c, k, compress, entropy);
    after, played, conserved := PlayHands(state, c, k, sources, decks, agents, r, net, course);
  }

  /** One more rotation, entered into the accounts. */
  method NextRotation(c: MatchConfig, k: nat, sources: nat -> G.DeckSource, ghost decks: Decks, agents: Agents, r: nat,
                      compress: H.Compress, entropy: seq<H.Byte>, ghost course: Course, before: MatchResult)
    returns (after: MatchResult)
    requires c.Playable(k) && |entropy| == 32 && SourcesOk(compress, sources) && |before.net| == k
    requires Dealt(decks) && Shuffled(decks, compress, sources) && decks(0) == D.SORTED_DECK
    requires Follows(course, decks, c, k, agents) && Accounted(before, course, c.hands, r)
    ensures |after.net| == k && Accounted(after, course, c.hands, r + 1)
  {
    var net, played, conserved := PlayRotation(c, k, sources, decks, agents, r, compress, entropy, before.net, course);
    RotationAdded(before, net, played, conserved, course, c.hands, r);
    after := MatchResult(net, before.handsPlayed + played, before.chipsConserved && conserved);
  }

  /** The rotations, one table after another. */
  method PlayRotations(c: MatchConfig, k: nat, sources: nat -> G.DeckSource, ghost decks: Decks, agents: Agents,
                       compress: H.Compress, entropy: seq<H.Byte>, ghost course: Course)
    returns (result: MatchResult)
    requires c.Playable(k) && |entropy| == 32 && SourcesOk(compress, sources)
    requires Dealt(decks) && Shuffled(decks, compress, sources) && decks(0) == D.SORTED_DECK
    requires Follows(course, decks, c, k, agents)
    ensures |result.net| == k && Accounted(result, course, c.hands, c.Reps(k))
  {
    result := MatchResult(seq(k, _ => 0), 0, true);
    NothingAccounted(k, course, c.hands);
    var r, reps := 0, c.Reps(k);
    while r < reps
      invariant 0 <= r <= reps && |result.net| == k && Accounted(result, course, c.hands, r)
    {
      result := NextRotation(c, k, sources, decks, agents, r, compress, entropy, course, result);
      r := r + 1;
    }
  }

  /** The whole match: each agent's net is what the seats it played made of the hands dealt; the
      conservation flag stays set if and only if every hand of every rotation comes to its end, and if
      and only if the agents' nets sum to zero. */
  method RunMatch(c: MatchConfig, k: nat, sources: nat -> G.DeckSource, agents: Agents,
                  compress: H.Compress, entropy: seq<H.Byte>)
    returns (result: MatchResult)
    requires k >= 2 ==> c.Playable(k)
    requires |entropy| == 32 && SourcesOk(compress, sources)
    ensures |result.net| == k
    ensures Accounted(result, CourseOf(DecksOf(compress, sources), c, k, agents), c.hands,
                      if k < 2 then 0 else if c.duplicate then k else 1)
  {
    ghost var decks := DecksOf(compress, sources);
    if k < 2 {
      NothingAccounted(k, CourseOf(decks, c, k, agents), c.hands);
      return MatchResult(seq(k, _ => 0), 0, true);
    }
    CourseFollows(decks, c, k, agents);
    result := PlayRotations(c, k, sources, decks, agents, compress, entropy, CourseOf(decks, c, k, agents));
  }

  /** With every clock in time and stacks at which the guard suffices, every hand of the match ends. */
  lemma {:induction false} OnTimeMatch(decks: Decks, c: MatchConfig, k: nat, agents: Agents)
    requires Dealt(decks) && c.Playable(k) && c.GuardSuffices(k)
    requires forall a: nat, r: nat, h: nat, i: nat :: agents(a, r, h, i).OnTime()
    ensures forall r: nat :: AllEnd(CourseOf(decks, c, k, agents), r, c.hands)
  {
    forall r: nat, h: nat ensures HandEnds(decks, c, k, DecisionsOf(agents, k, r, h), h) {
      forall id: int, i: nat ensures DecisionsOf(agents, k, r, h)(id, i).OnTime() {
        assert agents(AgentFor(id, r, k), r, h, i).OnTime();
      }
      OnTimeHandsEnd(decks, c, k, DecisionsOf(agents, k, r, h), h);
    }
  }

  /** Over the k rotations each agent plays each seat exactly once. */
  lemma {:induction false} EachSeatOnce(k: nat, agent: nat, s: nat) returns (r: nat)
    requires agent < k && s < k
    ensures r < k && AgentAt(s, r, k) == agent
    ensures forall q: nat :: q < k && AgentAt(s, q, k) == agent ==> q == r
  {
    r := if agent >= s then agent - s else agent + k - s;
    ModUnique(s + r, k, if agent >= s then 0 else 1, agent);
    forall q: nat | q < k && AgentAt(s, q, k) == agent ensures q == r {
      ShiftInjective(q, r, s, k);
    }
  }
}
