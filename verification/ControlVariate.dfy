/** The run-out control variate of arena/src/match_runner.cpp: the equity it reads off before and after
    each event that deals community cards, and exactly when what it adds up to has mean zero. */
module ControlVariate {
  import opened Cards
  import opened Enumeration
  import opened Equity
  import opened EquityMartingale
  import S = Seats

  /** The two hands of a forced run-out, and who wins between them on a full board. */
  datatype Pairing = Pairing(referee: Referee, h1: Hand, h2: Hand)

  ghost predicate Fits(p: Pairing, board: seq<Card>) {
    Distinct(board) && |board| <= 5 && Apart(p.h1, p.h2, Elements(board))
  }

  function Unseen(p: Pairing, board: seq<Card>): seq<Card> {
    Avail(Elements(board) + p.h1.Set() + p.h2.Set())
  }

  type OnBoard = seq<Card> -> real
  type Counter = seq<Card> -> Counts

  /** What the exact enumeration counts on a board. */
  ghost function CountsOn(p: Pairing): Counter {
    (x: seq<Card>) => if |x| <= 5 then CountRange(p.referee, [p.h1], [p.h2], x) else ZERO
  }

  /** equity[0] of the counts; 0 when there are none. */
  ghost function EquityFrom(counts: Counter): OnBoard {
    (x: seq<Card>) => if counts(x).total > 0 then EquityOf(counts(x)) else 0.0
  }

  ghost function ExactBy(p: Pairing): OnBoard { EquityFrom(CountsOn(p)) }

  // ---------- the mean over the ways the next cards may fall ----------

  /** The cards that may follow a board. */
  type Next = seq<Card> -> seq<Card>

  ghost function SumOver(board: seq<Card>, cards: seq<Card>, f: OnBoard): real {
    if cards == [] then 0.0 else SumOver(board, cards[..|cards| - 1], f) + f(board + [cards[|cards| - 1]])
  }

  /** The mean of f over the next card. */
  ghost function MeanNext(next: Next, f: OnBoard): OnBoard {
    (board: seq<Card>) => if next(board) == [] then 0.0 else SumOver(board, next(board), f) / |next(board)| as real
  }

  /** The mean of f over every way that j more cards may fall, all equally likely. */
  ghost function MeanFalls(next: Next, j: nat, f: OnBoard): OnBoard {
    if j == 0 then f else MeanNext(next, MeanFalls(next, j - 1, f))
  }

  ghost predicate LeadOn(good: seq<Card> -> bool, board: seq<Card>, cards: seq<Card>) {
    forall i :: 0 <= i < |cards| ==> good(board + [cards[i]])
  }

  /** Cards are left to follow every good board that is not full, and they make good boards. */
  ghost predicate Branches(next: Next, good: seq<Card> -> bool) {
    forall x {:trigger next(x)} :: good(x) && |x| < 5 ==> next(x) != [] && LeadOn(good, x, next(x))
  }

  /** g is f, plus b, on every good board of that size. */
  ghost predicate Shifted(good: seq<Card> -> bool, size: nat, f: OnBoard, g: OnBoard, b: real) {
    forall x {:trigger g(x)} :: good(x) && |x| == size ==> g(x) == f(x) + b
  }

  lemma {:induction false} SumOverShifted(good: seq<Card> -> bool, board: seq<Card>, cards: seq<Card>, f: OnBoard, g: OnBoard, b: real)
    requires LeadOn(good, board, cards) && Shifted(good, |board| + 1, f, g, b)
    ensures SumOver(board, cards, g) == SumOver(board, cards, f) + b * |cards| as real
  {
    if cards != [] {
      SumOverShifted(good, board, cards[..|cards| - 1], f, g, b);
      assert g(board + [cards[|cards| - 1]]) == f(board + [cards[|cards| - 1]]) + b;
    }
  }

  lemma {:induction false} ShiftedMean(sum: real, b: real, n: nat)
    requires n > 0
    ensures (sum + b * n as real) / n as real == sum / n as real + b
  {
  }

  lemma {:induction false} NextShifted(next: Next, good: seq<Card> -> bool, size: nat, f: OnBoard, g: OnBoard, b: real)
    requires Branches(next, good) && size < 5 && Shifted(good, size + 1, f, g, b)
    ensures Shifted(good, size, MeanNext(next, f), MeanNext(next, g), b)
  {
    forall x | good(x) && |x| == size ensures MeanNext(next, g)(x) == MeanNext(next, f)(x) + b {
      MeanShiftedAt(next, good, x, next(x), f, g, b);
    }
  }

  lemma {:induction false} MeanShiftedAt(next: Next, good: seq<Card> -> bool, x: seq<Card>, cards: seq<Card>, f: OnBoard, g: OnBoard, b: real)
    requires cards == next(x) && cards != [] && LeadOn(good, x, cards) && Shifted(good, |x| + 1, f, g, b)
    ensures MeanNext(next, g)(x) == MeanNext(next, f)(x) + b
  {
    SumOverShifted(good, x, cards, f, g, b);
    ShiftedMean(SumOver(x, cards, f), b, |cards|);
  }

  /** What is added to every term is added to the mean. */
  lemma {:induction false} FallsShifted(next: Next, good: seq<Card> -> bool, size: nat, j: nat, f: OnBoard, g: OnBoard, b: real)
    requires Branches(next, good) && size + j <= 5 && Shifted(good, size + j, f, g, b)
    ensures Shifted(good, size, MeanFalls(next, j, f), MeanFalls(next, j, g), b)
    decreases j
  {
    if j > 0 {
      FallsShifted(next, good, size + 1, j - 1, f, g, b);
      NextShifted(next, good, size, MeanFalls(next, j - 1, f), MeanFalls(next, j - 1, g), b);
    }
  }

  // ---------- martingales ----------

  /** The mean of f over the next card is what it is now. */
  ghost predicate Fair(next: Next, good: seq<Card> -> bool, f: OnBoard) {
    forall size: nat {:trigger FairAt(next, good, f, size)} :: size < 5 ==> FairAt(next, good, f, size)
  }

  ghost predicate FairAt(next: Next, good: seq<Card> -> bool, f: OnBoard, size: nat) {
    Shifted(good, size, f, MeanNext(next, f), 0.0)
  }

  lemma {:induction false} ShiftedThen(good: seq<Card> -> bool, size: nat, f: OnBoard, g: OnBoard, h: OnBoard, b: real, c: real)
    requires Shifted(good, size, f, g, b) && Shifted(good, size, g, h, c)
    ensures Shifted(good, size, f, h, b + c)
  {
  }

  /** Then so it is over any number of cards that fall together. */
  lemma {:induction false} FairFalls(next: Next, good: seq<Card> -> bool, size: nat, j: nat, f: OnBoard)
    requires Branches(next, good) && Fair(next, good, f) && size + j <= 5
    ensures Shifted(good, size, f, MeanFalls(next, j, f), 0.0)
    decreases j
  {
    if j > 0 {
      FairFalls(next, good, size + 1, j - 1, f);
      NextShifted(next, good, size, f, MeanFalls(next, j - 1, f), 0.0);
      assert FairAt(next, good, f, size);
      ShiftedThen(good, size, f, MeanNext(next, f), MeanFalls(next, j, f), 0.0, 0.0);
    }
  }

  ghost predicate Multiple(f: OnBoard, g: OnBoard, a: real) {
    forall x {:trigger g(x)} :: g(x) == a * f(x)
  }

  lemma {:induction false} SumOverMultiple(board: seq<Card>, cards: seq<Card>, f: OnBoard, g: OnBoard, a: real)
    requires Multiple(f, g, a)
    ensures SumOver(board, cards, g) == a * SumOver(board, cards, f)
  {
    if cards != [] {
      SumOverMultiple(board, cards[..|cards| - 1], f, g, a);
      assert g(board + [cards[|cards| - 1]]) == a * f(board + [cards[|cards| - 1]]);
    }
  }

  lemma {:induction false} MultipleMean(sum: real, a: real, n: nat)
    requires n > 0
    ensures (a * sum) / n as real == a * (sum / n as real)
  {
  }

  /** A multiple of a martingale is one. */
  lemma {:induction false} FairMultiple(next: Next, good: seq<Card> -> bool, f: OnBoard, g: OnBoard, a: real)
    requires Branches(next, good) && Fair(next, good, f) && Multiple(f, g, a)
    ensures Fair(next, good, g)
  {
    forall size: nat | size < 5 ensures FairAt(next, good, g, size) {
      assert FairAt(next, good, f, size);
      forall x | good(x) && |x| == size ensures MeanNext(next, g)(x) == g(x) + 0.0 {
        SumOverMultiple(x, next(x), f, g, a);
        MultipleMean(SumOver(x, next(x), f), a, |next(x)|);
        assert MeanNext(next, f)(x) == f(x) + 0.0;
      }
    }
  }

  // ---------- a run of events ----------

  /** The events of a run-out: how many cards each deals. */
  datatype Events = Done | Deal(cards: nat, rest: Events)

  /** Every event ends at the flop or later, and the board has room for it. */
  predicate Scheduled(size: nat, es: Events)
    decreases es
  {
    es.Deal? ==> 3 <= size + es.cards <= 5 && Scheduled(size + es.cards, es.rest)
  }

  /** Each event adds what s has changed by; the mean of the total, over every way the cards may fall,
      when it was cv before. */
  ghost function MeanRuns(next: Next, s: OnBoard, cv: real, board: seq<Card>, es: Events): real
    decreases es, 0
  {
    if es.Done? then cv else MeanFalls(next, es.cards, RunsAfter(next, s, cv, board, es.rest))(board)
  }

  ghost function RunsAfter(next: Next, s: OnBoard, cv: real, board: seq<Card>, rest: Events): OnBoard
    decreases rest, 1
  {
    (x: seq<Card>) => MeanRuns(next, s, cv + (s(x) - s(board)), x, rest)
  }

  ghost predicate SameFromFlop(good: seq<Card> -> bool, f: OnBoard, s: OnBoard) {
    forall x {:trigger s(x)} :: good(x) && |x| >= 3 ==> s(x) == f(x)
  }

  /** If s is a martingale from the flop on, the mean is what there was, and what s was out by at first. */
  lemma {:induction false} RunsMean(next: Next, good: seq<Card> -> bool, f: OnBoard, s: OnBoard, cv: real, board: seq<Card>, es: Events)
    requires Branches(next, good) && Fair(next, good, f) && SameFromFlop(good, f, s)
    requires good(board) && Scheduled(|board|, es) && (es.Done? ==> |board| >= 3)
    ensures MeanRuns(next, s, cv, board, es) == cv + (f(board) - s(board))
    decreases es, 0
  {
    if es.Deal? {
      var g := RunsAfter(next, s, cv, board, es.rest);
      RunsAfterMean(next, good, f, s, cv, board, |board| + es.cards, es.rest);
      FallsShifted(next, good, |board|, es.cards, f, g, cv - s(board));
      FairFalls(next, good, |board|, es.cards, f);
      assert MeanFalls(next, es.cards, f)(board) == f(board) + 0.0;
      assert MeanFalls(next, es.cards, g)(board) == MeanFalls(next, es.cards, f)(board) + (cv - s(board));
    }
  }

  lemma {:induction false} RunsAfterMean(next: Next, good: seq<Card> -> bool, f: OnBoard, s: OnBoard, cv: real, board: seq<Card>,
                                         size: nat, rest: Events)
    requires Branches(next, good) && Fair(next, good, f) && SameFromFlop(good, f, s)
    requires 3 <= size && Scheduled(size, rest)
    ensures Shifted(good, size, f, RunsAfter(next, s, cv, board, rest), cv - s(board))
    decreases rest, 1, 1
  {
    forall x | good(x) && |x| == size ensures RunsAfter(next, s, cv, board, rest)(x) == f(x) + (cv - s(board)) {
      RunAfterAt(next, good, f, s, cv, board, x, rest);
    }
  }

  lemma {:induction false} RunAfterAt(next: Next, good: seq<Card> -> bool, f: OnBoard, s: OnBoard, cv: real, board: seq<Card>,
                                      x: seq<Card>, rest: Events)
    requires Branches(next, good) && Fair(next, good, f) && SameFromFlop(good, f, s)
    requires good(x) && 3 <= |x| && Scheduled(|x|, rest)
    ensures RunsAfter(next, s, cv, board, rest)(x) == f(x) + (cv - s(board))
    decreases rest, 1, 0
  {
    RunsMean(next, good, f, s, cv + (s(x) - s(board)), x, rest);
    assert s(x) == f(x);
  }

  // ---------- the control variate ----------

  /** What HeadsUpEquity answers: exact from the flop on, an estimate with a fixed seed before it. */
  ghost function Shown(exact: OnBoard, estimate: OnBoard): OnBoard {
    (x: seq<Card>) => if |x| >= 3 then exact(x) else estimate(x)
  }

  /** An equity in chips, when m chips of each player are matched. */
  ghost function InChips(m: int, equity: OnBoard): OnBoard {
    (x: seq<Card>) => m as real * 2.0 * equity(x)
  }

  lemma {:induction false} ChipsAreFair(next: Next, good: seq<Card> -> bool, exact: OnBoard, m: int)
    requires Branches(next, good) && Fair(next, good, exact)
    ensures Fair(next, good, InChips(m, exact))
  {
    FairMultiple(next, good, exact, InChips(m, exact), m as real * 2.0);
  }

  lemma {:induction false} ChipsFromFlop(good: seq<Card> -> bool, exact: OnBoard, estimate: OnBoard, m: int)
    ensures SameFromFlop(good, InChips(m, exact), InChips(m, Shown(exact, estimate)))
  {
  }

  lemma {:induction false} ChipsApart(exact: OnBoard, shown: OnBoard, m: int, board: seq<Card>)
    ensures InChips(m, exact)(board) - InChips(m, shown)(board) == m as real * 2.0 * (exact(board) - shown(board))
    ensures InChips(m, exact)(board) - InChips(m, shown)(board) == 0.0 <==> m == 0 || exact(board) == shown(board)
  {
    ProductZero(m, exact(board), shown(board));
  }

  lemma {:induction false} ProductZero(m: int, x: real, y: real)
    ensures m as real * 2.0 * x - m as real * 2.0 * y == m as real * 2.0 * (x - y)
    ensures m as real * 2.0 * (x - y) == 0.0 <==> m == 0 || x == y
  {
  }

  /** The mean of the control variate of a run-out that has cv already. */
  lemma {:induction false} VariateMean(next: Next, good: seq<Card> -> bool, exact: OnBoard, estimate: OnBoard, m: int, cv: real,
                                       board: seq<Card>, es: Events)
    requires Branches(next, good) && Fair(next, good, exact) && good(board) && Scheduled(|board|, es) && es.Deal?
    ensures MeanRuns(next, InChips(m, Shown(exact, estimate)), cv, board, es)
         == cv + (InChips(m, exact)(board) - InChips(m, Shown(exact, estimate))(board))
  {
    ChipsAreFair(next, good, exact, m);
    ChipsFromFlop(good, exact, estimate, m);
    RunsMean(next, good, InChips(m, exact), InChips(m, Shown(exact, estimate)), cv, board, es);
  }

  lemma {:induction false} VariateZeroIff(next: Next, good: seq<Card> -> bool, exact: OnBoard, estimate: OnBoard, m: int,
                                          board: seq<Card>, es: Events)
    requires Branches(next, good) && Fair(next, good, exact) && good(board) && Scheduled(|board|, es) && es.Deal?
    ensures MeanRuns(next, InChips(m, Shown(exact, estimate)), 0.0, board, es) == 0.0
       <==> m == 0 || |board| >= 3 || estimate(board) == exact(board)
  {
    VariateMean(next, good, exact, estimate, m, 0.0, board, es);
    ChipsApart(exact, Shown(exact, estimate), m, board);
  }

  lemma {:induction false} SameInChips(e: OnBoard, f: OnBoard, m: int, board: seq<Card>)
    requires e(board) == f(board)
    ensures InChips(m, e)(board) == InChips(m, f)(board)
  {
  }

  lemma {:induction false} VariateBefore(next: Next, good: seq<Card> -> bool, exact: OnBoard, estimate: OnBoard, m: int,
                                         board: seq<Card>, es: Events)
    requires Branches(next, good) && Fair(next, good, exact) && good(board) && Scheduled(|board|, es) && es.Deal?
    requires |board| < 3
    ensures MeanRuns(next, InChips(m, Shown(exact, estimate)), 0.0, board, es)
         == InChips(m, exact)(board) - InChips(m, estimate)(board)
  {
    VariateMean(next, good, exact, estimate, m, 0.0, board, es);
    SameInChips(Shown(exact, estimate), estimate, m, board);
  }

  // ---------- the exact equity ----------

  ghost function NextOf(p: Pairing): Next {
    (x: seq<Card>) => Unseen(p, x)
  }

  ghost function GoodFor(p: Pairing): seq<Card> -> bool {
    (x: seq<Card>) => Fits(p, x)
  }

  lemma {:induction false} CardFits(p: Pairing, board: seq<Card>, c: Card)
    requires Fits(p, board) && |board| < 5 && c in Unseen(p, board)
    ensures Fits(p, board + [c])
  {
    AvailHolds(InUse(p.h1, p.h2, Elements(board)));
    ApartAfter(p.h1, p.h2, Elements(board), c);
    CardAdded(board, c);
  }

  lemma {:induction false} DeckBranches(p: Pairing)
    ensures Branches(NextOf(p), GoodFor(p))
  {
    forall x | Fits(p, x) && |x| < 5 ensures NextOf(p)(x) != [] && LeadOn(GoodFor(p), x, NextOf(p)(x)) {
      AvailSize(p.h1, p.h2, x);
      var cards := Unseen(p, x);
      forall i | 0 <= i < |cards| ensures GoodFor(p)(x + [cards[i]]) {
        CardFits(p, x, cards[i]);
      }
    }
  }

  ghost function SumCounts(counts: Counter, board: seq<Card>, v: Verdict, cards: seq<Card>): nat {
    if cards == [] then 0 else SumCounts(counts, board, v, cards[..|cards| - 1]) + counts(board + [cards[|cards| - 1]]).Of(v)
  }

  ghost predicate SameTrials(counts: Counter, board: seq<Card>, cards: seq<Card>, t1: nat) {
    forall i :: 0 <= i < |cards| ==> counts(board + [cards[i]]).total == t1
  }

  /** Equities over the same number of trials add up like their counts. */
  lemma {:induction false} SumEquities(counts: Counter, board: seq<Card>, cards: seq<Card>, t1: nat)
    requires t1 > 0 && SameTrials(counts, board, cards, t1)
    ensures SumOver(board, cards, EquityFrom(counts))
         == (2 * SumCounts(counts, board, First, cards) + SumCounts(counts, board, Tie, cards)) as real / (2.0 * t1 as real)
  {
    if cards != [] {
      var init, c := cards[..|cards| - 1], counts(board + [cards[|cards| - 1]]);
      SumEquities(counts, board, init, t1);
      EquityAdds(SumCounts(counts, board, First, init), SumCounts(counts, board, Tie, init), c, t1);
    }
  }

  /** The counts after each card, over t1 trials, average to those now. */
  ghost predicate Balanced(counts: Counter, board: seq<Card>, cards: seq<Card>, t1: nat) {
    && counts(board).total > 0 && t1 > 0 && cards != [] && SameTrials(counts, board, cards, t1)
    && AveragesTo(counts(board), SumCounts(counts, board, First, cards), SumCounts(counts, board, Tie, cards), |cards|, t1)
  }

  lemma {:induction false} BalancedIsFair(next: Next, counts: Counter, board: seq<Card>, t1: nat)
    requires Balanced(counts, board, next(board), t1)
    ensures MeanNext(next, EquityFrom(counts))(board) == EquityFrom(counts)(board)
  {
    SumEquities(counts, board, next(board), t1);
    MeanFrom(SumOver(board, next(board), EquityFrom(counts)), EquityOf(counts(board)), |next(board)|);
  }

  lemma {:induction false} MeanFrom(sum: real, e: real, n: nat)
    requires n > 0 && sum == n as real * e
    ensures sum / n as real == e
  {
    MeanOfMultiple(e, n);
  }

  lemma {:induction false} MeanOfMultiple(e: real, n: nat)
    requires n > 0
    ensures (n as real * e) / n as real == e
  {
  }

  lemma {:induction false} EquityAdds(wins: nat, ties: nat, c: Counts, t1: nat)
    requires t1 > 0 && c.total == t1
    ensures (2 * wins + ties) as real / (2.0 * t1 as real) + EquityOf(c)
         == (2 * (wins + c.Of(First)) + (ties + c.Of(Tie))) as real / (2.0 * t1 as real)
  {
    Fractions((2 * wins + ties) as real, 2.0 * c.w1 as real + c.ties as real, 2.0 * t1 as real);
  }

  lemma {:induction false} Fractions(a: real, b: real, d: real)
    requires d > 0.0
    ensures a / d + b / d == (a + b) / d
  {
  }

  lemma {:induction false} CountsSum(p: Pairing, board: seq<Card>, v: Verdict, cards: seq<Card>)
    requires |board| < 5
    ensures SumCounts(CountsOn(p), board, v, cards) == SumCounted(p.referee, p.h1, p.h2, board, v, cards)
  {
    if cards != [] { CountsSum(p, board, v, cards[..|cards| - 1]); }
  }

  lemma {:induction false} CountsBalance(p: Pairing, board: seq<Card>, cards: seq<Card>)
    requires Fits(p, board) && |board| < 5 && cards == Unseen(p, board)
    ensures Balanced(CountsOn(p), board, cards, Choose(47 - |board|, 4 - |board|))
  {
    CountsSum(p, board, First, cards);
    CountsSum(p, board, Tie, cards);
    TrialsSame(p, board, cards);
    CountsAverageAt(p, board, cards, CountsOn(p)(board), SumCounted(p.referee, p.h1, p.h2, board, First, cards),
                    SumCounted(p.referee, p.h1, p.h2, board, Tie, cards), Choose(47 - |board|, 4 - |board|));
  }

  lemma {:induction false} CountsAverageAt(p: Pairing, board: seq<Card>, cards: seq<Card>, now: Counts, wins: nat, ties: nat, t1: nat)
    requires Fits(p, board) && |board| < 5 && cards == Unseen(p, board) && now == CountsOn(p)(board)
    requires wins == SumCounted(p.referee, p.h1, p.h2, board, First, cards) && t1 == Choose(47 - |board|, 4 - |board|)
    requires ties == SumCounted(p.referee, p.h1, p.h2, board, Tie, cards)
    ensures now.total > 0 && t1 > 0 && cards != [] && AveragesTo(now, wins, ties, |cards|, t1)
  {
    CountedNow(p, board, cards, now, wins, ties);
    AveragesOver(now, wins, ties, |board|, |cards|, t1);
  }

  lemma {:induction false} CountedNow(p: Pairing, board: seq<Card>, cards: seq<Card>, now: Counts, wins: nat, ties: nat)
    requires Fits(p, board) && |board| < 5 && cards == Unseen(p, board) && now == CountRange(p.referee, [p.h1], [p.h2], board)
    requires wins == SumCounted(p.referee, p.h1, p.h2, board, First, cards)
    requires ties == SumCounted(p.referee, p.h1, p.h2, board, Tie, cards)
    ensures |cards| == 48 - |board| && Averages(now, wins, ties, |board|)
  {
    CountedAverages(p.referee, p.h1, p.h2, board);
  }

  lemma {:induction false} AveragesOver(now: Counts, wins: nat, ties: nat, b: nat, n: nat, t1: nat)
    requires b < 5 && Averages(now, wins, ties, b) && n == 48 - b && t1 == Choose(47 - b, 4 - b)
    ensures now.total > 0 && t1 > 0 && n > 0 && AveragesTo(now, wins, ties, n, t1)
  {
  }

  lemma {:induction false} TrialsSame(p: Pairing, board: seq<Card>, cards: seq<Card>)
    requires Fits(p, board) && |board| < 5 && cards == Unseen(p, board)
    ensures SameTrials(CountsOn(p), board, cards, Choose(47 - |board|, 4 - |board|))
  {
    CountedAverages(p.referee, p.h1, p.h2, board);
    forall i | 0 <= i < |cards| ensures CountsOn(p)(board + [cards[i]]).total == Choose(47 - |board|, 4 - |board|) {
      assert cards[i] in cards;
    }
  }

  /** The exact equity is a martingale over single cards. */
  lemma {:induction false} EquityIsFair(p: Pairing)
    ensures Fair(NextOf(p), GoodFor(p), ExactBy(p))
  {
    forall size: nat | size < 5 ensures FairAt(NextOf(p), GoodFor(p), ExactBy(p), size) {
      forall x | GoodFor(p)(x) && |x| == size ensures MeanNext(NextOf(p), ExactBy(p))(x) == ExactBy(p)(x) + 0.0 {
        CountsBalance(p, x, Unseen(p, x));
        BalancedIsFair(NextOf(p), CountsOn(p), x, Choose(47 - |x|, 4 - |x|));
      }
    }
  }

  /** And over any number of cards that are dealt together: over every way they may fall, the equity
      after them has the equity before them as its mean. */
  lemma {:induction false} EventAverages(p: Pairing, board: seq<Card>, j: nat)
    requires Fits(p, board) && |board| + j <= 5
    ensures MeanFalls(NextOf(p), j, ExactBy(p))(board) == ExactBy(p)(board)
  {
    DeckBranches(p);
    EquityIsFair(p);
    FairFalls(NextOf(p), GoodFor(p), |board|, j, ExactBy(p));
    assert GoodFor(p)(board) && MeanFalls(NextOf(p), j, ExactBy(p))(board) == ExactBy(p)(board) + 0.0;
  }

  /** The control variate of a run-out has mean zero if and only if nothing is matched, the run-out
      starts from a flop or later, or the estimate before the flop happens to be the exact equity. */
  lemma {:induction false} MeanZeroIff(p: Pairing, estimate: OnBoard, m: int, board: seq<Card>, es: Events)
    requires Fits(p, board) && Scheduled(|board|, es) && es.Deal?
    ensures MeanRuns(NextOf(p), InChips(m, Shown(ExactBy(p), estimate)), 0.0, board, es) == 0.0
       <==> m == 0 || |board| >= 3 || estimate(board) == ExactBy(p)(board)
  {
    DeckBranches(p);
    EquityIsFair(p);
    assert GoodFor(p)(board);
    VariateZeroIff(NextOf(p), GoodFor(p), ExactBy(p), estimate, m, board, es);
  }

  /** A run-out that starts before the flop has what the estimate is out by, in chips, as its mean. */
  lemma {:induction false} BeforeFlopMean(p: Pairing, estimate: OnBoard, m: int, board: seq<Card>, es: Events)
    requires Fits(p, board) && Scheduled(|board|, es) && es.Deal? && |board| < 3
    ensures MeanRuns(NextOf(p), InChips(m, Shown(ExactBy(p), estimate)), 0.0, board, es)
         == InChips(m, ExactBy(p))(board) - InChips(m, estimate)(board)
  {
    DeckBranches(p);
    EquityIsFair(p);
    assert GoodFor(p)(board);
    VariateBefore(NextOf(p), GoodFor(p), ExactBy(p), estimate, m, board, es);
  }

  // ---------- the tracker ----------

  function Payoff(counts: Counts): real {
    if counts.total > 0 then EquityOf(counts) else 0.0
  }

  /** One pair of hands from the flop on is never too much work to enumerate. */
  lemma {:induction false} FlopIsExact(size: nat)
    requires 3 <= size <= 5
    ensures Combos(52 - size, 5 - size) < WORK_LIMIT
  {
    assert Combos(49, 0) == 1 && Combos(49, 1) == 48;
  }

  lemma {:induction false} ShownIs(p: Pairing, sampled: OnBoard, board: seq<Card>, counts: Counts)
    requires |board| <= 5 && counts == CountRange(p.referee, [p.h1], [p.h2], board)
    ensures Shown(ExactBy(p), sampled)(board) == if |board| >= 3 then Payoff(counts) else sampled(board)
  {
  }

  /** Before the flop 20000 samples with a fixed seed; from the flop on the exact counts. */
  method HeadsUpEquity(h1: Hand, h2: Hand, board: seq<Card>, sampled: OnBoard) returns (e: real)
    requires Fits(Pairing(Rules(), h1, h2), board)
    ensures e == Shown(ExactBy(Pairing(Rules(), h1, h2)), sampled)(board)
  {
    var samples := if |board| >= 3 then -1 else 20000;
    if |board| >= 3 { FlopIsExact(|board|); }
    var result := CalculateExact([h1], [h2], board, samples);
    ShownIs(Pairing(Rules(), h1, h2), sampled, board, CountRange(Rules(), [h1], [h2], board));
    match result {
      case Sampled => e := sampled(board);
      case Exact(counts) => e := Payoff(counts);
    }
  }

  lemma {:induction false} ChangeInChips(m: int, e: OnBoard, board: seq<Card>, before: real, after: seq<Card>, now: real)
    requires before == e(board) && now == e(after)
    ensures InChips(m, e)(after) - InChips(m, e)(board) == m as real * 2.0 * (now - before)
  {
    ProductZero(m, now, before);
  }

  // ---------- what the callback reads off the seats ----------

  /** The seats still in the hand, in order. */
  function LiveOf(seats: seq<S.Seat>): seq<S.Seat> {
    if seats == [] then []
    else LiveOf(seats[..|seats| - 1]) + if seats[|seats| - 1].IsLive() then [seats[|seats| - 1]] else []
  }

  function AllIns(live: seq<S.Seat>): nat {
    if live == [] then 0 else AllIns(live[..|live| - 1]) + if live[|live| - 1].IsAllIn() then 1 else 0
  }

  /** Two players are left and one of them has nothing more to bet: what they have matched goes to
      showdown. */
  predicate Forced(seats: seq<S.Seat>) {
    |LiveOf(seats)| == 2 && AllIns(LiveOf(seats)) >= 1
  }

  function HandAt(s: S.Seat): Hand
    requires s.hole.Dealt?
  {
    if s.hole.card1 < s.hole.card2 then Hand(s.hole.card1, s.hole.card2) else Hand(s.hole.card2, s.hole.card1)
  }

  /** The one with the id first, if either has it. */
  function Ordered(live: seq<S.Seat>, id: int): (S.Seat, S.Seat)
    requires |live| >= 2
  {
    if live[0].id == id then (live[0], live[1]) else (live[1], live[0])
  }

  ghost function PairOf(a: S.Seat, b: S.Seat): Pairing
    requires a.hole.Dealt? && b.hole.Dealt?
  {
    Pairing(Rules(), HandAt(a), HandAt(b))
  }

  /** What each of the two has put in that the other has too. */
  function Matched(a: S.Seat, b: S.Seat): int {
    if a.invested < b.invested then a.invested else b.invested
  }

  /** The smaller of the two stakes: neither has put in less, and one has put in just that. */
  lemma {:induction false} MatchedIs(a: S.Seat, b: S.Seat)
    ensures Matched(a, b) <= a.invested && Matched(a, b) <= b.invested && Matched(a, b) in {a.invested, b.invested}
  {
  }

  /** Both hold cards that go with the board. */
  ghost predicate Comparable(seats: seq<S.Seat>, id: int, board: seq<Card>) {
    Forced(seats) ==>
      var (a, b) := Ordered(LiveOf(seats), id);
      a.hole.Dealt? && b.hole.Dealt? && Fits(PairOf(a, b), board)
  }

  /** What the board is worth to the player with the id, in chips. */
  ghost function WorthTo(seats: seq<S.Seat>, id: int, board: seq<Card>, sampled: OnBoard): OnBoard
    requires Forced(seats) && Comparable(seats, id, board)
  {
    var (a, b) := Ordered(LiveOf(seats), id);
    InChips(Matched(a, b), Shown(ExactBy(PairOf(a, b)), sampled))
  }

  /** Seats i and j are still in the hand, and no other is. */
  ghost predicate LeftIn(seats: seq<S.Seat>, i: nat, j: nat) {
    i < j < |seats| && forall k :: 0 <= k < |seats| ==> (seats[k].state in {S.Playing, S.AllIn} <==> k == i || k == j)
  }

  lemma {:induction false} NobodyLive(seats: seq<S.Seat>)
    requires forall k :: 0 <= k < |seats| ==> !seats[k].IsLive()
    ensures LiveOf(seats) == []
  {
    if seats != [] { NobodyLive(seats[..|seats| - 1]); }
  }

  lemma {:induction false} OneLive(seats: seq<S.Seat>, i: nat)
    requires i < |seats| && forall k :: 0 <= k < |seats| ==> (seats[k].IsLive() <==> k == i)
    ensures LiveOf(seats) == [seats[i]]
  {
    var n := |seats| - 1;
    if i < n { OneLive(seats[..n], i); } else { NobodyLive(seats[..n]); }
  }

  lemma {:induction false} TwoLive(seats: seq<S.Seat>, i: nat, j: nat)
    requires LeftIn(seats, i, j)
    ensures LiveOf(seats) == [seats[i], seats[j]]
  {
    var n := |seats| - 1;
    if j < n { TwoLive(seats[..n], i, j); } else { OneLive(seats[..n], i); }
  }

  /** With two players left a run-out is forced exactly when one of them is all-in. */
  lemma {:induction false} ForcedIs(seats: seq<S.Seat>, i: nat, j: nat)
    requires LeftIn(seats, i, j)
    ensures Forced(seats) <==> seats[i].state == S.AllIn || seats[j].state == S.AllIn
  {
    TwoLive(seats, i, j);
    AllInsOfTwo(seats[i], seats[j]);
  }

  lemma {:induction false} AllInsOfTwo(a: S.Seat, b: S.Seat)
    ensures AllIns([a, b]) >= 1 <==> a.state == S.AllIn || b.state == S.AllIn
  {
    assert [a, b][..1] == [a] && [a][..0] == [];
    assert AllIns([a]) == if a.IsAllIn() then 1 else 0;
    assert AllIns([a, b]) == AllIns([a]) + if b.IsAllIn() then 1 else 0;
  }

  /** The same two cards. */
  lemma {:induction false} HandAtIs(s: S.Seat)
    requires s.hole.Dealt? && s.hole.card1 != s.hole.card2
    ensures HandAt(s).Set() == {s.hole.card1, s.hole.card2} && HandAt(s).lo < HandAt(s).hi
  {
  }

  lemma {:induction false} OrderedIs(seats: seq<S.Seat>, i: nat, j: nat, mine: nat, his: nat)
    requires LeftIn(seats, i, j) && (mine, his) in {(i, j), (j, i)} && seats[i].id != seats[j].id
    ensures |LiveOf(seats)| == 2 && Ordered(LiveOf(seats), seats[mine].id) == (seats[mine], seats[his])
  {
    TwoLive(seats, i, j);
  }

  lemma {:induction false} InChipsIs(m: int, e: OnBoard, x: seq<Card>, worth: real)
    requires worth == e(x)
    ensures InChips(m, e)(x) == m as real * 2.0 * worth
  {
  }

  /** What the board is worth to one of the two, in chips: twice the smaller of what they have put in,
      times his equity; from the flop on that is the equity of his hand against the other's. */
  lemma {:induction false} WorthIs(seats: seq<S.Seat>, i: nat, j: nat, mine: nat, his: nat, board: seq<Card>, sampled: OnBoard,
                                   x: seq<Card>, counts: Counts)
    requires LeftIn(seats, i, j) && (mine, his) in {(i, j), (j, i)} && seats[i].id != seats[j].id
    requires Forced(seats) && Comparable(seats, seats[mine].id, board) && |x| <= 5
    requires seats[mine].hole.Dealt? && seats[his].hole.Dealt?
    requires counts == CountRange(Rules(), [HandAt(seats[mine])], [HandAt(seats[his])], x)
    ensures var equity := if |x| < 3 then sampled(x) else if counts.total > 0 then EquityOf(counts) else 0.0;
      var matched := if seats[mine].invested <= seats[his].invested then seats[mine].invested else seats[his].invested;
      WorthTo(seats, seats[mine].id, board, sampled)(x) == matched as real * 2.0 * equity
  {
    OrderedIs(seats, i, j, mine, his);
    var p := PairOf(seats[mine], seats[his]);
    ShownIs(p, sampled, x, counts);
    InChipsIs(Matched(seats[mine], seats[his]), Shown(ExactBy(p), sampled), x,
              if |x| < 3 then sampled(x) else if counts.total > 0 then EquityOf(counts) else 0.0);
  }

  lemma {:induction false} LiveGrows(seats: seq<S.Seat>, i: nat)
    requires i < |seats|
    ensures var live, more := LiveOf(seats[..i]), LiveOf(seats[..i + 1]);
      if seats[i].IsLive() then more == live + [seats[i]] && AllIns(more) == AllIns(live) + if seats[i].IsAllIn() then 1 else 0
      else more == live
  {
    var live := LiveOf(seats[..i]);
    assert seats[..i + 1][..i] == seats[..i];
    assert (live + [seats[i]])[..|live|] == live;
  }

  /** The loop over all players: how many are left and all-in, and the first two of them. */
  method Collect(seats: seq<S.Seat>) returns (notFolded: nat, allIn: nat, slots: seq<S.Seat>)
    ensures notFolded == |LiveOf(seats)| && allIn == AllIns(LiveOf(seats))
    ensures slots == if notFolded <= 2 then LiveOf(seats) else LiveOf(seats)[..2]
  {
    notFolded, allIn, slots := 0, 0, [];
    var i := 0;
    while i < |seats|
      invariant 0 <= i <= |seats|
      invariant var live := LiveOf(seats[..i]);
        notFolded == |live| && allIn == AllIns(live) && slots == if |live| <= 2 then live else live[..2]
    {
      LiveGrows(seats, i);
      var p := seats[i];
      if p.IsLive() {
        notFolded := notFolded + 1;
        if p.IsAllIn() { allIn := allIn + 1; }
        if |slots| < 2 { slots := slots + [p]; }
      }
      i := i + 1;
    }
    assert seats[..i] == seats;
  }

  /** The accumulator of one hand, told of every event that deals community cards. */
  class RunoutTracker {
    var prevBoard: seq<Card>
    var cvChips: real
    var any: bool

    constructor ()
      ensures prevBoard == [] && cvChips == 0.0 && !any
    {
      prevBoard, cvChips, any := [], 0.0, false;
    }

    /** In a forced run-out the change in what the board is worth to the agent is added. */
    method Observe(seats: seq<S.Seat>, id: int, after: seq<Card>, sampled: OnBoard)
      requires Comparable(seats, id, prevBoard) && Comparable(seats, id, after)
      modifies this
      ensures prevBoard == after && any == (old(any) || Forced(seats))
      ensures cvChips == old(cvChips) + if Forced(seats) then
          WorthTo(seats, id, after, sampled)(after) - WorthTo(seats, id, after, sampled)(old(prevBoard)) else 0.0
    {
      var notFolded, allIn, slots := Collect(seats);
      if notFolded == 2 && allIn >= 1 {
        var mine := if slots[0].id == id then 0 else 1;
        AddChange(slots[mine], slots[1 - mine], after, sampled);
      }
      prevBoard := after;
    }

    method AddChange(a: S.Seat, b: S.Seat, after: seq<Card>, sampled: OnBoard)
      requires a.hole.Dealt? && b.hole.Dealt? && Fits(PairOf(a, b), prevBoard) && Fits(PairOf(a, b), after)
      modifies this`cvChips, this`any
      ensures any
      ensures var chips := InChips(Matched(a, b), Shown(ExactBy(PairOf(a, b)), sampled));
        cvChips == old(cvChips) + (chips(after) - chips(prevBoard))
    {
      var m := Matched(a, b);
      var before := HeadsUpEquity(HandAt(a), HandAt(b), prevBoard, sampled);
      var now := HeadsUpEquity(HandAt(a), HandAt(b), after, sampled);
      ChangeInChips(m, Shown(ExactBy(PairOf(a, b)), sampled), prevBoard, before, after, now);
      cvChips, any := cvChips + m as real * 2.0 * (now - before), true;
    }
  }
}
