/** The accounts RunMatch keeps (arena/src/match_runner.cpp) over the hands of a rotation and the
    rotations of a match, whatever the hands themselves come to. */
module MatchAccounts {
  import opened Arithmetic

  type Nets = seq<int>

  /** How the hands of a match go: whether hand h of rotation r comes to its end once it is dealt, and
      what agent a makes of it. */
  datatype Course = Course(ends: (nat, nat) -> bool, nets: (nat, nat, nat) -> int)

  /** The first n hands of rotation r come to their end. */
  ghost predicate AllEnd(course: Course, r: nat, n: nat) {
    forall h: nat :: h < n ==> course.ends(r, h)
  }

  /** What agent a makes of the first n hands of rotation r: of those after one left open, nothing. */
  ghost function RotationNet(course: Course, r: nat, a: nat, n: nat): int {
    if n == 0 then 0
    else RotationNet(course, r, a, n - 1) + if AllEnd(course, r, n - 1) then course.nets(r, n - 1, a) else 0
  }

  /** How many of the first n hands of rotation r are dealt. */
  ghost function RotationDeals(course: Course, r: nat, n: nat): nat {
    if n == 0 then 0 else RotationDeals(course, r, n - 1) + if AllEnd(course, r, n - 1) then 1 else 0
  }

  /** What agent a makes of the first n rotations, of `hands` hands each, and how many of those are
      dealt. */
  ghost function MatchNet(course: Course, hands: nat, a: nat, n: nat): int {
    if n == 0 then 0 else MatchNet(course, hands, a, n - 1) + RotationNet(course, n - 1, a, hands)
  }

  ghost function MatchDeals(course: Course, hands: nat, n: nat): nat {
    if n == 0 then 0 else MatchDeals(course, hands, n - 1) + RotationDeals(course, n - 1, hands)
  }

  // ---------- one rotation ----------

  ghost predicate NetMoved(before: Nets, after: Nets, conserved: bool) {
    |after| == |before| && if conserved then SumOf(after) == SumOf(before) else SumOf(after) < SumOf(before)
  }

  /** The accounts of a rotation after its first n hands: each agent has been credited with what it
      made of them, `played` of them were dealt, and they conserve chips if and only if all ended. */
  ghost predicate Tallied(before: Nets, after: Nets, played: nat, conserved: bool, course: Course, r: nat, n: nat) {
    && NetMoved(before, after, conserved) && (conserved <==> AllEnd(course, r, n))
    && played == RotationDeals(course, r, n)
    && forall a: nat :: a < |before| ==> after[a] == before[a] + RotationNet(course, r, a, n)
  }

  lemma {:induction false} NothingTallied(net: Nets, course: Course, r: nat)
    ensures Tallied(net, net, 0, true, course, r, 0)
  {
  }

  /** One more hand, dealt because all before it ended. */
  lemma {:induction false} HandTallied(net: Nets, before: Nets, after: Nets, played: nat, still: bool, course: Course, r: nat, n: nat)
    requires Tallied(net, before, played, true, course, r, n) && |after| == |before|
    requires still <==> course.ends(r, n)
    requires if still then SumOf(after) == SumOf(before) else SumOf(after) < SumOf(before)
    requires forall a: nat :: a < |before| ==> after[a] == before[a] + course.nets(r, n, a)
    ensures Tallied(net, after, played + 1, still, course, r, n + 1)
  {
  }

  lemma {:induction false} OpenStaysOpen(course: Course, r: nat, n: nat, m: nat)
    requires n <= m && !AllEnd(course, r, n)
    ensures !AllEnd(course, r, m)
  {
  }

  /** After a hand left open no other is dealt. */
  lemma {:induction false} RestIsNothing(course: Course, r: nat, a: nat, n: nat, m: nat)
    requires n <= m && !AllEnd(course, r, n)
    ensures RotationNet(course, r, a, m) == RotationNet(course, r, a, n)
    ensures RotationDeals(course, r, m) == RotationDeals(course, r, n)
    decreases m
  {
    if m > n {
      RestIsNothing(course, r, a, n, m - 1);
      OpenStaysOpen(course, r, n, m - 1);
    }
  }

  /** So a rotation cut short stands as if all its hands had been gone through. */
  lemma {:induction false} CutShort(before: Nets, after: Nets, played: nat, course: Course, r: nat, n: nat, m: nat)
    requires n <= m && Tallied(before, after, played, false, course, r, n)
    ensures Tallied(before, after, played, false, course, r, m)
  {
    OpenStaysOpen(course, r, n, m);
    RestIsNothing(course, r, 0, n, m);
    forall a: nat | a < |before| ensures RotationNet(course, r, a, m) == RotationNet(course, r, a, n) {
      RestIsNothing(course, r, a, n, m);
    }
  }

  // ---------- the match ----------

  datatype MatchResult = MatchResult(net: Nets, handsPlayed: nat, chipsConserved: bool)

  /** The accounts after n rotations: each agent's net is what it made of the hands dealt, those hands
      are counted, and the flag stays set if and only if every hand of every rotation came to its end,
      and if and only if the nets sum to zero. */
  ghost predicate Accounted(result: MatchResult, course: Course, hands: nat, n: nat) {
    && (forall a: nat :: a < |result.net| ==> result.net[a] == MatchNet(course, hands, a, n))
    && result.handsPlayed == MatchDeals(course, hands, n)
    && (result.chipsConserved <==> forall r: nat :: r < n ==> AllEnd(course, r, hands))
    && if result.chipsConserved then SumOf(result.net) == 0 else SumOf(result.net) < 0
  }

  lemma {:induction false} NothingAccounted(k: nat, course: Course, hands: nat)
    ensures Accounted(MatchResult(seq(k, _ => 0), 0, true), course, hands, 0)
  {
    SumOfZeros(k);
  }

  lemma {:induction false} RotationAdded(before: MatchResult, net: Nets, played: nat, conserved: bool, course: Course, hands: nat, r: nat)
    requires Accounted(before, course, hands, r) && Tallied(before.net, net, played, conserved, course, r, hands)
    ensures Accounted(MatchResult(net, before.handsPlayed + played, before.chipsConserved && conserved), course, hands, r + 1)
  {
  }

  /** When every hand ends, every hand is dealt. */
  lemma {:induction false} AllDealt(course: Course, hands: nat, r: nat, n: nat)
    requires AllEnd(course, r, hands) && n <= hands
    ensures RotationDeals(course, r, n) == n
  {
    if n > 0 { AllDealt(course, hands, r, n - 1); }
  }

  lemma {:induction false} EveryHandDealt(course: Course, hands: nat, n: nat)
    requires forall r: nat :: r < n ==> AllEnd(course, r, hands)
    ensures MatchDeals(course, hands, n) == n * hands
  {
    if n > 0 {
      EveryHandDealt(course, hands, n - 1);
      AllDealt(course, hands, n - 1, hands);
    }
  }
}
