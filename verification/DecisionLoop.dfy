/** The decision loop of PlayOneHand (arena/src/match_runner.cpp): for every sequence of proposals and
    of expired clocks, what the hand keeps and exactly when the loop carries it to its end. */
module DecisionLoop {
  import opened Arithmetic
  import opened Cards
  import opened Seats
  import opened Betting
  import opened HandSpec
  import opened Payout
  import opened HandInvariant
  import opened LegalPlay
  import opened Opening
  import opened Arena

  /** One turn of the loop: what the agent proposes, and whether the action clock has run out when
      the action is submitted, and again when the fallback is. */
  datatype Decision = Decision(proposal: GameAction, late: bool, lateAgain: bool)
  {
    predicate OnTime() { !late && !lateAgain }
  }

  // ---------- the loop ----------

  ghost function Clock(t: Table, late: bool): Table {
    if late && t.Shaped() then CheckTimeout(t) else t
  }

  datatype Judged = Judged(ok: bool, after: Table)

  /** ProcessAction: an expired clock is settled first, on whoever's turn it is. */
  ghost function Submit(t: Table, late: bool, id: int, a: GameAction): Judged {
    var u := Clock(t, late);
    if !u.Shaped() then Judged(false, u)
    else
      match ProcessAction(u, id, a)
      case Rejected => Judged(false, u)
      case Accepted(r) => Judged(true, r)
  }

  datatype Turn = GoesOn(after: Table) | Breaks(after: Table)

  /** Ask, sanitise, submit; on rejection submit the fallback; on a second rejection break off. */
  ghost function LoopTurn(t: Table, d: Decision): Turn {
    if !t.Shaped() || CurrentPlayerId(t) < 0 then Breaks(t)
    else
      var cur := CurrentPlayerId(t);
      var legal := LegalActions(t, cur);
      var first := Submit(t, d.late, cur, Sanitize(legal, t.seats, cur, d.proposal).(playerId := cur));
      if first.ok then GoesOn(first.after)
      else
        var second := Submit(first.after, d.lateAgain, cur, SafeFallback(legal, cur).(playerId := cur));
        if second.ok then GoesOn(second.after) else Breaks(second.after)
  }

  /** At most `guard` turns, the i-th taken by step(t, i). */
  ghost function PlayOut(step: (Table, nat) -> Turn, t: Table, i: nat, guard: nat): Table
    decreases guard, t
  {
    if !t.live || guard == 0 then t
    else
      match step(t, i)
      case Breaks(r) => r
      case GoesOn(r) => PlayOut(step, r, i + 1, guard - 1)
  }

  /** What the player asked proposes and what his clock does: by player and turn. */
  type Decisions = (int, nat) -> Decision

  /** Whom the loop asks. */
  function Asked(t: Table): int {
    if t.Shaped() then CurrentPlayerId(t) else -1
  }

  ghost function Driver(decisions: Decisions): (Table, nat) -> Turn {
    (t: Table, i: nat) => LoopTurn(t, decisions(Asked(t), i))
  }

  // ---------- induction over a run ----------

  /** What holds of each turn from a good table holds of the whole run, if it composes. */
  lemma {:induction false} PlayOutLifts(step: (Table, nat) -> Turn, good: Table -> bool, rel: (Table, Table) -> bool,
                                        t: Table, i: nat, k: nat)
    requires good(t)
    requires forall u: Table, j: nat {:trigger step(u, j)} :: good(u) ==> rel(u, step(u, j).after)
    requires forall u: Table, j: nat {:trigger step(u, j)} :: good(u) && step(u, j).after.live ==> good(step(u, j).after)
    requires forall u, v, r {:trigger rel(u, v), rel(v, r)} :: rel(u, v) && v.live && rel(v, r) ==> rel(u, r)
    requires forall u {:trigger good(u)} :: good(u) ==> rel(u, u)
    ensures rel(t, PlayOut(step, t, i, k))
    decreases k
  {
    if t.live && k > 0 {
      var m := step(t, i).after;
      if step(t, i).GoesOn? && m.live { PlayOutLifts(step, good, rel, m, i + 1, k - 1); }
    }
  }

  /** Turn i + n finds the hand in play and is a stuck one. */
  ghost predicate StuckAt(step: (Table, nat) -> Turn, stuck: (Table, nat) -> bool, t: Table, i: nat, n: nat) {
    var b := PlayOut(step, t, i, n);
    b.live && stuck(b, i + n)
  }

  /** Long enough a run ends the hand, unless some turn is stuck: breaks off with the hand in play. */
  lemma {:induction false} PlayOutOpenIff(step: (Table, nat) -> Turn, good: Table -> bool, stuck: (Table, nat) -> bool,
                                          size: Table -> int, t: Table, i: nat, k: nat)
    requires good(t) && size(t) <= k
    requires forall u {:trigger good(u)} :: good(u) ==> u.live && size(u) >= 1
    requires forall u: Table, j: nat {:trigger step(u, j)} :: good(u) && step(u, j).after.live ==>
               good(step(u, j).after) && size(step(u, j).after) <= size(u) - 1
    requires forall u: Table, j: nat {:trigger step(u, j)} :: good(u) ==>
               (step(u, j).Breaks? && step(u, j).after.live <==> stuck(u, j))
    ensures PlayOut(step, t, i, k).live <==> exists n: nat :: n < k && StuckAt(step, stuck, t, i, n)
    decreases k
  {
    var m := step(t, i).after;
    StuckNowOrLater(step, stuck, t, i);
    if step(t, i).GoesOn? && m.live {
      var j := i + 1;
      PlayOutOpenIff(step, good, stuck, size, m, j, k - 1);
      if n: nat :| n < k - 1 && StuckAt(step, stuck, m, j, n) {
        assert StuckAt(step, stuck, t, i, n + 1);
      }
      if n: nat :| n < k && StuckAt(step, stuck, t, i, n) {
        assert StuckAt(step, stuck, m, j, n - 1);
      }
    }
  }

  lemma {:induction false} StuckNowOrLater(step: (Table, nat) -> Turn, stuck: (Table, nat) -> bool, t: Table, i: nat)
    requires t.live
    ensures StuckAt(step, stuck, t, i, 0) <==> stuck(t, i)
    ensures forall n: nat {:trigger StuckAt(step, stuck, t, i, n)} :: n > 0 ==>
      (StuckAt(step, stuck, t, i, n) <==>
         match step(t, i)
         case Breaks(r) => r.live && stuck(r, i + n)
         case GoesOn(r) => StuckAt(step, stuck, r, i + 1, n - 1))
  {
  }

  // ---------- what every turn keeps ----------

  /** A hand waiting for a player, with an owner of the current bet still in it. */
  ghost predicate Contested(t: Table) {
    AwaitsAction(t) && Owned(t)
  }

  /** The seat to act, when its clock has run out: checked if that is free, folded otherwise. */
  function TimedOut(t: Table): (u: Table)
    requires t.Shaped()
    ensures u.Shaped()
  {
    var s := t.seats[t.turn];
    t.(seats := t.seats[t.turn := if t.currentBet - s.bet <= 0 then s.(acted := true) else s.(state := Folded)])
  }

  /** A proposal the loop turns down: a fold with a negative amount, facing a bet. */
  predicate Refused(t: Table, proposal: GameAction)
    requires t.Shaped()
  {
    proposal.kind == Fold && proposal.amount < 0 && ToCall(t.seats[t.turn], t.currentBet) > 0
  }

  /** In terms of the steps: the clock ran out on the player asked, the hand did not close on that,
      and the turn did not come back to him. Strands below says the same of the table before. */
  ghost predicate PassesOver(t: Table, d: Decision)
    requires t.Shaped()
  {
    if !d.late then Refused(t, d.proposal) && d.lateAgain && !HandCloses(TimedOut(t))
    else
      var u := CheckTimeout(t);
      && !HandCloses(TimedOut(t)) && u.turn != t.turn
      && (d.lateAgain ==> u.Shaped() && !HandCloses(TimedOut(u)) && CheckTimeout(u).turn != t.turn)
  }

  lemma {:induction false} ClockSettles(t: Table)
    requires Contested(t)
    ensures CheckTimeout(t) == Settle(TimedOut(t)) && Stepped(t, CheckTimeout(t))
    ensures CheckTimeout(t).live <==> !HandCloses(TimedOut(t))
  {
    ActorFound(t);
    TimeoutKeeps(t);
    SettleLiveIff(TimedOut(t));
  }

  /** A street that opens starts from no bet, with everybody's chips where they were. */
  lemma {:induction false} StreetOpens(t: Table)
    requires Sound(t) && AdvanceStreet(t).live
    ensures var r := AdvanceStreet(t);
      r.currentBet == 0 && r.lastRaise == r.bigBlind == t.bigBlind && r.seats == NewStreet(t).seats
  {
    CountsBounded(t.seats);
    AdvanceLiveIff(t);
    AdvanceUnfolds(t);
    NewStreetCounts(t.seats);
    StartLiveIff(NextStreetDealt(t));
  }

  lemma {:induction false} TimedOutSound(t: Table)
    requires Contested(t)
    ensures Sound(TimedOut(t))
  {
    var u := TimedOut(t);
    OneSeatKeeps(t, u, t.turn, u.seats[t.turn]);
  }

  /** After an expired clock a seat that is to act either acted before and stayed as it was, or starts
      a new street. */
  lemma {:induction false} PendingAfterClock(t: Table, i: nat)
    requires Contested(t) && CheckTimeout(t).live && i < |t.seats| == |CheckTimeout(t).seats|
    requires Pending(CheckTimeout(t).seats[i])
    ensures var u, w := CheckTimeout(t), TimedOut(t);
      || (u.currentBet == 0 && u.lastRaise == u.bigBlind == t.bigBlind
          && u.seats[i] == w.seats[i].(acted := false, bet := 0))
      || (i != t.turn && u.currentBet == t.currentBet && u.seats[i] == t.seats[i])
  {
    ClockSettles(t);
    TimedOutSound(t);
    if RoundComplete(TimedOut(t).seats) { StreetOpens(TimedOut(t)); }
  }

  /** The player asked, to act again on a new street, had checked; whatever he proposed before is
      playable now. */
  lemma {:induction false} ResumesPlayable(t: Table, u: Table, proposal: GameAction)
    requires Contested(t) && u == CheckTimeout(t) && u.live && u.turn == t.turn
    ensures Contested(u) && Playable(u, Chosen(t, proposal))
  {
    ClockSettles(t);
    PendingAfterClock(t, t.turn);
    assert SeatOk(t.seats[t.turn], t.currentBet);
    FreshPlayable(t, u, proposal);
  }

  /** What fits a player who owes nothing fits him with no bet on the table. */
  lemma {:induction false} FreshPlayable(t: Table, u: Table, proposal: GameAction)
    requires t.Shaped() && u.Shaped() && u.currentBet == 0 && u.lastRaise == u.bigBlind == t.bigBlind
    requires 0 < t.bigBlind <= t.lastRaise && t.currentBet >= 0
    requires t.seats[t.turn].chips > 0 && t.seats[t.turn].bet == t.currentBet && Pending(u.seats[u.turn])
    requires u.seats[u.turn] == t.seats[t.turn].(acted := false, bet := 0)
    ensures Playable(u, Chosen(t, proposal))
  {
    var s := t.seats[t.turn];
    var minTo, allInTo := MinRaiseTo(t.currentBet, t.bigBlind, t.lastRaise), s.chips + s.bet;
    if proposal.kind in {Bet, Raise} { FreshSized(t, u, Sized(t, proposal.amount, minTo, allInTo)); }
  }

  lemma {:induction false} FreshSized(t: Table, u: Table, a: GameAction)
    requires u.Shaped() && u.currentBet == 0 && u.lastRaise == u.bigBlind > 0
    requires u.seats[u.turn].bet == 0 && u.seats[u.turn].chips > 0 && Pending(u.seats[u.turn])
    requires a.amount >= 0
    requires a.kind == AllInMove || (a.kind in {Bet, Raise} && a.amount >= u.bigBlind && u.seats[u.turn].chips >= u.bigBlind)
    ensures Playable(u, a)
  {
  }

  /** The player asked, to act again after somebody else's clock ran out too, may check. */
  lemma {:induction false} ReturnsPlayable(t: Table, u: Table, v: Table)
    requires Contested(t) && u == CheckTimeout(t) && u.live && u.turn != t.turn
    requires Contested(u) && v == CheckTimeout(u) && v.live && v.turn == t.turn
    ensures Contested(v) && Playable(v, Passive(t))
  {
    ClockSettles(t);
    ClockSettles(u);
    ReturnsMatched(t, u, v);
    CheckPlayable(t, v);
  }

  lemma {:induction false} CheckPlayable(t: Table, v: Table)
    requires t.Shaped() && v.Shaped() && Pending(v.seats[v.turn])
    requires ToCall(t.seats[t.turn], t.currentBet) == 0 && v.seats[v.turn].bet == v.currentBet
    ensures Playable(v, Passive(t))
  {
  }

  lemma {:induction false} ReturnsMatched(t: Table, u: Table, v: Table)
    requires Contested(t) && u == CheckTimeout(t) && u.live && u.turn != t.turn && |u.seats| == |t.seats|
    requires Contested(u) && v == CheckTimeout(u) && v.live && v.turn == t.turn && |v.seats| == |t.seats| && Pending(v.seats[v.turn])
    ensures ToCall(t.seats[t.turn], t.currentBet) == 0 && v.seats[v.turn].bet == v.currentBet
  {
    PendingAfterClock(u, t.turn);
    ClockKeepsState(t, t.turn);
    ClockKeepsState(u, t.turn);
    if v.seats[v.turn] == u.seats[t.turn] { PendingAfterClock(t, t.turn); }
  }

  /** Until the showdown only the seat timed out changes state. */
  lemma {:induction false} ClockKeepsState(t: Table, i: nat)
    requires Contested(t) && CheckTimeout(t).live && i < |t.seats| == |CheckTimeout(t).seats|
    ensures CheckTimeout(t).seats[i].state == TimedOut(t).seats[i].state
  {
    ClockSettles(t);
    TimedOutSound(t);
    if RoundComplete(TimedOut(t).seats) { StreetOpens(TimedOut(t)); }
  }

  /** Out of turn, nothing is accepted. */
  lemma {:induction false} OutOfTurn(u: Table, id: int, a: GameAction)
    requires Contested(u) && u.seats[u.turn].id != id
    ensures ProcessAction(u, id, a).Rejected?
  {
    ActorFound(u);
  }

  lemma {:induction false} SteppedOn(t: Table, m: Table, r: Table)
    requires Contested(t) && Stepped(t, m) && m.live && Stepped(m, r)
    ensures Stepped(t, r)
  {
    SameCount(t.seats, m.seats);
  }

  ghost function Ask(t: Table): int
    requires t.Shaped()
  {
    t.seats[t.turn].id
  }

  /** The turn with the sanitised action and the fallback spelled out. */
  lemma {:induction false} TurnUnfolds(t: Table, d: Decision)
    requires Contested(t)
    ensures var cur := Ask(t);
      var first := Submit(t, d.late, cur, Chosen(t, d.proposal).(playerId := cur));
      var second := Submit(first.after, d.lateAgain, cur, Passive(t));
      LoopTurn(t, d) == if first.ok then GoesOn(first.after) else if second.ok then GoesOn(second.after) else Breaks(second.after)
  {
    ActorFound(t);
    SanitizeChooses(t, d.proposal);
    FallbackIsPassive(t);
  }

  /** A playable action submitted in time by the player to act is a legal step. */
  lemma {:induction false} InTime(t: Table, a: GameAction)
    requires Contested(t) && Playable(t, a)
    ensures var j := Submit(t, false, Ask(t), a.(playerId := Ask(t))); j.ok && Stepped(t, j.after)
  {
    SamePlayable(t, a, Ask(t));
    PlayableIsProcessed(t, a.(playerId := Ask(t)));
  }

  /** One turn, whatever the clock does: a legal step, or two. */
  lemma {:induction false} TurnSteps(t: Table, d: Decision)
    requires Contested(t)
    ensures Stepped(t, LoopTurn(t, d).after)
    ensures LoopTurn(t, d).Breaks? && LoopTurn(t, d).after.live <==> PassesOver(t, d)
  {
    TurnUnfolds(t, d);
    PassivePlayable(t);
    ChosenPlayable(t, d.proposal);
    if d.late {
      LateTurn(t, d);
    } else {
      SamePlayable(t, Chosen(t, d.proposal), Ask(t));
      PlayableIsProcessed(t, Chosen(t, d.proposal).(playerId := Ask(t)));
      if Refused(t, d.proposal) { RefusedTurn(t, d); }
    }
  }

  lemma {:induction false} RefusedTurn(t: Table, d: Decision)
    requires Contested(t) && !d.late && Refused(t, d.proposal)
    ensures var second := Submit(t, d.lateAgain, Ask(t), Passive(t));
      Stepped(t, second.after) && (!second.ok && second.after.live <==> PassesOver(t, d))
  {
    PassivePlayable(t);
    if d.lateAgain {
      ClockSettles(t);
      FoldedIsOut(t, Passive(t));
    } else {
      InTime(t, Passive(t));
    }
  }

  /** Folded by the clock, a player can do nothing more. */
  lemma {:induction false} FoldedIsOut(t: Table, a: GameAction)
    requires Contested(t) && ToCall(t.seats[t.turn], t.currentBet) > 0
    ensures CheckTimeout(t).Shaped() && ProcessAction(CheckTimeout(t), Ask(t), a).Rejected?
    ensures CheckTimeout(t).live ==> CheckTimeout(t).turn != t.turn
  {
    ClockSettles(t);
    var u := CheckTimeout(t);
    if u.live {
      if u.turn == t.turn { PendingAfterClock(t, t.turn); }
      ActorMoved(t, u);
      OutOfTurn(u, Ask(t), a);
    }
  }

  lemma {:induction false} ActorMoved(t: Table, u: Table)
    requires Contested(t) && Contested(u) && SameTable(t, u)
    ensures u.turn == t.turn <==> Ask(u) == Ask(t)
  {
    assert SamePlayer(t.seats[t.turn], u.seats[t.turn]) && SamePlayer(t.seats[u.turn], u.seats[u.turn]);
  }

  /** The turn of a player whose clock has run out. */
  lemma {:induction false} LateTurn(t: Table, d: Decision)
    requires Contested(t) && d.late
    ensures Stepped(t, LoopTurn(t, d).after)
    ensures LoopTurn(t, d).Breaks? && LoopTurn(t, d).after.live <==> PassesOver(t, d)
  {
    TurnUnfolds(t, d);
    ClockSettles(t);
    var u := CheckTimeout(t);
    var a := Chosen(t, d.proposal).(playerId := Ask(t));
    if u.live {
      ActorMoved(t, u);
      if u.turn == t.turn {
        ResumesPlayable(t, u, d.proposal);
        SamePlayable(u, Chosen(t, d.proposal), Ask(t));
        PlayableIsProcessed(u, a);
        SteppedOn(t, u, ProcessAction(u, Ask(t), a).after);
      } else {
        OutOfTurn(u, Ask(t), a);
        SecondChance(t, u, d);
      }
    }
  }

  /** The fallback, once the first action came too late and the turn has passed. */
  lemma {:induction false} SecondChance(t: Table, u: Table, d: Decision)
    requires Contested(t) && u == CheckTimeout(t) && u.live && u.turn != t.turn && d.late
    ensures var second := Submit(u, d.lateAgain, Ask(t), Passive(t));
      Stepped(t, second.after) && (!second.ok && second.after.live <==> PassesOver(t, d))
  {
    ClockSettles(t);
    ActorMoved(t, u);
    if d.lateAgain {
      LateAgain(t, u, CheckTimeout(u));
    } else {
      OutOfTurn(u, Ask(t), Passive(t));
    }
  }

  /** Both clocks ran out: on the player asked, and on whoever came after him. */
  lemma {:induction false} ClocksTwice(t: Table, u: Table, v: Table)
    requires Contested(t) && u == CheckTimeout(t) && u.live && u.turn != t.turn && u.Shaped() && v == CheckTimeout(u)
    ensures Contested(u) && Stepped(t, v) && (v.live <==> !HandCloses(TimedOut(u)))
    ensures v.live ==> (v.turn == t.turn <==> Ask(v) == Ask(t))
    ensures v.live && v.turn == t.turn ==> Playable(v, Passive(t))
  {
    ClockSettles(t);
    ClockSettles(u);
    SteppedOn(t, u, v);
    if v.live {
      ActorMoved(t, v);
      if v.turn == t.turn { ReturnsPlayable(t, u, v); }
    }
  }

  lemma {:induction false} LateAgain(t: Table, u: Table, v: Table)
    requires Contested(t) && u == CheckTimeout(t) && u.live && u.turn != t.turn && u.Shaped() && v == CheckTimeout(u)
    ensures Contested(u) && v.Shaped() && (v.live <==> !HandCloses(TimedOut(u)))
    ensures match ProcessAction(v, Ask(t), Passive(t))
      case Rejected => Stepped(t, v) && (v.live ==> v.turn != t.turn)
      case Accepted(r) => Stepped(t, r) && v.live && v.turn == t.turn
  {
    ClocksTwice(t, u, v);
    JudgedAgain(t, v);
  }

  lemma {:induction false} JudgedAgain(t: Table, v: Table)
    requires Contested(t) && Stepped(t, v) && (v.live ==> (v.turn == t.turn <==> Ask(v) == Ask(t)))
    requires v.live && v.turn == t.turn ==> Playable(v, Passive(t))
    ensures match ProcessAction(v, Ask(t), Passive(t))
      case Rejected => v.live ==> v.turn != t.turn
      case Accepted(r) => Stepped(t, r) && v.live && v.turn == t.turn
  {
    if v.live {
      if v.turn == t.turn {
        PlayableIsProcessed(v, Passive(t));
        SteppedOn(t, v, ProcessAction(v, Ask(t), Passive(t)).after);
      } else {
        OutOfTurn(v, Ask(t), Passive(t));
      }
    }
  }

  /** What the engine's own steps have, and composes, every turn has. */
  ghost predicate Closed(rel: (Table, Table) -> bool) {
    && (forall x: Table {:trigger CheckTimeout(x)} :: Contested(x) ==> rel(x, CheckTimeout(x)))
    && (forall x: Table, a: GameAction {:trigger Playable(x, a)} :: Contested(x) && Playable(x, a) ==>
          rel(x, Submit(x, false, Ask(x), a).after))
    && (forall x, y, z {:trigger rel(x, y), rel(y, z)} :: rel(x, y) && y.live && rel(y, z) ==> rel(x, z))
  }

  lemma {:induction false} TurnLifts(t: Table, d: Decision, rel: (Table, Table) -> bool)
    requires Contested(t) && Closed(rel)
    ensures rel(t, LoopTurn(t, d).after)
  {
    TurnUnfolds(t, d);
    PassivePlayable(t);
    var a := Chosen(t, d.proposal).(playerId := Ask(t));
    ChosenPlayable(t, d.proposal);
    SamePlayable(t, Chosen(t, d.proposal), Ask(t));
    if d.late {
      LateLifts(t, d, rel, a);
    } else {
      PlayableIsProcessed(t, a);
      if Refused(t, d.proposal) {
        if d.lateAgain { FoldedIsOut(t, Passive(t)); } else { PlayableIsProcessed(t, Passive(t)); }
      }
    }
  }

  lemma {:induction false} LateLifts(t: Table, d: Decision, rel: (Table, Table) -> bool, a: GameAction)
    requires Contested(t) && Closed(rel) && d.late && a == Chosen(t, d.proposal).(playerId := Ask(t))
    ensures var first := Submit(t, true, Ask(t), a); var second := Submit(first.after, d.lateAgain, Ask(t), Passive(t));
      rel(t, if first.ok then first.after else second.after)
  {
    ClockSettles(t);
    var u := CheckTimeout(t);
    if u.live {
      ActorMoved(t, u);
      if u.turn == t.turn {
        ResumedLifts(t, u, d, rel, a);
      } else {
        OutOfTurn(u, Ask(t), a);
        SecondLifts(t, u, d, rel);
      }
    }
  }

  /** The turn came back: the action is carried out after all. */
  lemma {:induction false} ResumedLifts(t: Table, u: Table, d: Decision, rel: (Table, Table) -> bool, a: GameAction)
    requires Contested(t) && Closed(rel) && u == CheckTimeout(t) && u.live && u.turn == t.turn
    requires a == Chosen(t, d.proposal).(playerId := Ask(t))
    ensures Submit(u, false, Ask(t), a).ok && rel(t, Submit(u, false, Ask(t), a).after)
  {
    ClockSettles(t);
    ActorMoved(t, u);
    ResumesPlayable(t, u, d.proposal);
    SamePlayable(u, Chosen(t, d.proposal), Ask(t));
    PlayableIsProcessed(u, a);
    assert rel(u, Submit(u, false, Ask(u), a).after);
  }

  lemma {:induction false} SecondLifts(t: Table, u: Table, d: Decision, rel: (Table, Table) -> bool)
    requires Contested(t) && Closed(rel) && u == CheckTimeout(t) && u.live && u.turn != t.turn
    ensures rel(t, Submit(u, d.lateAgain, Ask(t), Passive(t)).after)
  {
    ClockSettles(t);
    ActorMoved(t, u);
    assert rel(t, u);
    if d.lateAgain {
      ClocksTwice(t, u, CheckTimeout(u));
      assert rel(u, CheckTimeout(u));
      JudgedLifts(t, CheckTimeout(u), rel);
    } else {
      OutOfTurn(u, Ask(t), Passive(t));
    }
  }

  lemma {:induction false} JudgedLifts(t: Table, v: Table, rel: (Table, Table) -> bool)
    requires Contested(t) && Closed(rel) && Stepped(t, v) && rel(t, v)
    requires v.live ==> (v.turn == t.turn <==> Ask(v) == Ask(t))
    requires v.live && v.turn == t.turn ==> Playable(v, Passive(t))
    ensures rel(t, match ProcessAction(v, Ask(t), Passive(t)) case Rejected => v case Accepted(r) => r)
  {
    if v.live {
      if v.turn == t.turn {
        PlayableIsProcessed(v, Passive(t));
        assert rel(v, Submit(v, false, Ask(v), Passive(t)).after);
      } else {
        OutOfTurn(v, Ask(t), Passive(t));
      }
    }
  }

  // ---------- when the turn comes back ----------

  /** The first active seat after the button. */
  function FirstOnStreet(w: Table): int
    requires w.Shaped()
  {
    Find(w.seats, (w.button + 1) % |w.seats|, 0, |w.seats|, Active)
  }

  /** The expired clock checked, closed the street, and its player is the first active one after the
      button. */
  ghost predicate ComesBack(t: Table)
    requires t.Shaped()
  {
    && t.currentBet <= t.seats[t.turn].bet && RoundComplete(TimedOut(t).seats)
    && FirstOnStreet(t) == t.turn
  }

  lemma {:induction false} FindAlike(a: seq<Seat>, b: seq<Seat>, start: nat, lo: nat, hi: nat, p: Seat -> bool, q: Seat -> bool)
    requires |a| == |b| > 0 && forall i :: 0 <= i < |a| ==> p(a[i]) == q(b[i])
    ensures Find(a, start, lo, hi, p) == Find(b, start, lo, hi, q)
    decreases hi - lo
  {
    if lo < hi { FindAlike(a, b, start, lo + 1, hi, p, q); }
  }

  /** Within a street the turn goes to somebody else. */
  lemma {:induction false} TurnMovesOn(t: Table)
    requires Contested(t) && !RoundComplete(TimedOut(t).seats)
    ensures Settle(TimedOut(t)).turn != t.turn
  {
    var w := TimedOut(t);
    TimedOutSound(t);
    var j := SomebodyPending(w);
    FindFinds(w.seats, w.turn, 1, Pending, j);
  }

  lemma {:induction false} FirstOnStreetFound(w: Table)
    requires w.Shaped() && ActiveCount(w.seats) > 0
    ensures 0 <= FirstOnStreet(w) < |w.seats| && Active(w.seats[FirstOnStreet(w)])
  {
    var j := SumWitness(w.seats, OneIfActive);
    FindFinds(w.seats, (w.button + 1) % |w.seats|, 0, Active, j);
  }

  /** On a new street everybody active is to act. */
  lemma {:induction false} NewStreetFirst(w: Table, u: Table)
    requires w.Shaped() && u.seats == MapSeats(w.seats, NewStreetSeat)
    ensures Find(u.seats, (w.button + 1) % |w.seats|, 0, |w.seats|, Pending) == FirstOnStreet(w)
  {
    forall i | 0 <= i < |w.seats| ensures Pending(u.seats[i]) == Active(w.seats[i]) {
      assert u.seats[i] == NewStreetSeat(w.seats[i]);
    }
    FindAlike(u.seats, w.seats, (w.button + 1) % |w.seats|, 0, |w.seats|, Pending, Active);
  }

  /** A new street starts with the first active player after the button. */
  lemma {:induction false} StreetTurn(w: Table)
    requires Sound(w) && LiveCount(w.seats) > 1 && ActiveCount(w.seats) > 1 && w.phase != RiverBetting
    ensures AdvanceStreet(w).turn == FirstOnStreet(w)
  {
    AdvanceUnfolds(w);
    NextStreetSound(w);
    NewStreetCounts(w.seats);
    StreetStarts(w, NextStreetDealt(w));
  }

  lemma {:induction false} StreetStarts(w: Table, u: Table)
    requires w.Shaped() && u.Shaped() && ActiveCount(w.seats) > 0 && ActiveCount(u.seats) > 1
    requires u.seats == MapSeats(w.seats, NewStreetSeat) && u.button == w.button && u.phase != PreflopBetting
    ensures StartBettingRound(u).turn == FirstOnStreet(w)
  {
    FirstOnStreetFound(w);
    NewStreetFirst(w, u);
    RoundTurn(u, (w.button + 1) % |w.seats|, FirstOnStreet(w));
  }

  lemma {:induction false} RoundTurn(u: Table, start: nat, first: nat)
    requires u.Shaped() && ActiveCount(u.seats) > 1 && start == StartSeat(u) && first == Find(u.seats, start, 0, |u.seats|, Pending)
    ensures StartBettingRound(u).turn == first
  {
  }

  lemma {:induction false} StreetComesBack(t: Table)
    requires Contested(t) && RoundComplete(TimedOut(t).seats) && ActiveCount(TimedOut(t).seats) > 0
    ensures FirstOnStreet(TimedOut(t)) == t.turn <==> ComesBack(t)
  {
    var w := TimedOut(t);
    if t.currentBet <= t.seats[t.turn].bet {
      FindAlike(w.seats, t.seats, (t.button + 1) % |t.seats|, 0, |t.seats|, Active, Active);
    } else {
      FirstOnStreetFound(w);
    }
  }

  lemma {:induction false} TimeoutTurn(t: Table)
    requires Contested(t) && !HandCloses(TimedOut(t)) && RoundComplete(TimedOut(t).seats)
    ensures ActiveCount(TimedOut(t).seats) > 0 && Settle(TimedOut(t)).turn == FirstOnStreet(TimedOut(t))
  {
    TimedOutSound(t);
    StreetTurn(TimedOut(t));
  }

  lemma {:induction false} ComesBackIff(t: Table)
    requires Contested(t) && !HandCloses(TimedOut(t))
    ensures CheckTimeout(t).turn == t.turn <==> ComesBack(t)
  {
    ClockSettles(t);
    if RoundComplete(TimedOut(t).seats) {
      TimeoutTurn(t);
      StreetComesBack(t);
    } else {
      TurnMovesOn(t);
    }
  }

  // ---------- when the turn comes back after two clocks ----------

  /** The second active seat after the button. */
  function SecondOnStreet(w: Table): int
    requires w.Shaped()
  {
    var first := FirstOnStreet(w);
    if first < 0 then -1 else Find(w.seats, first, 1, |w.seats| + 1, Active)
  }

  /** The clock ran out within a street: the next player is to act. */
  function Passing(t: Table): (u: Table)
    requires t.Shaped()
    ensures u.Shaped()
  {
    var w := TimedOut(t);
    w.(turn := NextTurn(w.seats, w.turn))
  }

  /** The second clock closes the hand: it runs out within the same street, on the next player. */
  ghost predicate ClosesLater(t: Table)
    requires t.Shaped()
  {
    !RoundComplete(TimedOut(t).seats) && HandCloses(TimedOut(Passing(t)))
  }

  /** The second clock hands the turn back to the player the first ran out on: he is the second active
      one of the street the first clock opened, or the first of the street the second one opens. */
  ghost predicate ComesBackLater(t: Table)
    requires t.Shaped()
  {
    var w, x := TimedOut(t), TimedOut(Passing(t));
    if RoundComplete(w.seats) then SecondOnStreet(w) == t.turn
    else RoundComplete(x.seats) && FirstOnStreet(x) == t.turn
  }

  lemma {:induction false} PassesWithin(t: Table)
    requires Contested(t) && !RoundComplete(TimedOut(t).seats)
    ensures CheckTimeout(t) == Passing(t)
  {
    ClockSettles(t);
  }

  /** Within one street the turn does not return to whoever acted or folded. */
  lemma {:induction false} NotBackWithin(t: Table, u: Table)
    requires Contested(t) && Contested(u) && u == Passing(t) && u.turn != t.turn
    requires !RoundComplete(TimedOut(u).seats)
    ensures CheckTimeout(u).turn != t.turn
  {
    var x := TimedOut(u);
    ClockSettles(u);
    assert !Pending(x.seats[t.turn]);
    TimedOutSound(u);
    var j := SomebodyPending(x);
    FindFinds(x.seats, x.turn, 1, Pending, j);
  }

  lemma {:induction false} SecondClockWithin(t: Table, u: Table)
    requires Contested(t) && Contested(u) && u == CheckTimeout(t) && u.turn != t.turn && !RoundComplete(TimedOut(t).seats)
    ensures HandCloses(TimedOut(u)) <==> ClosesLater(t)
    ensures !HandCloses(TimedOut(u)) ==> (CheckTimeout(u).turn == t.turn <==> ComesBackLater(t))
  {
    PassesWithin(t);
    if RoundComplete(TimedOut(u).seats) {
      if !HandCloses(TimedOut(u)) {
        ClockSettles(u);
        TimeoutTurn(u);
      }
    } else {
      NotBackWithin(t, u);
    }
  }

  lemma {:induction false} FindFurther(seats: seq<Seat>, start: nat, lo: nat, hi: nat, p: Seat -> bool)
    requires seats != [] && Find(seats, start, lo, hi, p) >= 0
    ensures Find(seats, start, lo, hi + 1, p) == Find(seats, start, lo, hi, p)
    decreases hi - lo
  {
    if !p(seats[(start + lo) % |seats|]) { FindFurther(seats, start, lo + 1, hi, p); }
  }

  /** Alike everywhere but at the starting seat. */
  lemma {:induction false} FindSame(a: seq<Seat>, w: seq<Seat>, start: nat, lo: nat, p: Seat -> bool, q: Seat -> bool)
    requires |a| == |w| && start < |a| && 1 <= lo <= |a|
    requires forall i :: 0 <= i < |a| && i != start ==> p(a[i]) == q(w[i])
    ensures Find(a, start, lo, |a|, p) == Find(w, start, lo, |a|, q)
    decreases |a| - lo
  {
    if lo < |a| {
      RingMoves(start, lo, |a|);
      FindSame(a, w, start, lo + 1, p, q);
    }
  }

  lemma {:induction false} FindWithin(seats: seq<Seat>, start: nat, p: Seat -> bool, j: nat)
    requires start < |seats| && j < |seats| && j != start && p(seats[j])
    ensures Find(seats, start, 1, |seats|, p) >= 0
  {
    var i := RingOffset(start, 1, j, |seats|);
    if i == |seats| { RingReturns(start, |seats|); }
    var k := FindFirst(seats, start, 1, |seats|, p, i);
  }

  /** Around the ring from b, which is active but no longer pending: the next pending seat is the next
      active one. */
  lemma {:induction false} NextAround(a: seq<Seat>, w: seq<Seat>, b: nat, j: nat)
    requires |a| == |w| && b < |a| && j < |a| && j != b && Active(w[j])
    requires forall i :: 0 <= i < |a| && i != b ==> Pending(a[i]) == Active(w[i])
    ensures NextTurn(a, b) == Find(w, b, 1, |w| + 1, Active)
  {
    var n := |a|;
    FindSame(a, w, b, 1, Pending, Active);
    FindWithin(w, b, Active, j);
    FindFurther(a, b, 1, n, Pending);
    FindFurther(w, b, 1, n, Active);
  }

  /** Of two active seats one is not b. */
  lemma {:induction false} AnotherActive(seats: seq<Seat>, b: nat) returns (j: nat)
    requires b < |seats| && ActiveCount(seats) > 1
    ensures j < |seats| && j != b && Active(seats[j])
  {
    var without := seats[b := seats[b].(state := Empty)];
    SumUpdate(seats, b, seats[b].(state := Empty), OneIfActive);
    j := SumWitness(without, OneIfActive);
  }

  /** On a new street whoever is active is pending, and nothing is bet. */
  lemma {:induction false} PendingElsewhere(w: Table, u: Table)
    requires w.Shaped() && u.Shaped() && u.seats == MapSeats(w.seats, NewStreetSeat)
    ensures u.seats[u.turn].bet == 0
    ensures forall i :: 0 <= i < |w.seats| ==> Pending(u.seats[i]) == Active(w.seats[i])
    ensures forall i :: 0 <= i < |w.seats| && i != u.turn ==> Pending(TimedOut(u).seats[i]) == Active(w.seats[i])
  {
    forall i | 0 <= i < |w.seats| ensures Pending(u.seats[i]) == Active(w.seats[i]) {
      assert u.seats[i] == NewStreetSeat(w.seats[i]);
    }
    assert u.seats[u.turn] == NewStreetSeat(w.seats[u.turn]);
  }

  lemma {:induction false} NextAfterFirst(w: Table, x: seq<Seat>, b: nat)
    requires w.Shaped() && |x| == |w.seats| && b == FirstOnStreet(w) && ActiveCount(w.seats) > 1
    requires forall i :: 0 <= i < |x| && i != b ==> Pending(x[i]) == Active(w.seats[i])
    ensures NextTurn(x, b) == SecondOnStreet(w)
  {
    var j := AnotherActive(w.seats, b);
    NextAround(x, w.seats, b, j);
  }

  lemma {:induction false} FirstChecksOn(w: Table, u: Table)
    requires w.Shaped() && Contested(u) && u.seats == MapSeats(w.seats, NewStreetSeat) && u.currentBet == 0
    requires ActiveCount(w.seats) > 1
    ensures !RoundComplete(TimedOut(u).seats)
  {
    var j := AnotherActive(w.seats, u.turn);
    PendingElsewhere(w, u);
    StreetNotOver(u, j);
  }

  /** The street the first clock opened: nobody has to fold, and the second active player is next. */
  lemma {:induction false} SecondOnStreetActs(w: Table, u: Table)
    requires w.Shaped() && Contested(u) && u.seats == MapSeats(w.seats, NewStreetSeat) && u.currentBet == 0
    requires ActiveCount(w.seats) > 1 && u.turn == FirstOnStreet(w)
    ensures !RoundComplete(TimedOut(u).seats) && NextTurn(TimedOut(u).seats, u.turn) == SecondOnStreet(w)
  {
    FirstChecksOn(w, u);
    PendingElsewhere(w, u);
    NextAfterFirst(w, TimedOut(u).seats, u.turn);
  }

  lemma {:induction false} StreetNotOver(u: Table, j: nat)
    requires Contested(u) && u.seats[u.turn].bet == u.currentBet && j < |u.seats| && j != u.turn && Pending(u.seats[j])
    ensures !RoundComplete(TimedOut(u).seats)
  {
    var x := TimedOut(u);
    SumUpdate(u.seats, u.turn, x.seats[u.turn], OneIfLive);
    SumCovers(x.seats, OneIfActive, j);
    assert Active(x.seats[j]) && !x.seats[j].acted;
  }

  lemma {:induction false} SecondClockAfter(t: Table, u: Table)
    requires Contested(t) && Contested(u) && u == CheckTimeout(t) && u.turn != t.turn && RoundComplete(TimedOut(t).seats)
    requires !HandCloses(TimedOut(t))
    ensures !HandCloses(TimedOut(u))
    ensures CheckTimeout(u).turn == t.turn <==> ComesBackLater(t)
  {
    var w := TimedOut(t);
    TimedOutSound(t);
    ClockSettles(t);
    StreetOpens(w);
    TimeoutTurn(t);
    SecondOnStreetActs(w, u);
    ClockSettles(u);
  }

  lemma {:induction false} SecondClock(t: Table, u: Table)
    requires Contested(t) && u == CheckTimeout(t) && u.live && u.turn != t.turn
    ensures u.Shaped() && (HandCloses(TimedOut(u)) <==> ClosesLater(t))
    ensures !HandCloses(TimedOut(u)) ==> (CheckTimeout(u).turn == t.turn <==> ComesBackLater(t))
  {
    ClockSettles(t);
    if RoundComplete(TimedOut(t).seats) { SecondClockAfter(t, u); } else { SecondClockWithin(t, u); }
  }

  // ---------- one turn, in full ----------

  /** The loop breaks off and leaves the hand in play, told from the table before: the clock ran out on
      the player asked, or did so on the fallback of a refused fold; the hand does not close on that;
      and neither that clock nor, if there is one, the next player's hands the turn back to him. */
  ghost predicate Strands(t: Table, d: Decision)
    requires t.Shaped()
  {
    && !HandCloses(TimedOut(t))
    && if !d.late then Refused(t, d.proposal) && d.lateAgain
       else !ComesBack(t) && (d.lateAgain ==> !ClosesLater(t) && !ComesBackLater(t))
  }

  lemma {:induction false} StrandsIff(t: Table, d: Decision)
    requires Contested(t)
    ensures Strands(t, d) <==> PassesOver(t, d)
  {
    if d.late && !HandCloses(TimedOut(t)) {
      ComesBackIff(t);
      ClockSettles(t);
      if !ComesBack(t) { SecondClock(t, CheckTimeout(t)); }
    }
  }

  lemma {:induction false} ActorAsked(t: Table)
    requires Contested(t)
    ensures Asked(t) == t.seats[t.turn].id
  {
    ActorFound(t);
  }

  lemma {:induction false} DriverAsks(t: Table, decisions: Decisions, i: nat, d: Decision)
    requires d == decisions(Asked(t), i)
    ensures Driver(decisions)(t, i) == LoopTurn(t, d)
  {
  }

  /** Each turn is decided by the player whose seat is to act. */
  lemma {:induction false} ActorDecides(t: Table, decisions: Decisions, i: nat)
    requires Contested(t)
    ensures Driver(decisions)(t, i) == LoopTurn(t, decisions(t.seats[t.turn].id, i))
  {
    ActorAsked(t);
    DriverAsks(t, decisions, i, decisions(t.seats[t.turn].id, i));
  }

  /** One turn, whatever the clock does: a legal step, or two; and it breaks off with the hand in play
      exactly when it is stranded. */
  lemma {:induction false} LoopTurnKeeps(t: Table, d: Decision)
    requires Contested(t)
    ensures Stepped(t, LoopTurn(t, d).after)
    ensures LoopTurn(t, d).Breaks? && LoopTurn(t, d).after.live <==> Strands(t, d)
  {
    TurnSteps(t, d);
    StrandsIff(t, d);
  }

  /** One expired clock: the loop breaks off and leaves the hand in play unless the hand closes on it,
      or the player asked had a free check that closed the street and opens the next. */
  lemma {:induction false} OneLateStrandsIff(t: Table, d: Decision)
    requires Contested(t) && d.late && !d.lateAgain
    ensures LoopTurn(t, d).Breaks? && LoopTurn(t, d).after.live <==> !HandCloses(TimedOut(t)) && !ComesBack(t)
  {
    LoopTurnKeeps(t, d);
    if !HandCloses(TimedOut(t)) { ComesBackIff(t); }
  }

  // ---------- the whole hand ----------

  /** After any number of turns the hand is contested or over; and no chip has been lost. */
  ghost predicate Underway(t: Table, r: Table) {
    SameTable(t, r) && Wealth(r.seats) == Wealth(t.seats) && (if r.live then Contested(r) else Finished(r))
  }

  ghost function WhileContested(): Table -> bool { (t: Table) => Contested(t) }
  ghost function Throughout(): (Table, Table) -> bool { (t: Table, r: Table) => Underway(t, r) }
  ghost function Remaining(): Table -> int { (t: Table) => Potential(t) }
  ghost function Stranding(decisions: Decisions): (Table, nat) -> bool {
    (t: Table, i: nat) => t.Shaped() && Strands(t, decisions(Asked(t), i))
  }

  lemma {:induction false} UnderwayAfter(t: Table, m: Table, r: Table)
    requires Underway(t, m) && Underway(m, r)
    ensures Underway(t, r)
  {
  }

  /** Every turn of every run keeps the invariant and the chips, whatever the agents propose and
      whenever clocks run out. */
  lemma {:induction false} EveryTurnKeeps(decisions: Decisions, t: Table, k: nat)
    requires Contested(t)
    ensures Underway(t, PlayOut(Driver(decisions), t, 0, k))
  {
    var step, good, rel := Driver(decisions), WhileContested(), Throughout();
    forall u: Table, i: nat | good(u)
      ensures rel(u, step(u, i).after) && (step(u, i).after.live ==> good(step(u, i).after))
    {
      LoopTurnKeeps(u, decisions(Asked(u), i));
    }
    forall u: Table, v: Table, r: Table | rel(u, v) && v.live && rel(v, r) ensures rel(u, r) {
      UnderwayAfter(u, v, r);
    }
    PlayOutLifts(step, good, rel, t, 0, k);
  }

  // ---------- the run that leaves the hand in play ----------

  /** Turn n finds the hand in play and strands it. */
  ghost predicate StrandedAt(decisions: Decisions, t: Table, n: nat) {
    var b := PlayOut(Driver(decisions), t, 0, n);
    b.live && b.Shaped() && Strands(b, decisions(Asked(b), n))
  }

  /** Within the potential the loop carries a contested hand to its end, unless and only unless some
      turn strands it. */
  lemma {:induction false} RunOpenIff(decisions: Decisions, t: Table, k: nat)
    requires Contested(t) && Potential(t) <= k
    ensures PlayOut(Driver(decisions), t, 0, k).live <==> exists n: nat :: n < k && StrandedAt(decisions, t, n)
  {
    var step, good, stuck, size := Driver(decisions), WhileContested(), Stranding(decisions), Remaining();
    forall u: Table, i: nat | good(u)
      ensures step(u, i).after.live ==> good(step(u, i).after) && size(step(u, i).after) <= size(u) - 1
      ensures step(u, i).Breaks? && step(u, i).after.live <==> stuck(u, i)
    {
      LoopTurnKeeps(u, decisions(Asked(u), i));
    }
    forall u: Table | good(u) ensures size(u) >= 1 {
      PotentialPositive(u);
    }
    PlayOutOpenIff(step, good, stuck, size, t, 0, k);
    forall n: nat ensures StuckAt(step, stuck, t, 0, n) <==> StrandedAt(decisions, t, n) {
    }
  }

  lemma {:induction false} PotentialPositive(t: Table)
    requires AwaitsAction(t)
    ensures Potential(t) >= 1
  {
    CountsBounded(t.seats);
    CountsOne(t.seats, t.turn);
    SumNonNegative(t.seats, ChipsOf);
    UnitsMonotone(t.bigBlind, Sum(t.seats, ChipsOf), 0);
    UnitsScale(PlayerCount(t.seats), 0, Units(t.seats, t.bigBlind) + ActiveCount(t.seats) + StreetsLeft(t.phase));
  }

  /** What a hand comes to, from a table between hands. */
  ghost predicate CameTo(t: Table, r: Table) {
    && SamePlayers(t.seats, r.seats)
    && if r.live then LeftOpen(t, r) else Finished(r) && Sum(r.seats, ChipsOf) == Sum(t.seats, ChipsOf)
  }

  /** A hand broken off: chips are still in the pot, and no other hand can start. */
  ghost predicate LeftOpen(t: Table, r: Table) {
    && Contested(r) && Sum(r.seats, ChipsOf) < Sum(t.seats, ChipsOf)
    && forall deck :: StartHand(r, deck).Rejected?
  }

  /** n players with S chips between them: within n (S / bb + n + 4) turns the loop ends the hand with
      the stacks adding up to what they did, if and only if no turn strands it; stranded, it stays
      open with chips in the pot. */
  lemma {:induction false} HandEndsIff(t: Table, deck: seq<Card>, decisions: Decisions, guard: nat)
    requires Ready(t) && DeckCovers(t, deck) && HandBound(t) <= guard
    ensures StartHand(t, deck).Accepted?
    ensures var s := StartHand(t, deck).after; var r := PlayOut(Driver(decisions), s, 0, guard);
      && CameTo(t, r) && r.button == s.button
      && (r.live <==> exists n: nat :: n < guard && StrandedAt(decisions, s, n))
  {
    HandComesTo(t, deck, decisions, guard);
    StartHandOpens(t, deck);
    RunOpenIff(decisions, StartHand(t, deck).after, guard);
  }

  /** However many turns it is given, a hand keeps its players and its chips. */
  lemma {:induction false} HandComesTo(t: Table, deck: seq<Card>, decisions: Decisions, guard: nat)
    requires Ready(t) && DeckCovers(t, deck)
    ensures StartHand(t, deck).Accepted?
    ensures var s := StartHand(t, deck).after; var r := PlayOut(Driver(decisions), s, 0, guard);
      CameTo(t, r) && r.button == s.button && Underway(s, r)
  {
    StartHandOpens(t, deck);
    var s := StartHand(t, deck).after;
    EveryTurnKeeps(decisions, s, guard);
    ComesTo(t, s, PlayOut(Driver(decisions), s, 0, guard));
  }

  lemma {:induction false} ComesTo(t: Table, s: Table, r: Table)
    requires Ready(t) && SamePlayers(t.seats, s.seats) && Wealth(s.seats) == Wealth(t.seats) && Underway(s, r)
    ensures CameTo(t, r)
  {
    RestingWealth(t);
    if r.live { OpenIsShort(r); } else { SumCompare(r.seats, r.seats, ChipsOf, WealthOf); }
    SamePlayersOn(t.seats, s.seats, r.seats);
  }

  lemma {:induction false} SamePlayersOn(a: seq<Seat>, b: seq<Seat>, c: seq<Seat>)
    requires SamePlayers(a, b) && SamePlayers(b, c)
    ensures SamePlayers(a, c)
  {
    forall i | 0 <= i < |a| ensures SamePlayer(a[i], c[i]) {
      assert SamePlayer(a[i], b[i]) && SamePlayer(b[i], c[i]);
    }
  }

  lemma {:induction false} RestingWealth(t: Table)
    requires Ready(t)
    ensures Wealth(t.seats) == Sum(t.seats, ChipsOf)
  {
    forall i | 0 <= i < |t.seats| ensures ChipsOf(t.seats[i]) == WealthOf(t.seats[i]) {
      assert SeatReady(t.seats[i], t.bigBlind);
    }
    SumCompare(t.seats, t.seats, ChipsOf, WealthOf);
  }

  /** In a contested hand some chips are in the pot. */
  lemma {:induction false} OpenIsShort(r: Table)
    requires Contested(r)
    ensures Sum(r.seats, ChipsOf) < Wealth(r.seats)
  {
    var i :| 0 <= i < |r.seats| && Owns(r, r.seats[i]);
    forall k | 0 <= k < |r.seats| ensures InvestedOf(r.seats[k]) >= 0 {
      assert SeatOk(r.seats[k], r.currentBet);
    }
    SumCovers(r.seats, InvestedOf, i);
    SumAdds(r.seats, ChipsOf, InvestedOf, WealthOf);
  }

  /** With every clock in time, every hand ends and every chip is back in a stack: whatever the
      agents propose. */
  lemma {:induction false} HandConservesAndEnds(t: Table, deck: seq<Card>, decisions: Decisions, guard: nat)
    requires Ready(t) && DeckCovers(t, deck) && HandBound(t) <= guard
    requires forall id: int, i: nat :: decisions(id, i).OnTime()
    ensures StartHand(t, deck).Accepted?
    ensures var r := PlayOut(Driver(decisions), StartHand(t, deck).after, 0, guard);
      Finished(r) && Sum(r.seats, ChipsOf) == Sum(t.seats, ChipsOf) && SamePlayers(t.seats, r.seats)
  {
    HandEndsIff(t, deck, decisions, guard);
    var s := StartHand(t, deck).after;
    forall n: nat ensures !StrandedAt(decisions, s, n) {
      assert decisions(Asked(PlayOut(Driver(decisions), s, 0, n)), n).OnTime();
    }
  }

  /** With three or more players, the first to act strands the hand by letting his clock run out: the
      loop breaks off, the blinds stay in the pot, and the match cannot go on. */
  lemma {:induction false} LateFirstDecision(t: Table, deck: seq<Card>, decisions: Decisions, guard: nat)
    requires Ready(t) && DeckCovers(t, deck) && guard > 0 && Sum(t.seats, OneIfSeated) >= 3
    requires StartHand(t, deck).Accepted? ==>
      var d := decisions(Asked(StartHand(t, deck).after), 0); d.late && !d.lateAgain
    ensures StartHand(t, deck).Accepted?
    ensures LeftOpen(t, PlayOut(Driver(decisions), StartHand(t, deck).after, 0, guard))
  {
    HandComesTo(t, deck, decisions, guard);
    StartHandOpens(t, deck);
    var s := StartHand(t, deck).after;
    OpeningCounts(t, deck);
    var d := decisions(Asked(s), 0);
    FirstLateBreaks(s, d);
    assert Driver(decisions)(s, 0) == LoopTurn(s, d);
  }

  lemma {:induction false} FirstLateBreaks(s: Table, d: Decision)
    requires Contested(s) && PendingCount(s.seats) >= 3 && d.late && !d.lateAgain
    ensures LoopTurn(s, d).Breaks? && LoopTurn(s, d).after.live && Stepped(s, LoopTurn(s, d).after)
  {
    FirstTimeoutGoesOn(s);
    LoopTurnKeeps(s, d);
  }

  /** With three or more pending, one expired clock does not complete the round. */
  lemma {:induction false} FirstTimeoutGoesOn(s: Table)
    requires Contested(s) && PendingCount(s.seats) >= 3
    ensures !RoundComplete(TimedOut(s).seats)
  {
    TimedOutSound(s);
    var w := TimedOut(s);
    SumUpdate(s.seats, s.turn, w.seats[s.turn], OneIfPending);
    SumUpdate(s.seats, s.turn, w.seats[s.turn], OneIfLive);
    CountsBounded(s.seats);
    RoundCompleteIff(w);
  }

  lemma {:induction false} OpeningCounts(t: Table, deck: seq<Card>)
    requires Ready(t) && DeckCovers(t, deck)
    ensures StartHand(t, deck).Accepted? && PendingCount(StartHand(t, deck).after.seats) == Sum(t.seats, OneIfSeated)
  {
    ClearedReady(t, deck);
    var b := DealtShape(t, deck);
    var d := DealtIn(Cleared(t, deck));
    DealtIsSound(t, d, b);
    FirstToAct(d, b.big);
  }

  // ---------- the guard ----------

  /** The source's guard of 100000 turns is never reached at stacks of 200 big blinds, for as many
      players as the deck can serve, whatever the size of the table. */
  lemma {:induction false} GuardNeverFires(t: Table)
    requires Ready(t) && Sum(t.seats, OneIfSeated) <= 21
    requires Wealth(t.seats) == Sum(t.seats, OneIfSeated) * (200 * t.bigBlind)
    ensures HandBound(t) <= 100000
  {
    var n, bb := Sum(t.seats, OneIfSeated), t.bigBlind;
    assert n * (200 * bb) == bb * (200 * n) + 0;
    ModUnique(n * (200 * bb), bb, 200 * n, 0);
    var q := (n * (200 * bb)) / bb;
    assert bb * q == bb * (200 * n);
    SameFactor(bb, q, 200 * n);
    UnitsScale(n, 201 * n + 4, 201 * 21 + 4);
    assert n * (201 * 21 + 4) <= 21 * (201 * 21 + 4);
  }
}
