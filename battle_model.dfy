/**
 * The battle resolver: up to two prepared meals, a deterministic score per
 * meal, and a winner chosen by comparing the normalised score gap with an
 * externally supplied random draw.
 *
 * The pure functions below state what each operation does to the combatant
 * list and to the trace of stat updates; the class BattleModel performs the
 * same operations in place and is proved against them.
 */
module Battle {
  import opened Wrappers
  import opened Kitchen
  import opened Lists

  /** No more than this many meals can be prepared for one battle. */
  const MaxCombatants: nat := 2

  /**
   * The errors the resolver raises: its own two ValueErrors, and the errors
   * of its collaborators (the randomness source, the catalog), which it lets
   * through with their messages.
   */
  datatype BattleError =
    | CombatantListFull
    | NotEnoughCombatants
    | RandomSourceFailed(reason: string)
    | CatalogFailed(reason: string)

  /** The message each error carries. */
  function ErrorMessage(e: BattleError): (msg: string)
    ensures e.RandomSourceFailed? || e.CatalogFailed? ==> msg == e.reason
  {
    match e
    case CombatantListFull => "Combatant list is full, cannot add more combatants."
    case NotEnoughCombatants => "Two combatants must be prepped for a battle."
    case RandomSourceFailed(reason) => reason
    case CatalogFailed(reason) => reason
  }

  /** The resolver's own two errors carry the messages it raises, and they differ. */
  lemma ErrorMessagesAsRaised()
    ensures ErrorMessage(CombatantListFull) == "Combatant list is full, cannot add more combatants."
    ensures ErrorMessage(NotEnoughCombatants) == "Two combatants must be prepped for a battle."
    ensures ErrorMessage(CombatantListFull) != ErrorMessage(NotEnoughCombatants)
  {
  }

  // ---------------------------------------------------------------------
  // Scoring
  // ---------------------------------------------------------------------

  /** The penalty table: HIGH costs 1, MED 2, LOW 3. */
  function DifficultyModifier(d: Difficulty): (k: int)
    ensures 1 <= k <= 3
  {
    match d
    case HIGH => 1
    case MED => 2
    case LOW => 3
  }

  /** The battle score: price times the length of the cuisine, less the difficulty penalty. */
  function BattleScore(m: Meal): (s: real)
    ensures m.price * (|m.cuisine| as real) - 3.0 <= s <= m.price * (|m.cuisine| as real) - 1.0
  {
    m.price * (|m.cuisine| as real) - DifficultyModifier(m.difficulty) as real
  }

  /** Harder meals score higher: HIGH beats MED by one point and LOW by two, all else equal. */
  lemma ScoreByDifficulty(id: int, name: string, cuisine: string, price: real)
    ensures BattleScore(Meal(id, name, cuisine, price, HIGH)) == BattleScore(Meal(id, name, cuisine, price, MED)) + 1.0
    ensures BattleScore(Meal(id, name, cuisine, price, MED)) == BattleScore(Meal(id, name, cuisine, price, LOW)) + 1.0
  {
  }

  /** The score grows with the price when the cuisine is non-empty and the difficulty is fixed. */
  lemma ScoreMonotoneInPrice(a: Meal, b: Meal)
    requires a.cuisine == b.cuisine && a.difficulty == b.difficulty
    requires |a.cuisine| > 0 && a.price < b.price
    ensures BattleScore(a) < BattleScore(b)
  {
  }

  /** The two fixture meals: their scores are 18.6 and 174.5 (not the 58.5 and 21.6 a test expects). */
  lemma ScoreExamples()
    ensures BattleScore(Meal(1, "Ratatouille", "****", 5.40, LOW)) == 18.6
    ensures BattleScore(Meal(2, "Beef Wellington", "*****", 35.10, HIGH)) == 174.5
  {
  }

  // ---------------------------------------------------------------------
  // Deciding a battle
  // ---------------------------------------------------------------------

  /** The normalised gap between two scores: their absolute difference divided by 100. */
  function Delta(s1: real, s2: real): (d: real)
    ensures d >= 0.0
    ensures 100.0 * d == s1 - s2 || 100.0 * d == s2 - s1
  {
    (if s1 >= s2 then s1 - s2 else s2 - s1) / 100.0
  }

  /** What a battle decided: who won, who lost, and the combatant list left behind. */
  datatype BattleResult = BattleResult(winner: Meal, loser: Meal, remaining: seq<Meal>)

  /**
   * The decision on a list of at least two meals and a draw r: combatant 1
   * wins when the gap is strictly greater than r, otherwise combatant 2; the
   * loser is removed from the list.
   */
  function Decide(cs: seq<Meal>, r: real): (b: BattleResult)
    requires |cs| >= 2
    ensures multiset{b.winner, b.loser} == multiset{cs[0], cs[1]}
    ensures |b.remaining| == |cs| - 1
  {
    if Delta(BattleScore(cs[0]), BattleScore(cs[1])) > r
    then BattleResult(cs[0], cs[1], RemoveFirst(cs, cs[1]))
    else BattleResult(cs[1], cs[0], RemoveFirst(cs, cs[0]))
  }

  /** What the catalog's update_meal_stats did on the winner's call and on the loser's call. */
  datatype CatalogReplies = CatalogReplies(winnerUpdate: Result<(), string>, loserUpdate: Result<(), string>)

  /** Both updates were accepted. */
  const AllAccepted := CatalogReplies(Success(()), Success(()))

  /**
   * battle(): with fewer than two combatants it raises before drawing; a
   * failed draw propagates; a rejected stat update propagates too, and then
   * the loser is not removed. Otherwise it reports the decision.
   */
  function Resolve(cs: seq<Meal>, draw: Result<real, string>, replies: CatalogReplies): (res: Result<BattleResult, BattleError>)
    ensures res.Success? <==>
      |cs| >= 2 && draw.Success? && replies.winnerUpdate.Success? && replies.loserUpdate.Success?
    ensures |cs| < 2 ==> res == Failure(NotEnoughCombatants)
    ensures |cs| >= 2 && draw.Failure? ==> res == Failure(RandomSourceFailed(draw.error))
    ensures |cs| >= 2 && draw.Success? && replies.winnerUpdate.Failure? ==>
      res == Failure(CatalogFailed(replies.winnerUpdate.error))
    ensures |cs| >= 2 && draw.Success? && replies.winnerUpdate.Success? && replies.loserUpdate.Failure? ==>
      res == Failure(CatalogFailed(replies.loserUpdate.error))
    ensures res.Success? ==> res.value == Decide(cs, draw.value)
  {
    if |cs| < 2 then Failure(NotEnoughCombatants)
    else
      match draw
      case Failure(reason) => Failure(RandomSourceFailed(reason))
      case Success(r) =>
        if replies.winnerUpdate.Failure? then Failure(CatalogFailed(replies.winnerUpdate.error))
        else if replies.loserUpdate.Failure? then Failure(CatalogFailed(replies.loserUpdate.error))
        else Success(Decide(cs, r))
  }

  /** The strict-inequality winner rule: a gap equal to the draw goes to combatant 2. */
  lemma WinnerRule(cs: seq<Meal>, r: real)
    requires |cs| >= 2
    ensures Delta(BattleScore(cs[0]), BattleScore(cs[1])) > r ==>
      Decide(cs, r).winner == cs[0] && Decide(cs, r).loser == cs[1]
    ensures Delta(BattleScore(cs[0]), BattleScore(cs[1])) <= r ==>
      Decide(cs, r).winner == cs[1] && Decide(cs, r).loser == cs[0]
  {
  }

  /** Equal scores with a non-negative draw always go to combatant 2. */
  lemma TieGoesToSecond(cs: seq<Meal>, r: real)
    requires |cs| >= 2 && BattleScore(cs[0]) == BattleScore(cs[1]) && r >= 0.0
    ensures Decide(cs, r).winner == cs[1]
  {
  }

  /**
   * The winner is decided by slot, not by score: swapping two distinct
   * combatants hands the win to whoever now holds the same slot.
   */
  lemma SlotDecides(a: Meal, b: Meal, r: real)
    requires a != b
    ensures Decide([a, b], r).winner == a <==> Decide([b, a], r).winner == b
  {
  }

  /** A gap of at least 1 beats every draw below 1: combatant 1 then always wins. */
  lemma LargeGapFirstAlwaysWins(cs: seq<Meal>, r: real)
    requires |cs| >= 2 && Delta(BattleScore(cs[0]), BattleScore(cs[1])) >= 1.0 && r < 1.0
    ensures Decide(cs, r).winner == cs[0]
  {
  }

  /** With the two fixture meals, the lower-scoring Ratatouille wins from slot 1 on any draw below 1. */
  lemma LowerScoreCanWin(r: real)
    requires r < 1.0
    ensures var m1 := Meal(1, "Ratatouille", "****", 5.40, LOW);
      var m2 := Meal(2, "Beef Wellington", "*****", 35.10, HIGH);
      BattleScore(m1) < BattleScore(m2) &&
      Decide([m1, m2], r) == BattleResult(m1, m2, [m1])
  {
  }

  /**
   * Removing the loser leaves the winner in slot 1 and every later entry in
   * place, even when both combatants are equal meals; on a two-entry list
   * only the winner remains.
   */
  lemma {:induction false} LoserRemovedWinnerStays(cs: seq<Meal>, r: real)
    requires |cs| >= 2
    ensures Decide(cs, r).remaining == [Decide(cs, r).winner] + cs[2..]
    ensures |cs| == 2 ==> Decide(cs, r).remaining == [Decide(cs, r).winner]
  {
    if Delta(BattleScore(cs[0]), BattleScore(cs[1])) > r {
      RemoveOneOfFirstTwo(cs, 1);
    } else {
      RemoveOneOfFirstTwo(cs, 0);
    }
  }

  // ---------------------------------------------------------------------
  // Stat updates
  // ---------------------------------------------------------------------

  /** How many updates in a trace carry outcome o. */
  function CountOutcome(t: seq<StatUpdate>, o: Outcome): nat
  {
    if t == [] then 0 else (if t[0].outcome == o then 1 else 0) + CountOutcome(t[1..], o)
  }

  /** Counting outcomes distributes over concatenated traces. */
  lemma {:induction false} CountOutcomeAppend(s: seq<StatUpdate>, t: seq<StatUpdate>, o: Outcome)
    ensures CountOutcome(s + t, o) == CountOutcome(s, o) + CountOutcome(t, o)
  {
    if s == [] {
      assert s + t == t;
    } else {
      assert (s + t)[0] == s[0];
      assert (s + t)[1..] == s[1..] + t;
      CountOutcomeAppend(s[1..], t, o);
    }
  }

  /** The updates of a completed battle, winner first: exactly one win and one loss. */
  function StatEvents(b: BattleResult): (e: seq<StatUpdate>)
    ensures CountOutcome(e, Win) == 1 && CountOutcome(e, Loss) == 1
  {
    var e := [StatUpdate(b.winner.id, Win), StatUpdate(b.loser.id, Loss)];
    assert e[1..] == [StatUpdate(b.loser.id, Loss)] && e[1..][1..] == [];
    assert CountOutcome(e[1..], Win) == 0 && CountOutcome(e[1..], Loss) == 1;
    e
  }

  /**
   * The updates the catalog applied during one battle() call: none when the
   * battle stopped before or at the winner's update, only the winner's when
   * the loser's update was rejected, both otherwise.
   */
  function AppliedUpdates(cs: seq<Meal>, draw: Result<real, string>, replies: CatalogReplies): (t: seq<StatUpdate>)
    ensures CountOutcome(t, Loss) <= CountOutcome(t, Win) <= CountOutcome(t, Loss) + 1
    ensures CountOutcome(t, Win) == CountOutcome(t, Loss) + 1 <==>
      |cs| >= 2 && draw.Success? && replies.winnerUpdate.Success? && replies.loserUpdate.Failure?
    ensures Resolve(cs, draw, replies).Success? ==> t == StatEvents(Resolve(cs, draw, replies).value)
  {
    if |cs| < 2 || draw.Failure? || replies.winnerUpdate.Failure? then []
    else
      var b := Decide(cs, draw.value);
      if replies.loserUpdate.Failure? then
        var t := [StatUpdate(b.winner.id, Win)];
        assert t[1..] == [];
        t
      else StatEvents(b)
  }

  /** A rejected loser update leaves the catalog with a win and no matching loss, and the list unchanged. */
  lemma RejectedLoserUpdateUnbalances(r: real, reason: string)
    ensures var m1 := Meal(1, "Ratatouille", "****", 5.40, LOW);
      var m2 := Meal(2, "Beef Wellington", "*****", 35.10, HIGH);
      var replies := CatalogReplies(Success(()), Failure(reason));
      var t := AppliedUpdates([m1, m2], Success(r), replies);
      Resolve([m1, m2], Success(r), replies) == Failure(CatalogFailed(reason)) &&
      CountOutcome(t, Win) == 1 && CountOutcome(t, Loss) == 0
  {
  }

  // ---------------------------------------------------------------------
  // Preparing combatants and whole sessions
  // ---------------------------------------------------------------------

  /** prep_combatant: rejected once two meals are prepared; otherwise the meal is appended. */
  function Prep(cs: seq<Meal>, m: Meal): (res: Result<seq<Meal>, BattleError>)
    ensures res.Failure? <==> |cs| >= MaxCombatants
    ensures res.Failure? ==> res.error == CombatantListFull
    ensures res.Success? ==> |res.value| == |cs| + 1 && res.value[..|cs|] == cs && res.value[|cs|] == m
  {
    if |cs| >= MaxCombatants then Failure(CombatantListFull) else Success(cs + [m])
  }

  /** A call a client makes on the resolver, with what its collaborators answer during it. */
  datatype Call =
    | PrepCall(meal: Meal)
    | BattleCall(draw: Result<real, string>, replies: CatalogReplies)
    | ClearCall

  /** A battle call in which the catalog rejected the loser's update. */
  predicate LoserUpdateRejected(c: Call)
  {
    c.BattleCall? && c.replies.loserUpdate.Failure?
  }

  /** The combatant list after one call; a call that raises leaves the list as it was. */
  function Step(cs: seq<Meal>, c: Call): (next: seq<Meal>)
    ensures |cs| <= MaxCombatants ==> |next| <= MaxCombatants
  {
    match c
    case PrepCall(m) =>
      (match Prep(cs, m) case Success(grown) => grown case Failure(_) => cs)
    case BattleCall(draw, replies) =>
      (match Resolve(cs, draw, replies) case Success(b) => b.remaining case Failure(_) => cs)
    case ClearCall => []
  }

  /** The stat updates one call makes: never more losses than wins, and balanced unless the loser's update was rejected. */
  function StepStats(cs: seq<Meal>, c: Call): (t: seq<StatUpdate>)
    ensures CountOutcome(t, Loss) <= CountOutcome(t, Win)
    ensures !LoserUpdateRejected(c) ==> CountOutcome(t, Win) == CountOutcome(t, Loss)
  {
    match c
    case BattleCall(draw, replies) => AppliedUpdates(cs, draw, replies)
    case _ => []
  }

  /** The combatant list after a sequence of calls; a session ending with a clear leaves no combatant. */
  function Run(cs: seq<Meal>, calls: seq<Call>): (last: seq<Meal>)
    ensures |calls| > 0 && calls[|calls| - 1] == ClearCall ==> last == []
    decreases |calls|
  {
    if calls == [] then cs
    else
      assert |calls| > 1 ==> calls[1..][|calls[1..]| - 1] == calls[|calls| - 1];
      Run(Step(cs, calls[0]), calls[1..])
  }

  /** The stat updates a sequence of calls makes, in order; losses never outnumber wins. */
  function RunStats(cs: seq<Meal>, calls: seq<Call>): (t: seq<StatUpdate>)
    ensures CountOutcome(t, Loss) <= CountOutcome(t, Win)
    decreases |calls|
  {
    if calls == [] then []
    else
      var head := StepStats(cs, calls[0]);
      var tail := RunStats(Step(cs, calls[0]), calls[1..]);
      CountOutcomeAppend(head, tail, Win);
      CountOutcomeAppend(head, tail, Loss);
      head + tail
  }

  /** Through the resolver's own calls, the combatant list never holds more than two meals. */
  lemma {:induction false} CapacityInvariant(cs: seq<Meal>, calls: seq<Call>)
    requires |cs| <= MaxCombatants
    ensures |Run(cs, calls)| <= MaxCombatants
    decreases |calls|
  {
    if calls != [] {
      CapacityInvariant(Step(cs, calls[0]), calls[1..]);
    }
  }

  /** A session in which the catalog never rejects a loser's update records as many wins as losses. */
  lemma {:induction false} WinsEqualLosses(cs: seq<Meal>, calls: seq<Call>)
    requires forall i :: 0 <= i < |calls| ==> !LoserUpdateRejected(calls[i])
    ensures CountOutcome(RunStats(cs, calls), Win) == CountOutcome(RunStats(cs, calls), Loss)
    decreases |calls|
  {
    if calls != [] {
      var head := StepStats(cs, calls[0]);
      var tail := RunStats(Step(cs, calls[0]), calls[1..]);
      assert !LoserUpdateRejected(calls[0]);
      WinsEqualLosses(Step(cs, calls[0]), calls[1..]);
      CountOutcomeAppend(head, tail, Win);
      CountOutcomeAppend(head, tail, Loss);
    }
  }

  /** Clearing is idempotent and leaves no combatant, whatever the list held. */
  lemma ClearIdempotent(cs: seq<Meal>)
    ensures Step(cs, ClearCall) == [] && Step(Step(cs, ClearCall), ClearCall) == Step(cs, ClearCall)
  {
  }

  // ---------------------------------------------------------------------
  // The stateful resolver
  // ---------------------------------------------------------------------

  /**
   * BattleModel keeps its combatant list in place. Each update_meal_stats
   * call the catalog applied is recorded in the ghost trace `stats`.
   */
  class BattleModel {
    var combatants: seq<Meal>
    ghost var stats: seq<StatUpdate>

    /** The capacity bound, and no recorded loss without a recorded win. */
    ghost predicate Valid()
      reads this
    {
      |combatants| <= MaxCombatants && CountOutcome(stats, Loss) <= CountOutcome(stats, Win)
    }

    /** A new resolver starts with no combatants and no recorded updates. */
    constructor ()
      ensures combatants == [] && stats == []
      ensures Valid()
    {
      combatants := [];
      stats := [];
    }

    /** prep_combatant: append a meal unless two are already prepared. */
    method PrepCombatant(m: Meal) returns (res: Result<(), BattleError>)
      modifies this
      ensures res.Failure? <==> |old(combatants)| >= MaxCombatants
      ensures res.Failure? ==> res.error == CombatantListFull && combatants == old(combatants)
      ensures res.Success? ==> combatants == old(combatants) + [m]
      ensures Prep(old(combatants), m).Success? ==> combatants == Prep(old(combatants), m).value
      ensures stats == old(stats)
      ensures old(Valid()) ==> Valid()
    {
      if |combatants| >= MaxCombatants {
        return Failure(CombatantListFull);
      }
      combatants := combatants + [m];
      res := Success(());
    }

    /**
     * battle(draw, replies): `draw` is what the randomness source returned or
     * the error it raised; `replies` is what the catalog's update_meal_stats
     * did on the winner's and on the loser's call. On success the winner's
     * name is returned and the loser leaves the list; the trace grows by the
     * updates the catalog applied, even when the battle then fails.
     */
    method Battle(draw: Result<real, string>, replies: CatalogReplies) returns (res: Result<string, BattleError>)
      modifies this
      ensures match Resolve(old(combatants), draw, replies)
        case Success(b) => res == Success(b.winner.meal) && combatants == b.remaining
        case Failure(e) => res == Failure(e) && combatants == old(combatants)
      ensures stats == old(stats) + AppliedUpdates(old(combatants), draw, replies)
      ensures old(Valid()) ==> Valid()
    {
      if |combatants| < 2 {
        return Failure(NotEnoughCombatants);
      }
      var combatant1 := combatants[0];
      var combatant2 := combatants[1];
      var score1 := BattleScore(combatant1);
      var score2 := BattleScore(combatant2);
      var delta := Delta(score1, score2);
      if draw.Failure? {
        return Failure(RandomSourceFailed(draw.error));
      }
      var randomNumber := draw.value;
      var winner, loser;
      if delta > randomNumber {
        winner, loser := combatant1, combatant2;
      } else {
        winner, loser := combatant2, combatant1;
      }
      if replies.winnerUpdate.Failure? {
        return Failure(CatalogFailed(replies.winnerUpdate.error));
      }
      stats := stats + [StatUpdate(winner.id, Win)];
      if replies.loserUpdate.Failure? {
        CountOutcomeAppend(old(stats), [StatUpdate(winner.id, Win)], Win);
        CountOutcomeAppend(old(stats), [StatUpdate(winner.id, Win)], Loss);
        return Failure(CatalogFailed(replies.loserUpdate.error));
      }
      stats := stats + [StatUpdate(loser.id, Loss)];
      combatants := RemoveFirst(combatants, loser);
      res := Success(winner.meal);
      ghost var b := BattleResult(winner, loser, combatants);
      assert old(stats) + StatEvents(b) == stats;
      CountOutcomeAppend(old(stats), StatEvents(b), Win);
      CountOutcomeAppend(old(stats), StatEvents(b), Loss);
    }

    /** clear_combatants: empty the list; never fails. */
    method ClearCombatants()
      modifies this
      ensures combatants == [] && stats == old(stats)
      ensures old(Valid()) ==> Valid()
    {
      combatants := [];
    }

    /** get_combatants: the current list, in insertion order, unchanged. */
    method GetCombatants() returns (cs: seq<Meal>)
      ensures cs == combatants
    {
      cs := combatants;
    }
  }
}
