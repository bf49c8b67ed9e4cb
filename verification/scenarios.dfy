/**
 Sequences of uninterrupted rolls, and what the statistics say about them:
 the count is the number of rolls and the history is the window of the
 latest sums of the whole session.
 */
module Scenarios {
  import opened Faces
  import opened Stats
  import opened Simulator

  /** Every round supplies exactly one draw in 1..6 for each of `n` dice. */
  predicate Rounds(rounds: seq<seq<int>>, n: nat) {
    forall k :: 0 <= k < |rounds| ==> |rounds[k]| == n && AllFaces(rounds[k])
  }

  /** The sums of the rounds, in roll order. */
  function Sums(rounds: seq<seq<int>>): (r: seq<int>)
    ensures |r| == |rounds|
  {
    if |rounds| == 0 then [] else [Sum(rounds[0])] + Sums(rounds[1..])
  }

  /** Appending the first round's sum to the log, then the rest's sums, is
      appending all the sums. */
  lemma LogThenSums(log: seq<int>, rounds: seq<seq<int>>)
    requires |rounds| > 0
    ensures (log + [Sum(rounds[0])]) + Sums(rounds[1..]) == log + Sums(rounds)
  {
  }

  /** Rolls once per round, each roll finishing before the next begins. The
      die count is kept, the state stays valid and idle, and the count goes
      up by the number of rounds. */
  function RollAll(s: State, rounds: seq<seq<int>>): (r: State)
    requires Valid(s) && !s.rolling
    requires Rounds(rounds, |s.dice|)
    ensures Valid(r) && !r.rolling
    ensures |r.dice| == |s.dice|
    ensures r.stats.rollCount == s.stats.rollCount + |rounds|
    decreases |rounds|
  {
    if |rounds| == 0 then s
    else
      var t := Roll(s, rounds[0]);
      RollAll(t, rounds[1..])
  }

  /** One uninterrupted roll with exactly one draw per die keeps the
      history the window of the session's sums, extended by this roll. */
  lemma RollStep(s: State, draws: seq<int>, log: seq<int>)
    requires Valid(s) && !s.rolling
    requires AllFaces(draws) && |draws| == |s.dice|
    requires s.stats.rollHistory == Latest(log, HistoryCap)
    ensures var t := Roll(s, draws);
      && Valid(t) && !t.rolling
      && t.dice == draws
      && t.stats.rollHistory == Latest(log + [Sum(draws)], HistoryCap)
  {
    assert draws[..|s.dice|] == draws;
    RollCompletes(s, draws);
    UpdateStatsKeepsWindow(log, s.stats, draws);
  }

  /** After any number of rolls the history holds the latest `HistoryCap`
      sums of the session, in roll order. */
  lemma {:induction false} RollAllHistory(s: State, rounds: seq<seq<int>>, log: seq<int>)
    requires Valid(s) && !s.rolling
    requires Rounds(rounds, |s.dice|)
    requires s.stats.rollHistory == Latest(log, HistoryCap)
    ensures RollAll(s, rounds).stats.rollHistory == Latest(log + Sums(rounds), HistoryCap)
    decreases |rounds|
  {
    if |rounds| == 0 {
      assert log + Sums(rounds) == log;
    } else {
      var t := Roll(s, rounds[0]);
      RollAllFirst(s, rounds);
      RollStep(s, rounds[0], log);
      RollAllHistory(t, rounds[1..], log + [Sum(rounds[0])]);
      LogThenSums(log, rounds);
    }
  }

  /** The first round of a run of rolls: it leaves a valid idle state that
      shows its draws, from which the remaining rounds run. */
  lemma RollAllFirst(s: State, rounds: seq<seq<int>>)
    requires Valid(s) && !s.rolling
    requires Rounds(rounds, |s.dice|)
    requires |rounds| > 0
    ensures var t := Roll(s, rounds[0]);
      && Valid(t) && !t.rolling && t.dice == rounds[0]
      && Rounds(rounds[1..], |t.dice|)
      && RollAll(s, rounds) == RollAll(t, rounds[1..])
  {
  }

  /** After one or more rolls the dice show the last round's draws. */
  lemma {:induction false} RollAllDice(s: State, rounds: seq<seq<int>>)
    requires Valid(s) && !s.rolling
    requires Rounds(rounds, |s.dice|)
    requires |rounds| > 0
    ensures RollAll(s, rounds).dice == rounds[|rounds| - 1]
    decreases |rounds|
  {
    RollAllFirst(s, rounds);
    var rest := rounds[1..];
    if |rest| > 0 {
      RollAllDice(Roll(s, rounds[0]), rest);
      assert rest[|rest| - 1] == rounds[|rounds| - 1];
    }
  }

  /** Two dice, one roll: one roll counted, and the only history entry is the
      total of the two faces, between 2 and 12. */
  lemma TwoDiceOneRoll(a: int, b: int)
    requires IsFace(a) && IsFace(b)
    ensures var r := Roll(CreateDice(Initial(), 2), [a, b]);
      && r.dice == [a, b]
      && r.stats.rollCount == 1
      && r.stats.rollHistory == [a + b]
      && 2 <= r.stats.rollHistory[0] <= 12
  {
    var s := CreateDice(Initial(), 2);
    RollCompletes(s, [a, b]);
    assert Sum([a, b]) == a + b by {
      assert [a, b][..1] == [a];
      assert [a][..0] == [];
      assert Sum([a]) == a;
    }
  }

  /** Rolls from a state with no rolls recorded yet: the count is the
      number of rolls, the history is the latest `HistoryCap` sums and the
      statistics line shows the latest `ShownSums` sums, all in roll order. */
  lemma FreshSession(s: State, rounds: seq<seq<int>>)
    requires Valid(s) && !s.rolling && s.stats == NoRolls
    requires Rounds(rounds, |s.dice|)
    ensures var r := RollAll(s, rounds);
      && r.stats.rollCount == |rounds|
      && r.stats.rollHistory == Latest(Sums(rounds), HistoryCap)
      && LastSums(r.stats) == Latest(Sums(rounds), ShownSums)
  {
    var log := Sums(rounds);
    var r := RollAll(s, rounds);
    assert r.stats.rollHistory == Latest(log, HistoryCap) by {
      assert s.stats.rollHistory == Latest([], HistoryCap);
      RollAllHistory(s, rounds, []);
      assert [] + log == log;
    }
    LastSumsAreLatestRolls(log, r.stats);
  }

  /** Eleven rolls from a fresh page: eleven counted, the history holds the
      sums of rolls 2 through 11 in order, and the statistics line shows the
      sums of rolls 7 through 11. */
  lemma ElevenRolls(n: nat, rounds: seq<seq<int>>)
    requires |rounds| == 11
    requires Rounds(rounds, n)
    ensures var r := RollAll(CreateDice(Initial(), n), rounds);
      && r.stats.rollCount == 11
      && r.stats.rollHistory == Sums(rounds)[1..]
      && LastSums(r.stats) == Sums(rounds)[6..]
  {
    FreshSession(CreateDice(Initial(), n), rounds);
  }
}
