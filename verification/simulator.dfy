/**
 The roll lifecycle of the dice simulator as a state machine over an
 immutable state record. A roll is split at its one suspension point (the
 animation hold): `BeginRoll` runs up to the hold, `FinishRoll` runs after
 it. The random source is a sequence of draws, each already in 1..6.
 */
module Simulator {
  import opened Faces
  import opened Display
  import opened Stats

  datatype State = State(
    rolling: bool,       // the roll button is disabled: a roll is in flight
    dice: seq<int>,      // the face each die shows, in die order
    pending: seq<int>,   // the values sampled by the roll in flight
    stats: Statistics,   // roll count and history of sums
    result: ResultView   // the result line
  )

  predicate AllFaces(xs: seq<int>) {
    forall i :: 0 <= i < |xs| ==> IsFace(xs[i])
  }

  /** What every reachable state satisfies. */
  predicate Valid(s: State) {
    && AllFaces(s.dice)
    && AllFaces(s.pending)
    && |s.stats.rollHistory| <= HistoryCap
    && (!s.rolling ==> s.pending == [])
  }

  /** The transforms the page shows for the dice, in die order. */
  function Orientations(s: State): seq<Transform>
    requires AllFaces(s.dice)
  {
    seq(|s.dice|, i requires 0 <= i < |s.dice| => Orientation(s.dice[i]))
  }

  /** Dice render the same orientation exactly when they show the same face. */
  lemma OrientationsShowFaces(s: State, i: int, j: int)
    requires AllFaces(s.dice)
    requires 0 <= i < |s.dice| && 0 <= j < |s.dice|
    ensures Orientations(s)[i] == Orientations(s)[j] <==> s.dice[i] == s.dice[j]
  {
    OrientationIdentifiesFace(s.dice[i], s.dice[j]);
  }

  function Ones(n: nat): seq<int> {
    seq(n, _ => 1)
  }

  /** Replaces the dice with `count` dice showing face 1 and shows that
      outcome; the roll flag, the roll in flight and the statistics are left
      alone. */
  function CreateDice(s: State, count: nat): (r: State)
    ensures |r.dice| == count
    ensures forall i :: 0 <= i < |r.dice| ==> r.dice[i] == 1
    ensures r.stats == s.stats && r.rolling == s.rolling && r.pending == s.pending
    ensures r.result == UpdateResult(r.dice)
    ensures ShownValues(r.result) == r.dice
    ensures Valid(s) ==> Valid(r)
  {
    var ones := Ones(count);
    s.(dice := ones, result := UpdateResult(ones))
  }

  /** The page as it is after loading: one die at face 1, no rolls yet. */
  function Initial(): (s: State)
    ensures Valid(s) && !s.rolling
    ensures s.dice == [1] && s.stats == NoRolls
    ensures s.result == Single(1)
  {
    var empty := State(false, [], [], NoRolls, Blank);
    var s := CreateDice(empty, 1);
    s.(result := UpdateResult([1]))
  }

  /** Starts a roll: ignored while a roll is in flight; otherwise raises the
      flag and takes one draw per die, keeping them out of sight until the
      roll finishes. */
  function BeginRoll(s: State, draws: seq<int>): (r: State)
    requires AllFaces(draws)
    requires |draws| >= |s.dice|
    ensures r == s <==> s.rolling
    ensures !s.rolling ==> r.rolling && r.pending == draws[..|s.dice|]
    ensures r.dice == s.dice && r.stats == s.stats && r.result == s.result
    ensures Valid(s) ==> Valid(r)
  {
    if s.rolling then s
    else s.(rolling := true, pending := draws[..|s.dice|])
  }

  /** The value die `i` ends up with when a roll commits `pending` over
      `dice`: the i-th draw, or its old face where the draws run out. */
  function Commit(dice: seq<int>, pending: seq<int>): (r: seq<int>)
    ensures |r| == |dice|
    ensures forall i :: 0 <= i < |r| && i < |pending| ==> r[i] == pending[i]
    ensures forall i :: |pending| <= i < |r| ==> r[i] == dice[i]
  {
    seq(|dice|, i requires 0 <= i < |dice| => if i < |pending| then pending[i] else dice[i])
  }

  /** Ends the roll in flight after the hold: commits the draws to the dice
      in order, shows them, records them in the statistics and lowers the
      flag. */
  function FinishRoll(s: State): (r: State)
    requires s.rolling
    ensures !r.rolling && r.pending == []
    ensures |r.dice| == |s.dice|
    ensures forall i :: 0 <= i < |r.dice| && i < |s.pending| ==> r.dice[i] == s.pending[i]
    ensures r.stats == UpdateStats(s.stats, s.pending)
    ensures r.stats.rollCount == s.stats.rollCount + 1
    ensures r.stats.rollHistory[|r.stats.rollHistory| - 1] == Sum(s.pending)
    ensures r.result == UpdateResult(s.pending)
    ensures ShownValues(r.result) == s.pending
    ensures Valid(s) ==> Valid(r)
  {
    s.(rolling := false,
       dice := Commit(s.dice, s.pending),
       pending := [],
       stats := UpdateStats(s.stats, s.pending),
       result := UpdateResult(s.pending))
  }

  /** One call of `rollDice` with nothing else happening during its hold:
      a no-op while a roll is in flight; otherwise the dice take one draw
      each, in order, the result line and the statistics record them, and
      the flag ends down. */
  function Roll(s: State, draws: seq<int>): (r: State)
    requires AllFaces(draws)
    requires |draws| >= |s.dice|
    ensures s.rolling ==> r == s
    ensures !s.rolling ==> && !r.rolling
                           && r.dice == draws[..|s.dice|]
                           && r.stats == UpdateStats(s.stats, draws[..|s.dice|])
                           && r.result == UpdateResult(draws[..|s.dice|])
  {
    if s.rolling then s else FinishRoll(BeginRoll(s, draws))
  }

  /** A roll with no die-count change during the hold: die i holds the i-th
      draw, every die shows a face, the flag is down, the count rises by one
      and the sum appended to the history is the dice total, in [n, 6n] for
      n dice. */
  lemma RollCompletes(s: State, draws: seq<int>)
    requires Valid(s) && !s.rolling
    requires AllFaces(draws)
    requires |draws| >= |s.dice|
    ensures var r := Roll(s, draws);
      && Valid(r) && !r.rolling
      && r.dice == draws[..|s.dice|]
      && AllFaces(r.dice)
      && r.stats.rollCount == s.stats.rollCount + 1
      && r.stats.rollHistory[|r.stats.rollHistory| - 1] == Sum(r.dice)
      && |s.dice| <= Sum(r.dice) <= 6 * |s.dice|
      && ShownValues(r.result) == r.dice
  {
  }

  /** A die-count change during the hold: the commit walks the new dice with
      the draws taken for the old ones. Dice past the old count keep face 1,
      and the statistics record the old draws' sum. */
  lemma ResizeDuringRoll(s: State, count: nat)
    requires Valid(s) && s.rolling
    ensures var r := FinishRoll(CreateDice(s, count));
      && Valid(r)
      && |r.dice| == count
      && (forall i :: |s.pending| <= i < count ==> r.dice[i] == 1)
      && (forall i :: 0 <= i < count && i < |s.pending| ==> r.dice[i] == s.pending[i])
      && r.stats == UpdateStats(s.stats, s.pending)
  {
  }
}
