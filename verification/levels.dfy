/** One level: which puzzle kinds are eligible, how many are posed, and the
    60% rule that decides whether the level is passed. */
module Levels {
  import opened Grading

  predicate Distinct<T(==)>(s: seq<T>) {
    forall i, j :: 0 <= i < j < |s| ==> s[i] != s[j]
  }

  /** The eligible kinds, a step function of the level: arithmetic and
      comparison always, logical from level 3, conditional from level 5 and
      sequence from level 7. */
  function EligibleKinds(level: int): (kinds: seq<Kind>)
    ensures Distinct(kinds)
    ensures Arithmetic in kinds && Comparison in kinds
    ensures Logical in kinds <==> level > 2
    ensures Conditional in kinds <==> level > 4
    ensures Sequence in kinds <==> level > 6
  {
    if level <= 2 then [Arithmetic, Comparison]
    else if level <= 4 then [Arithmetic, Comparison, Logical]
    else if level <= 6 then [Arithmetic, Comparison, Logical, Conditional]
    else [Arithmetic, Comparison, Logical, Conditional, Sequence]
  }

  /** `min(3, len(puzzle_types))`: two puzzles on levels up to 2, three on
      every other level. */
  function PuzzlesToSolve(level: int): (n: nat)
    ensures n == if level <= 2 then 2 else 3
    ensures n <= |EligibleKinds(level)|
  {
    var k := |EligibleKinds(level)|;
    if k < 3 then k else 3
  }

  /** What `random.sample(pool, k)` may return: `k` distinct members of the
      pool, in any order. */
  predicate IsSample(s: seq<Kind>, pool: seq<Kind>, k: nat) {
    |s| == k && Distinct(s) && forall i :: 0 <= i < |s| ==> s[i] in pool
  }

  /** Every level admits a sample, so a level can always be played. */
  lemma SampleExists(level: int)
    ensures IsSample(EligibleKinds(level)[..PuzzlesToSolve(level)], EligibleKinds(level), PuzzlesToSolve(level))
  {
  }

  /** `correct / total >= 0.6`, in integers. */
  predicate Passes(correct: nat, total: nat) {
    5 * correct >= 3 * total
  }

  /** The integer rule is exactly the game's success-rate test, read over
      the rationals. */
  lemma PassesIsSixtyPercent(correct: nat, total: nat)
    requires total > 0
    ensures Passes(correct, total) <==> (correct as real) / (total as real) >= 0.6
  {
    var c, t := correct as real, total as real;
    var rate := c / t;
    DivideThenScale(c, t);
    ScaleByPositive(rate, 0.6, t);
    assert (rate >= 0.6) <==> (c >= 0.6 * t);
    assert (c >= 0.6 * t) <==> (5.0 * c >= 3.0 * t);
    assert (5.0 * c >= 3.0 * t) <==> (5 * correct >= 3 * total);
  }

  lemma DivideThenScale(c: real, t: real)
    requires t > 0.0
    ensures (c / t) * t == c
  {
  }

  lemma ScaleByPositive(x: real, y: real, t: real)
    requires t > 0.0
    ensures x >= y <==> x * t >= y * t
  {
    assert x * t - y * t == (x - y) * t;
  }

  /** With two puzzles both must be solved; with three, at least two. */
  lemma PassThresholds(level: int, correct: nat)
    requires correct <= PuzzlesToSolve(level)
    ensures Passes(correct, PuzzlesToSolve(level)) <==>
      if level <= 2 then correct == 2 else correct >= 2
  {
  }

  /** The inputs one level consumes: a sample of the eligible kinds, and for
      each sampled kind in-range draws and a reply. */
  predicate LevelInputs(level: int, kinds: seq<Kind>, draws: seq<Draws>, replies: seq<Reply>) {
    && IsSample(kinds, EligibleKinds(level), PuzzlesToSolve(level))
    && |draws| == |kinds| && |replies| == |kinds|
    && forall i :: 0 <= i < |kinds| ==> ValidDraws(kinds[i], level, draws[i])
  }

  /** How many of a run of puzzles were solved, and the points they earned. */
  datatype Tally = Tally(correct: nat, gained: nat)

  /** The tally of the first `n` puzzles, posing `kinds[i]` with `draws[i]`
      and grading `replies[i]`. Each solved puzzle earns between 10 and 30
      points. */
  function TallyFirst(level: int, kinds: seq<Kind>, draws: seq<Draws>, replies: seq<Reply>, n: nat): (t: Tally)
    requires |draws| == |kinds| && |replies| == |kinds| && n <= |kinds|
    requires forall i :: 0 <= i < |kinds| ==> ValidDraws(kinds[i], level, draws[i])
    ensures t.correct <= n
    ensures 10 * t.correct <= t.gained <= 30 * t.correct
    decreases n
  {
    if n == 0 then Tally(0, 0)
    else
      var t := TallyFirst(level, kinds, draws, replies, n - 1);
      if PlayPuzzle(kinds[n - 1], level, draws[n - 1], replies[n - 1], 0).solved
      then Tally(t.correct + 1, t.gained + Points(kinds[n - 1]))
      else t
  }

  /** The tally of the whole run. */
  function TallyOf(level: int, kinds: seq<Kind>, draws: seq<Draws>, replies: seq<Reply>): (t: Tally)
    requires |draws| == |kinds| && |replies| == |kinds|
    requires forall i :: 0 <= i < |kinds| ==> ValidDraws(kinds[i], level, draws[i])
    ensures t.correct <= |kinds|
    ensures 10 * t.correct <= t.gained <= 30 * t.correct
  {
    TallyFirst(level, kinds, draws, replies, |kinds|)
  }

  /** Extending the run by puzzle `i` adds that puzzle's outcome to the
      tally, whatever the score stood at before it. */
  lemma TallyStep(level: int, kinds: seq<Kind>, draws: seq<Draws>, replies: seq<Reply>, i: nat, score: nat)
    requires |draws| == |kinds| && |replies| == |kinds| && i < |kinds|
    requires forall j :: 0 <= j < |kinds| ==> ValidDraws(kinds[j], level, draws[j])
    ensures var t := TallyFirst(level, kinds, draws, replies, i);
      var at := PlayPuzzle(kinds[i], level, draws[i], replies[i], score);
      TallyFirst(level, kinds, draws, replies, i + 1) ==
        if at.solved then Tally(t.correct + 1, t.gained + (at.score - score)) else t
  {
    var a0 := PlayPuzzle(kinds[i], level, draws[i], replies[i], 0);
    var at := PlayPuzzle(kinds[i], level, draws[i], replies[i], score);
    assert a0.solved == at.solved;
  }

  /** The result of a level: passed or not, and the score afterwards. */
  datatype LevelResult = LevelResult(passed: bool, score: nat)

  function LevelOutcome(level: int, kinds: seq<Kind>, draws: seq<Draws>, replies: seq<Reply>, score: nat): (r: LevelResult)
    requires LevelInputs(level, kinds, draws, replies)
    ensures r.score >= score
    ensures r.passed <==> Passes(TallyOf(level, kinds, draws, replies).correct, PuzzlesToSolve(level))
    ensures r.score - score <= 30 * PuzzlesToSolve(level)
  {
    var t := TallyOf(level, kinds, draws, replies);
    LevelResult(Passes(t.correct, PuzzlesToSolve(level)), score + t.gained)
  }

  /** Poses the puzzles one after another, as the level's loop does, and
      returns how many were solved and the score afterwards. */
  method PlayPuzzles(level: int, kinds: seq<Kind>, draws: seq<Draws>, replies: seq<Reply>, score: nat)
    returns (correct: nat, newScore: nat)
    requires |draws| == |kinds| && |replies| == |kinds|
    requires forall j :: 0 <= j < |kinds| ==> ValidDraws(kinds[j], level, draws[j])
    ensures newScore >= score
    ensures TallyOf(level, kinds, draws, replies) == Tally(correct, newScore - score)
  {
    correct, newScore := 0, score;
    var i := 0;
    while i < |kinds|
      invariant 0 <= i <= |kinds|
      invariant newScore >= score
      invariant TallyFirst(level, kinds, draws, replies, i) == Tally(correct, newScore - score)
    {
      correct, newScore := PoseNext(level, kinds, draws, replies, i, score, correct, newScore);
      i := i + 1;
    }
  }

  /** Poses puzzle `i` and adds its outcome to the tally of the puzzles
      before it. */
  method PoseNext(level: int, kinds: seq<Kind>, draws: seq<Draws>, replies: seq<Reply>, i: nat,
                  score: nat, correct: nat, current: nat)
    returns (correct': nat, next: nat)
    requires |draws| == |kinds| && |replies| == |kinds| && i < |kinds|
    requires forall j :: 0 <= j < |kinds| ==> ValidDraws(kinds[j], level, draws[j])
    requires current >= score
    requires TallyFirst(level, kinds, draws, replies, i) == Tally(correct, current - score)
    ensures next >= score
    ensures TallyFirst(level, kinds, draws, replies, i + 1) == Tally(correct', next - score)
  {
    TallyStep(level, kinds, draws, replies, i, current);
    var at := PlayPuzzle(kinds[i], level, draws[i], replies[i], current);
    correct' := if at.solved then correct + 1 else correct;
    next := at.score;
  }

  /** Plays a level puzzle by puzzle and decides it by the 60% rule. */
  method PlayLevel(level: int, kinds: seq<Kind>, draws: seq<Draws>, replies: seq<Reply>, score: nat)
    returns (passed: bool, correct: nat, newScore: nat)
    requires LevelInputs(level, kinds, draws, replies)
    ensures correct <= PuzzlesToSolve(level)
    ensures score + 10 * correct <= newScore <= score + 30 * correct
    ensures passed <==> Passes(correct, PuzzlesToSolve(level))
    ensures LevelOutcome(level, kinds, draws, replies, score) == LevelResult(passed, newScore)
  {
    correct, newScore := PlayPuzzles(level, kinds, draws, replies, score);
    passed := Passes(correct, PuzzlesToSolve(level));
    OutcomeOfTally(level, kinds, draws, replies, score, correct, newScore);
  }

  /** A level's outcome in terms of its tally. */
  lemma OutcomeOfTally(level: int, kinds: seq<Kind>, draws: seq<Draws>, replies: seq<Reply>,
                       score: nat, correct: nat, newScore: nat)
    requires LevelInputs(level, kinds, draws, replies) && newScore >= score
    requires TallyOf(level, kinds, draws, replies) == Tally(correct, newScore - score)
    ensures correct <= PuzzlesToSolve(level)
    ensures score + 10 * correct <= newScore <= score + 30 * correct
    ensures LevelOutcome(level, kinds, draws, replies, score) ==
      LevelResult(Passes(correct, PuzzlesToSolve(level)), newScore)
  {
  }
}
