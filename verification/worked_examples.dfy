/** Worked examples of single puzzles, each with the draws fixed. */
module WorkedExamples {
  import opened Wrappers
  import opened Text
  import opened PyOps
  import opened ConditionalPuzzle
  import opened Generators
  import opened Grading

  /** Level 1, a = 5, b = 3, c = 2 and the `+` question: the prompt shows
      `5 + 3`, the stored answer is 8, and replying "8" earns 10 points. */
  lemma FivePlusThree(score: nat)
    ensures var d := Draws(5, 3, 2, false, false, false, 0, 0, 0);
      && Generate(Arithmetic, 1, d) == Puzzle(Arithmetic, ShownExpr(Add(Num(5), Num(3))), IntAnswer(8))
      && PlayPuzzle(Arithmetic, 1, d, Reply("8", Some(8)), score) == Attempt(true, score + 10)
  {
  }

  /** The grade template with x between 60 and 79, such as x = 65 at level
      5, stores the answer "B". */
  lemma GradeB(level: int, d: Draws)
    requires d.pick == 2 && 60 <= d.x < 80
    ensures ValidDraws(Conditional, level, d)
    ensures Generate(Conditional, level, d).expected == TextAnswer("B")
  {
    GradeBands(d.x);
    assert Generate(Conditional, level, d).expected == TextAnswer(Run(Chains()[2], d.x));
  }

  /** A reply that strips and lower-cases to "b", such as "b" or " B\n",
      solves that puzzle for 25 points. */
  lemma LowerCaseBAccepted(level: int, d: Draws, score: nat, reply: string)
    requires d.pick == 2 && 60 <= d.x < 80
    requires Lower(Trim(reply)) == "b"
    ensures ValidDraws(Conditional, level, d)
    ensures PlayPuzzle(Conditional, level, d, Reply(reply, None), score) == Attempt(true, score + 25)
  {
    GradeB(level, d);
    MatchesB(reply);
    Rewarded(Conditional, level, d, Reply(reply, None), score);
  }

  lemma MatchesB(reply: string)
    requires Lower(Trim(reply)) == "b"
    ensures GradeText("B", reply) == Correct
  {
    assert Lower("B") == "b";
  }

  /** `10 == 10` at level 1: the stored answer is True, disclosed as
      "True", and a reply that normalises to a False word, such as "no", is
      wrong and leaves the score alone. */
  lemma TenEqualsTen(d: Draws, score: nat, reply: string)
    requires d == Draws(10, 10, 1, false, false, false, 0, 0, 0)
    requires Trim(Lower(reply)) in FalseWords
    ensures ValidDraws(Comparison, 1, d)
    ensures Generate(Comparison, 1, d).expected == BoolAnswer(true)
    ensures ShowBool(true) == "True"
    ensures Grade(Generate(Comparison, 1, d), Reply(reply, None)) == Incorrect
    ensures PlayPuzzle(Comparison, 1, d, Reply(reply, None), score) == Attempt(false, score)
  {
    assert Generate(Comparison, 1, d).expected == BoolAnswer(ComparisonMenu(1, 10, 10, 1)[0].answer);
    assert PlainComparisons(10, 10)[0].answer;
    Unrewarded(Comparison, 1, d, Reply(reply, None), score);
  }

  /** A reply graded correct solves the puzzle and earns the kind's points. */
  lemma Rewarded(k: Kind, level: int, d: Draws, reply: Reply, score: nat)
    requires ValidDraws(k, level, d) && Grade(Generate(k, level, d), reply) == Correct
    ensures PlayPuzzle(k, level, d, reply, score) == Attempt(true, score + Points(k))
  {
  }

  /** A reply not graded correct leaves the puzzle unsolved and the score
      as it was. */
  lemma Unrewarded(k: Kind, level: int, d: Draws, reply: Reply, score: nat)
    requires ValidDraws(k, level, d) && Grade(Generate(k, level, d), reply) != Correct
    ensures PlayPuzzle(k, level, d, reply, score) == Attempt(false, score)
  {
  }

  /** A reply `int()` rejects, such as "abc", is a format error on every
      arithmetic puzzle, distinct from a wrong number, and scores nothing. */
  lemma NonNumericReply(level: int, d: Draws, score: nat)
    requires ValidDraws(Arithmetic, level, d)
    ensures Grade(Generate(Arithmetic, level, d), Reply("abc", None)) == FormatError
    ensures Grade(Generate(Arithmetic, level, d), Reply("0", Some(Generate(Arithmetic, level, d).expected.n + 1))) == Incorrect
    ensures PlayPuzzle(Arithmetic, level, d, Reply("abc", None), score) == Attempt(false, score)
  {
  }
}
