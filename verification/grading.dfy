/** One puzzle from start to finish: the kind, the values drawn for it, the
    question it poses and the answer it stores, how a typed reply is
    normalised and compared, and what a correct reply adds to the score. */
module Grading {
  import opened Wrappers
  import opened Text
  import opened PyOps
  import opened Generators
  import opened ConditionalPuzzle

  datatype Kind = Arithmetic | Comparison | Logical | Conditional | Sequence

  /** The reward for a correct answer; it depends on the kind only. */
  function Points(k: Kind): (n: nat)
    ensures 10 <= n <= 30
  {
    match k
    case Arithmetic => 10
    case Comparison => 15
    case Logical => 20
    case Conditional => 25
    case Sequence => 30
  }

  /** Everything one puzzle draws at random: the operands, the truth values,
      `x`, the sequence start, and the index `random.choice` returns. Each
      kind reads only its own fields. */
  datatype Draws = Draws(a: int, b: int, c: int, p: bool, q: bool, r: bool, x: int, start: int, pick: nat)

  /** The number of candidates `random.choice` chooses among. */
  function MenuSize(k: Kind, level: int): nat {
    match k
    case Arithmetic => 4
    case Comparison => if level > 3 then 10 else 6
    case Logical => 3
    case Conditional => 3
    case Sequence => 3
  }

  /** The draws lie in the ranges the random source produces them in. */
  predicate ValidDraws(k: Kind, level: int, d: Draws) {
    && d.pick < MenuSize(k, level)
    && match k
       case Arithmetic => ArithmeticDraws(d.a, d.b, d.c)
       case Comparison => ComparisonDraws(d.a, d.b, d.c)
       case Logical => true
       case Conditional => InRange(d.x, 1, 100)
       case Sequence => SequenceDraw(level, d.start)
  }

  /** What the prompt displays. A conditional prompt also records which
      template was picked; the game itself forgets that and works from the
      text. */
  datatype Shown =
    | ShownExpr(e: Expr)
    | ShownComparison(c: CompareExpr)
    | ShownFormula(displayed: set<Var>, f: Formula, env: Env)
    | ShownCode(scenario: nat, text: string, x: int)
    | ShownTerms(rule: Recurrence, start: int, terms: seq<int>)

  datatype Expected = IntAnswer(n: int) | BoolAnswer(b: bool) | TextAnswer(t: string)

  datatype Puzzle = Puzzle(kind: Kind, shown: Shown, expected: Expected)

  /** The stored answer is the value of what the prompt displays. */
  predicate Faithful(shown: Shown, expected: Expected) {
    match (shown, expected)
    case (ShownExpr(e), IntAnswer(n)) => Eval(e) == Some(n)
    case (ShownComparison(c), BoolAnswer(b)) => EvalComparison(c) == Some(b)
    case (ShownFormula(vs, f, env), BoolAnswer(b)) => Holds(f, env) == b && FreeVars(f) <= vs
    case (ShownCode(i, text, x), TextAnswer(t)) =>
      i < 3 && x >= 0 && text == Scenarios(x)[i] && t == Run(Chains()[i], x)
    case (ShownTerms(rule, start, terms), IntAnswer(n)) =>
      NextTermOf(SequenceQuestion(rule, terms, n), start)
    case _ => false
  }

  /** Integer answers for arithmetic and sequence puzzles, truth values for
      comparison and logical ones, text for conditional ones. */
  predicate AnswerTypeFits(k: Kind, e: Expected) {
    match k
    case Arithmetic => e.IntAnswer?
    case Comparison => e.BoolAnswer?
    case Logical => e.BoolAnswer?
    case Conditional => e.TextAnswer?
    case Sequence => e.IntAnswer?
  }

  /** The puzzle of a kind for the level and the draws: the `pick`-th entry
      of the kind's menu. Its stored answer is the value of the question it
      displays. */
  function Generate(k: Kind, level: int, d: Draws): (pz: Puzzle)
    requires ValidDraws(k, level, d)
    ensures pz.kind == k
    ensures AnswerTypeFits(k, pz.expected)
    ensures Faithful(pz.shown, pz.expected)
  {
    match k
    case Arithmetic =>
      var q := ArithmeticMenu(level, d.a, d.b, d.c)[d.pick];
      Puzzle(k, ShownExpr(q.shown), IntAnswer(q.answer))
    case Comparison =>
      var q := ComparisonMenu(level, d.a, d.b, d.c)[d.pick];
      Puzzle(k, ShownComparison(q.shown), BoolAnswer(q.answer))
    case Logical =>
      var env := Env(d.p, d.q, d.r);
      var q := LogicalMenu(level, env)[d.pick];
      Puzzle(k, ShownFormula(q.displayed, q.shown, env), BoolAnswer(q.answer))
    case Conditional =>
      var question := Scenarios(d.x)[d.pick];
      SniffedAnswerMatchesShownCode(d.x, d.pick);
      Puzzle(k, ShownCode(d.pick, question, d.x), TextAnswer(SniffedAnswer(question, d.x)))
    case Sequence =>
      var q := SequenceMenu(level, d.start)[d.pick];
      Puzzle(k, ShownTerms(q.rule, d.start, q.shown), IntAnswer(q.answer))
  }

  // ----------------------------------------------------------------- replies

  /** What the player typed, and what Python's `int()` makes of it: `None`
      is a `ValueError`. */
  datatype Reply = Reply(text: string, number: Option<int>)

  datatype Verdict = Correct | Incorrect | FormatError

  const TrueWords: seq<string> := ["true", "t", "yes", "y"]
  const FalseWords: seq<string> := ["false", "f", "no", "n"]

  /** No word is in both lists: the true words start with 't' or 'y', the
      false words with 'f' or 'n'. */
  lemma WordListsDisjoint(w: string)
    ensures !(w in TrueWords && w in FalseWords)
  {
    assert forall v :: v in TrueWords ==> v != [] && (v[0] == 't' || v[0] == 'y');
    assert forall v :: v in FalseWords ==> v != [] && (v[0] == 'f' || v[0] == 'n');
  }

  /** The True/False normalisation table, applied after lower-casing and
      stripping. A word is accepted as at most one truth value; anything
      outside both lists is rejected. */
  function ParseBool(s: string): (r: Option<bool>)
    ensures r == Some(true) <==> Trim(Lower(s)) in TrueWords
    ensures r == Some(false) <==> Trim(Lower(s)) in FalseWords
  {
    var t := Trim(Lower(s));
    WordListsDisjoint(t);
    if t in TrueWords then Some(true)
    else if t in FalseWords then Some(false)
    else None
  }

  /** How Python prints a truth value, as in "The answer is True". */
  function ShowBool(b: bool): string {
    if b then "True" else "False"
  }

  /** The printed truth value, lower-cased, is a word of its list. */
  lemma LowerShowBool(b: bool)
    ensures Lower(ShowBool(b)) == if b then "true" else "false"
  {
    var s := ShowBool(b);
    var w := if b then "true" else "false";
    assert |Lower(s)| == |w|;
    assert forall i :: 0 <= i < |w| ==> Lower(s)[i] == LowerChar(s[i]) == w[i];
  }

  /** A reply that normalises to the word for `b` reads as `b`. */
  lemma ParseBoolWord(s: string, b: bool)
    requires Trim(Lower(s)) == if b then "true" else "false"
    ensures ParseBool(s) == Some(b)
  {
    assert "true" in TrueWords && "false" in FalseWords;
  }

  /** The disclosed answer reads back as the same truth value, whatever
      whitespace surrounds it. */
  lemma ParseShownBool(b: bool, s: string, i: int)
    requires Surrounds(s, i, ShowBool(b))
    ensures ParseBool(s) == Some(b)
  {
    var w := if b then "true" else "false";
    LowerShowBool(b);
    LowerSurrounds(s, i, ShowBool(b));
    TrimOfSurrounded(Lower(s), i, w);
    ParseBoolWord(s, b);
  }

  /** Padding never changes how a conditional reply is judged: a reply that
      is a bare word surrounded by whitespace gets the verdict of the bare
      word, and it is correct exactly when the word equals the answer
      ignoring case. */
  lemma GradeTextIgnoresPadding(expected: string, reply: string, i: int, w: string)
    requires Surrounds(reply, i, w) && w != [] && !IsSpace(w[0]) && !IsSpace(w[|w| - 1])
    ensures GradeText(expected, reply) == GradeText(expected, w)
    ensures GradeText(expected, reply) == Correct <==> Lower(w) == Lower(expected)
  {
    TrimOfSurrounded(reply, i, w);
    TrimUnchanged(w);
  }

  /** Integer replies: a failed parse is a format error, and only the stored
      number is correct. */
  function GradeNumber(expected: int, parsed: Option<int>): (v: Verdict)
    ensures v == FormatError <==> parsed.None?
    ensures v == Correct <==> parsed == Some(expected)
  {
    match parsed
    case None => FormatError
    case Some(n) => if n == expected then Correct else Incorrect
  }

  /** True/False replies: a word outside both lists is a format error. */
  function GradeTruth(expected: bool, text: string): (v: Verdict)
    ensures v == FormatError <==> ParseBool(text).None?
    ensures v == Correct <==> ParseBool(text) == Some(expected)
  {
    match ParseBool(text)
    case None => FormatError
    case Some(b) => if b == expected then Correct else Incorrect
  }

  /** Conditional replies: stripped and compared ignoring case; never a
      format error. */
  function GradeText(expected: string, text: string): (v: Verdict)
    ensures v != FormatError
    ensures v == Correct <==> Lower(Trim(text)) == Lower(expected)
  {
    if Lower(Trim(text)) == Lower(expected) then Correct else Incorrect
  }

  /** The verdict on a reply: correct exactly when the reply means the
      stored answer in the way the puzzle's kind reads replies, and a format
      error exactly when it cannot be read at all, which a conditional reply
      never is. */
  function Grade(pz: Puzzle, reply: Reply): (v: Verdict)
    ensures pz.expected.IntAnswer? ==>
      (v == Correct <==> reply.number == Some(pz.expected.n)) && (v == FormatError <==> reply.number.None?)
    ensures pz.expected.BoolAnswer? ==>
      (v == Correct <==> ParseBool(reply.text) == Some(pz.expected.b))
      && (v == FormatError <==> ParseBool(reply.text).None?)
    ensures pz.expected.TextAnswer? ==>
      v != FormatError && (v == Correct <==> Lower(Trim(reply.text)) == Lower(pz.expected.t))
  {
    match pz.expected
    case IntAnswer(n) => GradeNumber(n, reply.number)
    case BoolAnswer(b) => GradeTruth(b, reply.text)
    case TextAnswer(t) => GradeText(t, reply.text)
  }

  /** The result of posing one puzzle: whether it was solved, and the score
      afterwards. */
  datatype Attempt = Attempt(solved: bool, score: nat)

  /** Poses the puzzle of kind `k` and grades the reply. The score rises, by
      the kind's points, exactly when the reply is correct; a wrong answer
      and a rejected reply both leave it unchanged. */
  function PlayPuzzle(k: Kind, level: int, d: Draws, reply: Reply, score: nat): (at: Attempt)
    requires ValidDraws(k, level, d)
    ensures at.solved <==> Grade(Generate(k, level, d), reply) == Correct
    ensures at.score >= score
    ensures at.score > score <==> at.solved
    ensures at.solved ==> at.score - score == Points(k)
  {
    var solved := Grade(Generate(k, level, d), reply) == Correct;
    Attempt(solved, if solved then score + Points(k) else score)
  }

  // ------------------------------------------------- echoing the stored answer

  /** The reply a player gives who types back the stored answer, the way
      the game discloses it. An integer is typed as its decimal digits, after
      a minus sign when negative, and `int()` reads those digits back as
      the number. */
  function EchoReply(e: Expected): (r: Reply)
    ensures e.IntAnswer? ==> r.number == Some(e.n)
    ensures e.IntAnswer? && e.n >= 0 ==>
      (forall i :: 0 <= i < |r.text| ==> IsDigit(r.text[i])) && DecimalValue(r.text) == e.n
    ensures e.IntAnswer? && e.n < 0 ==>
      && |r.text| >= 2 && r.text[0] == '-'
      && (forall i :: 1 <= i < |r.text| ==> IsDigit(r.text[i]))
      && DecimalValue(r.text[1..]) == -e.n
  {
    match e
    case IntAnswer(n) =>
      if n < 0 then
        var t := "-" + Decimal(-n);
        assert t[1..] == Decimal(-n);
        Reply(t, Some(n))
      else Reply(Decimal(n), Some(n))
    case BoolAnswer(b) => Reply(ShowBool(b), None)
    case TextAnswer(t) => Reply(t, None)
  }

  /** A reply that types back the stored answer is graded correct, for every
      kind, every level and every draw. */
  lemma StoredAnswerIsAccepted(k: Kind, level: int, d: Draws)
    requires ValidDraws(k, level, d)
    ensures Grade(Generate(k, level, d), EchoReply(Generate(k, level, d).expected)) == Correct
  {
    var pz := Generate(k, level, d);
    match pz.expected
    case IntAnswer(n) =>
    case BoolAnswer(b) =>
      var shown := ShowBool(b);
      assert Surrounds(shown, 0, shown) by {
        assert shown[..0] == [] && shown[|shown|..] == [] && shown[0..|shown|] == shown;
      }
      ParseShownBool(b, shown, 0);
    case TextAnswer(t) =>
      match pz.shown
      case ShownCode(i, text, x) => ChainResultsAreBare(x, i);
  }
}
