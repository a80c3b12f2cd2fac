/** The question menus of four puzzle kinds: arithmetic, comparison,
    logical and number sequence. Each menu is a pure function of the level
    and of the values drawn at random; every entry pairs what the prompt
    displays with the answer the game stores for it, computed the way the
    game computes it. The conditional kind lives in module ConditionalPuzzle. */
module Generators {
  import opened Wrappers
  import opened PyOps

  /** The three difficulty tiers the arithmetic, logical and sequence menus
      switch on: levels up to 3, levels 4 to 6, and the rest. */
  datatype Tier = Basic | Intermediate | Advanced

  function TierOf(level: int): (t: Tier)
    ensures t == Basic <==> level <= 3
    ensures t == Intermediate <==> 4 <= level <= 6
    ensures t == Advanced <==> level >= 7
  {
    if level <= 3 then Basic else if level <= 6 then Intermediate else Advanced
  }

  predicate InRange(v: int, lo: int, hi: int) { lo <= v <= hi }

  // ---------------------------------------------------------------- arithmetic

  /** The displayed expression and the stored answer of one integer question. */
  datatype IntQuestion = IntQuestion(shown: Expr, answer: int)

  /** `a, b` are drawn from [1, 20] and `c` from [1, 10]. */
  predicate ArithmeticDraws(a: int, b: int, c: int) {
    InRange(a, 1, 20) && InRange(b, 1, 20) && InRange(c, 1, 10)
  }

  /** Every stored answer is what Python computes for the displayed expression. */
  predicate Answers(q: IntQuestion) {
    Eval(q.shown) == Some(q.answer)
  }

  /** The basic-tier arithmetic menu: `a + b`, `a - b`, `a * c`, `a // c`. */
  function BasicArithmetic(a: int, b: int, c: int): (menu: seq<IntQuestion>)
    requires ArithmeticDraws(a, b, c)
    ensures |menu| == 4 && forall i :: 0 <= i < |menu| ==> Answers(menu[i])
  {
    var na, nb, nc := Num(a), Num(b), Num(c);
    EvalBin(Plus, na, nb, a, b);
    EvalBin(Minus, na, nb, a, b);
    EvalBin(Times, na, nc, a, c);
    EvalBin(FloorDivide, na, nc, a, c);
    FloorOpsAgreeForPositiveDivisor(a, c);
    [ IntQuestion(Add(na, nb), a + b),
      IntQuestion(Sub(na, nb), a - b),
      IntQuestion(Mul(na, nc), a * c),
      IntQuestion(Div(na, nc), a / c) ]
  }

  /** The intermediate-tier arithmetic menu: `(a + b) * c`, `a % c`,
      `(a - b) + (c * 2)`, `(a * b) % c`. */
  function IntermediateArithmetic(a: int, b: int, c: int): (menu: seq<IntQuestion>)
    requires ArithmeticDraws(a, b, c)
    ensures |menu| == 4 && forall i :: 0 <= i < |menu| ==> Answers(menu[i])
  {
    var na, nb, nc := Num(a), Num(b), Num(c);
    EvalBin(Plus, na, nb, a, b);
    EvalBin(Times, Add(na, nb), nc, a + b, c);
    EvalBin(Modulo, na, nc, a, c);
    EvalBin(Minus, na, nb, a, b);
    EvalBin(Times, nc, Num(2), c, 2);
    EvalBin(Plus, Sub(na, nb), Mul(nc, Num(2)), a - b, c * 2);
    EvalBin(Times, na, nb, a, b);
    EvalBin(Modulo, Mul(na, nb), nc, a * b, c);
    FloorOpsAgreeForPositiveDivisor(a, c);
    FloorOpsAgreeForPositiveDivisor(a * b, c);
    [ IntQuestion(Mul(Add(na, nb), nc), (a + b) * c),
      IntQuestion(Mod(na, nc), a % c),
      IntQuestion(Add(Sub(na, nb), Mul(nc, Num(2))), (a - b) + (c * 2)),
      IntQuestion(Mod(Mul(na, nb), nc), (a * b) % c) ]
  }

  /** The advanced-tier arithmetic menu: `((a + b) * c) % 10`,
      `(a ** 2) - (b * c)`, `(a + b) // c + (a % c)`, `(a * b) % (c + 5)`. */
  function AdvancedArithmetic(a: int, b: int, c: int): (menu: seq<IntQuestion>)
    requires ArithmeticDraws(a, b, c)
    ensures |menu| == 4 && forall i :: 0 <= i < |menu| ==> Answers(menu[i])
  {
    var na, nb, nc := Num(a), Num(b), Num(c);
    var q0 := IntQuestion(Mod(Mul(Add(na, nb), nc), Num(10)), ((a + b) * c) % 10);
    var q1 := IntQuestion(Sub(Exp(na, Num(2)), Mul(nb, nc)), Pow(a, 2) - (b * c));
    var q2 := IntQuestion(Add(Div(Add(na, nb), nc), Mod(na, nc)), (a + b) / c + (a % c));
    var q3 := IntQuestion(Mod(Mul(na, nb), Add(nc, Num(5))), (a * b) % (c + 5));
    AdvancedAnswers(a, b, c);
    [q0, q1, q2, q3]
  }

  lemma AdvancedAnswers(a: int, b: int, c: int)
    requires ArithmeticDraws(a, b, c)
    ensures Answers(IntQuestion(Mod(Mul(Add(Num(a), Num(b)), Num(c)), Num(10)), ((a + b) * c) % 10))
    ensures Answers(IntQuestion(Sub(Exp(Num(a), Num(2)), Mul(Num(b), Num(c))), Pow(a, 2) - (b * c)))
    ensures Answers(IntQuestion(Add(Div(Add(Num(a), Num(b)), Num(c)), Mod(Num(a), Num(c))), (a + b) / c + (a % c)))
    ensures Answers(IntQuestion(Mod(Mul(Num(a), Num(b)), Add(Num(c), Num(5))), (a * b) % (c + 5)))
  {
    var na, nb, nc := Num(a), Num(b), Num(c);
    AdvancedFirst(a, b, c);
    EvalBin(Power, na, Num(2), a, 2);
    EvalBin(Times, nb, nc, b, c);
    EvalBin(Minus, Exp(na, Num(2)), Mul(nb, nc), Pow(a, 2), b * c);
    AdvancedThird(a, b, c);
    AdvancedFourth(a, b, c);
  }

  lemma AdvancedFirst(a: int, b: int, c: int)
    requires ArithmeticDraws(a, b, c)
    ensures Eval(Mod(Mul(Add(Num(a), Num(b)), Num(c)), Num(10))) == Some(((a + b) * c) % 10)
  {
    var na, nb, nc := Num(a), Num(b), Num(c);
    var s := a + b;
    EvalBin(Plus, na, nb, a, b);
    EvalBin(Times, Add(na, nb), nc, s, c);
    EvalBin(Modulo, Mul(Add(na, nb), nc), Num(10), s * c, 10);
    FloorOpsAgreeForPositiveDivisor(s * c, 10);
  }

  lemma AdvancedThird(a: int, b: int, c: int)
    requires ArithmeticDraws(a, b, c)
    ensures Eval(Add(Div(Add(Num(a), Num(b)), Num(c)), Mod(Num(a), Num(c)))) == Some((a + b) / c + (a % c))
  {
    var na, nb, nc := Num(a), Num(b), Num(c);
    EvalBin(Plus, na, nb, a, b);
    EvalBin(FloorDivide, Add(na, nb), nc, a + b, c);
    EvalBin(Modulo, na, nc, a, c);
    FloorOpsAgreeForPositiveDivisor(a + b, c);
    FloorOpsAgreeForPositiveDivisor(a, c);
    EvalBin(Plus, Div(Add(na, nb), nc), Mod(na, nc), (a + b) / c, a % c);
  }

  lemma AdvancedFourth(a: int, b: int, c: int)
    requires ArithmeticDraws(a, b, c)
    ensures Eval(Mod(Mul(Num(a), Num(b)), Add(Num(c), Num(5)))) == Some((a * b) % (c + 5))
  {
    var na, nb, nc := Num(a), Num(b), Num(c);
    var p := a * b;
    EvalBin(Times, na, nb, a, b);
    EvalBin(Plus, nc, Num(5), c, 5);
    EvalBin(Modulo, Mul(na, nb), Add(nc, Num(5)), p, c + 5);
    FloorOpsAgreeForPositiveDivisor(p, c + 5);
  }

  /** Python's value of the third advanced question as its text prints it,
      `(a + b) / c + (a % c)`: there `/` is true division, while the stored
      answer uses `//`. */
  function ThirdAdvancedAsPrinted(a: int, b: int, c: int): real
    requires c > 0
  {
    (a + b) as real / c as real + (a % c) as real
  }

  /** True division splits into the floor quotient and a fraction in
      `[0, 1)` that is zero exactly when the division is exact. */
  lemma TrueDivisionSplits(s: int, c: int)
    requires c > 0
    ensures s as real / c as real == (s / c) as real + (s % c) as real / c as real
    ensures (s % c) as real / c as real == 0.0 <==> s % c == 0
  {
    var q, r, cr := s / c, s % c, c as real;
    assert s == c * q + r;
    assert s as real == cr * (q as real) + r as real;
  }

  /** The printed question and the stored answer agree exactly when `c`
      divides `a + b`. */
  lemma ThirdAdvancedAsPrintedAgrees(a: int, b: int, c: int)
    requires ArithmeticDraws(a, b, c)
    ensures ThirdAdvancedAsPrinted(a, b, c) == AdvancedArithmetic(a, b, c)[2].answer as real
            <==> (a + b) % c == 0
  {
    TrueDivisionSplits(a + b, c);
    assert AdvancedArithmetic(a, b, c)[2].answer == (a + b) / c + a % c;
  }

  /** With a = 3, b = 4, c = 2 the text prints a question whose value is
      4.5, while the stored answer is 4. */
  lemma ThirdAdvancedCounterexample()
    ensures ArithmeticDraws(3, 4, 2)
    ensures ThirdAdvancedAsPrinted(3, 4, 2) == 4.5
    ensures AdvancedArithmetic(3, 4, 2)[2].answer == 4
  {
  }

  /** The four candidate arithmetic questions of a level. Every stored answer
      is what Python computes for the displayed expression; in particular no
      displayed `//` or `%` has a zero divisor. */
  function ArithmeticMenu(level: int, a: int, b: int, c: int): (menu: seq<IntQuestion>)
    requires ArithmeticDraws(a, b, c)
    ensures |menu| == 4
    ensures forall i :: 0 <= i < |menu| ==> Answers(menu[i])
  {
    match TierOf(level)
    case Basic => BasicArithmetic(a, b, c)
    case Intermediate => IntermediateArithmetic(a, b, c)
    case Advanced => AdvancedArithmetic(a, b, c)
  }

  /** The remainder questions land in `[0, divisor)`: `% c` in `[0, c - 1]`,
      `% 10` in `[0, 9]` and `% (c + 5)` in `[0, c + 4]`; the one quotient
      `a // c` of the basic tier lies in `[0, a]`. */
  lemma ArithmeticRemainderBounds(level: int, a: int, b: int, c: int)
    requires ArithmeticDraws(a, b, c)
    ensures var m := ArithmeticMenu(level, a, b, c);
      match TierOf(level)
      case Basic => 0 <= m[3].answer <= a
      case Intermediate => 0 <= m[1].answer < c && 0 <= m[3].answer < c
      case Advanced => 0 <= m[0].answer <= 9 && 0 <= m[3].answer <= c + 4
  {
    var m := ArithmeticMenu(level, a, b, c);
    match TierOf(level)
    case Basic =>
      assert m[3].answer == a / c;
      QuotientBound(a, c);
    case Intermediate =>
      var p := a * b;
      assert m[1].answer == a % c && m[3].answer == p % c;
    case Advanced =>
      var s, p := (a + b) * c, a * b;
      assert m[0].answer == s % 10 && m[3].answer == p % (c + 5);
  }

  lemma QuotientBound(a: int, c: int)
    requires a >= 0 && c >= 1
    ensures 0 <= a / c <= a
  {
    assert c * (a / c) <= a;
  }

  // ---------------------------------------------------------------- comparison

  datatype CompareQuestion = CompareQuestion(shown: CompareExpr, answer: bool)

  /** `a, b` are drawn from [1, 50] and `c` from [1, 20]. */
  predicate ComparisonDraws(a: int, b: int, c: int) {
    InRange(a, 1, 50) && InRange(b, 1, 50) && InRange(c, 1, 20)
  }

  function CompareNums(op: CmpOp, a: int, b: int, answer: bool): CompareQuestion {
    CompareQuestion(Compare(op, Num(a), Num(b)), answer)
  }

  /** The six plain comparisons `a == b`, `a != b`, `a > b`, `a < b`,
      `a >= b`, `a <= b`. */
  function PlainComparisons(a: int, b: int): (menu: seq<CompareQuestion>)
    ensures |menu| == 6
    ensures forall i :: 0 <= i < |menu| ==> EvalComparison(menu[i].shown) == Some(menu[i].answer)
  {
    [ CompareNums(Eq, a, b, a == b),
      CompareNums(Ne, a, b, a != b),
      CompareNums(Gt, a, b, a > b),
      CompareNums(Lt, a, b, a < b),
      CompareNums(Ge, a, b, a >= b),
      CompareNums(Le, a, b, a <= b) ]
  }

  /** The compound comparisons added above level 3: `(a + b) > (c * 3)`,
      `(a - b) <= (c + 5)`, `(a * 2) >= (b + c)`, `(a % c) != (b % c)`. */
  function CompoundComparisons(a: int, b: int, c: int): (menu: seq<CompareQuestion>)
    requires ComparisonDraws(a, b, c)
    ensures |menu| == 4
    ensures forall i :: 0 <= i < |menu| ==> EvalComparison(menu[i].shown) == Some(menu[i].answer)
  {
    var na, nb, nc := Num(a), Num(b), Num(c);
    EvalBin(Plus, na, nb, a, b);
    EvalBin(Times, nc, Num(3), c, 3);
    EvalBin(Minus, na, nb, a, b);
    EvalBin(Plus, nc, Num(5), c, 5);
    EvalBin(Times, na, Num(2), a, 2);
    EvalBin(Plus, nb, nc, b, c);
    EvalBin(Modulo, na, nc, a, c);
    EvalBin(Modulo, nb, nc, b, c);
    FloorOpsAgreeForPositiveDivisor(a, c);
    FloorOpsAgreeForPositiveDivisor(b, c);
    [ CompareQuestion(Compare(Gt, Add(na, nb), Mul(nc, Num(3))), (a + b) > (c * 3)),
      CompareQuestion(Compare(Le, Sub(na, nb), Add(nc, Num(5))), (a - b) <= (c + 5)),
      CompareQuestion(Compare(Ge, Mul(na, Num(2)), Add(nb, nc)), (a * 2) >= (b + c)),
      CompareQuestion(Compare(Ne, Mod(na, nc), Mod(nb, nc)), (a % c) != (b % c)) ]
  }

  /** The candidate comparison questions of a level: the plain six, followed
      above level 3 by the four compound ones. Every stored answer is the
      truth value Python computes for the displayed comparison. */
  function ComparisonMenu(level: int, a: int, b: int, c: int): (menu: seq<CompareQuestion>)
    requires ComparisonDraws(a, b, c)
    ensures |menu| == if level > 3 then 10 else 6
    ensures forall i :: 0 <= i < |menu| ==> EvalComparison(menu[i].shown) == Some(menu[i].answer)
  {
    if level > 3 then PlainComparisons(a, b) + CompoundComparisons(a, b, c)
    else PlainComparisons(a, b)
  }

  /** The compound comparisons extend the plain menu: the first six entries
      are the same at every level. */
  lemma ComparisonMenuExtends(level: int, a: int, b: int, c: int)
    requires ComparisonDraws(a, b, c)
    ensures ComparisonMenu(level, a, b, c)[..6] == ComparisonMenu(1, a, b, c)
  {
  }

  // ------------------------------------------------------------------- logical

  /** A logical question: which of `p`, `q`, `r` its text displays, the
      displayed formula and the stored answer. */
  datatype LogicQuestion = LogicQuestion(displayed: set<Var>, shown: Formula, answer: bool)

  /** The three candidate logical questions of a level. Each stored answer is
      the displayed formula's value, and the formula mentions only variables
      whose values the text displays. */
  function LogicalMenu(level: int, env: Env): (menu: seq<LogicQuestion>)
    ensures |menu| == 3
    ensures forall i :: 0 <= i < |menu| ==> Holds(menu[i].shown, env) == menu[i].answer
    ensures forall i :: 0 <= i < |menu| ==> FreeVars(menu[i].shown) <= menu[i].displayed
  {
    var p, q, r := env.p, env.q, env.r;
    var vp, vq, vr := Atom(P), Atom(Q), Atom(R);
    assert Holds(vp, env) == p && Holds(vq, env) == q && Holds(vr, env) == r;
    assert Holds(And(vp, vq), env) == (p && q) && Holds(Or(vp, vq), env) == (p || q);
    assert Holds(Not(vp), env) == !p && Holds(Not(vq), env) == !q && Holds(Not(vr), env) == !r;
    match TierOf(level)
    case Basic => [
      LogicQuestion({P, Q}, And(vp, vq), p && q),
      LogicQuestion({P, Q}, Or(vp, vq), p || q),
      LogicQuestion({P}, Not(vp), !p)
    ]
    case Intermediate => [
      LogicQuestion({P, Q}, Or(And(vp, vq), Not(vp)), (p && q) || !p),
      LogicQuestion({P, Q}, Not(Or(vp, vq)), !(p || q)),
      LogicQuestion({P, Q}, And(Not(vp), Not(vq)), !p && !q)
    ]
    case Advanced => [
      LogicQuestion({P, Q, R}, Or(And(vp, vq), Not(vr)), (p && q) || !r),
      LogicQuestion({P, Q, R}, Not(And(Or(vp, vq), vr)), !((p || q) && r)),
      LogicQuestion({P, Q, R}, Or(And(vp, Not(vq)), And(vq, vr)), (p && !q) || (q && r))
    ]
  }

  /** De Morgan: at levels 4 to 6 `not (p or q)` and `(not p) and (not q)`
      always have the same answer. */
  lemma LogicalDeMorgan(level: int, env: Env)
    requires 4 <= level <= 6
    ensures LogicalMenu(level, env)[1].answer == LogicalMenu(level, env)[2].answer
  {
  }

  /** An answer never depends on a value the question does not display:
      two draws that agree on the displayed variables give the same answer. */
  lemma LogicalAnswerReadsOnlyDisplayed(level: int, e1: Env, e2: Env, i: nat)
    requires i < 3
    requires forall v :: v in LogicalMenu(level, e1)[i].displayed ==> Lookup(e1, v) == Lookup(e2, v)
    ensures LogicalMenu(level, e1)[i].answer == LogicalMenu(level, e2)[i].answer
  {
    var m1, m2 := LogicalMenu(level, e1), LogicalMenu(level, e2);
    LogicalShapeIgnoresValues(level, e1, e2, i);
    HoldsOnlyReadsFreeVars(m1[i].shown, e1, e2);
  }

  /** Which formula a question shows, and which variables it displays,
      depend on the level only. */
  lemma LogicalShapeIgnoresValues(level: int, e1: Env, e2: Env, i: nat)
    requires i < 3
    ensures LogicalMenu(level, e1)[i].shown == LogicalMenu(level, e2)[i].shown
    ensures LogicalMenu(level, e1)[i].displayed == LogicalMenu(level, e2)[i].displayed
  {
    match TierOf(level)
    case Basic =>
    case Intermediate =>
    case Advanced =>
  }

  // ------------------------------------------------------------------ sequence

  /** The rule `t(0) = start`, `t(n + 1) = mul * t(n) + add`. */
  datatype Recurrence = Recurrence(mul: int, add: int)

  function Term(rule: Recurrence, start: int, n: nat): int
    decreases n
  {
    if n == 0 then start else rule.mul * Term(rule, start, n - 1) + rule.add
  }

  /** A sequence question: the rule behind it, the terms it displays and the
      stored answer. */
  datatype SequenceQuestion = SequenceQuestion(rule: Recurrence, shown: seq<int>, answer: int)

  /** The range `start` is drawn from: [1, 10], [1, 20] or [2, 10] by tier. */
  predicate SequenceDraw(level: int, start: int) {
    match TierOf(level)
    case Basic => InRange(start, 1, 10)
    case Intermediate => InRange(start, 1, 20)
    case Advanced => InRange(start, 2, 10)
  }

  /** The displayed terms are the first terms of the question's rule and the
      stored answer is the rule's next term. */
  predicate NextTermOf(s: SequenceQuestion, start: int) {
    && (forall k :: 0 <= k < |s.shown| ==> s.shown[k] == Term(s.rule, start, k))
    && s.answer == Term(s.rule, start, |s.shown|)
  }

  lemma PowUnfold(b: int)
    ensures Pow(b, 2) == b * b
    ensures Pow(b, 3) == b * (b * b)
    ensures Pow(b, 4) == b * (b * (b * b))
  {
  }

  /** Three shown terms following `rule` from `start`, and the next one. */
  lemma ThreeTerms(rule: Recurrence, start: int, t: seq<int>, next: int)
    requires |t| == 3 && t[0] == start
    requires t[1] == rule.mul * t[0] + rule.add && t[2] == rule.mul * t[1] + rule.add
    requires next == rule.mul * t[2] + rule.add
    ensures NextTermOf(SequenceQuestion(rule, t, next), start)
  {
    assert Term(rule, start, 1) == t[1];
    assert Term(rule, start, 2) == t[2];
  }

  /** Four shown terms following `rule` from `start`, and the next one. */
  lemma FourTerms(rule: Recurrence, start: int, t: seq<int>, next: int)
    requires |t| == 4 && t[0] == start
    requires t[1] == rule.mul * t[0] + rule.add && t[2] == rule.mul * t[1] + rule.add
    requires t[3] == rule.mul * t[2] + rule.add && next == rule.mul * t[3] + rule.add
    ensures NextTermOf(SequenceQuestion(rule, t, next), start)
  {
    assert Term(rule, start, 1) == t[1];
    assert Term(rule, start, 2) == t[2];
    assert Term(rule, start, 3) == t[3];
  }

  /** The basic sequences: steps of 2, doubling, steps of 5. */
  function BasicSequences(s: int): (menu: seq<SequenceQuestion>)
    ensures |menu| == 3
    ensures forall i :: 0 <= i < |menu| ==> NextTermOf(menu[i], s) && |menu[i].shown| == 3
  {
    ThreeTerms(Recurrence(1, 2), s, [s, s + 2, s + 4], s + 6);
    ThreeTerms(Recurrence(2, 0), s, [s, s * 2, s * 4], s * 8);
    ThreeTerms(Recurrence(1, 5), s, [s, s + 5, s + 10], s + 15);
    [ SequenceQuestion(Recurrence(1, 2), [s, s + 2, s + 4], s + 6),
      SequenceQuestion(Recurrence(2, 0), [s, s * 2, s * 4], s * 8),
      SequenceQuestion(Recurrence(1, 5), [s, s + 5, s + 10], s + 15) ]
  }

  /** The intermediate sequences: steps of 3, `2t + 1`, and powers. */
  function IntermediateSequences(s: int): (menu: seq<SequenceQuestion>)
    ensures |menu| == 3
    ensures forall i :: 0 <= i < |menu| ==> NextTermOf(menu[i], s) && |menu[i].shown| == 3
  {
    PowUnfold(s);
    ThreeTerms(Recurrence(1, 3), s, [s, s + 3, s + 6], s + 9);
    ThreeTerms(Recurrence(2, 1), s, [s, s * 2 + 1, s * 4 + 3], s * 8 + 7);
    ThreeTerms(Recurrence(s, 0), s, [s, Pow(s, 2), Pow(s, 3)], Pow(s, 4));
    [ SequenceQuestion(Recurrence(1, 3), [s, s + 3, s + 6], s + 9),
      SequenceQuestion(Recurrence(2, 1), [s, s * 2 + 1, s * 4 + 3], s * 8 + 7),
      SequenceQuestion(Recurrence(s, 0), [s, Pow(s, 2), Pow(s, 3)], Pow(s, 4)) ]
  }

  /** The advanced sequences: multiples of `start` twice over, and powers. */
  function AdvancedSequences(s: int): (menu: seq<SequenceQuestion>)
    ensures |menu| == 3
    ensures forall i :: 0 <= i < |menu| ==> NextTermOf(menu[i], s)
    ensures forall i :: 0 <= i < |menu| ==> |menu[i].shown| == if i < 2 then 4 else 3
  {
    PowUnfold(s);
    FourTerms(Recurrence(1, s), s, [s, s * 2, s * 3, s * 4], s * 5);
    FourTerms(Recurrence(1, s), s, [s, s + s, s + s * 2, s + s * 3], s + s * 4);
    ThreeTerms(Recurrence(s, 0), s, [s, Pow(s, 2), Pow(s, 3)], Pow(s, 4));
    [ SequenceQuestion(Recurrence(1, s), [s, s * 2, s * 3, s * 4], s * 5),
      SequenceQuestion(Recurrence(1, s), [s, s + s, s + s * 2, s + s * 3], s + s * 4),
      SequenceQuestion(Recurrence(s, 0), [s, Pow(s, 2), Pow(s, 3)], Pow(s, 4)) ]
  }

  /** The three candidate sequence questions of a level, each showing three
      terms (four for the first two advanced ones) and storing the next. */
  function SequenceMenu(level: int, start: int): (menu: seq<SequenceQuestion>)
    requires SequenceDraw(level, start)
    ensures |menu| == 3
    ensures forall i :: 0 <= i < |menu| ==> NextTermOf(menu[i], start)
    ensures forall i :: 0 <= i < |menu| ==>
      |menu[i].shown| == if TierOf(level) == Advanced && i < 2 then 4 else 3
  {
    match TierOf(level)
    case Basic => BasicSequences(start)
    case Intermediate => IntermediateSequences(start)
    case Advanced => AdvancedSequences(start)
  }
}
