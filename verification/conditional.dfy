/** The conditional-logic puzzle. The prompt is one of three literal code
    templates with `x` filled in; the game then works out the answer by
    testing which words occur in the rendered prompt rather than by
    remembering which template it picked. This module proves that the test
    always recovers the template shown, so the answer is what the displayed
    if/elif chain yields for `x`. */
module ConditionalPuzzle {
  import opened Text

  // The two prompt fragments are written as joined pieces only so that the
  // keyword lemmas below can reason about one short literal at a time,
  // which keeps the verifier's string reasoning cheap; the text is the same.
  const Prefix: string := "Given" + " x = "
  const Tail: string := ", what " + "will this " + "code output?\n"

  const ThresholdCode: string :=
    "if x > 50:\n" +
    "    result = 'high'\n" +
    "elif x > 25:\n" +
    "    result = 'medium'\n" +
    "else:\n" +
    "    result = 'low'"

  const ParityCode: string :=
    "if x % 2 == 0:\n" +
    "    if x > 30:\n" +
    "        result = 'even-big'\n" +
    "    else:\n" +
    "        result = 'even-small'\n" +
    "else:\n" +
    "    result = 'odd'"

  const GradeCode: string :=
    "if x >= 80:\n" +
    "    result = 'A'\n" +
    "elif x >= 60:\n" +
    "    result = 'B'\n" +
    "elif x >= 40:\n" +
    "    result = 'C'\n" +
    "elif x >= 20:\n" +
    "    result = 'D'\n" +
    "else:\n" +
    "    result = 'F'"

  /** The first line of every template, with `x` rendered in decimal. */
  function Header(x: nat): string {
    Prefix + Decimal(x) + Tail
  }

  /** The three prompts `random.choice` picks from, in the game's order. */
  function Scenarios(x: nat): (s: seq<string>)
    ensures |s| == 3
  {
    [Header(x) + ThresholdCode, Header(x) + ParityCode, Header(x) + GradeCode]
  }

  /** How the game computes the expected answer: it looks for `"high"` and
      then `"even"` in the rendered prompt and runs its own copy of the
      matching chain. Whichever chain the keywords select, the answer is
      what that chain's code tree yields for `x`. */
  function SniffedAnswer(question: string, x: int): (r: string)
    ensures Contains(question, "high") ==> r == Run(ThresholdChain, x)
    ensures !Contains(question, "high") && Contains(question, "even") ==> r == Run(ParityChain, x)
    ensures !Contains(question, "high") && !Contains(question, "even") ==> r == Run(GradeChain, x)
  {
    RunThreshold(x);
    RunParity(x);
    RunGrade(x);
    if Contains(question, "high") then
      if x > 50 then "high" else if x > 25 then "medium" else "low"
    else if Contains(question, "even") then
      if x % 2 == 0 then (if x > 30 then "even-big" else "even-small") else "odd"
    else
      if x >= 80 then "A"
      else if x >= 60 then "B"
      else if x >= 40 then "C"
      else if x >= 20 then "D"
      else "F"
  }

  // ------------------------------------------------------- the displayed code

  /** The condition of one displayed `if` or `elif`. */
  datatype Test = Above(bound: int) | AtLeast(bound: int) | IsEven

  /** The if/elif/else chain a template displays, ending in assignments to
      `result`. An `elif` is an `If` in the else position. */
  datatype Code = Assign(result: string) | If(test: Test, yes: Code, no: Code)

  predicate TestHolds(t: Test, x: int) {
    match t
    case Above(k) => x > k
    case AtLeast(k) => x >= k
    case IsEven => x % 2 == 0
  }

  /** The value of `result` after running the displayed code on `x`. */
  function Run(c: Code, x: int): string {
    match c
    case Assign(r) => r
    case If(t, y, n) => if TestHolds(t, x) then Run(y, x) else Run(n, x)
  }

  const ThresholdChain: Code :=
    If(Above(50), Assign("high"), If(Above(25), Assign("medium"), Assign("low")))

  const ParityChain: Code :=
    If(IsEven, If(Above(30), Assign("even-big"), Assign("even-small")), Assign("odd"))

  const GradeChain: Code :=
    If(AtLeast(80), Assign("A"),
    If(AtLeast(60), Assign("B"),
    If(AtLeast(40), Assign("C"),
    If(AtLeast(20), Assign("D"), Assign("F")))))

  /** The chain each template displays, in the order of `Scenarios`. */
  function Chains(): (s: seq<Code>)
    ensures |s| == 3
  {
    [ThresholdChain, ParityChain, GradeChain]
  }

  // ------------------------------------------------- rendering the code trees

  /** Four spaces per nesting depth. */
  function Indent(depth: nat): string {
    if depth == 0 then "" else "    " + Indent(depth - 1)
  }

  function BoundText(k: int): string {
    if k >= 0 then Decimal(k) else "-" + Decimal(-k)
  }

  function TestText(t: Test): string {
    match t
    case Above(k) => "x > " + BoundText(k)
    case AtLeast(k) => "x >= " + BoundText(k)
    case IsEven => "x % 2 == 0"
  }

  function AssignLine(r: string, depth: nat): string {
    Indent(depth) + "result = '" + r + "'"
  }

  /** The line of an `if` or `elif` test, with its newline. */
  function TestLine(depth: nat, keyword: string, t: Test): string {
    Indent(depth) + keyword + TestText(t) + ":\n"
  }

  /** The Python text of a chain at a nesting depth: an `if` line, its
      branch one level deeper, then the rest of the chain. */
  function Render(c: Code, depth: nat): string
    decreases c
  {
    match c
    case Assign(r) => AssignLine(r, depth)
    case If(t, y, n) => TestLine(depth, "if ", t) + Render(y, depth + 1) + "\n" + RenderRest(n, depth)
  }

  /** The else position of a chain: another test becomes `elif`, an
      assignment becomes `else:`. */
  function RenderRest(c: Code, depth: nat): string
    decreases c
  {
    match c
    case Assign(r) => Indent(depth) + "else:\n" + AssignLine(r, depth + 1)
    case If(t, y, n) => TestLine(depth, "elif ", t) + Render(y, depth + 1) + "\n" + RenderRest(n, depth)
  }

  lemma Assoc(a: string, b: string, c: string)
    ensures a + b + c == a + (b + c)
  {
  }

  /** How a two-test chain at depth 0 prints, line by line. */
  lemma TwoTestShape(t1: Test, r1: string, t2: Test, r2: string, r3: string)
    ensures Render(If(t1, Assign(r1), If(t2, Assign(r2), Assign(r3))), 0) ==
      TestLine(0, "if ", t1) + (AssignLine(r1, 1) + "\n") +
      TestLine(0, "elif ", t2) + (AssignLine(r2, 1) + "\n") +
      (Indent(0) + "else:\n") + AssignLine(r3, 1)
  {
    var l1, a1, l2, a2 := TestLine(0, "if ", t1), AssignLine(r1, 1), TestLine(0, "elif ", t2), AssignLine(r2, 1);
    var e, a3 := Indent(0) + "else:\n", AssignLine(r3, 1);
    var x, y := l1 + (a1 + "\n"), l2 + (a2 + "\n");
    var rest := If(t2, Assign(r2), Assign(r3));
    assert RenderRest(rest, 0) == l2 + a2 + "\n" + (e + a3);
    assert Render(If(t1, Assign(r1), rest), 0) == l1 + a1 + "\n" + RenderRest(rest, 0);
    Assoc(l1, a1, "\n");
    Assoc(l2, a2, "\n");
    Assoc(x, l2, a2 + "\n");
    Assoc(x + y, e, a3);
    Assoc(x, y, e + a3);
  }

  lemma ThresholdLines()
    ensures TestLine(0, "if ", Above(50)) == "if x > 50:\n"
    ensures AssignLine("high", 1) + "\n" == "    result = 'high'\n"
    ensures TestLine(0, "elif ", Above(25)) == "elif x > 25:\n"
  {
    assert BoundText(50) == "50" && BoundText(25) == "25";
  }

  lemma ThresholdLinesTail()
    ensures AssignLine("medium", 1) + "\n" == "    result = 'medium'\n"
    ensures Indent(0) + "else:\n" == "else:\n"
    ensures AssignLine("low", 1) == "    result = 'low'"
  {
  }

  /** The threshold tree prints as the threshold template's code. */
  lemma ThresholdChainIsShown()
    ensures Render(ThresholdChain, 0) == ThresholdCode
  {
    TwoTestShape(Above(50), "high", Above(25), "medium", "low");
    ThresholdLines();
    ThresholdLinesTail();
  }

  /** How a test nested in the `if` branch of another prints at depth 0,
      line by line. */
  lemma NestedTestShape(t1: Test, t2: Test, r1: string, r2: string, r3: string)
    ensures Render(If(t1, If(t2, Assign(r1), Assign(r2)), Assign(r3)), 0) ==
      TestLine(0, "if ", t1) + TestLine(1, "if ", t2) + (AssignLine(r1, 2) + "\n") +
      (Indent(1) + "else:\n") + (AssignLine(r2, 2) + "\n") +
      (Indent(0) + "else:\n") + AssignLine(r3, 1)
  {
    var p1, p2, a, p4 := TestLine(0, "if ", t1), TestLine(1, "if ", t2), AssignLine(r1, 2), Indent(1) + "else:\n";
    var a5, p6, p7 := AssignLine(r2, 2), Indent(0) + "else:\n", AssignLine(r3, 1);
    var p3, p5 := a + "\n", a5 + "\n";
    var inner := Render(If(t2, Assign(r1), Assign(r2)), 1);
    assert Render(Assign(r1), 2) == a && RenderRest(Assign(r2), 1) == p4 + a5;
    assert inner == p2 + a + "\n" + (p4 + a5);
    assert Render(If(t1, If(t2, Assign(r1), Assign(r2)), Assign(r3)), 0) == p1 + inner + "\n" + (p6 + p7);
    Assoc(p2, a, "\n");
    assert inner == p2 + p3 + (p4 + a5);
    Assoc(p1, inner, "\n");
    Assoc(p2 + p3, p4 + a5, "\n");
    Assoc(p4, a5, "\n");
    Assoc(p2 + p3, p4, p5);
    Assoc(p1, p2 + p3 + p4, p5);
    Assoc(p1, p2 + p3, p4);
    Assoc(p1, p2, p3);
    Assoc(p1 + p2 + p3 + p4 + p5, p6, p7);
  }

  /** An `if` test at depth 0 whose branch is an assignment prints its two
      lines ahead of the rest of the chain. */
  lemma IfStep(t: Test, r: string, n: Code)
    ensures Render(If(t, Assign(r), n), 0) ==
      TestLine(0, "if ", t) + (AssignLine(r, 1) + "\n") + RenderRest(n, 0)
  {
    Assoc(TestLine(0, "if ", t), AssignLine(r, 1), "\n");
  }

  /** The same for an `elif` test. */
  lemma ElifStep(t: Test, r: string, n: Code)
    ensures RenderRest(If(t, Assign(r), n), 0) ==
      TestLine(0, "elif ", t) + (AssignLine(r, 1) + "\n") + RenderRest(n, 0)
  {
    Assoc(TestLine(0, "elif ", t), AssignLine(r, 1), "\n");
  }

  /** How a chain of four tests at depth 0 prints, line by line. */
  lemma FourTestShape(t1: Test, t2: Test, t3: Test, t4: Test,
                      r1: string, r2: string, r3: string, r4: string, r5: string)
    ensures Render(If(t1, Assign(r1), If(t2, Assign(r2), If(t3, Assign(r3), If(t4, Assign(r4), Assign(r5))))), 0) ==
      TestLine(0, "if ", t1) + (AssignLine(r1, 1) + "\n") +
      TestLine(0, "elif ", t2) + (AssignLine(r2, 1) + "\n") +
      TestLine(0, "elif ", t3) + (AssignLine(r3, 1) + "\n") +
      TestLine(0, "elif ", t4) + (AssignLine(r4, 1) + "\n") +
      (Indent(0) + "else:\n") + AssignLine(r5, 1)
  {
    var l1, l2, l3, l4 := TestLine(0, "if ", t1), TestLine(0, "elif ", t2), TestLine(0, "elif ", t3), TestLine(0, "elif ", t4);
    var a1, a2, a3, a4 := AssignLine(r1, 1), AssignLine(r2, 1), AssignLine(r3, 1), AssignLine(r4, 1);
    var b1, b2, b3, b4 := a1 + "\n", a2 + "\n", a3 + "\n", a4 + "\n";
    var x1, x2, x3, x4 := l1 + b1, l2 + b2, l3 + b3, l4 + b4;
    var z := Indent(0) + "else:\n" + AssignLine(r5, 1);
    var c4 := If(t4, Assign(r4), Assign(r5));
    var c3 := If(t3, Assign(r3), c4);
    var c2 := If(t2, Assign(r2), c3);
    IfStep(t1, r1, c2);
    ElifStep(t2, r2, c3);
    ElifStep(t3, r3, c4);
    ElifStep(t4, r4, Assign(r5));
    assert RenderRest(Assign(r5), 0) == z;
    Assoc(x3, x4, z);
    Assoc(x2, x3 + x4, z);
    Assoc(x1, x2 + (x3 + x4), z);
    Assoc(x1, x2, x3 + x4);
    Assoc(x1 + x2, x3, x4);
    Assoc(x1, l2, b2);
    Assoc(x1 + x2, l3, b3);
    Assoc(x1 + x2 + x3, l4, b4);
    Assoc(x1 + x2 + x3 + x4, Indent(0) + "else:\n", AssignLine(r5, 1));
  }

  lemma ParityTestLines()
    ensures TestLine(0, "if ", IsEven) == "if x % 2 == 0:\n"
    ensures TestLine(1, "if ", Above(30)) == "    if x > 30:\n"
  {
    assert BoundText(30) == "30";
  }

  lemma ParityBigLine()
    ensures AssignLine("even-big", 2) + "\n" == "        result = 'even-big'\n"
  {
  }

  lemma ParityElseLine()
    ensures Indent(1) + "else:\n" == "    else:\n"
  {
  }

  lemma ParitySmallLine()
    ensures AssignLine("even-small", 2) + "\n" == "        result = 'even-small'\n"
  {
  }

  lemma ParityOddLines()
    ensures Indent(0) + "else:\n" == "else:\n"
    ensures AssignLine("odd", 1) == "    result = 'odd'"
  {
  }

  /** The parity tree prints as the parity template's code. */
  lemma ParityChainIsShown()
    ensures Render(ParityChain, 0) == ParityCode
  {
    NestedTestShape(IsEven, Above(30), "even-big", "even-small", "odd");
    ParityTestLines();
    ParityBigLine();
    ParityElseLine();
    ParitySmallLine();
    ParityOddLines();
  }

  lemma GradeLinesA()
    ensures TestLine(0, "if ", AtLeast(80)) == "if x >= 80:\n"
    ensures AssignLine("A", 1) + "\n" == "    result = 'A'\n"
  {
    assert BoundText(80) == "80";
  }

  lemma GradeLinesB()
    ensures TestLine(0, "elif ", AtLeast(60)) == "elif x >= 60:\n"
    ensures AssignLine("B", 1) + "\n" == "    result = 'B'\n"
  {
    assert BoundText(60) == "60";
  }

  lemma GradeLinesC()
    ensures TestLine(0, "elif ", AtLeast(40)) == "elif x >= 40:\n"
    ensures AssignLine("C", 1) + "\n" == "    result = 'C'\n"
  {
    assert BoundText(40) == "40";
  }

  lemma GradeLinesD()
    ensures TestLine(0, "elif ", AtLeast(20)) == "elif x >= 20:\n"
    ensures AssignLine("D", 1) + "\n" == "    result = 'D'\n"
  {
    assert BoundText(20) == "20";
  }

  lemma GradeLinesF()
    ensures Indent(0) + "else:\n" == "else:\n"
    ensures AssignLine("F", 1) == "    result = 'F'"
  {
  }

  /** The grade tree prints as the grade template's code. */
  lemma GradeChainIsShown()
    ensures Render(GradeChain, 0) == GradeCode
  {
    FourTestShape(AtLeast(80), AtLeast(60), AtLeast(40), AtLeast(20), "A", "B", "C", "D", "F");
    GradeLinesA();
    GradeLinesB();
    GradeLinesC();
    GradeLinesD();
    GradeLinesF();
  }

  /** Each prompt is the shared first line followed by the printed code of
      the chain at the same index, so `Chains()[i]` is the code the player
      reads in `Scenarios(x)[i]`. */
  lemma ScenarioShowsChain(x: nat, i: nat)
    requires i < 3
    ensures Scenarios(x)[i] == Header(x) + Render(Chains()[i], 0)
  {
    if i == 0 {
      ThresholdChainIsShown();
    } else if i == 1 {
      ParityChainIsShown();
    } else {
      GradeChainIsShown();
    }
  }

  lemma RunThreshold(x: int)
    ensures Run(ThresholdChain, x) == if x > 50 then "high" else if x > 25 then "medium" else "low"
  {
    var inner := If(Above(25), Assign("medium"), Assign("low"));
    assert Run(inner, x) == if x > 25 then "medium" else "low";
    assert Run(If(Above(50), Assign("high"), inner), x) == if x > 50 then "high" else Run(inner, x);
  }

  lemma RunParity(x: int)
    ensures Run(ParityChain, x) ==
      if x % 2 == 0 then (if x > 30 then "even-big" else "even-small") else "odd"
  {
    var inner := If(Above(30), Assign("even-big"), Assign("even-small"));
    assert Run(inner, x) == if x > 30 then "even-big" else "even-small";
    assert Run(If(IsEven, inner, Assign("odd")), x) == if x % 2 == 0 then Run(inner, x) else "odd";
  }

  lemma RunGrade(x: int)
    ensures Run(GradeChain, x) ==
      if x >= 80 then "A" else if x >= 60 then "B" else if x >= 40 then "C"
      else if x >= 20 then "D" else "F"
  {
    var d := If(AtLeast(20), Assign("D"), Assign("F"));
    var c := If(AtLeast(40), Assign("C"), d);
    var b := If(AtLeast(60), Assign("B"), c);
    assert Run(d, x) == if x >= 20 then "D" else "F";
    assert Run(c, x) == if x >= 40 then "C" else Run(d, x);
    assert Run(b, x) == if x >= 60 then "B" else Run(c, x);
    assert Run(If(AtLeast(80), Assign("A"), b), x) == if x >= 80 then "A" else Run(b, x);
  }

  /** Every assigned result is non-empty text without surrounding whitespace. */
  predicate ResultsBare(c: Code) {
    match c
    case Assign(r) => r != [] && !IsSpace(r[0]) && !IsSpace(r[|r| - 1])
    case If(_, y, n) => ResultsBare(y) && ResultsBare(n)
  }

  lemma {:induction false} RunIsBare(c: Code, x: int)
    requires ResultsBare(c)
    ensures var r := Run(c, x); r != [] && !IsSpace(r[0]) && !IsSpace(r[|r| - 1])
  {
    match c
    case Assign(_) =>
    case If(t, y, n) => if TestHolds(t, x) { RunIsBare(y, x); } else { RunIsBare(n, x); }
  }

  /** Whatever `x` is, the displayed chains assign bare words, so stripping
      the disclosed answer leaves it intact. */
  lemma ChainResultsAreBare(x: int, i: nat)
    requires i < 3
    ensures Trim(Run(Chains()[i], x)) == Run(Chains()[i], x)
  {
    assert ResultsBare(Chains()[i]);
    RunIsBare(Chains()[i], x);
    TrimUnchanged(Run(Chains()[i], x));
  }

  /** The threshold template classifies `x` into three bands. */
  lemma ThresholdBands(x: int)
    ensures Run(ThresholdChain, x) == "high" <==> x > 50
    ensures Run(ThresholdChain, x) == "medium" <==> 25 < x <= 50
    ensures Run(ThresholdChain, x) == "low" <==> x <= 25
  {
    RunThreshold(x);
  }

  /** The parity template splits even numbers at 30 and lumps odd ones. */
  lemma ParityBands(x: int)
    ensures Run(ParityChain, x) == "even-big" <==> x % 2 == 0 && x > 30
    ensures Run(ParityChain, x) == "even-small" <==> x % 2 == 0 && x <= 30
    ensures Run(ParityChain, x) == "odd" <==> x % 2 == 1
  {
    RunParity(x);
  }

  /** The grade template: A from 80, B from 60, C from 40, D from 20, else F. */
  lemma GradeBands(x: int)
    ensures Run(GradeChain, x) == "A" <==> x >= 80
    ensures Run(GradeChain, x) == "B" <==> 60 <= x < 80
    ensures Run(GradeChain, x) == "C" <==> 40 <= x < 60
    ensures Run(GradeChain, x) == "D" <==> 20 <= x < 40
    ensures Run(GradeChain, x) == "F" <==> x < 20
  {
    RunGrade(x);
  }

  // ------------------------------------------------------------ the sniffing

  /** No word occurs in the decimal rendering of `x`. */
  lemma NoWordInNumber(x: nat, p: string)
    requires |p| > 0 && !IsDigit(p[0])
    ensures !Contains(Decimal(x), p)
  {
    MissingChar(Decimal(x), p, 0);
  }

  /** Neither keyword occurs in the text before `x`: it has no 'h', and
      its only 'v' is in "Given", which holds no "even". */
  lemma PrefixHasNoKeyword()
    ensures !Contains(Prefix, "high") && !Contains(Prefix, "even")
  {
    MissingChar(Prefix, "high", 0);
    MissingChar(" x = ", "even", 1);
    GivenHasNoEven();
    ContainsSplit("Given", " x = ", "even");
  }

  /** "Given" is one character longer than "even", and neither of its first
      two characters is an 'e'. */
  lemma GivenHasNoEven()
    ensures !Contains("Given", "even")
  {
    forall i: nat | i <= |"Given"|
      ensures !ContainsAt("Given", "even", i)
    {
      if i + 4 <= 5 {
        assert i == 0 || i == 1;
        assert "Given"[i..i + 4][0] == "Given"[i] != 'e';
      }
    }
  }

  /** Neither keyword occurs in the text after `x`: it has no 'g' and no 'v'. */
  lemma TailHasNoKeyword()
    ensures !Contains(Tail, "high") && !Contains(Tail, "even")
  {
    assert 'g' !in Tail && 'v' !in Tail by {
      LacksGVInTail(", what ");
      LacksGVInTail("will this ");
      LacksGVInTail("code output?\n");
    }
    MissingChar(Tail, "high", 2);
    MissingChar(Tail, "even", 1);
  }

  /** One piece of `Tail`; checking the pieces one by one is far cheaper
      for the verifier than checking the joined string. */
  lemma LacksGVInTail(piece: string)
    requires piece in {", what ", "will this ", "code output?\n"}
    ensures 'g' !in piece && 'v' !in piece
  {
  }

  /** Neither `"high"` nor `"even"` occurs in the shared first line. */
  lemma HeaderHasNoKeyword(x: nat)
    ensures !Contains(Header(x), "high")
    ensures !Contains(Header(x), "even")
  {
    var d := Decimal(x);
    NoWordInNumber(x, "high");
    NoWordInNumber(x, "even");
    PrefixHasNoKeyword();
    TailHasNoKeyword();
    // Stitch the pieces together at the seams ' '|digit and digit|','.
    assert Prefix[|Prefix| - 1] == ' ' && Tail[0] == ',';
    ContainsSplit(Prefix, d, "high");
    ContainsSplit(Prefix, d, "even");
    ContainsSplit(Prefix + d, Tail, "high");
    ContainsSplit(Prefix + d, Tail, "even");
  }

  /** A template's prompt contains a keyword exactly when its code does. */
  lemma KeywordInScenario(x: nat, code: string, p: string)
    requires p == "high" || p == "even"
    ensures Contains(Header(x) + code, p) <==> Contains(code, p)
  {
    HeaderHasNoKeyword(x);
    assert Header(x)[|Header(x)| - 1] == '\n';
    ContainsSplit(Header(x), code, p);
    ContainsConcat(Header(x), code, p);
  }

  /** "high" occurs in the threshold template's code. */
  lemma HighInThresholdCode()
    ensures Contains(ThresholdCode, "high")
  {
    assert ContainsAt(ThresholdCode, "high", 25);
  }

  /** "even", but not "high", occurs in the parity template's code. */
  lemma KeywordsInParityCode()
    ensures !Contains(ParityCode, "high") && Contains(ParityCode, "even")
  {
    assert ContainsAt(ParityCode, "even", 48);
    assert 'h' !in ParityCode by {
      LacksH("if x % 2 == 0:\n");
      LacksH("    if x > 30:\n");
      LacksH("        result = 'even-big'\n");
      LacksH("    else:\n");
      LacksH("        result = 'even-small'\n");
      LacksH("else:\n");
      LacksH("    result = 'odd'");
    }
    MissingChar(ParityCode, "high", 0);
  }

  /** Neither keyword occurs in the grade template's code. */
  lemma NoKeywordInGradeCode()
    ensures !Contains(GradeCode, "high") && !Contains(GradeCode, "even")
  {
    assert 'g' !in GradeCode && 'v' !in GradeCode by {
      LacksGV("if x >= 80:\n");
      LacksGV("    result = 'A'\n");
      LacksGV("elif x >= 60:\n");
      LacksGV("    result = 'B'\n");
      LacksGV("elif x >= 40:\n");
      LacksGV("    result = 'C'\n");
      LacksGV("elif x >= 20:\n");
      LacksGV("    result = 'D'\n");
      LacksGV("else:\n");
      LacksGV("    result = 'F'");
    }
    MissingChar(GradeCode, "high", 2);
    MissingChar(GradeCode, "even", 1);
  }

  /** A line of the grade template has neither a 'g' nor a 'v'. */
  lemma LacksGV(line: string)
    requires line in {"if x >= 80:\n", "    result = 'A'\n", "elif x >= 60:\n", "    result = 'B'\n",
                       "elif x >= 40:\n", "    result = 'C'\n", "elif x >= 20:\n", "    result = 'D'\n",
                       "else:\n", "    result = 'F'"}
    ensures 'g' !in line && 'v' !in line
  {
  }

  /** A line of the parity template has no 'h'; checking line by line is
      far cheaper for the verifier than checking the whole template. */
  lemma LacksH(line: string)
    requires line in {"if x % 2 == 0:\n", "    if x > 30:\n", "        result = 'even-big'\n", "    else:\n",
                       "        result = 'even-small'\n", "else:\n", "    result = 'odd'"}
    ensures 'h' !in line
  {
  }

  /** The game's answer is the displayed chain's result: sniffing the
      rendered prompt recovers the template that was shown, for every `x`. */
  lemma SniffedAnswerMatchesShownCode(x: nat, i: nat)
    requires i < 3
    ensures SniffedAnswer(Scenarios(x)[i], x) == Run(Chains()[i], x)
  {
    if i == 0 {
      SniffThreshold(x);
    } else if i == 1 {
      SniffParity(x);
    } else {
      SniffGrade(x);
    }
  }

  lemma SniffThreshold(x: nat)
    ensures SniffedAnswer(Header(x) + ThresholdCode, x) == Run(ThresholdChain, x)
  {
    HighInThresholdCode();
    KeywordInScenario(x, ThresholdCode, "high");
    RunThreshold(x);
  }

  lemma SniffParity(x: nat)
    ensures SniffedAnswer(Header(x) + ParityCode, x) == Run(ParityChain, x)
  {
    KeywordsInParityCode();
    KeywordInScenario(x, ParityCode, "high");
    KeywordInScenario(x, ParityCode, "even");
    RunParity(x);
  }

  lemma SniffGrade(x: nat)
    ensures SniffedAnswer(Header(x) + GradeCode, x) == Run(GradeChain, x)
  {
    NoKeywordInGradeCode();
    KeywordInScenario(x, GradeCode, "high");
    KeywordInScenario(x, GradeCode, "even");
    RunGrade(x);
  }
}
