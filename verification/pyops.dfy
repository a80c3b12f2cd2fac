/** Python's meaning of the operators the puzzles display: integer `+ - *`,
    floor division `//`, the floor-based remainder `%`, `**` with a
    non-negative exponent, the six comparisons, and `and`/`or`/`not` on
    booleans. These are the reference against which each puzzle's stored
    answer is checked. */
module PyOps {
  import opened Wrappers

  /** `base ** exp` for a non-negative integer exponent; a positive base
      has a positive power. */
  function Pow(base: int, exp: nat): (r: int)
    ensures base > 0 ==> r > 0
    decreases exp
  {
    if exp == 0 then 1 else base * Pow(base, exp - 1)
  }

  /** Python's `a // b`: the quotient rounded towards negative infinity. */
  function FloorDiv(a: int, b: int): (q: int)
    requires b != 0
    ensures b > 0 ==> b * q <= a < b * q + b
    ensures b < 0 ==> b * q + b < a <= b * q
  {
    if b > 0 then a / b else (-a) / (-b)
  }

  /** Python's `a % b`: the remainder that takes the sign of the divisor. */
  function FloorMod(a: int, b: int): (m: int)
    requires b != 0
    ensures a == b * FloorDiv(a, b) + m
    ensures b > 0 ==> 0 <= m < b
    ensures b < 0 ==> b < m <= 0
  {
    a - b * FloorDiv(a, b)
  }

  /** With a positive divisor Python's floor operators coincide with
      Dafny's Euclidean `/` and `%`, so the answers the puzzles compute with
      the latter are the values Python would print. */
  lemma FloorOpsAgreeForPositiveDivisor(a: int, b: int)
    requires b > 0
    ensures FloorDiv(a, b) == a / b
    ensures FloorMod(a, b) == a % b
  {
  }

  datatype BinOp = Plus | Minus | Times | FloorDivide | Modulo | Power

  /** An integer expression as the puzzle text shows it. */
  datatype Expr = Num(n: int) | Bin(op: BinOp, left: Expr, right: Expr)

  function Add(l: Expr, r: Expr): Expr { Bin(Plus, l, r) }
  function Sub(l: Expr, r: Expr): Expr { Bin(Minus, l, r) }
  function Mul(l: Expr, r: Expr): Expr { Bin(Times, l, r) }
  function Div(l: Expr, r: Expr): Expr { Bin(FloorDivide, l, r) }
  function Mod(l: Expr, r: Expr): Expr { Bin(Modulo, l, r) }
  function Exp(l: Expr, r: Expr): Expr { Bin(Power, l, r) }

  /** One operator applied to two evaluated operands. `None` stands for the
      cases where Python raises `ZeroDivisionError`, and for a negative
      exponent, where Python would produce a float. */
  function Apply(op: BinOp, x: int, y: int): Option<int> {
    match op
    case Plus => Some(x + y)
    case Minus => Some(x - y)
    case Times => Some(x * y)
    case FloorDivide => if y == 0 then None else Some(FloorDiv(x, y))
    case Modulo => if y == 0 then None else Some(FloorMod(x, y))
    case Power => if y < 0 then None else Some(Pow(x, y))
  }

  /** The integer Python computes for an expression, if any. */
  function Eval(e: Expr): Option<int> {
    match e
    case Num(n) => Some(n)
    case Bin(op, l, r) =>
      match (Eval(l), Eval(r))
      case (Some(x), Some(y)) => Apply(op, x, y)
      case _ => None
  }

  /** Evaluation is compositional: a binary expression's value is the
      operator applied to its operands' values. */
  lemma EvalBin(op: BinOp, l: Expr, r: Expr, x: int, y: int)
    requires Eval(l) == Some(x) && Eval(r) == Some(y)
    ensures Eval(Bin(op, l, r)) == Apply(op, x, y)
  {
  }

  datatype CmpOp = Eq | Ne | Gt | Lt | Ge | Le

  /** A comparison `lhs op rhs` as the puzzle text shows it. */
  datatype CompareExpr = Compare(op: CmpOp, lhs: Expr, rhs: Expr)

  function Relate(op: CmpOp, x: int, y: int): bool {
    match op
    case Eq => x == y
    case Ne => x != y
    case Gt => x > y
    case Lt => x < y
    case Ge => x >= y
    case Le => x <= y
  }

  function EvalComparison(c: CompareExpr): Option<bool> {
    match (Eval(c.lhs), Eval(c.rhs))
    case (Some(x), Some(y)) => Some(Relate(c.op, x, y))
    case _ => None
  }

  datatype Var = P | Q | R

  /** The truth values the logical puzzle displays for `p`, `q` and `r`. */
  datatype Env = Env(p: bool, q: bool, r: bool)

  function Lookup(env: Env, v: Var): bool {
    match v
    case P => env.p
    case Q => env.q
    case R => env.r
  }

  /** A boolean formula over `p`, `q`, `r` as the puzzle text shows it. */
  datatype Formula = Atom(v: Var) | Not(f: Formula) | And(l: Formula, r: Formula) | Or(l: Formula, r: Formula)

  function Holds(f: Formula, env: Env): bool {
    match f
    case Atom(v) => Lookup(env, v)
    case Not(g) => !Holds(g, env)
    case And(l, r) => Holds(l, env) && Holds(r, env)
    case Or(l, r) => Holds(l, env) || Holds(r, env)
  }

  function FreeVars(f: Formula): set<Var> {
    match f
    case Atom(v) => {v}
    case Not(g) => FreeVars(g)
    case And(l, r) => FreeVars(l) + FreeVars(r)
    case Or(l, r) => FreeVars(l) + FreeVars(r)
  }

  /** A formula's value depends only on the variables it mentions. */
  lemma {:induction false} HoldsOnlyReadsFreeVars(f: Formula, e1: Env, e2: Env)
    requires forall v :: v in FreeVars(f) ==> Lookup(e1, v) == Lookup(e2, v)
    ensures Holds(f, e1) == Holds(f, e2)
  {
    match f
    case Atom(v) =>
    case Not(g) => HoldsOnlyReadsFreeVars(g, e1, e2);
    case And(l, r) =>
      HoldsOnlyReadsFreeVars(l, e1, e2);
      HoldsOnlyReadsFreeVars(r, e1, e2);
    case Or(l, r) =>
      HoldsOnlyReadsFreeVars(l, e1, e2);
      HoldsOnlyReadsFreeVars(r, e1, e2);
  }
}
