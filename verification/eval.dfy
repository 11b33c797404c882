/**
 * The newer interpreter's tree-walking evaluator (src/eval.rs), on an
 * already-built Object tree. Every form threads the environment: a form that
 * fails still leaves behind whatever its evaluated parts assigned, so each
 * step returns the outcome together with the environment after it.
 *
 * A `fuel` argument bounds the work: it drops by one for each list form
 * evaluated and for each round of a `while` loop, and running out is the
 * distinct outcome `OutOfFuel`. Index-out-of-bounds panics of the source are
 * the outcome `Panic`, separate from its `Err(String)` results.
 */
module Evaluator {
  import Wrappers
  import opened Numbers
  import opened Values
  import opened Frames

  /**
   * What evaluating a form can end in: a value, one of the source's
   * `Err(String)` results (the `Fault` names which; `Message` gives its
   * text), an index-out-of-bounds panic, running out of fuel, or reaching
   * an effect this model does not carry out.
   */
  datatype Outcome<+T> =
    | Ok(value: T)
    | Err(fault: Fault)
    | Panic
    | OutOfFuel
    | Unmodelled(effect: Effect)

  /** The builtin forms `eval_list` recognises by the symbol at their head. */
  datatype Form =
    | KwLet | KwIf | KwFn | KwSet | KwInput | KwPrint | KwWhile
    | KwRand | KwRound | KwList | KwFirst | KwRest | KwLen

  /** The head symbol of each builtin form. */
  function Keyword(f: Form): string {
    match f
    case KwLet => "let"
    case KwIf => "if"
    case KwFn => "fn"
    case KwSet => "set"
    case KwInput => "input"
    case KwPrint => "print"
    case KwWhile => "while"
    case KwRand => "rand"
    case KwRound => "round"
    case KwList => "list"
    case KwFirst => "first"
    case KwRest => "rest"
    case KwLen => "len"
  }

  /** The builtin form a head symbol names, tried in the order of `eval_list`'s `match`. */
  function FormNamed(s: string): Wrappers.Option<Form> {
    if s == "let" then Wrappers.Some(KwLet)
    else if s == "if" then Wrappers.Some(KwIf)
    else if s == "fn" then Wrappers.Some(KwFn)
    else if s == "set" then Wrappers.Some(KwSet)
    else if s == "input" then Wrappers.Some(KwInput)
    else if s == "print" then Wrappers.Some(KwPrint)
    else if s == "while" then Wrappers.Some(KwWhile)
    else if s == "rand" then Wrappers.Some(KwRand)
    else if s == "round" then Wrappers.Some(KwRound)
    else if s == "list" then Wrappers.Some(KwList)
    else if s == "first" then Wrappers.Some(KwFirst)
    else if s == "rest" then Wrappers.Some(KwRest)
    else if s == "len" then Wrappers.Some(KwLen)
    else Wrappers.None
  }

  /** The source's `Err(String)` results, one constructor per distinct message. */
  datatype Fault =
    | ArgumentCount(form: Form)
    | OperatorArgumentCount
    | LeftNotNumber
    | RightNotNumber
    | LetTarget
    | SetTarget
    | IfCondition
    | WhileCondition
    | Unbound(name: string)
    | NotALambda(name: string)
    | FnParameter
    | FnShape
    | RandArguments
    | RoundNotNumber
    | FirstNotList
    | RestNotList

  /**
   * The text of each fault. The arity message of `input` names `get`, the
   * message of `round` names `set`, and `len` shares the message of `rest`.
   */
  function Message(f: Fault): string {
    match f
    case ArgumentCount(form) =>
      "Invalid number of arguments for `" + (if form == KwInput then "get" else Keyword(form)) + "`"
    case OperatorArgumentCount => "Invalid number of arguments for binary operator"
    case LeftNotNumber => "Left operand must be a number"
    case RightNotNumber => "Right operand must be a number"
    case LetTarget => "Invalid `let`"
    case SetTarget => "First argument of `set` not symbol"
    case IfCondition => "Condition must be a boolean"
    case WhileCondition => "Condition of `while` must evaluate to a boolean"
    case Unbound(name) => "Unbound symbol: " + name
    case NotALambda(name) => "Not a lambda (`fn`): " + name
    case FnParameter => "Invalid `fn` parameter"
    case FnShape => "Invalid `fn`"
    case RandArguments => "Invalid argument types for `rand`"
    case RoundNotNumber => "First argument of `set` must be a number"
    case FirstNotList => "First argument of `first` must be a list"
    case RestNotList => "First argument of `rest` must be a list"
  }

  /**
   * Effects outside this model: dividing by zero (an infinity or NaN in
   * `f64`), reading a line from standard input, and drawing a random number.
   */
  datatype Effect = DivideByZero | ReadLine | RandomDraw

  /** An outcome and the environment it leaves behind. */
  datatype Step<+T> = Step(out: Outcome<T>, env: Env)

  /** The same failure, at another result type. */
  function Reraise<T, U>(o: Outcome<T>): (r: Outcome<U>)
    requires !o.Ok?
    ensures !r.Ok?
  {
    match o
    case Err(f) => Err(f)
    case Panic => Panic
    case OutOfFuel => OutOfFuel
    case Unmodelled(e) => Unmodelled(e)
  }

  // ---------------------------------------------------------------------------
  // Binary operators
  // ---------------------------------------------------------------------------

  datatype BinOp = Add | Sub | Mul | Div | Lt | Le | Gt | Ge | Eq | Ne

  /** The ten head symbols `eval_list` sends to `eval_binary_op`. */
  function OperatorNamed(s: string): (r: Wrappers.Option<BinOp>)
    ensures r.Some? <==> s in {"+", "-", "*", "/", "<", "<=", ">", ">=", "=", "!="}
  {
    if s == "+" then Wrappers.Some(Add)
    else if s == "-" then Wrappers.Some(Sub)
    else if s == "*" then Wrappers.Some(Mul)
    else if s == "/" then Wrappers.Some(Div)
    else if s == "<" then Wrappers.Some(Lt)
    else if s == "<=" then Wrappers.Some(Le)
    else if s == ">" then Wrappers.Some(Gt)
    else if s == ">=" then Wrappers.Some(Ge)
    else if s == "=" then Wrappers.Some(Eq)
    else if s == "!=" then Wrappers.Some(Ne)
    else Wrappers.None
  }

  predicate IsComparison(op: BinOp) {
    op in {Lt, Le, Gt, Ge, Eq, Ne}
  }

  /**
   * An operator applied to two numbers. Comparisons give a Bool and
   * arithmetic a Number; `f64` division by zero gives an infinity or NaN,
   * which this model does not represent.
   */
  function Apply(op: BinOp, a: real, b: real): (r: Outcome<Object>)
    ensures IsComparison(op) ==> r.Ok? && r.value.Bool?
    ensures !IsComparison(op) && !(op == Div && b == 0.0) ==> r.Ok? && r.value.Number?
    ensures op == Div && b == 0.0 ==> r.Unmodelled?
  {
    match op
    case Add => Ok(Number(a + b))
    case Sub => Ok(Number(a - b))
    case Mul => Ok(Number(a * b))
    case Div => if b == 0.0 then Unmodelled(DivideByZero) else Ok(Number(a / b))
    case Lt => Ok(Bool(a < b))
    case Le => Ok(Bool(a <= b))
    case Gt => Ok(Bool(a > b))
    case Ge => Ok(Bool(a >= b))
    case Eq => Ok(Bool(a == b))
    case Ne => Ok(Bool(a != b))
  }

  // ---------------------------------------------------------------------------
  // Small pure helpers
  // ---------------------------------------------------------------------------

  /** `eval_symbol`. */
  function EvalSymbol(s: string, env: Env): (r: Outcome<Object>)
    ensures r.Ok? <==> Get(env, s).Some?
    ensures r.Ok? ==> r.value == Get(env, s).value
    ensures !r.Ok? ==> r == Err(Unbound(s))
  {
    match Get(env, s)
    case None => Err(Unbound(s))
    case Some(v) => Ok(v)
  }

  /** The parameter names of a `fn` form, if every one is a Symbol. */
  function ParamNames(ps: seq<Object>): (r: Wrappers.Option<seq<string>>)
    ensures r.Some? <==> forall i :: 0 <= i < |ps| ==> ps[i].Symbol?
    ensures r.Some? ==> |r.value| == |ps| && forall i :: 0 <= i < |ps| ==> r.value[i] == ps[i].name
    decreases |ps|
  {
    if |ps| == 0 then Wrappers.Some([])
    else if !ps[0].Symbol? then Wrappers.None
    else
      match ParamNames(ps[1..])
      case None => Wrappers.None
      case Some(rest) => Wrappers.Some([ps[0].name] + rest)
  }

  /** `eval_function_definition`: needs no environment. */
  function EvalFn(items: seq<Object>): (r: Outcome<Object>)
    ensures |items| < 2 ==> r.Panic?
    ensures r.Ok? <==> |items| >= 3 && items[1].List? && ParamNames(items[1].items).Some? && items[2].List?
    ensures r.Ok? ==> r.value == Lambda(ParamNames(items[1].items).value, items[2].items)
  {
    if |items| < 2 then Panic
    else
      match items[1]
      case List(ps) =>
        (match ParamNames(ps)
         case None => Err(FnParameter)
         case Some(names) =>
           if |items| < 3 then Panic
           else
             match items[2]
             case List(body) => Ok(Lambda(names, body))
             case _ => Err(FnShape))
      case _ => Err(FnShape)
  }

  /** The Objects of a sequence that are not Void, in order. */
  function DropVoid(xs: seq<Object>): (r: seq<Object>)
    ensures |r| <= |xs|
    ensures forall i :: 0 <= i < |r| ==> r[i] != Void && r[i] in xs
    ensures forall x :: x in xs && x != Void ==> x in r
    decreases |xs|
  {
    if |xs| == 0 then []
    else if xs[0] == Void then DropVoid(xs[1..])
    else [xs[0]] + DropVoid(xs[1..])
  }

  // ---------------------------------------------------------------------------
  // The evaluator
  //
  // Decreasing measure: fuel first, then the rank of the function (Eval 0,
  // the sequence walkers 1, the while loop 2, the forms 3, EvalNamed 4,
  // EvalList 5), then
  // the length of the sequence a walker still has to go.
  // ---------------------------------------------------------------------------

  /** `eval_obj`. */
  function Eval(obj: Object, env: Env, fuel: nat): (r: Step<Object>)
    ensures SameOuter(env, r.env)
    decreases fuel, 0, 0
  {
    match obj
    case Void => Step(Ok(Void), env)
    case Lambda(_, _) => Step(Ok(Void), env)
    case Bool(_) => Step(Ok(obj), env)
    case Number(_) => Step(Ok(obj), env)
    case Symbol(s) => Step(EvalSymbol(s, env), env)
    case List(items) => if fuel == 0 then Step(OutOfFuel, env) else EvalList(items, env, fuel - 1)
    case ListData(_) => Step(Ok(obj), env)
    case String(_) => Step(Ok(obj), env)
  }

  /** Evaluate each Object in order, stopping at the first failure. */
  function EvalEach(xs: seq<Object>, env: Env, fuel: nat): (r: Step<seq<Object>>)
    ensures SameOuter(env, r.env)
    ensures r.out.Ok? ==> |r.out.value| == |xs|
    decreases fuel, 1, |xs|
  {
    if |xs| == 0 then Step(Ok([]), env)
    else
      var first := Eval(xs[0], env, fuel);
      if !first.out.Ok? then Step(Reraise(first.out), first.env)
      else
        var rest := EvalEach(xs[1..], first.env, fuel);
        SameOuterTrans(env, first.env, rest.env);
        if !rest.out.Ok? then rest
        else Step(Ok([first.out.value] + rest.out.value), rest.env)
  }

  /**
   * The body of a `while` round: evaluate each Object in order; the value is
   * that of the last one, or `last` when there is none.
   */
  function EvalLast(xs: seq<Object>, last: Object, env: Env, fuel: nat): (r: Step<Object>)
    ensures SameOuter(env, r.env)
    ensures |xs| == 0 ==> r == Step(Ok(last), env)
    decreases fuel, 1, |xs|
  {
    if |xs| == 0 then Step(Ok(last), env)
    else
      var first := Eval(xs[0], env, fuel);
      if !first.out.Ok? then first
      else
        var rest := EvalLast(xs[1..], first.out.value, first.env, fuel);
        SameOuterTrans(env, first.env, rest.env);
        rest
  }

  /**
   * The loop of `eval_while`: test the condition, stop with `last` when it
   * is false, otherwise run the body and go round again with its value.
   */
  function WhileLoop(cond: Object, body: seq<Object>, last: Object, env: Env, fuel: nat): (r: Step<Object>)
    ensures SameOuter(env, r.env)
    decreases fuel, 2, 0
  {
    if fuel == 0 then Step(OutOfFuel, env)
    else
      var c := Eval(cond, env, fuel);
      if !c.out.Ok? then c
      else if !c.out.value.Bool? then Step(Err(WhileCondition), c.env)
      else if !c.out.value.b then Step(Ok(last), c.env)
      else
        var b := EvalLast(body, last, c.env, fuel);
        SameOuterTrans(env, c.env, b.env);
        if !b.out.Ok? then b
        else
          var next := WhileLoop(cond, body, b.out.value, b.env, fuel - 1);
          SameOuterTrans(env, b.env, next.env);
          next
  }

  /** `eval_list`: an empty form panics; otherwise dispatch on the head. */
  function EvalList(items: seq<Object>, env: Env, fuel: nat): (r: Step<Object>)
    ensures SameOuter(env, r.env)
    decreases fuel, 5, 0
  {
    if |items| == 0 then Step(Panic, env)
    else
      match items[0]
      case Symbol(s) => EvalNamed(s, items, env, fuel)
      case _ => EvalHeadless(items, env, fuel)
  }

  /** What a head symbol selects: an operator, a builtin form, or a call. */
  datatype Head = Operator(op: BinOp) | Builtin(form: Form) | Call

  function HeadNamed(s: string): (h: Head)
    ensures h.Operator? <==> OperatorNamed(s).Some?
    ensures h.Operator? ==> OperatorNamed(s) == Wrappers.Some(h.op)
    ensures h.Builtin? <==> OperatorNamed(s).None? && FormNamed(s).Some?
    ensures h.Builtin? ==> FormNamed(s) == Wrappers.Some(h.form)
  {
    match OperatorNamed(s)
    case Some(op) => Operator(op)
    case None =>
      match FormNamed(s)
      case Some(f) => Builtin(f)
      case None => Call
  }

  /** The arms of `eval_list`'s `match` on a head symbol. */
  function EvalNamed(s: string, items: seq<Object>, env: Env, fuel: nat): (r: Step<Object>)
    requires |items| > 0
    ensures SameOuter(env, r.env)
    decreases fuel, 4, 0
  {
    match HeadNamed(s)
    case Operator(op) => EvalBinary(op, items, env, fuel)
    case Call => EvalCall(s, items, env, fuel)
    case Builtin(KwLet) => EvalLet(items, env, fuel)
    case Builtin(KwIf) => EvalIf(items, env, fuel)
    case Builtin(KwFn) => Step(EvalFn(items), env)
    case Builtin(KwSet) => EvalSet(items, env, fuel)
    case Builtin(KwInput) => EvalInput(items, env, fuel)
    case Builtin(KwPrint) => EvalPrint(items, env, fuel)
    case Builtin(KwWhile) => EvalWhile(items, env, fuel)
    case Builtin(KwRand) => EvalRand(items, env, fuel)
    case Builtin(KwRound) => EvalRound(items, env, fuel)
    case Builtin(KwList) => EvalListData(items, env, fuel)
    case Builtin(KwFirst) => EvalFirst(items, env, fuel)
    case Builtin(KwRest) => EvalRest(items, env, fuel)
    case Builtin(KwLen) => EvalLen(items, env, fuel)
  }

  /**
   * A list whose head is not a Symbol: evaluate every element, drop the
   * Voids, and evaluate the survivors again as a list when the first of
   * them is a Lambda.
   */
  function EvalHeadless(items: seq<Object>, env: Env, fuel: nat): (r: Step<Object>)
    ensures SameOuter(env, r.env)
    decreases fuel, 3, 0
  {
    var each := EvalEach(items, env, fuel);
    if !each.out.Ok? then Step(Reraise(each.out), each.env)
    else
      var survivors := DropVoid(each.out.value);
      if |survivors| > 0 && survivors[0].Lambda? then
        var again := Eval(List(survivors), each.env, fuel);
        SameOuterTrans(env, each.env, again.env);
        again
      else Step(Ok(List(survivors)), each.env)
  }

  /** `eval_binary_op`: both operands are evaluated before either is checked. */
  function EvalBinary(op: BinOp, items: seq<Object>, env: Env, fuel: nat): (r: Step<Object>)
    ensures SameOuter(env, r.env)
    decreases fuel, 3, 0
  {
    if |items| != 3 then Step(Err(OperatorArgumentCount), env)
    else
      var left := Eval(items[1], env, fuel);
      if !left.out.Ok? then left
      else
        var right := Eval(items[2], left.env, fuel);
        SameOuterTrans(env, left.env, right.env);
        if !right.out.Ok? then right
        else if !left.out.value.Number? then Step(Err(LeftNotNumber), right.env)
        else if !right.out.value.Number? then Step(Err(RightNotNumber), right.env)
        else Step(Apply(op, left.out.value.n, right.out.value.n), right.env)
  }

  /** `eval_let`: the target must be a Symbol, checked before the value is evaluated. */
  function EvalLet(items: seq<Object>, env: Env, fuel: nat): (r: Step<Object>)
    ensures SameOuter(env, r.env)
    decreases fuel, 3, 0
  {
    if |items| != 3 then Step(Err(ArgumentCount(KwLet)), env)
    else if !items[1].Symbol? then Step(Err(LetTarget), env)
    else
      var v := Eval(items[2], env, fuel);
      if !v.out.Ok? then v
      else
        var bound := Set(v.env, items[1].name, v.out.value);
        SameOuterTrans(env, v.env, bound);
        Step(Ok(Void), bound)
  }

  /** `eval_set`: the value is evaluated before the target is checked. */
  function EvalSet(items: seq<Object>, env: Env, fuel: nat): (r: Step<Object>)
    ensures SameOuter(env, r.env)
    decreases fuel, 3, 0
  {
    if |items| != 3 then Step(Err(ArgumentCount(KwSet)), env)
    else
      var v := Eval(items[2], env, fuel);
      if !v.out.Ok? then v
      else if !items[1].Symbol? then Step(Err(SetTarget), v.env)
      else
        var bound := Set(v.env, items[1].name, v.out.value);
        SameOuterTrans(env, v.env, bound);
        Step(Ok(v.out.value), bound)
  }

  /** `eval_if`. */
  function EvalIf(items: seq<Object>, env: Env, fuel: nat): (r: Step<Object>)
    ensures SameOuter(env, r.env)
    decreases fuel, 3, 0
  {
    if |items| != 4 then Step(Err(ArgumentCount(KwIf)), env)
    else
      var c := Eval(items[1], env, fuel);
      if !c.out.Ok? then c
      else if !c.out.value.Bool? then Step(Err(IfCondition), c.env)
      else
        var branch := Eval(if c.out.value.b then items[2] else items[3], c.env, fuel);
        SameOuterTrans(env, c.env, branch.env);
        branch
  }

  /** `eval_while`: at least a condition and one body form. */
  function EvalWhile(items: seq<Object>, env: Env, fuel: nat): (r: Step<Object>)
    ensures SameOuter(env, r.env)
    decreases fuel, 3, 0
  {
    if |items| < 3 then Step(Err(ArgumentCount(KwWhile)), env)
    else WhileLoop(items[1], items[2..], Void, env, fuel)
  }

  /**
   * `eval_function_call`: the arguments are evaluated in the caller's
   * environment, in order, one per parameter (extra ones are never looked
   * at, too few is an index panic once the present ones are evaluated); the
   * body runs as a list form in a new innermost frame binding them, and that
   * frame is dropped afterwards.
   */
  function EvalCall(s: string, items: seq<Object>, env: Env, fuel: nat): (r: Step<Object>)
    requires |items| > 0
    ensures SameOuter(env, r.env)
    decreases fuel, 3, 0
  {
    match Get(env, s)
    case None => Step(Err(Unbound(s)), env)
    case Some(f) =>
      if !f.Lambda? then Step(Err(NotALambda(s)), env)
      else
        var n := if |items| - 1 < |f.params| then |items| - 1 else |f.params|;
        var args := EvalEach(items[1..n + 1], env, fuel);
        if !args.out.Ok? then Step(Reraise(args.out), args.env)
        else if n < |f.params| then Step(Panic, args.env)
        else
          var callee := BindAll(Extend(args.env), f.params, args.out.value);
          var result := Eval(List(f.body), callee, fuel);
          SameOuterTrans(Extend(args.env), callee, result.env);
          PopSameOuter(args.env, result.env);
          SameOuterTrans(env, args.env, Pop(result.env));
          Step(result.out, Pop(result.env))
  }

  /**
   * `eval_print` with the output left out: the arguments are evaluated for
   * their effects and the count of argument forms is returned.
   */
  function EvalPrint(items: seq<Object>, env: Env, fuel: nat): (r: Step<Object>)
    requires |items| > 0
    ensures SameOuter(env, r.env)
    decreases fuel, 3, 0
  {
    if |items| <= 1 then Step(Ok(Number(0.0)), env)
    else
      var args := EvalEach(items[1..], env, fuel);
      if !args.out.Ok? then Step(Reraise(args.out), args.env)
      else Step(Ok(Number((|items| - 1) as real)), args.env)
  }

  /** `eval_input`: the arity check and the prompt; reading stdin is not modelled. */
  function EvalInput(items: seq<Object>, env: Env, fuel: nat): (r: Step<Object>)
    ensures SameOuter(env, r.env)
    decreases fuel, 3, 0
  {
    if |items| > 2 then Step(Err(ArgumentCount(KwInput)), env)
    else if |items| == 2 then
      var prompt := Eval(items[1], env, fuel);
      if !prompt.out.Ok? then prompt else Step(Unmodelled(ReadLine), prompt.env)
    else Step(Unmodelled(ReadLine), env)
  }

  /** `eval_rand`: the arity and type checks; the random draw is not modelled. */
  function EvalRand(items: seq<Object>, env: Env, fuel: nat): (r: Step<Object>)
    ensures SameOuter(env, r.env)
    decreases fuel, 3, 0
  {
    if |items| != 3 then Step(Err(ArgumentCount(KwRand)), env)
    else
      var lo := Eval(items[1], env, fuel);
      if !lo.out.Ok? then lo
      else
        var hi := Eval(items[2], lo.env, fuel);
        SameOuterTrans(env, lo.env, hi.env);
        if !hi.out.Ok? then hi
        else if lo.out.value.Number? && hi.out.value.Number? then Step(Unmodelled(RandomDraw), hi.env)
        else Step(Err(RandArguments), hi.env)
  }

  /**
   * Whether the single argument of `round`, `first`, `rest` or `len` fell
   * into the catch-all arm of its `match`: an `Err` from evaluating it is
   * replaced by the builtin's own message, as is a value of the wrong kind.
   * A panic, running out of fuel or an unmodelled effect is not an `Err` of
   * the source and passes through.
   */
  predicate CaughtByWildcard(o: Outcome<Object>) {
    o.Ok? || o.Err?
  }

  /** `eval_round`, whose error message names `set`. */
  function EvalRound(items: seq<Object>, env: Env, fuel: nat): (r: Step<Object>)
    ensures SameOuter(env, r.env)
    decreases fuel, 3, 0
  {
    if |items| != 2 then Step(Err(ArgumentCount(KwRound)), env)
    else
      var a := Eval(items[1], env, fuel);
      if a.out.Ok? && a.out.value.Number? then Step(Ok(Number(Round(a.out.value.n))), a.env)
      else if CaughtByWildcard(a.out) then Step(Err(RoundNotNumber), a.env)
      else a
  }

  /** `eval_list_data`: the evaluated arguments, in order. */
  function EvalListData(items: seq<Object>, env: Env, fuel: nat): (r: Step<Object>)
    requires |items| > 0
    ensures SameOuter(env, r.env)
    decreases fuel, 3, 0
  {
    var args := EvalEach(items[1..], env, fuel);
    if !args.out.Ok? then Step(Reraise(args.out), args.env)
    else Step(Ok(ListData(args.out.value)), args.env)
  }

  /** `eval_first`: indexing an empty list panics. */
  function EvalFirst(items: seq<Object>, env: Env, fuel: nat): (r: Step<Object>)
    ensures SameOuter(env, r.env)
    decreases fuel, 3, 0
  {
    if |items| != 2 then Step(Err(ArgumentCount(KwFirst)), env)
    else
      var a := Eval(items[1], env, fuel);
      if a.out.Ok? && a.out.value.ListData? then
        var d := a.out.value.elems;
        if |d| == 0 then Step(Panic, a.env) else Step(Ok(d[0]), a.env)
      else if CaughtByWildcard(a.out) then Step(Err(FirstNotList), a.env)
      else a
  }

  /** `eval_rest`: slicing an empty list from 1 panics. */
  function EvalRest(items: seq<Object>, env: Env, fuel: nat): (r: Step<Object>)
    ensures SameOuter(env, r.env)
    decreases fuel, 3, 0
  {
    if |items| != 2 then Step(Err(ArgumentCount(KwRest)), env)
    else
      var a := Eval(items[1], env, fuel);
      if a.out.Ok? && a.out.value.ListData? then
        var d := a.out.value.elems;
        if |d| == 0 then Step(Panic, a.env) else Step(Ok(ListData(d[1..])), a.env)
      else if CaughtByWildcard(a.out) then Step(Err(RestNotList), a.env)
      else a
  }

  /** `eval_len`, whose error message names `rest`. */
  function EvalLen(items: seq<Object>, env: Env, fuel: nat): (r: Step<Object>)
    ensures SameOuter(env, r.env)
    decreases fuel, 3, 0
  {
    if |items| != 2 then Step(Err(ArgumentCount(KwLen)), env)
    else
      var a := Eval(items[1], env, fuel);
      if a.out.Ok? && a.out.value.ListData? then Step(Ok(Number(|a.out.value.elems| as real)), a.env)
      else if CaughtByWildcard(a.out) then Step(Err(RestNotList), a.env)
      else a
  }
}
