/**
 * The older interpreter's evaluator (src/evaluator.rs). Evaluation is
 * structural recursion over the expression, so it needs no fuel, and it
 * only reads the environment.
 */
module ExpEvaluator {
  import opened Wrappers
  import opened Expression
  import opened Parser
  import opened Environment

  /** `eval_expr`. */
  function EvalExpr(e: Exp, env: Env): Result<Exp, RunErr>
    decreases e, 1
  {
    match e
    case Symbol(k) =>
      if k in env then Ok(env[k]) else Err(Reason("unexpected symbol k='" + k + "'"))
    case Number(_) => Ok(e)
    case List(items) =>
      if |items| == 0 then Err(Reason("expected a non-empty list"))
      else EvalCall(items, env)
    case Func(_) => Err(Reason("unexpected form"))
  }

  /**
   * A non-empty list: the head is evaluated first and must give a function;
   * only then are the arguments evaluated and the function applied.
   */
  function EvalCall(items: seq<Exp>, env: Env): Result<Exp, RunErr>
    requires |items| > 0
    decreases items, 2
  {
    match EvalExpr(items[0], env)
    case Err(err) => Err(err)
    case Ok(head) =>
      if head.Func? then
        match EvalArgs(items[1..], env)
        case Err(err) => Err(err)
        case Ok(args) => Apply(head.f, args)
      else Err(Reason("first form must be a function"))
  }

  /** The `map(eval_expr).collect()` over the argument forms: left to right, stopping at the first error. */
  function EvalArgs(xs: seq<Exp>, env: Env): (r: Result<seq<Exp>, RunErr>)
    ensures r.Ok? ==> |r.value| == |xs|
    decreases xs, 0
  {
    if |xs| == 0 then Ok([])
    else
      match EvalExpr(xs[0], env)
      case Err(err) => Err(err)
      case Ok(v) =>
        match EvalArgs(xs[1..], env)
        case Err(err) => Err(err)
        case Ok(vs) => Ok([v] + vs)
  }

  /** `eval`: parse the first expression of `src`, drop the leftover tokens, and evaluate it. */
  function Eval(src: string, env: Env): Result<Exp, RunErr> {
    match Parse(Tokenize(src))
    case Err(err) => Err(err)
    case Ok((e, _)) => EvalExpr(e, env)
  }
}
