/**
 * The older interpreter's environment and built-ins (src/environment.rs),
 * with the argument check they share (`eval_single_float` and
 * `eval_list_of_floats`, src/evaluator.rs). Rust's float sums and products
 * are exact `real` arithmetic here.
 */
module Environment {
  import opened Wrappers
  import opened Expression

  /** `Env`: one flat table of names. */
  type Env = map<string, Exp>

  /** The name `default_env` binds a built-in to. */
  function BuiltinName(b: Builtin): string {
    match b
    case Add => "+"
    case Sub => "-"
    case Mul => "*"
    case Div => "/"
  }

  /** `default_env`: the four arithmetic built-ins and nothing else. */
  function DefaultEnv(): (env: Env)
    ensures env.Keys == set b: Builtin | true :: BuiltinName(b)
    ensures forall b :: BuiltinName(b) in env && env[BuiltinName(b)] == Func(b)
  {
    var env := map["+" := Func(Add), "-" := Func(Sub), "*" := Func(Mul), "/" := Func(Div)];
    assert (set b: Builtin | true :: BuiltinName(b)) == {"+", "-", "*", "/"} by {
      assert BuiltinName(Add) == "+" && BuiltinName(Sub) == "-";
      assert BuiltinName(Mul) == "*" && BuiltinName(Div) == "/";
    }
    env
  }

  /** `eval_single_float`. */
  function SingleFloat(e: Exp): Result<real, RunErr> {
    match e
    case Number(n) => Ok(n)
    case _ => Err(Reason("expected a number"))
  }

  /** `eval_list_of_floats`: the numbers of `args`, or the error of the first non-number. */
  function ListOfFloats(args: seq<Exp>): (r: Result<seq<real>, RunErr>)
    ensures r.Err? ==> r.error == Reason("expected a number")
  {
    if |args| == 0 then Ok([])
    else
      match SingleFloat(args[0])
      case Err(e) => Err(e)
      case Ok(x) =>
        match ListOfFloats(args[1..])
        case Err(e) => Err(e)
        case Ok(xs) => Ok([x] + xs)
  }

  predicate AllNumbers(args: seq<Exp>) {
    forall i :: 0 <= i < |args| ==> args[i].Number?
  }

  /** `fold(0.0, |sum, a| sum + a)`. */
  function Sum(xs: seq<real>): real {
    if |xs| == 0 then 0.0 else Sum(xs[..|xs| - 1]) + xs[|xs| - 1]
  }

  /** `fold(1.0, |prod, a| prod * a)`. */
  function Product(xs: seq<real>): real {
    if |xs| == 0 then 1.0 else Product(xs[..|xs| - 1]) * xs[|xs| - 1]
  }

  /** The body of the closure `default_env` binds to the built-in `b`. */
  function Apply(b: Builtin, args: seq<Exp>): Result<Exp, RunErr> {
    match ListOfFloats(args)
    case Err(e) => Err(e)
    case Ok(floats) =>
      match b
      case Add => Ok(Number(Sum(floats)))
      case Mul => Ok(Number(Product(floats)))
      case Sub =>
        if |floats| == 0 then Err(Reason("expected at least one number"))
        else if |floats| == 1 then Ok(Number(-floats[0]))
        else Ok(Number(floats[0] - Sum(floats[1..])))
      case Div =>
        if |floats| == 0 then Err(Reason("expected at least one number"))
        else if |floats| == 1 then
          if floats[0] == 0.0 then Err(Reason("divide by zero")) else Ok(Number(1.0 / floats[0]))
        else
          var p := Product(floats[1..]);
          if p == 0.0 then Err(Reason("divide by zero")) else Ok(Number(floats[0] / p))
  }
}
