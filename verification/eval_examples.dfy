/**
 * The programs of the evaluator's unit tests (src/eval.rs), as Object trees,
 * and what they evaluate to. The recursive ones are proved for every
 * argument by induction, with enough fuel for the recursion depth.
 */
module EvalExamples {
  import Wrappers
  import opened Values
  import opened Frames
  import opened Evaluator
  import opened EvalLaws

  // ---------------------------------------------------------------------------
  // One step of each form used by the tests
  // ---------------------------------------------------------------------------

  lemma NumberForm(x: real, env: Env, fuel: nat)
    ensures Eval(Number(x), env, fuel) == Step(Ok(Number(x)), env)
  {
  }

  lemma SymbolForm(name: string, env: Env, fuel: nat)
    requires Get(env, name).Some?
    ensures Eval(Symbol(name), env, fuel) == Step(Ok(Get(env, name).value), env)
  {
  }

  /** An operator form whose operands evaluate to numbers without side effects. */
  lemma OperatorForm(s: string, op: BinOp, l: Object, r: Object, x: real, y: real, env: Env, fuel: nat)
    requires fuel > 0 && OperatorNamed(s) == Wrappers.Some(op)
    requires Eval(l, env, fuel - 1) == Step(Ok(Number(x)), env)
    requires Eval(r, env, fuel - 1) == Step(Ok(Number(y)), env)
    ensures Eval(List([Symbol(s), l, r]), env, fuel) == Step(Apply(op, x, y), env)
  {
    var items := [Symbol(s), l, r];
    assert EvalList(items, env, fuel - 1) == EvalBinary(op, items, env, fuel - 1);
  }

  /** An `if` form whose condition evaluates to a Bool without side effects. */
  lemma IfForm(c: Object, t: Object, e: Object, b: bool, env: Env, fuel: nat)
    requires fuel > 0
    requires Eval(c, env, fuel - 1) == Step(Ok(Bool(b)), env)
    ensures Eval(List([Symbol("if"), c, t, e]), env, fuel) == Eval(if b then t else e, env, fuel - 1)
  {
    var items := [Symbol("if"), c, t, e];
    assert OperatorNamed("if").None?;
    assert EvalList(items, env, fuel - 1) == EvalIf(items, env, fuel - 1);
  }

  /** A `let` form whose value evaluates without side effects. */
  lemma LetForm(name: string, x: Object, v: Object, env: Env, fuel: nat)
    requires fuel > 0
    requires Eval(x, env, fuel - 1) == Step(Ok(v), env)
    ensures Eval(List([Symbol("let"), Symbol(name), x]), env, fuel) == Step(Ok(Void), Set(env, name, v))
  {
    var items := [Symbol("let"), Symbol(name), x];
    assert OperatorNamed("let").None?;
    assert EvalList(items, env, fuel - 1) == EvalLet(items, env, fuel - 1);
  }

  /** A one-parameter `fn` form. */
  lemma FnForm(p: string, body: seq<Object>, env: Env, fuel: nat)
    requires fuel > 0
    ensures Eval(List([Symbol("fn"), List([Symbol(p)]), List(body)]), env, fuel) == Step(Ok(Lambda([p], body)), env)
  {
    var items := [Symbol("fn"), List([Symbol(p)]), List(body)];
    assert OperatorNamed("fn").None?;
    assert EvalList(items, env, fuel - 1) == Step(EvalFn(items), env);
    assert ParamNames([Symbol(p)]) == Wrappers.Some([p]) by {
      assert [Symbol(p)][1..] == [];
      assert [p] + [] == [p];
    }
  }

  /** A call of a one-parameter function whose argument evaluates without side effects. */
  lemma CallForm(f: string, p: string, body: seq<Object>, arg: Object, v: Object, env: Env, fuel: nat)
    requires fuel > 0 && !IsKeyword(f)
    requires Get(env, f) == Wrappers.Some(Lambda([p], body))
    requires Eval(arg, env, fuel - 1) == Step(Ok(v), env)
    ensures Eval(List([Symbol(f), arg]), env, fuel)
         == Step(Eval(List(body), Set(Extend(env), p, v), fuel - 1).out, env)
  {
    CallDispatch(f, arg, env, fuel);
    CallEvaluated(f, p, body, arg, v, env, fuel - 1);
  }

  /** The same call, once dispatched. */
  lemma CallEvaluated(f: string, p: string, body: seq<Object>, arg: Object, v: Object, env: Env, fuel: nat)
    requires Get(env, f) == Wrappers.Some(Lambda([p], body))
    requires Eval(arg, env, fuel) == Step(Ok(v), env)
    ensures EvalCall(f, [Symbol(f), arg], env, fuel)
         == Step(Eval(List(body), Set(Extend(env), p, v), fuel).out, env)
  {
    CallArgument(f, p, body, arg, v, env, fuel);
    CallOne(f, p, body, [Symbol(f), arg], v, env, fuel);
  }

  /** A two-element form headed by a name that is not a keyword is a call. */
  lemma CallDispatch(f: string, arg: Object, env: Env, fuel: nat)
    requires fuel > 0 && !IsKeyword(f)
    ensures Eval(List([Symbol(f), arg]), env, fuel) == EvalCall(f, [Symbol(f), arg], env, fuel - 1)
  {
    OtherHeadsAreCalls(f, [Symbol(f), arg], env, fuel - 1);
  }

  /** A call of a one-parameter function with one argument, once the argument is evaluated. */
  lemma CallOne(f: string, p: string, body: seq<Object>, items: seq<Object>, v: Object, env: Env, fuel: nat)
    requires |items| == 2 && Get(env, f) == Wrappers.Some(Lambda([p], body))
    requires EvalEach(items[1..|[p]| + 1], env, fuel) == Step(Ok([v]), env)
    ensures EvalCall(f, items, env, fuel) == Step(Eval(List(body), Set(Extend(env), p, v), fuel).out, env)
  {
    CallRunsBody(f, items, env, fuel);
    BindOne(Extend(env), p, v);
  }

  lemma CallArgument(f: string, p: string, body: seq<Object>, arg: Object, v: Object, env: Env, fuel: nat)
    requires Eval(arg, env, fuel) == Step(Ok(v), env)
    ensures EvalEach([Symbol(f), arg][1..|[p]| + 1], env, fuel) == Step(Ok([v]), env)
  {
    assert [Symbol(f), arg][1..|[p]| + 1] == [arg];
    EachOne(arg, v, env, env, fuel);
  }

  lemma BindOne(e: Env, p: string, v: Object)
    ensures BindAll(e, [p], [v]) == Set(e, p, v)
  {
    assert [p][..0] == [] && [v][..0] == [];
  }

  lemma EachOne(x: Object, v: Object, env: Env, after: Env, fuel: nat)
    requires Eval(x, env, fuel) == Step(Ok(v), after)
    ensures EvalEach([x], env, fuel) == Step(Ok([v]), after)
  {
    assert [x][1..] == [];
    assert [x][0] == x;
    assert [v] + [] == [v];
  }

  /** Two top-level forms: the first gives Void, the second a value that is neither Void nor a Lambda. */
  lemma TwoForms(a: Object, b: Object, v: Object, env: Env, mid: Env, fin: Env, fuel: nat)
    requires fuel > 0 && a.List? && v != Void && !v.Lambda?
    requires Eval(a, env, fuel - 1) == Step(Ok(Void), mid)
    requires Eval(b, mid, fuel - 1) == Step(Ok(v), fin)
    ensures Eval(List([a, b]), env, fuel).out == Ok(List([v]))
  {
    EachTwo(a, b, v, env, mid, fin, fuel - 1);
    VoidThenValue([a, b], v, env, fin, fuel - 1);
  }

  lemma VoidThenValue(items: seq<Object>, v: Object, env: Env, fin: Env, fuel: nat)
    requires |items| > 0 && !items[0].Symbol? && v != Void && !v.Lambda?
    requires EvalEach(items, env, fuel) == Step(Ok([Void, v]), fin)
    ensures EvalList(items, env, fuel).out == Ok(List([v]))
  {
    HeadlessList(items, env, fuel);
    DropFirstVoid(v);
  }

  lemma EachTwo(a: Object, b: Object, v: Object, env: Env, mid: Env, fin: Env, fuel: nat)
    requires Eval(a, env, fuel) == Step(Ok(Void), mid)
    requires Eval(b, mid, fuel) == Step(Ok(v), fin)
    ensures EvalEach([a, b], env, fuel) == Step(Ok([Void, v]), fin)
  {
    EachOne(b, v, mid, fin, fuel);
    assert [a, b][1..] == [b];
    assert [Void] + [v] == [Void, v];
  }

  lemma DropFirstVoid(v: Object)
    requires v != Void
    ensures DropVoid([Void, v]) == [v]
  {
    assert [Void, v][1..] == [v];
    assert [v][1..] == [];
  }

  // ---------------------------------------------------------------------------
  // Factorial
  // ---------------------------------------------------------------------------

  function Factorial(n: nat): nat {
    if n == 0 then 1 else n * Factorial(n - 1)
  }

  /** `[if [< n 1] 1 [* n [fact [- n 1]]]]` */
  const FactBody: seq<Object> := [
    Symbol("if"),
    List([Symbol("<"), Symbol("n"), Number(1.0)]),
    Number(1.0),
    List([Symbol("*"), Symbol("n"), List([Symbol("fact"), List([Symbol("-"), Symbol("n"), Number(1.0)])])])]

  /** The frame a call of `fact` runs in. */
  lemma FactFrame(env: Env, n: nat)
    requires Get(env, "fact") == Wrappers.Some(Lambda(["n"], FactBody))
    ensures var c := Set(Extend(env), "n", Number(n as real));
      Get(c, "n") == Wrappers.Some(Number(n as real)) && Get(c, "fact") == Get(env, "fact")
  {
    assert "fact" != "n";
  }

  /** `[fact a]`, for an argument `a` that evaluates to the whole number `n`. */
  lemma {:induction false} FactCall(env: Env, arg: Object, n: nat, fuel: nat)
    requires Get(env, "fact") == Wrappers.Some(Lambda(["n"], FactBody))
    requires fuel >= 3 * n + 5
    requires Eval(arg, env, fuel - 1) == Step(Ok(Number(n as real)), env)
    ensures Eval(List([Symbol("fact"), arg]), env, fuel) == Step(Ok(Number(Factorial(n) as real)), env)
    decreases n, 2
  {
    assert !IsKeyword("fact");
    CallForm("fact", "n", FactBody, arg, Number(n as real), env, fuel);
    var c := Set(Extend(env), "n", Number(n as real));
    FactFrame(env, n);
    FactBodyEval(c, n, fuel - 1);
  }

  /** The body of `fact` in a frame binding `n`. */
  lemma {:induction false} FactBodyEval(c: Env, n: nat, f: nat)
    requires Get(c, "n") == Wrappers.Some(Number(n as real))
    requires Get(c, "fact") == Wrappers.Some(Lambda(["n"], FactBody))
    requires f >= 3 * n + 4
    ensures Eval(List(FactBody), c, f) == Step(Ok(Number(Factorial(n) as real)), c)
    decreases n, 1
  {
    var cond := List([Symbol("<"), Symbol("n"), Number(1.0)]);
    SymbolForm("n", c, f - 2);
    NumberForm(1.0, c, f - 2);
    OperatorForm("<", Lt, Symbol("n"), Number(1.0), n as real, 1.0, c, f - 1);
    assert Apply(Lt, n as real, 1.0) == Ok(Bool(n == 0));
    assert FactBody == [Symbol("if"), cond, FactBody[2], FactBody[3]];
    IfForm(cond, FactBody[2], FactBody[3], n == 0, c, f);
    if n == 0 {
      NumberForm(1.0, c, f - 1);
    } else {
      FactRecursion(c, n, f - 1);
    }
  }

  /** `[* n [fact [- n 1]]]` for a positive `n`. */
  lemma {:induction false} FactRecursion(c: Env, n: nat, f: nat)
    requires Get(c, "n") == Wrappers.Some(Number(n as real))
    requires Get(c, "fact") == Wrappers.Some(Lambda(["n"], FactBody))
    requires n > 0 && f >= 3 * n + 3
    ensures Eval(FactBody[3], c, f) == Step(Ok(Number(Factorial(n) as real)), c)
    decreases n, 0
  {
    var dec := List([Symbol("-"), Symbol("n"), Number(1.0)]);
    var call := List([Symbol("fact"), dec]);
    FactorialStep(n);
    FactInner(c, n - 1, f - 1);
    MulByN(c, n as real, call, Factorial(n - 1) as real, Factorial(n) as real, f);
    FactStepShape();
  }

  /** `[fact [- n 1]]` in a frame binding `n` to `m + 1`. */
  lemma {:induction false} FactInner(c: Env, m: nat, f: nat)
    requires Get(c, "n") == Wrappers.Some(Number((m + 1) as real))
    requires Get(c, "fact") == Wrappers.Some(Lambda(["n"], FactBody))
    requires f >= 3 * m + 5
    ensures Eval(List([Symbol("fact"), List([Symbol("-"), Symbol("n"), Number(1.0)])]), c, f)
         == Step(Ok(Number(Factorial(m) as real)), c)
    decreases m, 3
  {
    var dec := List([Symbol("-"), Symbol("n"), Number(1.0)]);
    Decrement(c, m + 1, 1, f - 1);
    FactCall(c, dec, m, f);
  }

  lemma FactStepShape()
    ensures FactBody[3]
         == List([Symbol("*"), Symbol("n"), List([Symbol("fact"), List([Symbol("-"), Symbol("n"), Number(1.0)])])])
  {
  }

  /** `[* n r]` in a frame binding `n` to `x`, where `r` evaluates to `y` without side effects. */
  lemma MulByN(c: Env, x: real, r: Object, y: real, z: real, f: nat)
    requires f > 0 && Get(c, "n") == Wrappers.Some(Number(x)) && z == x * y
    requires Eval(r, c, f - 1) == Step(Ok(Number(y)), c)
    ensures Eval(List([Symbol("*"), Symbol("n"), r]), c, f) == Step(Ok(Number(z)), c)
  {
    assert Apply(Mul, x, y) == Ok(Number(z));
    SymbolForm("n", c, f - 1);
    OperatorForm("*", Mul, Symbol("n"), r, x, y, c, f);
  }

  lemma FactorialStep(n: nat)
    requires n > 0
    ensures (n as real) * (Factorial(n - 1) as real) == Factorial(n) as real
  {
  }

  /** `[- n k]` in a frame binding `n` to a whole number at least `k`. */
  lemma Decrement(c: Env, n: nat, k: nat, f: nat)
    requires Get(c, "n") == Wrappers.Some(Number(n as real))
    requires f > 0 && n >= k
    ensures Eval(List([Symbol("-"), Symbol("n"), Number(k as real)]), c, f) == Step(Ok(Number((n - k) as real)), c)
  {
    SymbolForm("n", c, f - 1);
    NumberForm(k as real, c, f - 1);
    OperatorForm("-", Sub, Symbol("n"), Number(k as real), n as real, k as real, c, f);
  }

  /** The factorial test: `[[let fact [fn [n] ...]] [fact 5]]` gives `[120]`. */
  lemma FactorialProgram(fuel: nat)
    requires fuel >= 21
    ensures Eval(List([
        List([Symbol("let"), Symbol("fact"), List([Symbol("fn"), List([Symbol("n")]), List(FactBody)])]),
        List([Symbol("fact"), Number(5.0)])]), New(), fuel).out
      == Ok(List([Number(120.0)]))
  {
    var e0 := New();
    var fnForm := List([Symbol("fn"), List([Symbol("n")]), List(FactBody)]);
    FnForm("n", FactBody, e0, fuel - 2);
    LetForm("fact", fnForm, Lambda(["n"], FactBody), e0, fuel - 1);
    var e1 := Set(e0, "fact", Lambda(["n"], FactBody));
    NumberForm(5.0, e1, fuel - 2);
    FactCall(e1, Number(5.0), 5, fuel - 1);
    assert Factorial(5) == 120;
    TwoForms(List([Symbol("let"), Symbol("fact"), fnForm]), List([Symbol("fact"), Number(5.0)]),
             Number(120.0), e0, e1, e1, fuel);
  }

  // ---------------------------------------------------------------------------
  // Fibonacci
  // ---------------------------------------------------------------------------

  /** The sequence the test computes: 1, 1, 2, 3, 5, ... */
  function Fibonacci(n: nat): nat {
    if n < 2 then 1 else Fibonacci(n - 1) + Fibonacci(n - 2)
  }

  /** `[if [< n 2] 1 [+ [fib [- n 1]] [fib [- n 2]]]]` */
  const FibBody: seq<Object> := [
    Symbol("if"),
    List([Symbol("<"), Symbol("n"), Number(2.0)]),
    Number(1.0),
    List([Symbol("+"),
      List([Symbol("fib"), List([Symbol("-"), Symbol("n"), Number(1.0)])]),
      List([Symbol("fib"), List([Symbol("-"), Symbol("n"), Number(2.0)])])])]

  /** The frame a call of `fib` runs in. */
  lemma FibFrame(env: Env, n: nat)
    requires Get(env, "fib") == Wrappers.Some(Lambda(["n"], FibBody))
    ensures var c := Set(Extend(env), "n", Number(n as real));
      Get(c, "n") == Wrappers.Some(Number(n as real)) && Get(c, "fib") == Get(env, "fib")
  {
    assert "fib" != "n";
  }

  /** `[fib a]`, for an argument `a` that evaluates to the whole number `n`. */
  lemma {:induction false} FibCall(env: Env, arg: Object, n: nat, fuel: nat)
    requires Get(env, "fib") == Wrappers.Some(Lambda(["n"], FibBody))
    requires fuel >= 3 * n + 5
    requires Eval(arg, env, fuel - 1) == Step(Ok(Number(n as real)), env)
    ensures Eval(List([Symbol("fib"), arg]), env, fuel) == Step(Ok(Number(Fibonacci(n) as real)), env)
    decreases n, 2
  {
    assert !IsKeyword("fib");
    CallForm("fib", "n", FibBody, arg, Number(n as real), env, fuel);
    var c := Set(Extend(env), "n", Number(n as real));
    FibFrame(env, n);
    FibBodyEval(c, n, fuel - 1);
  }

  /** The body of `fib` in a frame binding `n`. */
  lemma {:induction false} FibBodyEval(c: Env, n: nat, f: nat)
    requires Get(c, "n") == Wrappers.Some(Number(n as real))
    requires Get(c, "fib") == Wrappers.Some(Lambda(["n"], FibBody))
    requires f >= 3 * n + 4
    ensures Eval(List(FibBody), c, f) == Step(Ok(Number(Fibonacci(n) as real)), c)
    decreases n, 1
  {
    var cond := List([Symbol("<"), Symbol("n"), Number(2.0)]);
    SymbolForm("n", c, f - 2);
    NumberForm(2.0, c, f - 2);
    OperatorForm("<", Lt, Symbol("n"), Number(2.0), n as real, 2.0, c, f - 1);
    assert Apply(Lt, n as real, 2.0) == Ok(Bool(n < 2));
    assert FibBody == [Symbol("if"), cond, FibBody[2], FibBody[3]];
    IfForm(cond, FibBody[2], FibBody[3], n < 2, c, f);
    if n < 2 {
      NumberForm(1.0, c, f - 1);
    } else {
      FibRecursion(c, n, f - 1);
    }
  }

  /** `[+ [fib [- n 1]] [fib [- n 2]]]` for `n` at least 2. */
  lemma {:induction false} FibRecursion(c: Env, n: nat, f: nat)
    requires Get(c, "n") == Wrappers.Some(Number(n as real))
    requires Get(c, "fib") == Wrappers.Some(Lambda(["n"], FibBody))
    requires n >= 2 && f >= 3 * n + 3
    ensures Eval(FibBody[3], c, f) == Step(Ok(Number(Fibonacci(n) as real)), c)
    decreases n, 0
  {
    var one := List([Symbol("fib"), List([Symbol("-"), Symbol("n"), Number(1.0)])]);
    var two := List([Symbol("fib"), List([Symbol("-"), Symbol("n"), Number(2.0)])]);
    FibInner(c, n - 1, 1, f - 1);
    FibInner(c, n - 2, 2, f - 1);
    var x := Fibonacci(n - 1) as real;
    var y := Fibonacci(n - 2) as real;
    OperatorForm("+", Add, one, two, x, y, c, f);
    assert Apply(Add, x, y) == Ok(Number(Fibonacci(n) as real));
    assert FibBody[3] == List([Symbol("+"), one, two]);
  }

  /** `[fib [- n k]]` in a frame binding `n` to `m + k`. */
  lemma {:induction false} FibInner(c: Env, m: nat, k: nat, f: nat)
    requires Get(c, "n") == Wrappers.Some(Number((m + k) as real))
    requires Get(c, "fib") == Wrappers.Some(Lambda(["n"], FibBody))
    requires f >= 3 * m + 5
    ensures Eval(List([Symbol("fib"), List([Symbol("-"), Symbol("n"), Number(k as real)])]), c, f)
         == Step(Ok(Number(Fibonacci(m) as real)), c)
    decreases m, 3
  {
    var dec := List([Symbol("-"), Symbol("n"), Number(k as real)]);
    Decrement(c, m + k, k, f - 1);
    FibCall(c, dec, m, f);
  }

  lemma FibonacciTen()
    ensures Fibonacci(10) == 89
  {
    assert Fibonacci(2) == 2 && Fibonacci(3) == 3 && Fibonacci(4) == 5;
    assert Fibonacci(5) == 8 && Fibonacci(6) == 13 && Fibonacci(7) == 21;
    assert Fibonacci(8) == 34 && Fibonacci(9) == 55;
  }

  /** The fibonacci test: `[[let fib [fn [n] ...]] [fib 10]]` gives `[89]`. */
  lemma FibonacciProgram(fuel: nat)
    requires fuel >= 36
    ensures Eval(List([
        List([Symbol("let"), Symbol("fib"), List([Symbol("fn"), List([Symbol("n")]), List(FibBody)])]),
        List([Symbol("fib"), Number(10.0)])]), New(), fuel).out
      == Ok(List([Number(89.0)]))
  {
    var e0 := New();
    var fnForm := List([Symbol("fn"), List([Symbol("n")]), List(FibBody)]);
    FnForm("n", FibBody, e0, fuel - 2);
    LetForm("fib", fnForm, Lambda(["n"], FibBody), e0, fuel - 1);
    var e1 := Set(e0, "fib", Lambda(["n"], FibBody));
    NumberForm(10.0, e1, fuel - 2);
    FibCall(e1, Number(10.0), 10, fuel - 1);
    FibonacciTen();
    TwoForms(List([Symbol("let"), Symbol("fib"), fnForm]), List([Symbol("fib"), Number(10.0)]),
             Number(89.0), e0, e1, e1, fuel);
  }

  // ---------------------------------------------------------------------------
  // Square
  // ---------------------------------------------------------------------------

  /** `[* r r]` in a frame binding `r` to `x`. */
  lemma SquareBody(c: Env, x: real, f: nat)
    requires f > 0 && Get(c, "r") == Wrappers.Some(Number(x))
    ensures Eval(List([Symbol("*"), Symbol("r"), Symbol("r")]), c, f) == Step(Ok(Number(x * x)), c)
  {
    SymbolForm("r", c, f - 1);
    OperatorForm("*", Mul, Symbol("r"), Symbol("r"), x, x, c, f);
  }

  /** `[sqr a]`, for an argument `a` that evaluates to `x`. */
  lemma SquareCall(env: Env, arg: Object, x: real, fuel: nat)
    requires fuel > 1
    requires Get(env, "sqr") == Wrappers.Some(Lambda(["r"], [Symbol("*"), Symbol("r"), Symbol("r")]))
    requires Eval(arg, env, fuel - 1) == Step(Ok(Number(x)), env)
    ensures Eval(List([Symbol("sqr"), arg]), env, fuel) == Step(Ok(Number(x * x)), env)
  {
    assert !IsKeyword("sqr");
    CallForm("sqr", "r", [Symbol("*"), Symbol("r"), Symbol("r")], arg, Number(x), env, fuel);
    SquareBody(Set(Extend(env), "r", Number(x)), x, fuel - 1);
  }

  /** The square test: `[[let sqr [fn [r] [* r r]]] [sqr 10]]` gives `[100]`. */
  lemma SquareProgram(fuel: nat)
    requires fuel >= 4
    ensures Eval(List([
        List([Symbol("let"), Symbol("sqr"), List([Symbol("fn"), List([Symbol("r")]), List([Symbol("*"), Symbol("r"), Symbol("r")])])]),
        List([Symbol("sqr"), Number(10.0)])]), New(), fuel).out
      == Ok(List([Number(100.0)]))
  {
    var body := [Symbol("*"), Symbol("r"), Symbol("r")];
    var e0 := New();
    var fnForm := List([Symbol("fn"), List([Symbol("r")]), List(body)]);
    FnForm("r", body, e0, fuel - 2);
    LetForm("sqr", fnForm, Lambda(["r"], body), e0, fuel - 1);
    var e1 := Set(e0, "sqr", Lambda(["r"], body));
    NumberForm(10.0, e1, fuel - 2);
    SquareCall(e1, Number(10.0), 10.0, fuel - 1);
    TwoForms(List([Symbol("let"), Symbol("sqr"), fnForm]), List([Symbol("sqr"), Number(10.0)]),
             Number(100.0), e0, e1, e1, fuel);
  }

  // ---------------------------------------------------------------------------
  // Area of a circle
  // ---------------------------------------------------------------------------

  /** A form that gives Void, followed by forms that give `vs`. */
  lemma EachVoidThen(x: Object, rest: seq<Object>, vs: seq<Object>, env: Env, mid: Env, fin: Env, fuel: nat)
    requires Eval(x, env, fuel) == Step(Ok(Void), mid)
    requires EvalEach(rest, mid, fuel) == Step(Ok(vs), fin)
    ensures EvalEach([x] + rest, env, fuel) == Step(Ok([Void] + vs), fin)
  {
    assert ([x] + rest)[0] == x;
    assert ([x] + rest)[1..] == rest;
  }

  lemma DropLeadingVoid(vs: seq<Object>)
    ensures DropVoid([Void] + vs) == DropVoid(vs)
  {
    assert ([Void] + vs)[1..] == vs;
  }

  /** Top-level forms whose values, Voids dropped, are one value that is not a Lambda. */
  lemma VoidsThenValue(items: seq<Object>, vs: seq<Object>, v: Object, env: Env, fin: Env, fuel: nat)
    requires fuel > 0 && |items| > 0 && !items[0].Symbol? && !v.Lambda?
    requires EvalEach(items, env, fuel - 1) == Step(Ok(vs), fin)
    requires DropVoid(vs) == [v]
    ensures Eval(List(items), env, fuel).out == Ok(List([v]))
  {
    HeadlessList(items, env, fuel - 1);
    assert [v][0] == v;
    assert EvalList(items, env, fuel - 1) == Step(Ok(List([v])), fin);
  }

  /** The circle test: `[[let r 10] [let pi 3.14] [* pi [* r r]]]` gives `[314]`. */
  lemma CircleArea(fuel: nat)
    requires fuel >= 3
    ensures Eval(List([
        List([Symbol("let"), Symbol("r"), Number(10.0)]),
        List([Symbol("let"), Symbol("pi"), Number(3.14)]),
        List([Symbol("*"), Symbol("pi"), List([Symbol("*"), Symbol("r"), Symbol("r")])])]), New(), fuel).out
      == Ok(List([Number(3.14 * 10.0 * 10.0)]))
  {
    var f := fuel - 1;
    var a := List([Symbol("let"), Symbol("r"), Number(10.0)]);
    var b := List([Symbol("let"), Symbol("pi"), Number(3.14)]);
    var c := List([Symbol("*"), Symbol("pi"), List([Symbol("*"), Symbol("r"), Symbol("r")])]);
    var e0 := New();
    DefineNumber("r", 10.0, e0, f);
    var e1 := Set(e0, "r", Number(10.0));
    DefineNumber("pi", 3.14, e1, f);
    var e2 := Set(e1, "pi", Number(3.14));
    PiTimesSquare(e2, 10.0, f);
    var v := Number(3.14 * 10.0 * 10.0);
    ThreeForms(a, b, c, v, e0, e1, e2, fuel);
  }

  /** `[* pi [* r r]]` where `pi` is 3.14 and `r` is `x`. */
  lemma PiTimesSquare(e: Env, x: real, f: nat)
    requires f > 1
    requires Get(e, "r") == Wrappers.Some(Number(x)) && Get(e, "pi") == Wrappers.Some(Number(3.14))
    ensures Eval(List([Symbol("*"), Symbol("pi"), List([Symbol("*"), Symbol("r"), Symbol("r")])]), e, f)
         == Step(Ok(Number(3.14 * x * x)), e)
  {
    SymbolForm("pi", e, f - 1);
    SquareBody(e, x, f - 1);
    OperatorForm("*", Mul, Symbol("pi"), List([Symbol("*"), Symbol("r"), Symbol("r")]), 3.14, x * x, e, f);
  }

  /** Two definitions that each give Void, then a value that is not a Lambda. */
  lemma ThreeForms(a: Object, b: Object, c: Object, v: Object, e0: Env, e1: Env, e2: Env, fuel: nat)
    requires fuel > 0 && a.List? && v != Void && !v.Lambda?
    requires Eval(a, e0, fuel - 1) == Step(Ok(Void), e1)
    requires Eval(b, e1, fuel - 1) == Step(Ok(Void), e2)
    requires Eval(c, e2, fuel - 1) == Step(Ok(v), e2)
    ensures Eval(List([a, b, c]), e0, fuel).out == Ok(List([v]))
  {
    var f := fuel - 1;
    EachOne(c, v, e2, e2, f);
    EachVoidThen(b, [c], [v], e1, e2, e2, f);
    EachVoidThen(a, [b] + [c], [Void] + [v], e0, e1, e2, f);
    assert [a] + ([b] + [c]) == [a, b, c];
    DropLeadingVoid([Void] + [v]);
    DropLeadingVoid([v]);
    assert [v][1..] == [];
    VoidsThenValue([a, b, c], [Void] + ([Void] + [v]), v, e0, e2, fuel);
  }

  /** `[* pi [sqr r]]`, the body of `area`. */
  const AreaBody: seq<Object> := [Symbol("*"), Symbol("pi"), List([Symbol("sqr"), Symbol("r")])]

  /**
   * `[area a]`, for an argument `a` that evaluates to `x`: the body reads
   * `pi` and `sqr` from the enclosing frames, and `sqr` gets the `r` of the
   * call frame of `area`.
   */
  lemma AreaCall(env: Env, arg: Object, x: real, fuel: nat)
    requires fuel > 3
    requires Get(env, "area") == Wrappers.Some(Lambda(["r"], AreaBody))
    requires Get(env, "sqr") == Wrappers.Some(Lambda(["r"], [Symbol("*"), Symbol("r"), Symbol("r")]))
    requires Get(env, "pi") == Wrappers.Some(Number(3.14))
    requires Eval(arg, env, fuel - 1) == Step(Ok(Number(x)), env)
    ensures Eval(List([Symbol("area"), arg]), env, fuel) == Step(Ok(Number(3.14 * (x * x))), env)
  {
    assert !IsKeyword("area");
    CallForm("area", "r", AreaBody, arg, Number(x), env, fuel);
    AreaBodyEval(Set(Extend(env), "r", Number(x)), x, fuel - 1);
  }

  /** `[* pi [sqr r]]` in a frame binding `r` to `x`, below frames binding `pi` and `sqr`. */
  lemma AreaBodyEval(c: Env, x: real, f: nat)
    requires f > 2
    requires Get(c, "r") == Wrappers.Some(Number(x))
    requires Get(c, "sqr") == Wrappers.Some(Lambda(["r"], [Symbol("*"), Symbol("r"), Symbol("r")]))
    requires Get(c, "pi") == Wrappers.Some(Number(3.14))
    ensures Eval(List(AreaBody), c, f) == Step(Ok(Number(3.14 * (x * x))), c)
  {
    SymbolForm("pi", c, f - 1);
    SymbolForm("r", c, f - 2);
    SquareCall(c, Symbol("r"), x, f - 1);
    OperatorForm("*", Mul, Symbol("pi"), List([Symbol("sqr"), Symbol("r")]), 3.14, x * x, c, f);
  }

  /** The circle test with functions: `area` calls `sqr` on its parameter `r`, which shadows the global `r`. */
  lemma CircleAreaByFunction(fuel: nat)
    requires fuel >= 5
    ensures Eval(List([
        List([Symbol("let"), Symbol("pi"), Number(3.14)]),
        List([Symbol("let"), Symbol("r"), Number(10.0)]),
        List([Symbol("let"), Symbol("sqr"), List([Symbol("fn"), List([Symbol("r")]), List([Symbol("*"), Symbol("r"), Symbol("r")])])]),
        List([Symbol("let"), Symbol("area"), List([Symbol("fn"), List([Symbol("r")]), List(AreaBody)])]),
        List([Symbol("area"), Symbol("r")])]), New(), fuel).out
      == Ok(List([Number(3.14 * 10.0 * 10.0)]))
  {
    var f := fuel - 1;
    var square := [Symbol("*"), Symbol("r"), Symbol("r")];
    var e0 := New();
    DefineNumber("pi", 3.14, e0, f);
    var e1 := Set(e0, "pi", Number(3.14));
    DefineNumber("r", 10.0, e1, f);
    var e2 := Set(e1, "r", Number(10.0));
    DefineFunction("sqr", "r", square, e2, f);
    var e3 := Set(e2, "sqr", Lambda(["r"], square));
    DefineFunction("area", "r", AreaBody, e3, f);
    var e4 := Set(e3, "area", Lambda(["r"], AreaBody));
    CircleGlobals(e0, e4);
    AreaOfTen(e4, f);
    FiveForms(List([Symbol("let"), Symbol("pi"), Number(3.14)]),
              List([Symbol("let"), Symbol("r"), Number(10.0)]),
              List([Symbol("let"), Symbol("sqr"), List([Symbol("fn"), List([Symbol("r")]), List(square)])]),
              List([Symbol("let"), Symbol("area"), List([Symbol("fn"), List([Symbol("r")]), List(AreaBody)])]),
              List([Symbol("area"), Symbol("r")]),
              Number(3.14 * 10.0 * 10.0), e0, e1, e2, e3, e4, fuel);
  }

  /** The bindings the four definitions of the test leave. */
  lemma CircleGlobals(e0: Env, e4: Env)
    requires e4 == Set(Set(Set(Set(e0, "pi", Number(3.14)), "r", Number(10.0)),
                           "sqr", Lambda(["r"], [Symbol("*"), Symbol("r"), Symbol("r")])),
                       "area", Lambda(["r"], AreaBody))
    ensures Get(e4, "area") == Wrappers.Some(Lambda(["r"], AreaBody))
    ensures Get(e4, "sqr") == Wrappers.Some(Lambda(["r"], [Symbol("*"), Symbol("r"), Symbol("r")]))
    ensures Get(e4, "pi") == Wrappers.Some(Number(3.14))
    ensures Get(e4, "r") == Wrappers.Some(Number(10.0))
  {
  }

  /** `[area r]` where the global `r` is 10. */
  lemma AreaOfTen(e: Env, f: nat)
    requires f > 3
    requires Get(e, "area") == Wrappers.Some(Lambda(["r"], AreaBody))
    requires Get(e, "sqr") == Wrappers.Some(Lambda(["r"], [Symbol("*"), Symbol("r"), Symbol("r")]))
    requires Get(e, "pi") == Wrappers.Some(Number(3.14))
    requires Get(e, "r") == Wrappers.Some(Number(10.0))
    ensures Eval(List([Symbol("area"), Symbol("r")]), e, f) == Step(Ok(Number(3.14 * 10.0 * 10.0)), e)
  {
    SymbolForm("r", e, f - 1);
    AreaCall(e, Symbol("r"), 10.0, f);
    assert 3.14 * (10.0 * 10.0) == 3.14 * 10.0 * 10.0;
  }

  /** `[let name x]` for a number `x`. */
  lemma DefineNumber(name: string, x: real, env: Env, f: nat)
    requires f > 1
    ensures Eval(List([Symbol("let"), Symbol(name), Number(x)]), env, f) == Step(Ok(Void), Set(env, name, Number(x)))
  {
    NumberForm(x, env, f - 1);
    LetForm(name, Number(x), Number(x), env, f);
  }

  /** `[let name [fn [p] body]]`. */
  lemma DefineFunction(name: string, p: string, body: seq<Object>, env: Env, f: nat)
    requires f > 1
    ensures Eval(List([Symbol("let"), Symbol(name), List([Symbol("fn"), List([Symbol(p)]), List(body)])]), env, f)
         == Step(Ok(Void), Set(env, name, Lambda([p], body)))
  {
    FnForm(p, body, env, f - 1);
    LetForm(name, List([Symbol("fn"), List([Symbol(p)]), List(body)]), Lambda([p], body), env, f);
  }

  /** Four definitions that each give Void, then a value that is not a Lambda. */
  lemma FiveForms(a: Object, b: Object, c: Object, d: Object, e: Object, v: Object,
                  e0: Env, e1: Env, e2: Env, e3: Env, e4: Env, fuel: nat)
    requires fuel > 0 && a.List? && v != Void && !v.Lambda?
    requires Eval(a, e0, fuel - 1) == Step(Ok(Void), e1)
    requires Eval(b, e1, fuel - 1) == Step(Ok(Void), e2)
    requires Eval(c, e2, fuel - 1) == Step(Ok(Void), e3)
    requires Eval(d, e3, fuel - 1) == Step(Ok(Void), e4)
    requires Eval(e, e4, fuel - 1) == Step(Ok(v), e4)
    ensures Eval(List([a, b, c, d, e]), e0, fuel).out == Ok(List([v]))
  {
    var vs := EachFive(a, b, c, d, e, v, e0, e1, e2, e3, e4, fuel - 1);
    DropFourVoids(v);
    VoidsThenValue([a, b, c, d, e], vs, v, e0, e4, fuel);
  }

  lemma EachFive(a: Object, b: Object, c: Object, d: Object, e: Object, v: Object,
                 e0: Env, e1: Env, e2: Env, e3: Env, e4: Env, f: nat) returns (vs: seq<Object>)
    requires Eval(a, e0, f) == Step(Ok(Void), e1)
    requires Eval(b, e1, f) == Step(Ok(Void), e2)
    requires Eval(c, e2, f) == Step(Ok(Void), e3)
    requires Eval(d, e3, f) == Step(Ok(Void), e4)
    requires Eval(e, e4, f) == Step(Ok(v), e4)
    ensures vs == [Void] + ([Void] + ([Void] + ([Void] + [v])))
    ensures EvalEach([a, b, c, d, e], e0, f) == Step(Ok(vs), e4)
  {
    EachOne(e, v, e4, e4, f);
    EachVoidThen(d, [e], [v], e3, e4, e4, f);
    EachVoidThen(c, [d] + [e], [Void] + [v], e2, e3, e4, f);
    EachVoidThen(b, [c] + ([d] + [e]), [Void] + ([Void] + [v]), e1, e2, e4, f);
    EachVoidThen(a, [b] + ([c] + ([d] + [e])), [Void] + ([Void] + ([Void] + [v])), e0, e1, e4, f);
    assert [a] + ([b] + ([c] + ([d] + [e]))) == [a, b, c, d, e];
    vs := [Void] + ([Void] + ([Void] + ([Void] + [v])));
  }

  lemma DropFourVoids(v: Object)
    requires v != Void
    ensures DropVoid([Void] + ([Void] + ([Void] + ([Void] + [v])))) == [v]
  {
    DropLeadingVoid([Void] + ([Void] + ([Void] + [v])));
    DropLeadingVoid([Void] + ([Void] + [v]));
    DropLeadingVoid([Void] + [v]);
    DropLeadingVoid([v]);
    assert [v][1..] == [];
  }
}
