/**
 * Properties of the newer evaluator: what each form evaluates, in which
 * order, what it does to the environment, and when it fails.
 */
module EvalLaws {
  import Wrappers
  import opened Numbers
  import opened Values
  import opened Frames
  import opened Evaluator

  /** The head symbols `eval_list` handles itself rather than as calls. */
  predicate IsKeyword(s: string) {
    !HeadNamed(s).Call?
  }

  /** Each builtin form is recognised by its own keyword, which is not an operator. */
  lemma KeywordNamesForm(f: Form)
    ensures FormNamed(Keyword(f)) == Wrappers.Some(f)
    ensures HeadNamed(Keyword(f)) == Builtin(f)
  {
    match f
    case KwLet =>
    case KwIf =>
    case KwFn =>
    case KwSet =>
    case KwInput =>
    case KwPrint =>
    case KwWhile =>
    case KwRand =>
    case KwRound =>
    case KwList =>
    case KwFirst =>
    case KwRest =>
    case KwLen =>
  }

  /** Only the keyword of a form is recognised as that form. */
  lemma FormNamedIsKeyword(s: string)
    ensures FormNamed(s).Some? ==> s == Keyword(FormNamed(s).value)
  {
  }

  // ---------------------------------------------------------------------------
  // Atoms (eval_obj, eval_symbol)
  // ---------------------------------------------------------------------------

  /**
   * Void, Number, Bool, String and ListData evaluate to themselves, a Lambda
   * value to Void, and a Symbol to its binding; none of them touches the
   * environment or needs fuel.
   */
  lemma EvalAtom(obj: Object, env: Env, fuel: nat)
    requires !obj.List?
    ensures Eval(obj, env, fuel).env == env
    ensures obj.Void? || obj.Number? || obj.Bool? || obj.String? || obj.ListData? ==> Eval(obj, env, fuel).out == Ok(obj)
    ensures obj.Lambda? ==> Eval(obj, env, fuel).out == Ok(Void)
    ensures obj.Symbol? && Get(env, obj.name).Some? ==> Eval(obj, env, fuel).out == Ok(Get(env, obj.name).value)
    ensures obj.Symbol? && Get(env, obj.name).None? ==> Eval(obj, env, fuel).out == Err(Unbound(obj.name))
  {
  }

  /** An empty list form is an index panic (`list[0]`). */
  lemma EmptyFormPanics(env: Env, fuel: nat)
    requires fuel > 0
    ensures Eval(List([]), env, fuel) == Step(Panic, env)
  {
  }

  // ---------------------------------------------------------------------------
  // Dispatch
  // ---------------------------------------------------------------------------

  /** A head symbol that is neither an operator nor a builtin names a function. */
  lemma OtherHeadsAreCalls(s: string, items: seq<Object>, env: Env, fuel: nat)
    requires |items| > 0 && items[0] == Symbol(s) && !IsKeyword(s)
    ensures EvalList(items, env, fuel) == EvalCall(s, items, env, fuel)
  {
  }

  /**
   * `%` is not among the operators `eval_list` dispatches, so the `%` arm of
   * `eval_binary_op` is never reached: `[% a b]` is a call of a function
   * named `%`, an unbound symbol unless the program binds it.
   */
  lemma PercentIsACall(a: Object, b: Object, env: Env, fuel: nat)
    requires Get(env, "%").None?
    ensures EvalList([Symbol("%"), a, b], env, fuel) == Step(Err(Unbound("%")), env)
  {
    assert OperatorNamed("%").None? && FormNamed("%").None?;
    OtherHeadsAreCalls("%", [Symbol("%"), a, b], env, fuel);
  }

  // ---------------------------------------------------------------------------
  // Binary operators
  // ---------------------------------------------------------------------------

  /**
   * An operator form needs exactly three elements, checked before anything
   * is evaluated; the left operand is evaluated, then the right one, and
   * only then is either checked to be a Number.
   */
  lemma BinaryOrder(op: BinOp, items: seq<Object>, env: Env, fuel: nat)
    ensures |items| != 3 ==> EvalBinary(op, items, env, fuel) == Step(Err(OperatorArgumentCount), env)
    ensures |items| == 3 && !Eval(items[1], env, fuel).out.Ok? ==> EvalBinary(op, items, env, fuel) == Eval(items[1], env, fuel)
    ensures |items| == 3 && Eval(items[1], env, fuel).out.Ok? ==>
      var left := Eval(items[1], env, fuel);
      var right := Eval(items[2], left.env, fuel);
      var r := EvalBinary(op, items, env, fuel);
      r.env == right.env &&
      (!right.out.Ok? ==> r == right) &&
      (right.out.Ok? && !left.out.value.Number? ==> r.out == Err(LeftNotNumber)) &&
      (right.out.Ok? && left.out.value.Number? && !right.out.value.Number? ==> r.out == Err(RightNotNumber)) &&
      (right.out.Ok? && left.out.value.Number? && right.out.value.Number? ==> r.out == Apply(op, left.out.value.n, right.out.value.n))
  {
  }

  /** The comparison operators come in complementary and mirrored pairs. */
  lemma ComparisonDuality(a: real, b: real)
    ensures Apply(Lt, a, b).value.b == !Apply(Ge, a, b).value.b
    ensures Apply(Le, a, b).value.b == !Apply(Gt, a, b).value.b
    ensures Apply(Eq, a, b).value.b == !Apply(Ne, a, b).value.b
    ensures Apply(Lt, a, b) == Apply(Gt, b, a) && Apply(Le, a, b) == Apply(Ge, b, a)
  {
  }

  /** Subtraction undoes addition, and division multiplication by a nonzero number. */
  lemma ArithmeticInverses(a: real, b: real)
    ensures Apply(Sub, Apply(Add, a, b).value.n, b) == Ok(Number(a))
    ensures b != 0.0 ==> Apply(Div, Apply(Mul, a, b).value.n, b) == Ok(Number(a))
  {
    if b != 0.0 {
      assert (a * b) / b == a;
    }
  }

  // ---------------------------------------------------------------------------
  // if, let, set
  // ---------------------------------------------------------------------------

  /**
   * `if` needs exactly four elements and a Bool condition, and then
   * evaluates exactly one branch, in the environment the condition left.
   */
  lemma IfOneBranch(items: seq<Object>, env: Env, fuel: nat)
    ensures |items| != 4 ==> EvalIf(items, env, fuel) == Step(Err(ArgumentCount(KwIf)), env)
    ensures |items| == 4 ==>
      var c := Eval(items[1], env, fuel);
      var r := EvalIf(items, env, fuel);
      (!c.out.Ok? ==> r == c) &&
      (c.out.Ok? && !c.out.value.Bool? ==> r == Step(Err(IfCondition), c.env)) &&
      (c.out == Ok(Bool(true)) ==> r == Eval(items[2], c.env, fuel)) &&
      (c.out == Ok(Bool(false)) ==> r == Eval(items[3], c.env, fuel))
  {
  }

  /**
   * `let` rejects a non-Symbol target before evaluating anything, so the
   * environment is untouched; `set` evaluates its value first, so the value's
   * effects stay even when the target is then rejected.
   */
  lemma TargetChecks(target: Object, value: Object, env: Env, fuel: nat)
    requires !target.Symbol?
    ensures EvalLet([Symbol("let"), target, value], env, fuel) == Step(Err(LetTarget), env)
    ensures var v := Eval(value, env, fuel);
      EvalSet([Symbol("set"), target, value], env, fuel)
        == if v.out.Ok? then Step(Err(SetTarget), v.env) else v
  {
  }

  /**
   * With a Symbol target, `let` and `set` bind the value through the same
   * assignment and leave the same environment; `let` gives Void, `set` the
   * value itself.
   */
  lemma LetAndSetAgree(name: string, value: Object, env: Env, fuel: nat)
    requires Eval(value, env, fuel).out.Ok?
    ensures var v := Eval(value, env, fuel);
      var l := EvalLet([Symbol("let"), Symbol(name), value], env, fuel);
      var s := EvalSet([Symbol("set"), Symbol(name), value], env, fuel);
      l.env == s.env && l.out == Ok(Void) && s.out == Ok(v.out.value) &&
      Get(l.env, name) == Wrappers.Some(v.out.value) &&
      forall other :: other != name ==> Get(l.env, other) == Get(v.env, other)
  {
  }

  // ---------------------------------------------------------------------------
  // Lists whose head is not a symbol
  // ---------------------------------------------------------------------------

  /**
   * Every element is evaluated in order; the Void results are dropped; the
   * survivors form the result unless the first of them is a Lambda, in which
   * case that list is evaluated once more.
   */
  lemma HeadlessList(items: seq<Object>, env: Env, fuel: nat)
    requires |items| > 0 && !items[0].Symbol?
    ensures var each := EvalEach(items, env, fuel);
      var r := EvalList(items, env, fuel);
      (!each.out.Ok? ==> r == Step(Reraise(each.out), each.env)) &&
      (each.out.Ok? ==>
        var s := DropVoid(each.out.value);
        (|s| > 0 && s[0].Lambda? ==> r == Eval(List(s), each.env, fuel)) &&
        (!(|s| > 0 && s[0].Lambda?) ==> r == Step(Ok(List(s)), each.env)))
  {
  }

  /** Dropping Voids distributes over concatenation. */
  lemma {:induction false} DropVoidConcat(a: seq<Object>, b: seq<Object>)
    ensures DropVoid(a + b) == DropVoid(a) + DropVoid(b)
    decreases |a|
  {
    if |a| == 0 {
      assert a + b == b;
    } else {
      assert (a + b)[1..] == a[1..] + b;
      DropVoidConcat(a[1..], b);
    }
  }

  /** A sequence without Voids is its own survivor list; in particular dropping twice is dropping once. */
  lemma {:induction false} DropVoidKeeps(xs: seq<Object>)
    requires Void !in xs
    ensures DropVoid(xs) == xs
    decreases |xs|
  {
    if |xs| > 0 {
      assert xs[0] != Void;
      DropVoidKeeps(xs[1..]);
    }
  }

  lemma DropVoidIdempotent(xs: seq<Object>)
    ensures DropVoid(DropVoid(xs)) == DropVoid(xs)
  {
    var r := DropVoid(xs);
    assert Void !in r by {
      forall i | 0 <= i < |r| ensures r[i] != Void {
      }
    }
    DropVoidKeeps(r);
  }

  // ---------------------------------------------------------------------------
  // Function calls
  // ---------------------------------------------------------------------------

  /** A call fails on an unbound name and on a name bound to anything but a Lambda. */
  lemma CallNeedsLambda(s: string, items: seq<Object>, env: Env, fuel: nat)
    requires |items| > 0
    ensures Get(env, s).None? ==> EvalCall(s, items, env, fuel) == Step(Err(Unbound(s)), env)
    ensures Get(env, s).Some? && !Get(env, s).value.Lambda? ==>
      EvalCall(s, items, env, fuel) == Step(Err(NotALambda(s)), env)
  {
  }

  /**
   * A call with enough arguments evaluates one argument per parameter in the
   * caller's environment, runs the body in a new innermost frame binding
   * them in order, and leaves the caller's environment as the arguments
   * left it: the callee's frame and whatever it assigned are gone.
   */
  lemma CallRunsBody(s: string, items: seq<Object>, env: Env, fuel: nat)
    requires |items| > 0 && Get(env, s).Some? && Get(env, s).value.Lambda?
    requires |items| - 1 >= |Get(env, s).value.params|
    ensures var f := Get(env, s).value;
      var args := EvalEach(items[1..|f.params| + 1], env, fuel);
      var r := EvalCall(s, items, env, fuel);
      (!args.out.Ok? ==> r == Step(Reraise(args.out), args.env)) &&
      (args.out.Ok? ==>
        r.out == Eval(List(f.body), BindAll(Extend(args.env), f.params, args.out.value), fuel).out &&
        r.env == args.env)
  {
    var f := Get(env, s).value;
    var args := EvalEach(items[1..|f.params| + 1], env, fuel);
    if args.out.Ok? {
      var callee := BindAll(Extend(args.env), f.params, args.out.value);
      PopSameOuter(args.env, Eval(List(f.body), callee, fuel).env);
    }
  }

  /** Arguments beyond the parameters are never evaluated. */
  lemma ExtraArgumentsIgnored(s: string, items: seq<Object>, extra: seq<Object>, env: Env, fuel: nat)
    requires |items| > 0 && Get(env, s).Some? && Get(env, s).value.Lambda?
    requires |items| - 1 >= |Get(env, s).value.params|
    ensures EvalCall(s, items + extra, env, fuel) == EvalCall(s, items, env, fuel)
  {
    var n := |Get(env, s).value.params|;
    assert (items + extra)[1..n + 1] == items[1..n + 1];
  }

  /** Too few arguments is an index panic, once the ones present are evaluated. */
  lemma TooFewArgumentsPanic(s: string, items: seq<Object>, env: Env, fuel: nat)
    requires |items| > 0 && Get(env, s).Some? && Get(env, s).value.Lambda?
    requires |items| - 1 < |Get(env, s).value.params|
    requires EvalEach(items[1..], env, fuel).out.Ok?
    ensures EvalCall(s, items, env, fuel) == Step(Panic, EvalEach(items[1..], env, fuel).env)
  {
    assert items[1..|items|] == items[1..];
  }

  // ---------------------------------------------------------------------------
  // while
  // ---------------------------------------------------------------------------

  /**
   * `while` needs a condition and at least one body form. A condition that
   * is false at once gives Void; a non-Bool condition is an error.
   */
  lemma WhileStart(items: seq<Object>, env: Env, fuel: nat)
    ensures |items| < 3 ==> EvalWhile(items, env, fuel) == Step(Err(ArgumentCount(KwWhile)), env)
    ensures |items| >= 3 && fuel > 0 ==>
      var c := Eval(items[1], env, fuel);
      var r := EvalWhile(items, env, fuel);
      (c.out == Ok(Bool(false)) ==> r == Step(Ok(Void), c.env)) &&
      (c.out.Ok? && !c.out.value.Bool? ==> r == Step(Err(WhileCondition), c.env))
  {
  }

  /**
   * One round of the loop: when the condition holds and the body succeeds,
   * the loop continues from the body's environment remembering the value of
   * the body's last form, which is what the loop gives once the condition
   * fails.
   */
  lemma WhileRound(cond: Object, body: seq<Object>, last: Object, env: Env, fuel: nat)
    requires fuel > 0 && |body| > 0
    requires Eval(cond, env, fuel).out == Ok(Bool(true))
    ensures var c := Eval(cond, env, fuel);
      var b := EvalLast(body, last, c.env, fuel);
      WhileLoop(cond, body, last, env, fuel)
        == if b.out.Ok? then WhileLoop(cond, body, b.out.value, b.env, fuel - 1) else b
  {
  }

  /** The value of a round is the value of its last form. */
  lemma {:induction false} EvalLastIsLast(xs: seq<Object>, last: Object, env: Env, fuel: nat)
    requires |xs| > 0
    requires EvalLast(xs, last, env, fuel).out.Ok?
    ensures EvalLast(xs, last, env, fuel).out
         == Eval(xs[|xs| - 1], EvalLast(xs[..|xs| - 1], last, env, fuel).env, fuel).out
    decreases |xs|
  {
    var first := Eval(xs[0], env, fuel);
    if |xs| == 1 {
      assert xs[..0] == [];
    } else {
      assert xs[1..][..|xs| - 2] == xs[1..|xs| - 1];
      EvalLastIsLast(xs[1..], first.out.value, first.env, fuel);
      assert xs[..|xs| - 1][1..] == xs[1..|xs| - 1];
      assert xs[..|xs| - 1][0] == xs[0];
    }
  }

  // ---------------------------------------------------------------------------
  // list, first, rest, len
  // ---------------------------------------------------------------------------

  /** `list` gives the evaluated arguments in order, so `len` of it counts the argument forms. */
  lemma ListThenLen(args: seq<Object>, env: Env, fuel: nat)
    requires EvalEach(args, env, fuel).out.Ok?
    ensures var each := EvalEach(args, env, fuel);
      EvalList([Symbol("list")] + args, env, fuel) == Step(Ok(ListData(each.out.value)), each.env)
    ensures var each := EvalEach(args, env, fuel);
      EvalLen([Symbol("len"), List([Symbol("list")] + args)], env, fuel + 1)
        == Step(Ok(Number(|args| as real)), each.env)
  {
    var form := [Symbol("list")] + args;
    assert form[1..] == args;
    assert form[0] == Symbol("list");
    assert OperatorNamed("list").None?;
    assert EvalList(form, env, fuel) == EvalListData(form, env, fuel);
    assert Eval(List(form), env, fuel + 1) == EvalList(form, env, fuel);
  }

  /**
   * On a non-empty list value, `first` gives its head and `rest` the others,
   * one fewer, and the two put back together give the list.
   */
  lemma FirstAndRest(d: seq<Object>, env: Env, fuel: nat)
    requires |d| > 0
    ensures EvalFirst([Symbol("first"), ListData(d)], env, fuel) == Step(Ok(d[0]), env)
    ensures var r := EvalRest([Symbol("rest"), ListData(d)], env, fuel);
      r == Step(Ok(ListData(d[1..])), env) && |r.out.value.elems| == |d| - 1 &&
      [d[0]] + r.out.value.elems == d
  {
  }

  /** On the empty list value, `first` and `rest` panic and `len` is 0. */
  lemma EmptyListData(env: Env, fuel: nat)
    ensures EvalFirst([Symbol("first"), ListData([])], env, fuel) == Step(Panic, env)
    ensures EvalRest([Symbol("rest"), ListData([])], env, fuel) == Step(Panic, env)
    ensures EvalLen([Symbol("len"), ListData([])], env, fuel) == Step(Ok(Number(0.0)), env)
  {
  }

  /**
   * A value that is not a list, and equally an error while evaluating the
   * argument, makes `first`, `rest` and `len` fail with their fixed message.
   */
  lemma DataBuiltinsNeedList(x: Object, env: Env, fuel: nat)
    requires var a := Eval(x, env, fuel); (a.out.Ok? && !a.out.value.ListData?) || a.out.Err?
    ensures var a := Eval(x, env, fuel);
      EvalFirst([Symbol("first"), x], env, fuel) == Step(Err(FirstNotList), a.env) &&
      EvalRest([Symbol("rest"), x], env, fuel) == Step(Err(RestNotList), a.env) &&
      EvalLen([Symbol("len"), x], env, fuel) == Step(Err(RestNotList), a.env)
  {
  }

  /** `round` rounds a Number half away from zero; anything else is an error naming `set`. */
  lemma RoundArgument(x: Object, env: Env, fuel: nat)
    ensures var a := Eval(x, env, fuel);
      var r := EvalRound([Symbol("round"), x], env, fuel);
      r.env == a.env &&
      (a.out.Ok? && a.out.value.Number? ==>
         r.out == Ok(Number(Round(a.out.value.n))) && Abs(r.out.value.n - a.out.value.n) <= 0.5) &&
      ((a.out.Ok? && !a.out.value.Number?) || a.out.Err? ==> r.out == Err(RoundNotNumber))
  {
  }

  // ---------------------------------------------------------------------------
  // print, input, rand
  // ---------------------------------------------------------------------------

  /**
   * `print` gives the number of its argument forms: the same value and the
   * same environment as `len` of a `list` of those forms.
   */
  lemma PrintCountsLikeLen(args: seq<Object>, env: Env, fuel: nat)
    requires EvalEach(args, env, fuel).out.Ok?
    ensures EvalList([Symbol("print")] + args, env, fuel)
         == EvalLen([Symbol("len"), List([Symbol("list")] + args)], env, fuel + 1)
  {
    var form := [Symbol("print")] + args;
    assert form[1..] == args;
    assert form[0] == Symbol("print");
    assert OperatorNamed("print").None?;
    assert EvalList(form, env, fuel) == EvalPrint(form, env, fuel);
    ListThenLen(args, env, fuel);
  }

  /**
   * `rand` reaches the random draw exactly when both bounds evaluate to
   * Numbers; any other pair of values is an error.
   */
  lemma RandChecks(lo: Object, hi: Object, env: Env, fuel: nat)
    requires Eval(lo, env, fuel).out.Ok?
    requires Eval(hi, Eval(lo, env, fuel).env, fuel).out.Ok?
    ensures var a := Eval(lo, env, fuel);
      var b := Eval(hi, a.env, fuel);
      var r := EvalRand([Symbol("rand"), lo, hi], env, fuel);
      r.env == b.env &&
      (r.out == Unmodelled(RandomDraw) <==> a.out.value.Number? && b.out.value.Number?) &&
      (r.out != Unmodelled(RandomDraw) ==> r.out == Err(RandArguments))
  {
  }

  /**
   * `input` takes at most one argument, the prompt. It reaches the read once
   * the prompt (if any) has evaluated, and a prompt that fails is the
   * outcome of the whole form.
   */
  lemma InputChecks(items: seq<Object>, env: Env, fuel: nat)
    ensures |items| > 2 ==> EvalInput(items, env, fuel) == Step(Err(ArgumentCount(KwInput)), env)
    ensures |items| < 2 ==> EvalInput(items, env, fuel) == Step(Unmodelled(ReadLine), env)
    ensures |items| == 2 ==>
      var p := Eval(items[1], env, fuel);
      EvalInput(items, env, fuel) == if p.out.Ok? then Step(Unmodelled(ReadLine), p.env) else p
  {
  }

  // ---------------------------------------------------------------------------
  // The environment
  // ---------------------------------------------------------------------------

  /**
   * Evaluation only ever writes the innermost frame: whatever a form does,
   * the frames of enclosing calls are as they were.
   */
  lemma EvalKeepsOuterFrames(obj: Object, env: Env, fuel: nat)
    ensures var r := Eval(obj, env, fuel);
      |r.env| == |env| && forall k :: 0 <= k < |env| - 1 ==> r.env[k] == env[k]
  {
    var r := Eval(obj, env, fuel);
    assert r.env[..|env| - 1] == env[..|env| - 1];
    forall k | 0 <= k < |env| - 1 ensures r.env[k] == env[k] {
      assert r.env[..|env| - 1][k] == r.env[k];
    }
  }
}
