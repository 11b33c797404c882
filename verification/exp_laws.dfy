/** What the older interpreter's built-ins guarantee. */
module EnvironmentLaws {
  import opened Wrappers
  import opened Expression
  import opened Environment

  /** The values of an all-number argument list. */
  function Values(args: seq<Exp>): (xs: seq<real>)
    requires AllNumbers(args)
  {
    if |args| == 0 then [] else [args[0].n] + Values(args[1..])
  }

  /**
   * `eval_list_of_floats` succeeds exactly when every argument is a Number,
   * and then yields their values in order.
   */
  lemma {:induction false} ListOfFloatsSpec(args: seq<Exp>)
    ensures ListOfFloats(args).Ok? <==> AllNumbers(args)
    ensures ListOfFloats(args).Ok? ==> ListOfFloats(args).value == Values(args)
  {
    if |args| > 0 {
      ListOfFloatsSpec(args[1..]);
      if AllNumbers(args) {
        assert AllNumbers(args[1..]) by {
          forall i | 0 <= i < |args[1..]| ensures args[1..][i].Number? {
            assert args[1..][i] == args[i + 1];
          }
        }
      } else if args[0].Number? {
        assert !AllNumbers(args[1..]) by {
          var i :| 0 <= i < |args| && !args[i].Number?;
          assert args[1..][i - 1] == args[i];
        }
      }
    }
  }

  /** `Values` keeps the arguments' order: its i-th entry is the i-th argument's number. */
  lemma {:induction false} ValuesIndex(args: seq<Exp>)
    requires AllNumbers(args)
    ensures |Values(args)| == |args|
    ensures forall i :: 0 <= i < |args| ==> Values(args)[i] == args[i].n
  {
    if |args| > 0 {
      assert AllNumbers(args[1..]) by {
        forall i | 0 <= i < |args[1..]| ensures args[1..][i].Number? {
          assert args[1..][i] == args[i + 1];
        }
      }
      ValuesIndex(args[1..]);
    }
  }

  /** Any non-Number argument makes every built-in fail before it computes anything. */
  lemma NonNumberFails(b: Builtin, args: seq<Exp>)
    requires !AllNumbers(args)
    ensures Apply(b, args) == Err(Reason("expected a number"))
  {
    ListOfFloatsSpec(args);
  }

  lemma {:induction false} SumConcat(a: seq<real>, b: seq<real>)
    ensures Sum(a + b) == Sum(a) + Sum(b)
    decreases |b|
  {
    if |b| > 0 {
      var c := a + b;
      assert c[..|c| - 1] == a + b[..|b| - 1];
      SumConcat(a, b[..|b| - 1]);
    } else {
      assert a + b == a;
    }
  }

  /** A product is zero exactly when one of its factors is. */
  lemma {:induction false} ProductZero(xs: seq<real>)
    ensures Product(xs) == 0.0 <==> exists i :: 0 <= i < |xs| && xs[i] == 0.0
  {
    if |xs| > 0 {
      var init := xs[..|xs| - 1];
      ProductZero(init);
      if exists i :: 0 <= i < |init| && init[i] == 0.0 {
        var i :| 0 <= i < |init| && init[i] == 0.0;
        assert xs[i] == 0.0;
      }
      if exists i :: 0 <= i < |xs| && xs[i] == 0.0 {
        var i :| 0 <= i < |xs| && xs[i] == 0.0;
        if i < |xs| - 1 {
          assert init[i] == 0.0;
        }
      }
    }
  }

  /** `+` adds up its arguments, giving 0 for none. */
  lemma AddSpec(args: seq<Exp>)
    requires AllNumbers(args)
    ensures Apply(Add, args) == Ok(Number(Sum(Values(args))))
    ensures |args| == 0 ==> Apply(Add, args) == Ok(Number(0.0))
  {
    ListOfFloatsSpec(args);
  }

  /** `*` multiplies its arguments, giving 1 for none. */
  lemma MulSpec(args: seq<Exp>)
    requires AllNumbers(args)
    ensures Apply(Mul, args) == Ok(Number(Product(Values(args))))
    ensures |args| == 0 ==> Apply(Mul, args) == Ok(Number(1.0))
  {
    ListOfFloatsSpec(args);
  }

  /**
   * `-`: no arguments is an error, one argument is negated, and otherwise
   * adding the rest back to the result gives the first argument.
   */
  lemma SubSpec(args: seq<Exp>)
    requires AllNumbers(args)
    ensures |args| == 0 ==> Apply(Sub, args) == Err(Reason("expected at least one number"))
    ensures |args| == 1 ==> Apply(Sub, args) == Ok(Number(-args[0].n))
    ensures |args| >= 2 ==> (Apply(Sub, args).Ok? && Apply(Sub, args).value.Number?
      && Apply(Sub, args).value.n + Sum(Values(args[1..])) == args[0].n)
  {
    ListOfFloatsSpec(args);
    ValuesIndex(args);
    if |args| >= 2 {
      TailValues(args);
    }
  }

  lemma TailValues(args: seq<Exp>)
    requires AllNumbers(args) && |args| > 0
    ensures AllNumbers(args[1..]) && Values(args)[1..] == Values(args[1..])
  {
    assert AllNumbers(args[1..]) by {
      forall i | 0 <= i < |args[1..]| ensures args[1..][i].Number? {
        assert args[1..][i] == args[i + 1];
      }
    }
  }

  /**
   * `/` with no arguments is an error; with one argument it is an error on
   * zero, otherwise the reciprocal.
   */
  lemma DivOneSpec(x: real)
    ensures Apply(Div, []) == Err(Reason("expected at least one number"))
    ensures x == 0.0 ==> Apply(Div, [Number(x)]) == Err(Reason("divide by zero"))
    ensures x != 0.0 ==> (Apply(Div, [Number(x)]).Ok? && Apply(Div, [Number(x)]).value.Number?
      && Apply(Div, [Number(x)]).value.n * x == 1.0)
  {
    var args := [Number(x)];
    assert AllNumbers(args);
    ListOfFloatsSpec(args);
    assert Values(args) == [x];
  }

  /**
   * `/` with two or more arguments fails exactly when one of the divisors
   * is zero; otherwise the result times the product of the divisors is the
   * first argument.
   */
  lemma DivSpec(args: seq<Exp>)
    requires AllNumbers(args) && |args| >= 2
    ensures Apply(Div, args).Err? <==> exists i :: 1 <= i < |args| && args[i].n == 0.0
    ensures Apply(Div, args).Err? ==> Apply(Div, args).error == Reason("divide by zero")
    ensures Apply(Div, args).Ok? ==> (Apply(Div, args).value.Number?
      && Apply(Div, args).value.n * Product(Values(args[1..])) == args[0].n)
  {
    ListOfFloatsSpec(args);
    ValuesIndex(args);
    TailValues(args);
    var rest := Values(args[1..]);
    ValuesIndex(args[1..]);
    ProductZero(rest);
    if exists i :: 1 <= i < |args| && args[i].n == 0.0 {
      var i :| 1 <= i < |args| && args[i].n == 0.0;
      assert rest[i - 1] == 0.0;
    }
    if exists j :: 0 <= j < |rest| && rest[j] == 0.0 {
      var j :| 0 <= j < |rest| && rest[j] == 0.0;
      assert args[j + 1].n == 0.0;
    }
  }
}

/** What the older interpreter's evaluator guarantees. */
module ExpEvaluatorLaws {
  import opened Wrappers
  import opened Expression
  import opened Parser
  import opened Environment
  import opened ExpEvaluator
  import ParserLaws
  import EnvironmentLaws

  /** A Symbol evaluates to a copy of its binding; an unbound one is an error naming it. */
  lemma SymbolLookup(k: string, env: Env)
    ensures EvalExpr(Symbol(k), env).Ok? <==> k in env
    ensures k in env ==> EvalExpr(Symbol(k), env).value == env[k]
    ensures k !in env ==> EvalExpr(Symbol(k), env) == Err(Reason("unexpected symbol k='" + k + "'"))
  {
  }

  /** Numbers evaluate to themselves; empty lists and function values are errors. */
  lemma OtherForms(x: real, f: Builtin, env: Env)
    ensures EvalExpr(Number(x), env) == Ok(Number(x))
    ensures EvalExpr(List([]), env) == Err(Reason("expected a non-empty list"))
    ensures EvalExpr(Func(f), env) == Err(Reason("unexpected form"))
  {
  }

  /**
   * The arguments are evaluated left to right: they all succeed exactly
   * when each does on its own, and then the values line up.
   */
  lemma {:induction false} EvalArgsSpec(xs: seq<Exp>, env: Env)
    ensures EvalArgs(xs, env).Ok? <==> forall i :: 0 <= i < |xs| ==> EvalExpr(xs[i], env).Ok?
    ensures EvalArgs(xs, env).Ok? ==>
      forall i :: 0 <= i < |xs| ==> EvalArgs(xs, env).value[i] == EvalExpr(xs[i], env).value
  {
    if |xs| > 0 {
      EvalArgsSpec(xs[1..], env);
      assert forall i :: 0 < i < |xs| ==> xs[1..][i - 1] == xs[i];
      if EvalExpr(xs[0], env).Ok? && !EvalArgs(xs[1..], env).Ok? {
        var j :| 0 <= j < |xs[1..]| && !EvalExpr(xs[1..][j], env).Ok?;
        assert xs[1..][j] == xs[j + 1];
      }
    }
  }

  /** A failure of the arguments is the failure of the first argument that fails. */
  lemma {:induction false} EvalArgsFirstError(xs: seq<Exp>, env: Env) returns (k: nat)
    requires EvalArgs(xs, env).Err?
    ensures k < |xs| && EvalExpr(xs[k], env) == Err(EvalArgs(xs, env).error)
    ensures forall j :: 0 <= j < k ==> EvalExpr(xs[j], env).Ok?
  {
    if EvalExpr(xs[0], env).Err? {
      k := 0;
    } else {
      var k' := EvalArgsFirstError(xs[1..], env);
      k := k' + 1;
      assert xs[k] == xs[1..][k'];
      forall j | 0 <= j < k ensures EvalExpr(xs[j], env).Ok? {
        if j > 0 {
          assert xs[j] == xs[1..][j - 1];
        }
      }
    }
  }

  /**
   * The head is evaluated before any argument: when it fails, or gives
   * something other than a function, the arguments make no difference.
   */
  lemma HeadFirst(head: Exp, args1: seq<Exp>, args2: seq<Exp>, env: Env)
    requires EvalExpr(head, env).Err? || !EvalExpr(head, env).value.Func?
    ensures EvalExpr(List([head] + args1), env) == EvalExpr(List([head] + args2), env)
    ensures EvalExpr(head, env).Ok? ==>
      EvalExpr(List([head] + args1), env) == Err(Reason("first form must be a function"))
  {
    assert ([head] + args1)[0] == head && ([head] + args2)[0] == head;
  }

  /** Once the head gives a function and the arguments evaluate, the function is applied to their values. */
  lemma CallApplies(head: Exp, args: seq<Exp>, env: Env, f: Builtin)
    requires EvalExpr(head, env) == Ok(Func(f)) && EvalArgs(args, env).Ok?
    ensures EvalExpr(List([head] + args), env) == Apply(f, EvalArgs(args, env).value)
  {
    assert ([head] + args)[0] == head && ([head] + args)[1..] == args;
  }

  /** Number arguments evaluate to themselves. */
  lemma {:induction false} NumbersEvaluate(args: seq<Exp>, env: Env)
    requires AllNumbers(args)
    ensures EvalArgs(args, env) == Ok(args)
  {
    if |args| > 0 {
      EnvironmentLaws.TailValues(args);
      NumbersEvaluate(args[1..], env);
      assert [args[0]] + args[1..] == args;
    }
  }

  /** In the default environment, a call of a built-in's name on numbers is that built-in applied to them. */
  lemma BuiltinCall(b: Builtin, args: seq<Exp>)
    requires AllNumbers(args)
    ensures EvalExpr(List([Symbol(BuiltinName(b))] + args), DefaultEnv()) == Apply(b, args)
  {
    NumbersEvaluate(args, DefaultEnv());
    CallApplies(Symbol(BuiltinName(b)), args, DefaultEnv(), b);
  }

  /** `[+ 1 2]` evaluates to 3. */
  lemma AddExample()
    ensures EvalExpr(List([Symbol("+"), Number(1.0), Number(2.0)]), DefaultEnv()) == Ok(Number(3.0))
  {
    var args := [Number(1.0), Number(2.0)];
    assert AllNumbers(args);
    BuiltinCall(Add, args);
    EnvironmentLaws.AddSpec(args);
    assert EnvironmentLaws.Values(args) == [1.0, 2.0];
    assert [Symbol("+")] + args == [Symbol("+"), Number(1.0), Number(2.0)];
  }

  /** Only the first expression of the source is evaluated: whatever text follows it is never read. */
  lemma EvalFirstOnly(a: string, b: string, env: Env)
    requires Parse(Tokenize(a)).Ok?
    ensures Eval(a + " " + b, env) == Eval(a, env)
  {
    ParserLaws.TokenizeAtSpace(a, b);
    ParserLaws.ParseExtends(Tokenize(a), Tokenize(b));
  }
}
