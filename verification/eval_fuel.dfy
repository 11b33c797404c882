/**
 * Fuel and the evaluator's sequences of forms. Fuel is only a bound on the
 * work: once an evaluation finishes without running out, any larger bound
 * gives the same outcome and the same environment, so a result proved at one
 * fuel is the result of the unbounded run. And evaluating a sequence of
 * forms is evaluating each one in turn, in the environment the earlier ones
 * left.
 */
module EvalFuel {
  import opened Values
  import opened Frames
  import opened Evaluator

  // ---------------------------------------------------------------------------
  // Fuel monotonicity, one lemma per function of the evaluator, by the same
  // measure the functions decrease
  // ---------------------------------------------------------------------------

  /** An evaluation that finishes does so the same way with more fuel. */
  lemma {:induction false} EvalMono(x: Object, env: Env, f: nat, g: nat)
    requires f <= g && !Eval(x, env, f).out.OutOfFuel?
    ensures Eval(x, env, g) == Eval(x, env, f)
    decreases f, 0, 0
  {
    if x.List? {
      EvalListMono(x.items, env, f - 1, g - 1);
    }
  }

  lemma {:induction false} EvalEachMono(xs: seq<Object>, env: Env, f: nat, g: nat)
    requires f <= g && !EvalEach(xs, env, f).out.OutOfFuel?
    ensures EvalEach(xs, env, g) == EvalEach(xs, env, f)
    decreases f, 1, |xs|
  {
    if |xs| > 0 {
      var first := Eval(xs[0], env, f);
      EvalMono(xs[0], env, f, g);
      if first.out.Ok? {
        EvalEachMono(xs[1..], first.env, f, g);
      }
    }
  }

  lemma {:induction false} EvalLastMono(xs: seq<Object>, last: Object, env: Env, f: nat, g: nat)
    requires f <= g && !EvalLast(xs, last, env, f).out.OutOfFuel?
    ensures EvalLast(xs, last, env, g) == EvalLast(xs, last, env, f)
    decreases f, 1, |xs|
  {
    if |xs| > 0 {
      var first := Eval(xs[0], env, f);
      EvalMono(xs[0], env, f, g);
      if first.out.Ok? {
        EvalLastMono(xs[1..], first.out.value, first.env, f, g);
      }
    }
  }

  lemma {:induction false} WhileLoopMono(cond: Object, body: seq<Object>, last: Object, env: Env, f: nat, g: nat)
    requires f <= g && !WhileLoop(cond, body, last, env, f).out.OutOfFuel?
    ensures WhileLoop(cond, body, last, env, g) == WhileLoop(cond, body, last, env, f)
    decreases f, 2, 0
  {
    var c := Eval(cond, env, f);
    EvalMono(cond, env, f, g);
    if c.out.Ok? && c.out.value.Bool? && c.out.value.b {
      WhileRoundMono(cond, body, last, c.env, f, g);
    }
  }

  /** The body and the next round, once the condition held. */
  lemma {:induction false} WhileRoundMono(cond: Object, body: seq<Object>, last: Object, env: Env, f: nat, g: nat)
    requires 0 < f <= g
    requires var b := EvalLast(body, last, env, f);
             !b.out.OutOfFuel? && (b.out.Ok? ==> !WhileLoop(cond, body, b.out.value, b.env, f - 1).out.OutOfFuel?)
    ensures var b := EvalLast(body, last, env, f);
            EvalLast(body, last, env, g) == b
            && (b.out.Ok? ==> WhileLoop(cond, body, b.out.value, b.env, g - 1) == WhileLoop(cond, body, b.out.value, b.env, f - 1))
    decreases f, 1, |body| + 1
  {
    var b := EvalLast(body, last, env, f);
    EvalLastMono(body, last, env, f, g);
    if b.out.Ok? {
      WhileLoopMono(cond, body, b.out.value, b.env, f - 1, g - 1);
    }
  }

  lemma {:induction false} EvalListMono(items: seq<Object>, env: Env, f: nat, g: nat)
    requires f <= g && !EvalList(items, env, f).out.OutOfFuel?
    ensures EvalList(items, env, g) == EvalList(items, env, f)
    decreases f, 5, 0
  {
    if |items| > 0 {
      match items[0]
      case Symbol(s) => EvalNamedMono(s, items, env, f, g);
      case _ => EvalHeadlessMono(items, env, f, g);
    }
  }

  lemma {:induction false} EvalNamedMono(s: string, items: seq<Object>, env: Env, f: nat, g: nat)
    requires |items| > 0
    requires f <= g && !EvalNamed(s, items, env, f).out.OutOfFuel?
    ensures EvalNamed(s, items, env, g) == EvalNamed(s, items, env, f)
    decreases f, 4, 0
  {
    match HeadNamed(s)
    case Operator(op) => BinaryMono(op, items, env, f, g);
    case Call => CallMono(s, items, env, f, g);
    case Builtin(KwLet) => LetMono(items, env, f, g);
    case Builtin(KwIf) => IfMono(items, env, f, g);
    case Builtin(KwFn) =>
    case Builtin(KwSet) => SetMono(items, env, f, g);
    case Builtin(KwInput) => InputMono(items, env, f, g);
    case Builtin(KwPrint) => PrintMono(items, env, f, g);
    case Builtin(KwWhile) =>
      if |items| >= 3 {
        WhileLoopMono(items[1], items[2..], Void, env, f, g);
      }
    case Builtin(KwRand) => RandMono(items, env, f, g);
    case Builtin(KwRound) => OneArgumentMono(items, env, f, g);
    case Builtin(KwList) => ListDataMono(items, env, f, g);
    case Builtin(KwFirst) => OneArgumentMono(items, env, f, g);
    case Builtin(KwRest) => OneArgumentMono(items, env, f, g);
    case Builtin(KwLen) => OneArgumentMono(items, env, f, g);
  }

  lemma {:induction false} EvalHeadlessMono(items: seq<Object>, env: Env, f: nat, g: nat)
    requires f <= g && !EvalHeadless(items, env, f).out.OutOfFuel?
    ensures EvalHeadless(items, env, g) == EvalHeadless(items, env, f)
    decreases f, 3, 0
  {
    var each := EvalEach(items, env, f);
    EvalEachMono(items, env, f, g);
    if each.out.Ok? {
      var survivors := DropVoid(each.out.value);
      if |survivors| > 0 && survivors[0].Lambda? {
        EvalMono(List(survivors), each.env, f, g);
      }
    }
  }

  lemma {:induction false} BinaryMono(op: BinOp, items: seq<Object>, env: Env, f: nat, g: nat)
    requires f <= g && !EvalBinary(op, items, env, f).out.OutOfFuel?
    ensures EvalBinary(op, items, env, g) == EvalBinary(op, items, env, f)
    decreases f, 3, 0
  {
    if |items| == 3 {
      var left := Eval(items[1], env, f);
      EvalMono(items[1], env, f, g);
      if left.out.Ok? {
        EvalMono(items[2], left.env, f, g);
      }
    }
  }

  lemma {:induction false} LetMono(items: seq<Object>, env: Env, f: nat, g: nat)
    requires f <= g && !EvalLet(items, env, f).out.OutOfFuel?
    ensures EvalLet(items, env, g) == EvalLet(items, env, f)
    decreases f, 3, 0
  {
    if |items| == 3 && items[1].Symbol? {
      EvalMono(items[2], env, f, g);
    }
  }

  lemma {:induction false} SetMono(items: seq<Object>, env: Env, f: nat, g: nat)
    requires f <= g && !EvalSet(items, env, f).out.OutOfFuel?
    ensures EvalSet(items, env, g) == EvalSet(items, env, f)
    decreases f, 3, 0
  {
    if |items| == 3 {
      EvalMono(items[2], env, f, g);
    }
  }

  lemma {:induction false} IfMono(items: seq<Object>, env: Env, f: nat, g: nat)
    requires f <= g && !EvalIf(items, env, f).out.OutOfFuel?
    ensures EvalIf(items, env, g) == EvalIf(items, env, f)
    decreases f, 3, 0
  {
    if |items| == 4 {
      var c := Eval(items[1], env, f);
      EvalMono(items[1], env, f, g);
      if c.out.Ok? && c.out.value.Bool? {
        EvalMono(if c.out.value.b then items[2] else items[3], c.env, f, g);
      }
    }
  }

  lemma {:induction false} CallMono(s: string, items: seq<Object>, env: Env, f: nat, g: nat)
    requires |items| > 0
    requires f <= g && !EvalCall(s, items, env, f).out.OutOfFuel?
    ensures EvalCall(s, items, env, g) == EvalCall(s, items, env, f)
    decreases f, 3, 0
  {
    var callee := Get(env, s);
    if callee.Some? && callee.value.Lambda? {
      var fn := callee.value;
      var n := if |items| - 1 < |fn.params| then |items| - 1 else |fn.params|;
      var args := EvalEach(items[1..n + 1], env, f);
      EvalEachMono(items[1..n + 1], env, f, g);
      if args.out.Ok? && n == |fn.params| {
        EvalMono(List(fn.body), BindAll(Extend(args.env), fn.params, args.out.value), f, g);
      }
    }
  }

  lemma {:induction false} PrintMono(items: seq<Object>, env: Env, f: nat, g: nat)
    requires |items| > 0
    requires f <= g && !EvalPrint(items, env, f).out.OutOfFuel?
    ensures EvalPrint(items, env, g) == EvalPrint(items, env, f)
    decreases f, 3, 0
  {
    if |items| > 1 {
      EvalEachMono(items[1..], env, f, g);
    }
  }

  lemma {:induction false} InputMono(items: seq<Object>, env: Env, f: nat, g: nat)
    requires f <= g && !EvalInput(items, env, f).out.OutOfFuel?
    ensures EvalInput(items, env, g) == EvalInput(items, env, f)
    decreases f, 3, 0
  {
    if |items| == 2 {
      EvalMono(items[1], env, f, g);
    }
  }

  lemma {:induction false} RandMono(items: seq<Object>, env: Env, f: nat, g: nat)
    requires f <= g && !EvalRand(items, env, f).out.OutOfFuel?
    ensures EvalRand(items, env, g) == EvalRand(items, env, f)
    decreases f, 3, 0
  {
    if |items| == 3 {
      var lo := Eval(items[1], env, f);
      EvalMono(items[1], env, f, g);
      if lo.out.Ok? {
        EvalMono(items[2], lo.env, f, g);
      }
    }
  }

  lemma {:induction false} ListDataMono(items: seq<Object>, env: Env, f: nat, g: nat)
    requires |items| > 0
    requires f <= g && !EvalListData(items, env, f).out.OutOfFuel?
    ensures EvalListData(items, env, g) == EvalListData(items, env, f)
    decreases f, 3, 0
  {
    EvalEachMono(items[1..], env, f, g);
  }

  /** `round`, `first`, `rest` and `len`: each evaluates its one argument. */
  lemma {:induction false} OneArgumentMono(items: seq<Object>, env: Env, f: nat, g: nat)
    requires f <= g
    ensures !EvalRound(items, env, f).out.OutOfFuel? ==> EvalRound(items, env, g) == EvalRound(items, env, f)
    ensures !EvalFirst(items, env, f).out.OutOfFuel? ==> EvalFirst(items, env, g) == EvalFirst(items, env, f)
    ensures !EvalRest(items, env, f).out.OutOfFuel? ==> EvalRest(items, env, g) == EvalRest(items, env, f)
    ensures !EvalLen(items, env, f).out.OutOfFuel? ==> EvalLen(items, env, g) == EvalLen(items, env, f)
    decreases f, 3, 0
  {
    if |items| == 2 && !Eval(items[1], env, f).out.OutOfFuel? {
      EvalMono(items[1], env, f, g);
    }
  }

  /** Two runs that both finish agree, whatever their fuel. */
  lemma FinishedRunsAgree(x: Object, env: Env, f: nat, g: nat)
    requires !Eval(x, env, f).out.OutOfFuel? && !Eval(x, env, g).out.OutOfFuel?
    ensures Eval(x, env, f) == Eval(x, env, g)
  {
    if f <= g {
      EvalMono(x, env, f, g);
    } else {
      EvalMono(x, env, g, f);
    }
  }

  /** Running out of fuel with some bound means running out with every smaller one. */
  lemma OutOfFuelBelow(x: Object, env: Env, f: nat, g: nat)
    requires f <= g && Eval(x, env, g).out.OutOfFuel?
    ensures Eval(x, env, f).out.OutOfFuel?
  {
    if !Eval(x, env, f).out.OutOfFuel? {
      EvalMono(x, env, f, g);
    }
  }

  // ---------------------------------------------------------------------------
  // Sequences of forms
  // ---------------------------------------------------------------------------

  /**
   * Evaluating `a + b` evaluates `a`, then `b` in the environment `a` left;
   * it stops at the first failure, and otherwise the values are those of `a`
   * followed by those of `b`.
   */
  lemma {:induction false} EvalEachConcat(a: seq<Object>, b: seq<Object>, env: Env, fuel: nat)
    ensures var ea := EvalEach(a, env, fuel);
            var eb := EvalEach(b, ea.env, fuel);
            EvalEach(a + b, env, fuel)
              == if !ea.out.Ok? then ea
                 else if !eb.out.Ok? then eb
                 else Step(Ok(ea.out.value + eb.out.value), eb.env)
    decreases |a|
  {
    if |a| == 0 {
      assert a + b == b;
      var eb := EvalEach(b, env, fuel);
      if eb.out.Ok? {
        assert [] + eb.out.value == eb.out.value;
      }
    } else {
      var first := Eval(a[0], env, fuel);
      assert (a + b)[0] == a[0];
      assert (a + b)[1..] == a[1..] + b;
      if first.out.Ok? {
        EvalEachConcat(a[1..], b, first.env, fuel);
        var er := EvalEach(a[1..], first.env, fuel);
        if er.out.Ok? {
          var eb := EvalEach(b, er.env, fuel);
          if eb.out.Ok? {
            assert [first.out.value] + (er.out.value + eb.out.value)
                == ([first.out.value] + er.out.value) + eb.out.value;
          }
        }
      }
    }
  }

  /** The forms before a given one, evaluated in order from `env`. */
  function Before(xs: seq<Object>, i: nat, env: Env, fuel: nat): Step<seq<Object>>
    requires i <= |xs|
  {
    EvalEach(xs[..i], env, fuel)
  }

  /**
   * When a sequence evaluates, its i-th value is the value of its i-th form
   * in the environment the forms before it left.
   */
  lemma {:induction false} EvalEachIndex(xs: seq<Object>, env: Env, fuel: nat, i: nat)
    requires EvalEach(xs, env, fuel).out.Ok? && i < |xs|
    ensures Before(xs, i, env, fuel).out.Ok?
    ensures var at := Eval(xs[i], Before(xs, i, env, fuel).env, fuel);
            at.out.Ok? && EvalEach(xs, env, fuel).out.value[i] == at.out.value
  {
    var pre := Before(xs, i, env, fuel);
    assert xs == xs[..i] + xs[i..];
    EvalEachConcat(xs[..i], xs[i..], env, fuel);
    var post := EvalEach(xs[i..], pre.env, fuel);
    assert pre.out.Ok? && post.out.Ok?;
    assert xs[i..][0] == xs[i];
    assert EvalEach(xs, env, fuel).out.value == pre.out.value + post.out.value;
  }

  /**
   * When a sequence fails, it fails at some form: the forms before it
   * evaluate, and the sequence ends with that form's outcome and environment.
   */
  lemma {:induction false} EvalEachFails(xs: seq<Object>, env: Env, fuel: nat) returns (i: nat)
    requires !EvalEach(xs, env, fuel).out.Ok?
    ensures i < |xs| && Before(xs, i, env, fuel).out.Ok?
    ensures var at := Eval(xs[i], Before(xs, i, env, fuel).env, fuel);
            !at.out.Ok? && EvalEach(xs, env, fuel) == Step(Reraise(at.out), at.env)
    decreases |xs|
  {
    var first := Eval(xs[0], env, fuel);
    assert xs[..0] == [];
    if first.out.Ok? {
      var j := EvalEachFails(xs[1..], first.env, fuel);
      i := j + 1;
      assert xs[..i] == [xs[0]] + xs[1..][..j];
      EvalEachConcat([xs[0]], xs[1..][..j], env, fuel);
      assert [xs[0]][1..] == [];
    } else {
      i := 0;
    }
  }
}
