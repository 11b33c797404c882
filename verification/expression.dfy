/**
 * The older interpreter's value type (src/expression.rs): an S-expression
 * of symbols, numbers and lists, plus built-in functions. A Rust `fn`
 * pointer is not a value Dafny can compare, and the only functions the
 * older interpreter ever holds are the four of `default_env`, so a
 * function is a tag naming one of them.
 */
module Expression {
  import opened Text

  /** The four arithmetic built-ins of `default_env`. */
  datatype Builtin = Add | Sub | Mul | Div

  datatype Exp =
    | Symbol(name: string)
    | Number(n: real)
    | List(items: seq<Exp>)
    | Func(f: Builtin)

  /** `RunErr`: its one variant carries the message. */
  datatype RunErr = Reason(msg: string)

  /** Rust's `join(",")`: the pieces with one comma between neighbours. */
  function JoinComma(pieces: seq<string>): (r: string)
    ensures |pieces| == 0 ==> r == ""
    ensures |pieces| > 0 ==> |r| >= |pieces| - 1
  {
    if |pieces| == 0 then ""
    else if |pieces| == 1 then pieces[0]
    else pieces[0] + "," + JoinComma(pieces[1..])
  }

  /**
   * `Display for Exp`. How an `f64` is printed is not part of this model,
   * so the number formatter is a parameter.
   */
  function Render(e: Exp, formatNumber: real -> string): string
    decreases e, 1
  {
    match e
    case Symbol(s) => s
    case Number(n) => formatNumber(n)
    case List(items) => "[" + JoinComma(RenderEach(items, formatNumber)) + "]"
    case Func(_) => "Function {}"
  }

  /** The renderings of `items`, in order. */
  function RenderEach(items: seq<Exp>, formatNumber: real -> string): (r: seq<string>)
    ensures |r| == |items|
    ensures forall i :: 0 <= i < |items| ==> r[i] == Render(items[i], formatNumber)
    decreases items, 0
  {
    if |items| == 0 then []
    else [Render(items[0], formatNumber)] + RenderEach(items[1..], formatNumber)
  }

  /** A list renders bracketed, and the empty list as `[]`. */
  lemma RenderListShape(items: seq<Exp>, formatNumber: real -> string)
    ensures var r := Render(List(items), formatNumber);
      |r| >= 2 && r[0] == '[' && r[|r| - 1] == ']'
      && (|items| == 0 ==> r == "[]")
  {
  }

  /**
   * The commas of a rendered list: those inside the elements' renderings
   * plus exactly one between each pair of neighbours.
   */
  lemma RenderListCommas(items: seq<Exp>, formatNumber: real -> string)
    requires |items| > 0
    ensures Occurrences(Render(List(items), formatNumber), ',')
         == |items| - 1 + TotalOccurrences(RenderEach(items, formatNumber), ',')
  {
    var body := JoinComma(RenderEach(items, formatNumber));
    JoinCommaCount(RenderEach(items, formatNumber));
    OccurrencesConcat("[" + body, "]", ',');
    OccurrencesConcat("[", body, ',');
  }

  /** Occurrences of `c` over all the pieces together. */
  function TotalOccurrences(pieces: seq<string>, c: char): nat {
    if |pieces| == 0 then 0 else Occurrences(pieces[0], c) + TotalOccurrences(pieces[1..], c)
  }

  lemma {:induction false} JoinCommaCount(pieces: seq<string>)
    requires |pieces| > 0
    ensures Occurrences(JoinComma(pieces), ',') == |pieces| - 1 + TotalOccurrences(pieces, ',')
  {
    if |pieces| > 1 {
      JoinCommaCount(pieces[1..]);
      OccurrencesConcat(pieces[0] + ",", JoinComma(pieces[1..]), ',');
      OccurrencesConcat(pieces[0], ",", ',');
    } else {
      assert TotalOccurrences(pieces[1..], ',') == 0;
    }
  }
}
