/**
 * The older interpreter's reader (src/parser.rs): the source is padded
 * around brackets and split at whitespace, and the tokens are read by
 * recursive descent into one expression plus the tokens after it.
 */
module Parser {
  import opened Wrappers
  import opened Text
  import opened Numbers
  import opened Expression

  /** `tokenize`. */
  function Tokenize(src: string): seq<string> {
    SplitWhitespace(Pad(src))
  }

  /** `parse_atom`: a token that parses as a float is a Number, any other a Symbol. */
  function ParseAtom(token: string): (e: Exp)
    ensures e.Number? || e.Symbol?
    ensures e.Number? <==> ParseNumber(token).Some?
    ensures e.Number? ==> ParseNumber(token) == Some(e.n)
    ensures e.Symbol? ==> e.name == token
  {
    match ParseNumber(token)
    case Some(v) => Number(v)
    case None => Symbol(token)
  }

  /** `rest` is what is left of `tokens` after at least one token was consumed. */
  predicate IsProperSuffix(rest: seq<string>, tokens: seq<string>) {
    |rest| < |tokens| && rest == tokens[|tokens| - |rest|..]
  }

  /**
   * `parse`: one expression from the front of `tokens`, and the tokens
   * after it. The remainder is always a proper suffix, which is what makes
   * `read_seq`'s loop terminate.
   */
  function Parse(tokens: seq<string>): (r: Result<(Exp, seq<string>), RunErr>)
    ensures r.Ok? ==> IsProperSuffix(r.value.1, tokens)
    decreases |tokens|, 0
  {
    if |tokens| == 0 then Err(Reason("could not get token"))
    else if tokens[0] == "[" then
      var r := ReadSeq(tokens[1..], []);
      if r.Ok? then
        SuffixOfTail(r.value.1, tokens);
        r
      else r
    else if tokens[0] == "]" then Err(Reason("unexpected `]`"))
    else Ok((ParseAtom(tokens[0]), tokens[1..]))
  }

  /**
   * `read_seq`: the elements of a list whose `[` has been consumed, up to
   * and including the matching `]`; `acc` holds the elements read so far.
   */
  function ReadSeq(xs: seq<string>, acc: seq<Exp>): (r: Result<(Exp, seq<string>), RunErr>)
    ensures r.Ok? ==> IsProperSuffix(r.value.1, xs)
    decreases |xs|, 1
  {
    if |xs| == 0 then Err(Reason("could not find closing `]`"))
    else if xs[0] == "]" then Ok((List(acc), xs[1..]))
    else
      match Parse(xs)
      case Err(e) => Err(e)
      case Ok((exp, rest)) =>
        var r := ReadSeq(rest, acc + [exp]);
        if r.Ok? then
          SuffixTrans(r.value.1, rest, xs);
          r
        else r
  }

  lemma SuffixOfTail(rest: seq<string>, tokens: seq<string>)
    requires |tokens| > 0 && IsProperSuffix(rest, tokens[1..])
    ensures IsProperSuffix(rest, tokens)
  {
    assert tokens[1..][|tokens| - 1 - |rest|..] == tokens[|tokens| - |rest|..];
  }

  lemma SuffixTrans(a: seq<string>, b: seq<string>, c: seq<string>)
    requires IsProperSuffix(a, b) && IsProperSuffix(b, c)
    ensures IsProperSuffix(a, c)
  {
    assert b[|b| - |a|..] == c[|c| - |a|..];
  }
}
