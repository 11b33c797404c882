/** What the older interpreter's tokenizer and reader guarantee. */
module ParserLaws {
  import opened Wrappers
  import opened Text
  import opened Numbers
  import opened Expression
  import opened Parser

  // ---------------------------------------------------------------------------
  // tokenize
  // ---------------------------------------------------------------------------

  /** A token `tokenize` can produce: non-empty, free of whitespace, and a bracket only on its own. */
  predicate CleanToken(tok: string) {
    && |tok| > 0
    && (forall i :: 0 <= i < |tok| ==> !IsWhitespace(tok[i]))
    && (forall i :: 0 <= i < |tok| && IsBracket(tok[i]) ==> tok == [tok[i]])
  }

  /** Every token is non-empty and whitespace-free, and every bracket is a token of its own. */
  lemma TokensAreClean(src: string)
    ensures forall tok :: tok in Tokenize(src) ==> CleanToken(tok)
  {
    PadIsPadded(src);
    PaddedIsSpaced(Pad(src));
    SplitClean(Pad(src));
  }

  lemma PaddedIsSpaced(t: string)
    requires Padded(t)
    ensures SpacedBrackets(t)
  {
  }

  lemma {:induction false} SplitClean(t: string)
    requires SpacedBrackets(t)
    ensures forall tok :: tok in SplitWhitespace(t) ==> CleanToken(tok)
    decreases |t|
  {
    if |t| > 0 {
      if IsWhitespace(t[0]) {
        SpacedBracketsSuffix(t, 1);
        SplitClean(t[1..]);
      } else {
        var n := NonWhitespaceSpan(t);
        FirstWordClean(t, n);
        SpacedBracketsSuffix(t, n);
        SplitClean(t[n..]);
      }
    }
  }

  /** The leading run of non-whitespace of a spaced text is a clean token. */
  lemma FirstWordClean(t: string, n: nat)
    requires SpacedBrackets(t) && |t| > 0 && !IsWhitespace(t[0]) && n == NonWhitespaceSpan(t)
    ensures CleanToken(t[..n])
  {
    var tok := t[..n];
    if IsBracket(t[0]) {
      assert IsWhitespace(t[1]);
      assert tok == [t[0]];
    } else {
      forall i | 0 < i < n ensures !IsBracket(t[i]) {
        assert !IsWhitespace(t[i - 1]);
      }
      assert forall i :: 0 <= i < |tok| ==> tok[i] == t[i];
    }
  }

  /** The tokens spell out the source with its whitespace removed. */
  lemma TokensSpellSource(src: string)
    ensures Concat(Tokenize(src)) == RemoveWhitespace(src)
  {
    SplitSpells(Pad(src));
    RemoveWhitespacePad(src);
  }

  lemma {:induction false} SplitSpells(t: string)
    ensures Concat(SplitWhitespace(t)) == RemoveWhitespace(t)
    decreases |t|
  {
    if |t| > 0 {
      if IsWhitespace(t[0]) {
        SplitSpells(t[1..]);
      } else {
        var n := NonWhitespaceSpan(t);
        SplitSpells(t[n..]);
        ConcatCons(t[..n], SplitWhitespace(t[n..]));
        assert t == t[..n] + t[n..];
        RemoveWhitespaceConcat(t[..n], t[n..]);
        NoWhitespaceKept(t[..n]);
      }
    }
  }

  lemma {:induction false} NoWhitespaceKept(w: string)
    requires forall i :: 0 <= i < |w| ==> !IsWhitespace(w[i])
    ensures RemoveWhitespace(w) == w
  {
    if |w| > 0 {
      NoWhitespaceKept(w[1..]);
    }
  }

  /** Each `[` of the source becomes one `"["` token, and each `]` one `"]"` token. */
  lemma BracketTokens(src: string, b: char)
    requires IsBracket(b)
    ensures Occurrences(Tokenize(src), [b]) == Occurrences(src, b)
  {
    PadIsPadded(src);
    PaddedIsSpaced(Pad(src));
    SplitBrackets(Pad(src), b);
    PadOccurrences(src, b);
  }

  lemma {:induction false} SplitBrackets(t: string, b: char)
    requires SpacedBrackets(t) && IsBracket(b)
    ensures Occurrences(SplitWhitespace(t), [b]) == Occurrences(t, b)
    decreases |t|
  {
    if |t| > 0 {
      if IsWhitespace(t[0]) {
        SpacedBracketsSuffix(t, 1);
        SplitBrackets(t[1..], b);
      } else {
        var n := NonWhitespaceSpan(t);
        var tok := t[..n];
        FirstWordClean(t, n);
        SpacedBracketsSuffix(t, n);
        SplitBrackets(t[n..], b);
        assert t == tok + t[n..];
        OccurrencesConcat(tok, t[n..], b);
        OccurrencesCons(tok, SplitWhitespace(t[n..]), [b]);
        TokenBrackets(tok, b);
      }
    }
  }

  /** A clean token holds a bracket exactly when it is that bracket. */
  lemma TokenBrackets(tok: string, b: char)
    requires CleanToken(tok) && IsBracket(b)
    ensures Occurrences(tok, b) == if tok == [b] then 1 else 0
  {
    if tok != [b] {
      assert forall i :: 0 <= i < |tok| ==> tok[i] != b;
      OccurrencesAbsent(tok, b);
    } else {
      assert tok[1..] == [];
    }
  }

  /** Whitespace between two texts separates their tokens. */
  lemma {:induction false} SplitAtWhitespace(x: string, w: char, y: string)
    requires IsWhitespace(w)
    ensures SplitWhitespace(x + [w] + y) == SplitWhitespace(x) + SplitWhitespace(y)
    decreases |x|
  {
    var t := x + [w] + y;
    if |x| == 0 {
      assert t[1..] == y;
    } else if IsWhitespace(x[0]) {
      assert t[1..] == x[1..] + [w] + y;
      SplitAtWhitespace(x[1..], w, y);
    } else {
      var n := NonWhitespaceSpan(x);
      SpanStopsAt(x, w, y);
      assert t[..n] == x[..n];
      assert t[n..] == x[n..] + [w] + y;
      SplitAtWhitespace(x[n..], w, y);
    }
  }

  lemma {:induction false} SpanStopsAt(x: string, w: char, y: string)
    requires IsWhitespace(w)
    ensures NonWhitespaceSpan(x + [w] + y) == NonWhitespaceSpan(x)
    decreases |x|
  {
    if |x| > 0 && !IsWhitespace(x[0]) {
      assert (x + [w] + y)[1..] == x[1..] + [w] + y;
      SpanStopsAt(x[1..], w, y);
    } else if |x| == 0 {
      assert (x + [w] + y)[0] == w;
    }
  }

  /** Text joined by a space tokenizes into the two token lists one after the other. */
  lemma TokenizeAtSpace(a: string, b: string)
    ensures Tokenize(a + " " + b) == Tokenize(a) + Tokenize(b)
  {
    PadConcat(a + " ", b);
    PadConcat(a, " ");
    assert Pad(" ") == " " by {
      assert " "[1..] == "";
    }
    SplitAtWhitespace(Pad(a), ' ', Pad(b));
  }

  // ---------------------------------------------------------------------------
  // parse and read_seq
  // ---------------------------------------------------------------------------

  /** `parse` rejects running out of tokens and a stray `]`. */
  lemma ParseRejects(rest: seq<string>)
    ensures Parse([]) == Err(Reason("could not get token"))
    ensures Parse(["]"] + rest) == Err(Reason("unexpected `]`"))
  {
    assert (["]"] + rest)[0] == "]";
  }

  /** Any other token that is not `[` is one atom, followed by exactly the rest. */
  lemma ParseAtomToken(tok: string, rest: seq<string>)
    requires tok != "[" && tok != "]"
    ensures Parse([tok] + rest) == Ok((ParseAtom(tok), rest))
  {
    assert ([tok] + rest)[1..] == rest;
  }

  /** A list with no `]` anywhere after its `[` fails for want of a closing bracket. */
  lemma {:induction false} ReadSeqUnclosed(xs: seq<string>, acc: seq<Exp>)
    requires "]" !in xs
    ensures ReadSeq(xs, acc) == Err(Reason("could not find closing `]`"))
    decreases |xs|
  {
    if |xs| > 0 {
      assert xs[0] != "]";
      NoCloseInSuffix(xs, 1);
      if xs[0] == "[" {
        ReadSeqUnclosed(xs[1..], []);
      } else {
        ReadSeqUnclosed(xs[1..], acc + [ParseAtom(xs[0])]);
      }
    }
  }

  /**
   * Inside a list every `]` closes it, so the only way `read_seq` fails is
   * by running out of tokens before its own `]`, even when a `]` of some
   * inner list follows.
   */
  lemma {:induction false} ReadSeqOnlyError(xs: seq<string>, acc: seq<Exp>)
    ensures ReadSeq(xs, acc).Err? ==> ReadSeq(xs, acc).error == Reason("could not find closing `]`")
    decreases |xs|, 1
  {
    if |xs| > 0 && xs[0] != "]" {
      ParseOnlyError(xs);
      match Parse(xs)
      case Err(_) =>
      case Ok((exp, rest)) =>
        ReadSeqOnlyError(rest, acc + [exp]);
    }
  }

  /** `parse` of anything but an empty input or a stray `]` fails only for a missing `]`. */
  lemma {:induction false} ParseOnlyError(xs: seq<string>)
    requires |xs| > 0 && xs[0] != "]"
    ensures Parse(xs).Err? ==> Parse(xs).error == Reason("could not find closing `]`")
    decreases |xs|, 0
  {
    if xs[0] == "[" {
      ReadSeqOnlyError(xs[1..], []);
    }
  }

  lemma NoCloseInSuffix(xs: seq<string>, k: nat)
    requires "]" !in xs && k <= |xs|
    ensures "]" !in xs[k..]
  {
    forall i | 0 <= i < |xs[k..]| ensures xs[k..][i] != "]" {
      assert xs[k..][i] == xs[k + i];
    }
  }

  lemma ParseUnclosed(xs: seq<string>)
    requires "]" !in xs
    ensures Parse(["["] + xs) == Err(Reason("could not find closing `]`"))
  {
    assert (["["] + xs)[1..] == xs;
    ReadSeqUnclosed(xs, []);
  }

  lemma ParseOpen(ts: seq<string>)
    requires |ts| > 0 && ts[0] == "["
    ensures Parse(ts) == ReadSeq(ts[1..], [])
  {
  }

  lemma ParseOther(ts: seq<string>)
    requires |ts| > 0 && ts[0] != "[" && ts[0] != "]"
    ensures Parse(ts) == Ok((ParseAtom(ts[0]), ts[1..]))
  {
  }

  lemma ReadSeqClose(xs: seq<string>, acc: seq<Exp>)
    requires |xs| > 0 && xs[0] == "]"
    ensures ReadSeq(xs, acc) == Ok((List(acc), xs[1..]))
  {
  }

  lemma ReadSeqStep(xs: seq<string>, acc: seq<Exp>)
    requires |xs| > 0 && xs[0] != "]" && Parse(xs).Ok?
    ensures ReadSeq(xs, acc) == ReadSeq(Parse(xs).value.1, acc + [Parse(xs).value.0])
  {
  }

  /**
   * Tokens after a complete expression play no part in reading it: they
   * come back untouched after the remainder.
   */
  lemma {:induction false} ParseExtends(tokens: seq<string>, more: seq<string>)
    requires Parse(tokens).Ok?
    ensures Parse(tokens + more) == Ok((Parse(tokens).value.0, Parse(tokens).value.1 + more))
    decreases |tokens|, 0
  {
    if tokens[0] == "[" {
      ListExtends(tokens, more);
    } else {
      AtomExtends(tokens, more);
    }
  }

  lemma AtomExtends(tokens: seq<string>, more: seq<string>)
    requires |tokens| > 0 && tokens[0] != "[" && tokens[0] != "]"
    ensures Parse(tokens + more) == Ok((ParseAtom(tokens[0]), tokens[1..] + more))
  {
    var t := tokens + more;
    assert t[0] == tokens[0] && t[1..] == tokens[1..] + more;
    ParseOther(t);
  }

  lemma {:induction false} ListExtends(tokens: seq<string>, more: seq<string>)
    requires Parse(tokens).Ok? && tokens[0] == "["
    ensures Parse(tokens + more) == Ok((Parse(tokens).value.0, Parse(tokens).value.1 + more))
    decreases |tokens|, 0, 0
  {
    var t := tokens + more;
    assert t[0] == tokens[0] && t[1..] == tokens[1..] + more;
    ParseOpen(tokens);
    ParseOpen(t);
    ReadSeqExtends(tokens[1..], [], more);
  }

  lemma {:induction false} ReadSeqExtends(xs: seq<string>, acc: seq<Exp>, more: seq<string>)
    requires ReadSeq(xs, acc).Ok?
    ensures ReadSeq(xs + more, acc) == Ok((ReadSeq(xs, acc).value.0, ReadSeq(xs, acc).value.1 + more))
    decreases |xs|, 1
  {
    var t := xs + more;
    assert t[0] == xs[0] && t[1..] == xs[1..] + more;
    if xs[0] == "]" {
      ReadSeqClose(xs, acc);
      ReadSeqClose(t, acc);
    } else {
      var p := Parse(xs);
      ReadSeqStep(xs, acc);
      ParseExtends(xs, more);
      ReadSeqStep(t, acc);
      ReadSeqExtends(p.value.1, acc + [p.value.0], more);
    }
  }

  // ---------------------------------------------------------------------------
  // The reader inverts the flattening of a bracket tree
  // ---------------------------------------------------------------------------

  /** Source structure: an atom token, or a bracketed sequence of trees. */
  datatype Tree = Leaf(token: string) | Node(kids: seq<Tree>)

  /** The tokens of a tree, brackets included. */
  function Flatten(t: Tree): seq<string>
    decreases t, 1
  {
    match t
    case Leaf(tok) => [tok]
    case Node(kids) => ["["] + FlattenEach(kids) + ["]"]
  }

  function FlattenEach(ts: seq<Tree>): seq<string>
    decreases ts, 0
  {
    if |ts| == 0 then [] else Flatten(ts[0]) + FlattenEach(ts[1..])
  }

  /** The expression a tree stands for. */
  function Denote(t: Tree): Exp
    decreases t, 1
  {
    match t
    case Leaf(tok) => ParseAtom(tok)
    case Node(kids) => List(DenoteEach(kids))
  }

  function DenoteEach(ts: seq<Tree>): (r: seq<Exp>)
    ensures |r| == |ts|
    decreases ts, 0
  {
    if |ts| == 0 then [] else [Denote(ts[0])] + DenoteEach(ts[1..])
  }

  /** No leaf is a bracket token. */
  predicate AtomLeaves(t: Tree)
    decreases t, 1
  {
    match t
    case Leaf(tok) => tok != "[" && tok != "]"
    case Node(kids) => AtomLeavesEach(kids)
  }

  predicate AtomLeavesEach(ts: seq<Tree>)
    decreases ts, 0
  {
    |ts| == 0 || (AtomLeaves(ts[0]) && AtomLeavesEach(ts[1..]))
  }

  /** Reading the tokens of a tree gives back what the tree stands for, and exactly the tokens after it. */
  lemma {:induction false} ParseFlatten(t: Tree, rest: seq<string>)
    requires AtomLeaves(t)
    ensures Parse(Flatten(t) + rest) == Ok((Denote(t), rest))
    decreases t, 1
  {
    match t
    case Leaf(tok) =>
      ParseAtomToken(tok, rest);
    case Node(kids) =>
      var inner := FlattenEach(kids) + ["]"] + rest;
      assert Flatten(t) + rest == ["["] + inner;
      assert (["["] + inner)[1..] == inner;
      ParseOpen(["["] + inner);
      ReadSeqFlatten(kids, [], rest);
      assert [] + DenoteEach(kids) == DenoteEach(kids);
  }

  lemma {:induction false} ReadSeqFlatten(ts: seq<Tree>, acc: seq<Exp>, rest: seq<string>)
    requires AtomLeavesEach(ts)
    ensures ReadSeq(FlattenEach(ts) + ["]"] + rest, acc) == Ok((List(acc + DenoteEach(ts)), rest))
    decreases ts, 0
  {
    if |ts| == 0 {
      assert FlattenEach(ts) + ["]"] + rest == ["]"] + rest;
      assert (["]"] + rest)[1..] == rest;
      ReadSeqClose(["]"] + rest, acc);
      assert acc + DenoteEach(ts) == acc;
    } else {
      var after := FlattenEach(ts[1..]) + ["]"] + rest;
      assert FlattenEach(ts) + ["]"] + rest == Flatten(ts[0]) + after;
      ParseFlatten(ts[0], after);
      FlattenStartsClean(ts[0], after);
      ReadSeqStep(Flatten(ts[0]) + after, acc);
      ReadSeqFlatten(ts[1..], acc + [Denote(ts[0])], rest);
      assert acc + [Denote(ts[0])] + DenoteEach(ts[1..]) == acc + DenoteEach(ts);
    }
  }

  /** The tokens of a tree never start with `]`. */
  lemma FlattenStartsClean(t: Tree, after: seq<string>)
    requires AtomLeaves(t)
    ensures (Flatten(t) + after)[0] != "]"
  {
  }
}

/** Worked inputs of the older reader. */
module ParserExamples {
  import opened Wrappers
  import opened Text
  import opened Numbers
  import opened Expression
  import opened Parser
  import ParserLaws

  lemma RenderPair(a: string, b: string, formatNumber: real -> string)
    ensures Render(List([Symbol(a), Symbol(b)]), formatNumber) == "[" + (a + "," + b) + "]"
  {
    var items := [Symbol(a), Symbol(b)];
    assert RenderEach(items, formatNumber) == [a, b];
    assert JoinComma([a, b]) == a + "," + JoinComma([b]);
  }

  /** A word without whitespace is one token. */
  lemma SingleWord(w: string)
    requires |w| > 0 && forall i :: 0 <= i < |w| ==> !IsWhitespace(w[i])
    ensures SplitWhitespace(w) == [w]
  {
    assert NonWhitespaceSpan(w) == |w|;
    assert w[..|w|] == w;
  }

  /** A bracketed plain word tokenizes into the bracket, the word and the bracket. */
  lemma TokenizeBracketed(w: string)
    requires |w| > 0 && forall i :: 0 <= i < |w| ==> !IsWhitespace(w[i]) && !IsBracket(w[i])
    ensures Tokenize(['['] + (w + [']'])) == ["[", w, "]"]
  {
    PadBracketed(w);
    CloseSpread();
    SplitSpread(w);
  }

  lemma SplitSpread(w: string)
    requires |w| > 0 && forall i :: 0 <= i < |w| ==> !IsWhitespace(w[i])
    ensures SplitWhitespace([' '] + (['['] + ([' '] + (w + ([' '] + ([']'] + ([' '] + []))))))) == ["[", w, "]"]
  {
    var tail := [']'] + ([' '] + []);
    var y := w + ([' '] + tail);
    SpaceFirst(' ', ['['] + ([' '] + y));
    BracketWords();
    WordFirst(['['], ' ', y);
    SingleWord(w);
    WordFirst(w, ' ', tail);
    WordFirst([']'], ' ', []);
    ThreeTokens(['['], w, [']'], SplitWhitespace([]));
  }

  lemma BracketWords()
    ensures SplitWhitespace(['[']) == [['[']] && SplitWhitespace([']']) == [[']']]
  {
    SingleWord(['[']);
    SingleWord([']']);
  }

  lemma CloseSpread()
    ensures " ] " == [' '] + ([']'] + ([' '] + []))
  {
  }

  lemma PadBracketed(w: string)
    requires forall i :: 0 <= i < |w| ==> !IsBracket(w[i])
    ensures Pad(['['] + (w + [']'])) == [' '] + (['['] + ([' '] + (w + " ] ")))
  {
    PadFront('[', w + [']']);
    PadConcat(w, [']']);
    PadWithoutBrackets(w);
    PadFront(']', []);
    assert [']'] + [] == [']'];
    assert Pad([']']) == " ] ";
    Spread3(' ', '[', ' ', w + " ] ");
  }

  lemma Spread3<T>(a: T, b: T, c: T, y: seq<T>)
    ensures [a, b, c] + y == [a] + ([b] + ([c] + y))
  {
  }

  lemma ThreeTokens(a: string, b: string, c: string, none: seq<string>)
    requires none == []
    ensures [a] + ([b] + ([c] + none)) == [a, b, c]
  {
  }

  lemma SpaceFirst(sp: char, y: string)
    requires IsWhitespace(sp)
    ensures SplitWhitespace([sp] + y) == SplitWhitespace(y)
  {
    assert ([sp] + y)[1..] == y;
  }

  lemma WordFirst(x: string, sp: char, y: string)
    requires IsWhitespace(sp) && SplitWhitespace(x) == [x]
    ensures SplitWhitespace(x + ([sp] + y)) == [x] + SplitWhitespace(y)
  {
    Regroup(x, sp, y);
    ParserLaws.SplitAtWhitespace(x, sp, y);
  }

  lemma Regroup(x: string, sp: char, y: string)
    ensures x + ([sp] + y) == x + [sp] + y
  {
  }

  /** A bracketed atom reads as the one-element list of that atom. */
  lemma ReadSingleton(tok: string)
    requires tok != "[" && tok != "]"
    ensures Parse(["[", tok, "]"]) == Ok((List([ParseAtom(tok)]), []))
  {
    var t := ParserLaws.Node([ParserLaws.Leaf(tok)]);
    SingletonTree(tok);
    ParserLaws.ParseFlatten(t, []);
    assert ParserLaws.Flatten(t) + [] == ParserLaws.Flatten(t);
  }

  lemma SingletonTree(tok: string)
    requires tok != "[" && tok != "]"
    ensures var t := ParserLaws.Node([ParserLaws.Leaf(tok)]);
      && ParserLaws.AtomLeaves(t)
      && ParserLaws.Flatten(t) == ["[", tok, "]"]
      && ParserLaws.Denote(t) == List([ParseAtom(tok)])
  {
    var kids := [ParserLaws.Leaf(tok)];
    assert kids[1..] == [];
    assert ParserLaws.AtomLeaves(kids[0]);
    assert ParserLaws.AtomLeavesEach(kids[1..]);
    assert ParserLaws.AtomLeavesEach(kids);
    SingletonFlatten(tok);
    SingletonDenote(tok);
  }

  lemma SingletonFlatten(tok: string)
    ensures ParserLaws.Flatten(ParserLaws.Node([ParserLaws.Leaf(tok)])) == ["[", tok, "]"]
  {
    var kids := [ParserLaws.Leaf(tok)];
    assert kids[1..] == [];
    assert ParserLaws.FlattenEach(kids) == [tok] + [];
  }

  lemma SingletonDenote(tok: string)
    ensures ParserLaws.Denote(ParserLaws.Node([ParserLaws.Leaf(tok)])) == List([ParseAtom(tok)])
  {
    var kids := [ParserLaws.Leaf(tok)];
    assert kids[1..] == [];
    assert ParserLaws.DenoteEach(kids) == [ParseAtom(tok)] + [];
  }


  /**
   * Rendering is not read back: the two-element list `[a,b]` comes back as
   * a one-element list holding the symbol `a,b`, because commas are not
   * separators for the tokenizer.
   */
  lemma RenderDoesNotRoundTrip(formatNumber: real -> string)
    ensures var e := List([Symbol("a"), Symbol("b")]);
      && Parse(Tokenize(Render(e, formatNumber))) == Ok((List([Symbol("a,b")]), []))
      && Parse(Tokenize(Render(e, formatNumber))).value.0 != e
  {
    var w := "a,b";
    RenderPair("a", "b", formatNumber);
    assert "[" + ("a" + "," + "b") + "]" == ['['] + (w + [']']);
    TokenizeBracketed(w);
    ReadSingleton(w);
    NonNumeralStart(w);
    assert |List([Symbol(w)]).items| != |List([Symbol("a"), Symbol("b")]).items|;
  }

  /**
   * `[ [ a ] [ b` fails for want of a closing bracket although a `]`
   * follows: that `]` closes the inner list.
   */
  lemma InnerCloseStillUnclosed()
    ensures Parse(["[", "[", "a", "]", "[", "b"]) == Err(Reason("could not find closing `]`"))
  {
    var xs := ["[", "[", "a", "]", "[", "b"];
    assert xs[1..] == ["[", "a", "]", "[", "b"];
    assert xs[1..][1..] == ["a", "]", "[", "b"];
    ParserLaws.ParseAtomToken("a", ["]", "[", "b"]);
    assert ["a", "]", "[", "b"] == ["a"] + ["]", "[", "b"];
    ParserLaws.ParseUnclosed(["b"]);
    assert ["[", "b"] == ["["] + ["b"];
  }
}
