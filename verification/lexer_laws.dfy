/** Properties of the newer tokenizer, `Lexer.Tokenize`. */
module LexerLaws {
  import opened Wrappers
  import opened Text
  import opened Numbers
  import opened Lexer

  lemma TokenizeLinesConcat(a: seq<string>, b: seq<string>)
    ensures TokenizeLines(a + b) == TokenizeLines(a) + TokenizeLines(b)
  {
    if |a| == 0 {
      assert a + b == b;
    } else {
      assert (a + b)[1..] == a[1..] + b;
      TokenizeLinesConcat(a[1..], b);
    }
  }

  /** A source without line breaks is a single line (or none, when empty). */
  lemma SingleLine(line: string)
    requires '\n' !in line
    ensures Tokenize(line).value == TokenizeLine(line)
  {
    if |line| > 0 {
      assert IndexOf(line, '\n') == |line|;
      assert TokenizeLines([line]) == TokenizeLine(line) + TokenizeLines([]);
    } else {
      assert StripComment(line) == "";
    }
  }

  /**
   * Lines are tokenized independently: a source that is one line, a line
   * break, and more text yields the line's tokens followed by the rest's.
   */
  lemma LineBreak(line: string, rest: string)
    requires '\n' !in line
    requires |line| == 0 || line[|line| - 1] != '\r'
    ensures Tokenize(line + "\n" + rest).value == Tokenize(line).value + Tokenize(rest).value
  {
    var s := line + "\n" + rest;
    assert s[..|line|] == line;
    assert s[|line| + 1..] == rest;
    assert IndexOf(s, '\n') == |line| by {
      assert s[|line|] == '\n';
      assert forall j :: 0 <= j < |line| ==> s[j] == line[j];
    }
    assert Lines(s) == [line] + Lines(rest);
    TokenizeLinesConcat([line], Lines(rest));
    assert TokenizeLines([line]) == TokenizeLine(line) + TokenizeLines([]);
    SingleLine(line);
  }

  /** Everything from the first `;` of a line on yields no tokens, quotes included. */
  lemma CommentIgnored(before: string, comment: string)
    requires '\n' !in before && '\n' !in comment
    requires ';' !in before
    ensures Tokenize(before + ";" + comment).value == Tokenize(before).value
  {
    var line := before + ";" + comment;
    assert '\n' !in line by {
      assert forall i :: 0 <= i < |line| ==> line[i] == (if i < |before| then before[i] else if i == |before| then ';' else comment[i - |before| - 1]);
    }
    SingleLine(line);
    SingleLine(before);
    assert IndexOf(line, ';') == |before| by {
      assert line[|before|] == ';';
      assert forall j :: 0 <= j < |before| ==> line[j] == before[j];
    }
    assert StripComment(line) == before;
    assert IndexOf(before, ';') == |before|;
    assert StripComment(before) == before;
  }

  // ---------------------------------------------------------------------------
  // Brackets in, bracket tokens out
  // ---------------------------------------------------------------------------

  /**
   * A closed string literal becomes one StringLit holding exactly the text
   * between the quotes, spaces included, and scanning resumes after the
   * closing quote.
   */
  lemma ScanClosedLiteral(lit: string, rest: string)
    requires '"' !in lit
    ensures Scan(['"'] + lit + ['"'] + rest) == [StringLit(lit)] + Scan(rest)
  {
    var t := ['"'] + lit + ['"'] + rest;
    var body := t[1..];
    assert body == lit + ['"'] + rest;
    assert IndexOf(body, '"') == |lit| by {
      assert forall j :: 0 <= j < |lit| ==> body[j] == lit[j];
      assert body[|lit|] == '"';
    }
    assert body[..|lit|] == lit;
    assert t[|lit| + 2..] == rest;
  }

  /** A literal with no closing quote runs to the end of the line. */
  lemma ScanOpenLiteral(lit: string)
    requires '"' !in lit
    ensures Scan(['"'] + lit) == [StringLit(lit)]
  {
    var t := ['"'] + lit;
    assert t[1..] == lit;
    assert IndexOf(lit, '"') == |lit|;
    assert lit[..|lit|] == lit;
  }

  /**
   * A maximal word becomes one token: a Number holding its value when it
   * parses as a float, otherwise a Symbol with the same text.
   */
  lemma ScanWord(w: string, rest: string)
    requires |w| > 0 && forall i :: 0 <= i < |w| ==> IsWordChar(w[i])
    requires |rest| == 0 || !IsWordChar(rest[0])
    ensures Scan(w + rest) == [ClassifyWord(w)] + Scan(rest)
    ensures ClassifyWord(w).Number? <==> ParseNumber(w).Some?
    ensures ParseNumber(w).Some? ==> ClassifyWord(w) == Number(ParseNumber(w).value)
    ensures ParseNumber(w).None? ==> ClassifyWord(w) == Symbol(w)
  {
    var t := w + rest;
    assert t[0] == w[0];
    WordSpanPrefix(w, rest);
    assert t[..|w|] == w;
    assert t[|w|..] == rest;
  }

  lemma {:induction false} WordSpanPrefix(w: string, rest: string)
    requires forall i :: 0 <= i < |w| ==> IsWordChar(w[i])
    requires |rest| == 0 || !IsWordChar(rest[0])
    ensures WordSpan(w + rest) == |w|
    decreases |w|
  {
    if |w| > 0 {
      assert (w + rest)[1..] == w[1..] + rest;
      WordSpanPrefix(w[1..], rest);
    } else {
      assert w + rest == rest;
    }
  }

  lemma WordHasNoBrackets(t: string, n: nat)
    requires n <= |t| && forall i :: 0 <= i < n ==> IsWordChar(t[i])
    ensures Occurrences(t[..n], '[') == 0 && Occurrences(t[..n], ']') == 0
  {
    assert '[' !in t[..n] && ']' !in t[..n] by {
      assert forall i :: 0 <= i < n ==> t[..n][i] == t[i];
    }
    OccurrencesAbsent(t[..n], '[');
    OccurrencesAbsent(t[..n], ']');
  }

  /** Without quotes, every bracket character of a line becomes one bracket token. */
  lemma {:induction false} ScanBrackets(t: string)
    requires '"' !in t
    ensures Occurrences(Scan(t), LBracket) == Occurrences(t, '[')
    ensures Occurrences(Scan(t), RBracket) == Occurrences(t, ']')
    decreases |t|
  {
    if |t| > 0 {
      assert '"' !in t[1..];
      if IsWhitespace(t[0]) || t[0] == '[' || t[0] == ']' {
        ScanBrackets(t[1..]);
        OccurrencesCons(t[0], t[1..], '[');
        OccurrencesCons(t[0], t[1..], ']');
        assert t == [t[0]] + t[1..];
        if t[0] == '[' {
          OccurrencesCons(LBracket, Scan(t[1..]), LBracket);
          OccurrencesCons(LBracket, Scan(t[1..]), RBracket);
        } else if t[0] == ']' {
          OccurrencesCons(RBracket, Scan(t[1..]), LBracket);
          OccurrencesCons(RBracket, Scan(t[1..]), RBracket);
        }
      } else {
        var n := WordSpan(t);
        assert '"' !in t[n..];
        ScanBrackets(t[n..]);
        WordHasNoBrackets(t, n);
        assert t == t[..n] + t[n..];
        OccurrencesConcat(t[..n], t[n..], '[');
        OccurrencesConcat(t[..n], t[n..], ']');
        var w := ClassifyWord(t[..n]);
        assert w != LBracket && w != RBracket;
        OccurrencesCons(w, Scan(t[n..]), LBracket);
        OccurrencesCons(w, Scan(t[n..]), RBracket);
      }
    }
  }

  lemma LineBrackets(line: string)
    requires ';' !in line && '"' !in line
    ensures Occurrences(TokenizeLine(line), LBracket) == Occurrences(line, '[')
    ensures Occurrences(TokenizeLine(line), RBracket) == Occurrences(line, ']')
  {
    assert IndexOf(line, ';') == |line|;
    assert StripComment(line) == line;
    PadOccurrences(line, '[');
    PadOccurrences(line, ']');
    PadOccurrences(line, '"');
    OccurrencesAbsent(line, '"');
    if '"' in Pad(line) {
      OccurrencesPositive(Pad(line), '"');
    }
    ScanBrackets(Pad(line));
  }

  lemma {:induction false} LinesBrackets(lines: seq<string>)
    requires forall k :: 0 <= k < |lines| ==> ';' !in lines[k] && '"' !in lines[k]
    ensures Occurrences(TokenizeLines(lines), LBracket) == Occurrences(Concat(lines), '[')
    ensures Occurrences(TokenizeLines(lines), RBracket) == Occurrences(Concat(lines), ']')
  {
    if |lines| > 0 {
      LineBrackets(lines[0]);
      LinesBrackets(lines[1..]);
      OccurrencesConcat(TokenizeLine(lines[0]), TokenizeLines(lines[1..]), LBracket);
      OccurrencesConcat(TokenizeLine(lines[0]), TokenizeLines(lines[1..]), RBracket);
      OccurrencesConcat(lines[0], Concat(lines[1..]), '[');
      OccurrencesConcat(lines[0], Concat(lines[1..]), ']');
    }
  }

  lemma {:induction false} LinesAvoid(s: string, c: char)
    requires c !in s
    ensures forall k :: 0 <= k < |Lines(s)| ==> c !in Lines(s)[k]
    decreases |s|
  {
    if |s| > 0 {
      var i := IndexOf(s, '\n');
      if i < |s| {
        assert c !in s[i + 1..];
        LinesAvoid(s[i + 1..], c);
        assert c !in s[..i];
      }
    }
  }

  /**
   * On a source with no `;` and no `"`, there are exactly as many `[`
   * tokens as `[` characters, and as many `]` tokens as `]` characters.
   */
  lemma BracketCount(source: string)
    requires ';' !in source && '"' !in source
    ensures Occurrences(Tokenize(source).value, LBracket) == Occurrences(source, '[')
    ensures Occurrences(Tokenize(source).value, RBracket) == Occurrences(source, ']')
  {
    LinesAvoid(source, ';');
    LinesAvoid(source, '"');
    LinesBrackets(Lines(source));
    LinesOccurrences(source, '[');
    LinesOccurrences(source, ']');
  }

  // ---------------------------------------------------------------------------
  // Display
  // ---------------------------------------------------------------------------

  /**
   * What each token displays as: a bracket as itself, a Symbol as its name,
   * a string literal as its text without quotes, a Number as the formatter
   * prints it.
   */
  lemma DisplayShapes(t: Token, formatNumber: real -> string)
    ensures t == LBracket ==> Display(t, formatNumber) == "["
    ensures t == RBracket ==> Display(t, formatNumber) == "]"
    ensures t.Symbol? ==> Display(t, formatNumber) == t.name
    ensures t.StringLit? ==> Display(t, formatNumber) == t.text
    ensures t.Number? ==> Display(t, formatNumber) == formatNumber(t.value)
  {
  }

  /**
   * Scanning what a bracket, a well-formed Symbol, or a Number whose printed
   * form reads back as the same value displays as gives that one token back.
   * A string literal does not: it displays without its quotes.
   */
  lemma DisplayScansBack(t: Token, formatNumber: real -> string)
    requires !t.StringLit?
    requires t.Symbol? ==> WellFormed(t)
    requires t.Number? ==> IsWord(formatNumber(t.value)) && ParseNumber(formatNumber(t.value)) == Some(t.value)
    ensures Scan(Display(t, formatNumber)) == [t]
  {
    var d := Display(t, formatNumber);
    if t.Symbol? || t.Number? {
      ScanWord(d, "");
      assert d + "" == d;
    } else {
      assert d[1..] == "";
    }
  }

  /**
   * A Symbol that `tokenize` produces displays as a word that does not parse
   * as a number, and scanning that word gives the Symbol back.
   */
  lemma TokenizedSymbolDisplay(source: string, t: Token, formatNumber: real -> string)
    requires t in Tokenize(source).value && t.Symbol?
    ensures IsWord(Display(t, formatNumber)) && ParseNumber(Display(t, formatNumber)).None?
    ensures Scan(Display(t, formatNumber)) == [t]
  {
    DisplayScansBack(t, formatNumber);
  }
}

module LexerExamples {
  import opened Wrappers
  import opened Text
  import opened Numbers
  import opened Lexer
  import LexerLaws

  lemma ParseSmallNumbers()
    ensures ParseNumber("1") == Some(1.0)
    ensures ParseNumber("2") == Some(2.0)
    ensures ParseNumber("+") == None
  {
    assert NaturalText(1) == "1";
    ParseIntegerText(1);
    assert NaturalText(2) == "2";
    ParseIntegerText(2);
    assert ParseUnsigned("") == None by {
      assert ExponentMarker("") == 0;
      assert ParseMantissa("") == None;
    }
    assert "+"[1..] == "";
  }

  lemma PadAdd()
    ensures Pad("[+ 1 2]") == " [ + 1 2 ] "
  {
    var tail := "+ 1 2]";
    assert "[+ 1 2]" == ['['] + tail;
    PadFront('[', tail);
    PadPlainTail();
  }

  lemma PadPlainTail()
    ensures Pad("+ 1 2]") == "+ 1 2 ] "
  {
    var r1 := [']'];
    PadFront(']', []);
    var r2 := ['2'] + r1;
    PadFront('2', r1);
    var r3 := [' '] + r2;
    PadFront(' ', r2);
    var r4 := ['1'] + r3;
    PadFront('1', r3);
    var r5 := [' '] + r4;
    PadFront(' ', r4);
    var r6 := ['+'] + r5;
    PadFront('+', r5);
    assert r6 == "+ 1 2]";
  }

  lemma ScanSpace(rest: string)
    ensures Scan(" " + rest) == Scan(rest)
  {
    assert (" " + rest)[1..] == rest;
  }

  lemma ScanBracket(c: char, rest: string)
    requires IsBracket(c)
    ensures Scan([c] + rest) == [if c == '[' then LBracket else RBracket] + Scan(rest)
  {
    assert ([c] + rest)[1..] == rest;
  }

  /** A one-character word followed by a space. */
  lemma ScanShortWord(c: char, rest: string)
    requires IsWordChar(c)
    ensures Scan([c, ' '] + rest) == [ClassifyWord([c])] + Scan(" " + rest)
  {
    var t := [c, ' '] + rest;
    assert WordSpan(t) == 1 by {
      assert !IsWordChar(t[1]);
    }
    assert t[..1] == [c];
    assert t[1..] == " " + rest;
  }

  /** A space and a one-character word in front of a space-led rest. */
  lemma ScanWordStep(c: char, rest: string, toks: seq<Token>)
    requires IsWordChar(c) && |rest| > 0 && rest[0] == ' ' && Scan(rest) == toks
    ensures Scan([' ', c] + rest) == [ClassifyWord([c])] + toks
  {
    ScanSpace([c] + rest);
    assert [' ', c] + rest == " " + ([c] + rest);
    ScanShortWord(c, rest[1..]);
    assert [c] + rest == [c, ' '] + rest[1..];
    ScanSpace(rest[1..]);
    assert rest == " " + rest[1..];
  }

  lemma ScanClose()
    ensures Scan([' ', ']', ' ']) == [RBracket]
  {
    ScanSpace([']', ' ']);
    ScanBracket(']', " ");
    ScanSpace([]);
    assert [' ', ']', ' '] == " " + ([']'] + " ");
    assert " " == " " + [];
  }

  lemma ScanOperands(f: char, a: char, b: char, close: string)
    requires IsWordChar(f) && IsWordChar(a) && IsWordChar(b)
    requires |close| > 0 && close[0] == ' ' && Scan(close) == [RBracket]
    ensures Scan([' ', f] + ([' ', a] + ([' ', b] + close)))
         == [ClassifyWord([f]), ClassifyWord([a]), ClassifyWord([b]), RBracket]
  {
    var tb := [' ', b] + close;
    ScanWordStep(b, close, [RBracket]);
    var ta := [' ', a] + tb;
    ScanWordStep(a, tb, [ClassifyWord([b]), RBracket]);
    ScanWordStep(f, ta, [ClassifyWord([a]), ClassifyWord([b]), RBracket]);
    FourTokens(ClassifyWord([f]), ClassifyWord([a]), ClassifyWord([b]), RBracket);
  }

  /** A bracketed call of three one-character words, as `Pad` leaves it. */
  lemma ScanThreeWords(f: char, a: char, b: char)
    requires IsWordChar(f) && IsWordChar(a) && IsWordChar(b)
    ensures Scan(" " + (['['] + ([' ', f] + ([' ', a] + ([' ', b] + [' ', ']', ' '])))))
         == [LBracket, ClassifyWord([f]), ClassifyWord([a]), ClassifyWord([b]), RBracket]
  {
    var close := [' ', ']', ' '];
    ScanClose();
    var tf := [' ', f] + ([' ', a] + ([' ', b] + close));
    ScanOperands(f, a, b, close);
    ScanOpen(tf);
    FiveTokens(LBracket, ClassifyWord([f]), ClassifyWord([a]), ClassifyWord([b]), RBracket);
  }

  lemma ScanOpen(rest: string)
    ensures Scan(" " + (['['] + rest)) == [LBracket] + Scan(rest)
  {
    ScanBracket('[', rest);
    ScanSpace(['['] + rest);
  }

  lemma CallChars(f: char, a: char, b: char)
    ensures [' ', '[', ' ', f, ' ', a, ' ', b, ' ', ']', ' ']
         == " " + (['['] + ([' ', f] + ([' ', a] + ([' ', b] + [' ', ']', ' ']))))
  {
  }

  lemma FourTokens(t0: Token, t1: Token, t2: Token, t3: Token)
    ensures [t0] + ([t1] + ([t2] + [t3])) == [t0, t1, t2, t3]
  {
  }

  lemma FiveTokens(t0: Token, t1: Token, t2: Token, t3: Token, t4: Token)
    ensures [t0] + [t1, t2, t3, t4] == [t0, t1, t2, t3, t4]
  {
  }

  lemma ScanAdd()
    ensures Scan(" [ + 1 2 ] ") == [LBracket, Symbol("+"), Number(1.0), Number(2.0), RBracket]
  {
    ParseSmallNumbers();
    ScanThreeWords('+', '1', '2');
    CallChars('+', '1', '2');
    assert [' ', '[', ' ', '+', ' ', '1', ' ', '2', ' ', ']', ' '] == " [ + 1 2 ] ";
    assert ClassifyWord("+") == Symbol("+");
    assert ClassifyWord("1") == Number(1.0);
    assert ClassifyWord("2") == Number(2.0);
  }

  lemma NoComment()
    ensures StripComment("[+ 1 2]") == "[+ 1 2]"
  {
    assert IndexOf("[+ 1 2]", ';') == 7;
  }

  lemma LineAdd()
    ensures TokenizeLine("[+ 1 2]") == [LBracket, Symbol("+"), Number(1.0), Number(2.0), RBracket]
  {
    NoComment();
    PadAdd();
    ScanAdd();
  }

  /** `tokenize("[+ 1 2]")`, the source's first unit test. */
  lemma AddExample()
    ensures Tokenize("[+ 1 2]") == Ok([LBracket, Symbol("+"), Number(1.0), Number(2.0), RBracket])
  {
    var s := "[+ 1 2]";
    assert '\n' !in s;
    LexerLaws.SingleLine(s);
    LineAdd();
  }
}
