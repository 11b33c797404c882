/**
 * The newer interpreter's tokenizer (src/lexer.rs). Each line of the source
 * loses everything from its first `;`, gets its brackets padded with spaces,
 * and is scanned left to right into brackets, string literals and words;
 * a word that parses as a float is a Number, any other word a Symbol.
 */
module Lexer {
  import opened Wrappers
  import opened Text
  import opened Numbers

  datatype Token =
    | Number(value: real)
    | Symbol(name: string)
    | LBracket
    | RBracket
    | StringLit(text: string)

  /** The error type of `tokenize`'s signature; no path produces one. */
  datatype LexErr = LexErr(msg: string)

  /**
   * `Display for Token`. How an `f64` is printed is not part of this model,
   * so the number formatter is a parameter.
   */
  function Display(t: Token, formatNumber: real -> string): string {
    match t
    case Number(n) => formatNumber(n)
    case Symbol(s) => s
    case StringLit(s) => s
    case LBracket => "["
    case RBracket => "]"
  }

  /** A character that continues a word. */
  predicate IsWordChar(c: char) {
    !IsWhitespace(c) && c != '[' && c != ']' && c != '"'
  }

  /** What a Symbol's text, or a Number's source text, looks like. */
  predicate IsWord(w: string) {
    |w| > 0 && forall i :: 0 <= i < |w| ==> IsWordChar(w[i]) && w[i] != ';'
  }

  /** Length of the longest prefix of `s` made of word characters. */
  function WordSpan(s: string): (n: nat)
    ensures n <= |s|
    ensures forall i :: 0 <= i < n ==> IsWordChar(s[i])
    ensures n < |s| ==> !IsWordChar(s[n])
  {
    if |s| == 0 || !IsWordChar(s[0]) then 0 else 1 + WordSpan(s[1..])
  }

  function ClassifyWord(w: string): Token {
    match ParseNumber(w)
    case Some(v) => Number(v)
    case None => Symbol(w)
  }

  /**
   * The scanning loop of `tokenize` over one padded, comment-free line:
   * whitespace is skipped, a bracket is a token, `"` starts a literal that
   * runs to the next `"` (consumed) or to the end of the line, and any
   * other character starts a word that runs up to whitespace, a bracket or
   * a `"` (not consumed).
   */
  function Scan(t: string): seq<Token>
    decreases |t|
  {
    if |t| == 0 then []
    else if IsWhitespace(t[0]) then Scan(t[1..])
    else if t[0] == '[' then [LBracket] + Scan(t[1..])
    else if t[0] == ']' then [RBracket] + Scan(t[1..])
    else if t[0] == '"' then
      var n := IndexOf(t[1..], '"');
      [StringLit(t[1..][..n])] + Scan(if n < |t| - 1 then t[n + 2..] else "")
    else
      var n := WordSpan(t);
      [ClassifyWord(t[..n])] + Scan(t[n..])
  }

  /** The part of a line before its first `;`. */
  function StripComment(line: string): string {
    line[..IndexOf(line, ';')]
  }

  function TokenizeLine(line: string): seq<Token> {
    Scan(Pad(StripComment(line)))
  }

  function TokenizeLines(lines: seq<string>): seq<Token> {
    if |lines| == 0 then [] else TokenizeLine(lines[0]) + TokenizeLines(lines[1..])
  }

  /** What every token `tokenize` produces satisfies. */
  ghost predicate WellFormed(t: Token) {
    match t
    case Symbol(w) => IsWord(w) && ParseNumber(w).None?
    case Number(v) => exists w :: IsWord(w) && ParseNumber(w) == Some(v)
    case StringLit(s) => '"' !in s && '\n' !in s && ';' !in s && Padded(s)
    case LBracket => true
    case RBracket => true
  }

  /**
   * `tokenize`: never an error. Symbols are words that do not parse as
   * numbers, Numbers are the values of words that do, and a string literal
   * holds no `"` and has every bracket in it surrounded by spaces.
   */
  function Tokenize(source: string): (r: Result<seq<Token>, LexErr>)
    ensures r.Ok?
    ensures forall t :: t in r.value ==> WellFormed(t)
  {
    var lines := Lines(source);
    LinesWellFormed(lines);
    Ok(TokenizeLines(lines))
  }

  // ---------------------------------------------------------------------------
  // Well-formedness of the tokens
  // ---------------------------------------------------------------------------

  lemma LiteralWellFormed(t: string, n: nat)
    requires SpacedBrackets(t) && ';' !in t && '\n' !in t
    requires |t| > 0 && t[0] == '"'
    requires n == IndexOf(t[1..], '"')
    ensures WellFormed(StringLit(t[1..][..n]))
  {
    var lit := t[1..][..n];
    assert forall i :: 0 <= i < |lit| ==> lit[i] == t[i + 1];
    forall j | 0 <= j < |lit| && IsBracket(lit[j])
      ensures 0 < j < |lit| - 1 && lit[j - 1] == ' ' && lit[j + 1] == ' '
    {
      assert IsBracket(t[j + 1]);
    }
  }

  lemma {:induction false} ScanWellFormed(t: string)
    requires SpacedBrackets(t) && ';' !in t && '\n' !in t
    ensures forall tok :: tok in Scan(t) ==> WellFormed(tok)
    decreases |t|
  {
    if |t| > 0 {
      if IsWhitespace(t[0]) || t[0] == '[' || t[0] == ']' {
        SpacedBracketsSuffix(t, 1);
        ScanWellFormed(t[1..]);
      } else if t[0] == '"' {
        var n := IndexOf(t[1..], '"');
        LiteralWellFormed(t, n);
        if n < |t| - 1 {
          SpacedBracketsSuffix(t, n + 2);
          ScanWellFormed(t[n + 2..]);
        } else {
          ScanWellFormed("");
        }
      } else {
        var n := WordSpan(t);
        WordWellFormed(t);
        SpacedBracketsSuffix(t, n);
        ScanWellFormed(t[n..]);
      }
    }
  }

  /** The word at the front of a comment-free line is classified into a well-formed token. */
  lemma WordWellFormed(t: string)
    requires |t| > 0 && IsWordChar(t[0]) && ';' !in t
    ensures WellFormed(ClassifyWord(t[..WordSpan(t)]))
  {
    var w := t[..WordSpan(t)];
    forall i | 0 <= i < |w| ensures IsWordChar(w[i]) && w[i] != ';' {
      assert w[i] == t[i];
    }
    ClassifyWellFormed(w);
  }

  lemma ClassifyWellFormed(w: string)
    requires IsWord(w)
    ensures WellFormed(ClassifyWord(w))
  {
    match ParseNumber(w)
    case Some(v) =>
      assert IsWord(w) && ParseNumber(w) == Some(v);
    case None =>
  }

  lemma LineWellFormed(line: string)
    requires '\n' !in line
    ensures forall tok :: tok in TokenizeLine(line) ==> WellFormed(tok)
  {
    var clean := StripComment(line);
    assert ';' !in clean && '\n' !in clean by {
      assert forall i :: 0 <= i < |clean| ==> clean[i] == line[i];
    }
    PadIsPadded(clean);
    PadOccurrences(clean, ';');
    PadOccurrences(clean, '\n');
    var t := Pad(clean);
    assert ';' !in t && '\n' !in t by {
      OccurrencesAbsent(clean, ';');
      OccurrencesAbsent(clean, '\n');
      if ';' in t {
        OccurrencesPositive(t, ';');
      }
      if '\n' in t {
        OccurrencesPositive(t, '\n');
      }
    }
    ScanWellFormed(t);
  }

  lemma {:induction false} LinesWellFormed(lines: seq<string>)
    requires forall k :: 0 <= k < |lines| ==> '\n' !in lines[k]
    ensures forall tok :: tok in TokenizeLines(lines) ==> WellFormed(tok)
  {
    if |lines| > 0 {
      LineWellFormed(lines[0]);
      LinesWellFormed(lines[1..]);
    }
  }
}
