/**
 * Character and string helpers shared by both tokenizers: Rust's notion of
 * whitespace, `str::lines`, `str::split_whitespace`, `str::replace` and the
 * bracket padding both tokenizers apply before scanning.
 */
module Text {

  /** Rust's `char::is_whitespace`: the Unicode White_Space property. */
  predicate IsWhitespace(c: char) {
    var n := c as int;
    || (0x09 <= n <= 0x0D) || n == 0x20 || n == 0x85 || n == 0xA0 || n == 0x1680
    || (0x2000 <= n <= 0x200A) || n == 0x2028 || n == 0x2029 || n == 0x202F
    || n == 0x205F || n == 0x3000
  }

  predicate IsBracket(c: char) {
    c == '[' || c == ']'
  }

  /** Position of the first `c` in `s`, or `|s|` when there is none. */
  function IndexOf(s: string, c: char): (i: nat)
    ensures i <= |s|
    ensures forall j :: 0 <= j < i ==> s[j] != c
    ensures i < |s| ==> s[i] == c
  {
    if |s| == 0 || s[0] == c then 0 else 1 + IndexOf(s[1..], c)
  }

  /** Number of times `x` occurs in `s`. */
  function Occurrences<T(==)>(s: seq<T>, x: T): nat {
    if |s| == 0 then 0 else (if s[0] == x then 1 else 0) + Occurrences(s[1..], x)
  }

  /** Counting occurrences of a sequence with one element in front. */
  lemma OccurrencesCons<T>(x: T, xs: seq<T>, y: T)
    ensures Occurrences([x] + xs, y) == (if x == y then 1 else 0) + Occurrences(xs, y)
  {
    assert ([x] + xs)[1..] == xs;
  }

  lemma {:induction false} OccurrencesConcat<T>(a: seq<T>, b: seq<T>, x: T)
    ensures Occurrences(a + b, x) == Occurrences(a, x) + Occurrences(b, x)
  {
    if |a| == 0 {
      assert a + b == b;
    } else {
      assert (a + b)[1..] == a[1..] + b;
      OccurrencesConcat(a[1..], b, x);
    }
  }

  lemma {:induction false} OccurrencesAbsent<T>(s: seq<T>, x: T)
    requires x !in s
    ensures Occurrences(s, x) == 0
  {
    if |s| > 0 {
      assert x !in s[1..] by {
        forall i | 0 <= i < |s[1..]| ensures s[1..][i] != x {
          assert s[1..][i] == s[i + 1];
        }
      }
      OccurrencesAbsent(s[1..], x);
    }
  }

  lemma {:induction false} OccurrencesPositive<T>(s: seq<T>, x: T)
    requires x in s
    ensures Occurrences(s, x) > 0
  {
    if s[0] != x {
      OccurrencesPositive(s[1..], x);
    }
  }

  // ---------------------------------------------------------------------------
  // Bracket padding: `.replace('[', " [ ").replace(']', " ] ")`
  // ---------------------------------------------------------------------------

  /** Rust's `str::replace` of one character by a string. */
  function Replace(s: string, c: char, r: string): string {
    if |s| == 0 then "" else (if s[0] == c then r else [s[0]]) + Replace(s[1..], c, r)
  }

  lemma {:induction false} ReplaceConcat(a: string, b: string, c: char, r: string)
    ensures Replace(a + b, c, r) == Replace(a, c, r) + Replace(b, c, r)
  {
    if |a| == 0 {
      assert a + b == b;
    } else {
      assert (a + b)[1..] == a[1..] + b;
      ReplaceConcat(a[1..], b, c, r);
    }
  }

  function PadChar(c: char): string {
    if c == '[' then " [ " else if c == ']' then " ] " else [c]
  }

  /** Both tokenizers' first step: one space on each side of every bracket. */
  function Pad(s: string): string {
    if |s| == 0 then "" else PadChar(s[0]) + Pad(s[1..])
  }

  /** Padding works character by character. */
  lemma PadFront(c: char, rest: string)
    ensures Pad([c] + rest) == PadChar(c) + Pad(rest)
  {
    assert ([c] + rest)[1..] == rest;
  }

  lemma {:induction false} ReplaceAbsent(s: string, c: char, r: string)
    requires forall i :: 0 <= i < |s| ==> s[i] != c
    ensures Replace(s, c, r) == s
  {
    if |s| > 0 {
      ReplaceAbsent(s[1..], c, r);
    }
  }

  /** Padding in one pass is the source's two chained `replace` calls. */
  lemma {:induction false} PadIsTwoReplacements(s: string)
    ensures Pad(s) == Replace(Replace(s, '[', " [ "), ']', " ] ")
  {
    if |s| > 0 {
      var first := if s[0] == '[' then " [ " else [s[0]];
      var rest := Replace(s[1..], '[', " [ ");
      assert Replace(s, '[', " [ ") == first + rest;
      ReplaceConcat(first, rest, ']', " ] ");
      if s[0] == '[' {
        ReplaceAbsent(first, ']', " ] ");
      } else {
        assert Replace(first, ']', " ] ") == (if s[0] == ']' then " ] " else [s[0]]) + Replace("", ']', " ] ");
      }
      PadIsTwoReplacements(s[1..]);
    }
  }

  lemma {:induction false} PadConcat(a: string, b: string)
    ensures Pad(a + b) == Pad(a) + Pad(b)
  {
    if |a| == 0 {
      assert a + b == b;
    } else {
      assert (a + b)[1..] == a[1..] + b;
      PadConcat(a[1..], b);
    }
  }

  /** Every bracket has a space immediately before and after it. */
  predicate Padded(t: string) {
    forall j :: 0 <= j < |t| && IsBracket(t[j]) ==> 0 < j < |t| - 1 && t[j - 1] == ' ' && t[j + 1] == ' '
  }

  lemma PaddedConcat(a: string, b: string)
    requires Padded(a) && Padded(b)
    ensures Padded(a + b)
  {
    var t := a + b;
    forall j | 0 <= j < |t| && IsBracket(t[j])
      ensures 0 < j < |t| - 1 && t[j - 1] == ' ' && t[j + 1] == ' '
    {
      if j < |a| {
        assert IsBracket(a[j]);
      } else {
        assert IsBracket(b[j - |a|]);
      }
    }
  }

  /**
   * The part of `Padded` that survives dropping a prefix: a bracket is
   * followed by a space, and preceded by one unless it comes first.
   */
  predicate SpacedBrackets(t: string) {
    forall j :: 0 <= j < |t| && IsBracket(t[j]) ==> (j == 0 || t[j - 1] == ' ') && j + 1 < |t| && t[j + 1] == ' '
  }

  lemma SpacedBracketsSuffix(t: string, k: nat)
    requires SpacedBrackets(t) && k <= |t|
    ensures SpacedBrackets(t[k..])
  {
    var u := t[k..];
    forall j | 0 <= j < |u| && IsBracket(u[j])
      ensures (j == 0 || u[j - 1] == ' ') && j + 1 < |u| && u[j + 1] == ' '
    {
      assert u[j] == t[k + j];
    }
  }

  lemma {:induction false} PadIsPadded(s: string)
    ensures Padded(Pad(s))
  {
    if |s| > 0 {
      PadIsPadded(s[1..]);
      PaddedConcat(PadChar(s[0]), Pad(s[1..]));
    }
  }

  lemma PadCharOccurrences(x: char, c: char)
    requires c != ' '
    ensures Occurrences(PadChar(x), c) == if x == c then 1 else 0
  {
    var p := PadChar(x);
    if IsBracket(x) {
      assert Occurrences(p, c) == Occurrences(p[1..], c);
      assert p[1..][1..] == " ";
      assert Occurrences(p[1..][1..], c) == 0;
    } else {
      assert p[1..] == "";
    }
  }

  /** Padding only adds spaces: every other character keeps its count. */
  lemma {:induction false} PadOccurrences(s: string, c: char)
    requires c != ' '
    ensures Occurrences(Pad(s), c) == Occurrences(s, c)
  {
    if |s| > 0 {
      OccurrencesConcat(PadChar(s[0]), Pad(s[1..]), c);
      PadOccurrences(s[1..], c);
      PadCharOccurrences(s[0], c);
    }
  }

  lemma {:induction false} PadWithoutBrackets(s: string)
    requires forall i :: 0 <= i < |s| ==> !IsBracket(s[i])
    ensures Pad(s) == s
  {
    if |s| > 0 {
      PadWithoutBrackets(s[1..]);
    }
  }

  // ---------------------------------------------------------------------------
  // Rust's `str::lines`
  // ---------------------------------------------------------------------------

  function StripCarriageReturn(line: string): string {
    if |line| > 0 && line[|line| - 1] == '\r' then line[..|line| - 1] else line
  }

  /**
   * Rust's `str::lines`: split after every `\n`, drop the `\n` and a `\r`
   * just before it; a final line without `\n` is kept as it is, and an empty
   * final piece is not a line.
   */
  function Lines(s: string): (lines: seq<string>)
    ensures forall k :: 0 <= k < |lines| ==> '\n' !in lines[k]
    decreases |s|
  {
    if |s| == 0 then []
    else
      var i := IndexOf(s, '\n');
      if i == |s| then [s] else [StripCarriageReturn(s[..i])] + Lines(s[i + 1..])
  }

  lemma StripCarriageReturnOccurrences(line: string, c: char)
    requires c != '\r'
    ensures Occurrences(StripCarriageReturn(line), c) == Occurrences(line, c)
  {
    if |line| > 0 && line[|line| - 1] == '\r' {
      assert line == line[..|line| - 1] + "\r";
      OccurrencesConcat(line[..|line| - 1], "\r", c);
    }
  }

  lemma ConcatCons(first: string, rest: seq<string>)
    ensures Concat([first] + rest) == first + Concat(rest)
  {
    assert ([first] + rest)[1..] == rest;
  }

  /** Splitting into lines loses only line terminators. */
  lemma {:induction false} LinesOccurrences(s: string, c: char)
    requires c != '\n' && c != '\r'
    ensures Occurrences(Concat(Lines(s)), c) == Occurrences(s, c)
    decreases |s|
  {
    if |s| > 0 {
      var i := IndexOf(s, '\n');
      if i == |s| {
        ConcatCons(s, []);
        assert s + "" == s;
      } else {
        var line := s[..i];
        var rest := s[i + 1..];
        LinesOccurrences(rest, c);
        assert Lines(s) == [StripCarriageReturn(line)] + Lines(rest);
        ConcatCons(StripCarriageReturn(line), Lines(rest));
        OccurrencesConcat(StripCarriageReturn(line), Concat(Lines(rest)), c);
        LineBreakOccurrences(s, i, c);
      }
    }
  }

  /** A line break splits the occurrences of any other character between the two sides. */
  lemma LineBreakOccurrences(s: string, i: nat, c: char)
    requires i < |s| && s[i] == '\n' && c != '\n' && c != '\r'
    ensures Occurrences(s, c) == Occurrences(StripCarriageReturn(s[..i]), c) + Occurrences(s[i + 1..], c)
  {
    var line := s[..i];
    var rest := s[i + 1..];
    StripCarriageReturnOccurrences(line, c);
    assert s == line + ([s[i]] + rest);
    OccurrencesConcat(line, [s[i]] + rest, c);
    assert ([s[i]] + rest)[1..] == rest;
  }

  // ---------------------------------------------------------------------------
  // Rust's `str::split_whitespace`
  // ---------------------------------------------------------------------------

  /** Length of the longest prefix of `s` without whitespace. */
  function NonWhitespaceSpan(s: string): (n: nat)
    ensures n <= |s|
    ensures forall i :: 0 <= i < n ==> !IsWhitespace(s[i])
    ensures n < |s| ==> IsWhitespace(s[n])
  {
    if |s| == 0 || IsWhitespace(s[0]) then 0 else 1 + NonWhitespaceSpan(s[1..])
  }

  /** Rust's `str::split_whitespace`: the maximal runs of non-whitespace. */
  function SplitWhitespace(s: string): seq<string>
    decreases |s|
  {
    if |s| == 0 then []
    else if IsWhitespace(s[0]) then SplitWhitespace(s[1..])
    else
      var n := NonWhitespaceSpan(s);
      [s[..n]] + SplitWhitespace(s[n..])
  }

  /** `s` with every whitespace character deleted. */
  function RemoveWhitespace(s: string): string {
    if |s| == 0 then "" else (if IsWhitespace(s[0]) then "" else [s[0]]) + RemoveWhitespace(s[1..])
  }

  lemma {:induction false} RemoveWhitespaceConcat(a: string, b: string)
    ensures RemoveWhitespace(a + b) == RemoveWhitespace(a) + RemoveWhitespace(b)
  {
    if |a| == 0 {
      assert a + b == b;
    } else {
      assert (a + b)[1..] == a[1..] + b;
      RemoveWhitespaceConcat(a[1..], b);
    }
  }

  /** Padding only adds whitespace. */
  lemma {:induction false} RemoveWhitespacePad(s: string)
    ensures RemoveWhitespace(Pad(s)) == RemoveWhitespace(s)
  {
    if |s| > 0 {
      RemoveWhitespaceConcat(PadChar(s[0]), Pad(s[1..]));
      RemoveWhitespacePad(s[1..]);
      var p := PadChar(s[0]);
      if IsBracket(s[0]) {
        assert RemoveWhitespace(p) == RemoveWhitespace(p[1..]);
        assert RemoveWhitespace(p[1..]) == [s[0]] + RemoveWhitespace(p[1..][1..]);
        assert p[1..][1..] == " ";
        assert RemoveWhitespace(p[1..][1..]) == "" + RemoveWhitespace(p[1..][1..][1..]);
        assert p[1..][1..][1..] == "";
      } else {
        assert p[1..] == "";
      }
    }
  }

  /** The concatenation of a sequence of strings. */
  function Concat(words: seq<string>): string {
    if |words| == 0 then "" else words[0] + Concat(words[1..])
  }
}
