/** JavaScript string operations the screens and dialogs rely on:
    `trim`, `toUpperCase` and `split` with a one-character separator. */
module Text {
  import opened Base

  /** The characters `String.prototype.trim` removes: the ECMAScript
      WhiteSpace and LineTerminator characters. */
  predicate IsWhitespace(c: char) {
    || c == '\t' || c == '\n' || c == '\U{B}' || c == '\U{C}' || c == '\r' || c == ' '
    || c == '\U{A0}' || c == '\U{1680}' || ('\U{2000}' <= c <= '\U{200A}')
    || c == '\U{2028}' || c == '\U{2029}' || c == '\U{202F}' || c == '\U{205F}'
    || c == '\U{3000}' || c == '\U{FEFF}'
  }

  predicate AllWhitespace(s: string) {
    forall i :: 0 <= i < |s| ==> IsWhitespace(s[i])
  }

  /** Leading whitespace removed: a suffix of `s` that starts with a
      non-whitespace character (or is empty), all of whose cut-off prefix is
      whitespace. */
  function TrimStart(s: string): (r: string)
    ensures |r| <= |s| && r == s[|s| - |r|..]
    ensures r == [] || !IsWhitespace(r[0])
    ensures AllWhitespace(s[..|s| - |r|])
    decreases |s|
  {
    if |s| > 0 && IsWhitespace(s[0]) then
      var r := TrimStart(s[1..]);
      assert s[..|s| - |r|] == [s[0]] + s[1..][..|s[1..]| - |r|];
      r
    else s
  }

  /** Trailing whitespace removed, symmetrically. */
  function TrimEnd(s: string): (r: string)
    ensures |r| <= |s| && r == s[..|r|]
    ensures r == [] || !IsWhitespace(r[|r| - 1])
    ensures AllWhitespace(s[|r|..])
    decreases |s|
  {
    if |s| > 0 && IsWhitespace(s[|s| - 1]) then
      var r := TrimEnd(s[..|s| - 1]);
      assert s[|r|..] == s[..|s| - 1][|r|..] + [s[|s| - 1]];
      r
    else s
  }

  /** `s.trim()` */
  function Trim(s: string): string {
    TrimEnd(TrimStart(s))
  }

  /** Only an all-whitespace string trims to nothing. */
  lemma {:induction false} BlankIsWhitespace(s: string)
    requires Trim(s) == ""
    ensures AllWhitespace(s)
  {
    var a := TrimStart(s);
    assert a[|TrimEnd(a)|..] == a;
    assert a == [];
    assert s[..|s| - |a|] == s;
  }

  /** An all-whitespace string loses everything to `TrimStart`. */
  lemma {:induction false} WhitespaceTrimsAway(s: string)
    requires AllWhitespace(s)
    ensures TrimStart(s) == []
    decreases |s|
  {
    if |s| > 0 {
      assert IsWhitespace(s[0]);
      assert forall i :: 0 <= i < |s[1..]| ==> s[1..][i] == s[i + 1];
      WhitespaceTrimsAway(s[1..]);
    }
  }

  /** A non-empty trimmed string starts and ends with non-whitespace. */
  lemma TrimmedEnds(s: string)
    requires Trim(s) != ""
    ensures !IsWhitespace(Trim(s)[0]) && !IsWhitespace(Trim(s)[|Trim(s)| - 1])
  {
    var a := TrimStart(s);
    var b := TrimEnd(a);
    assert Trim(s) == b;
    assert b[0] == a[0];
  }

  /** A string trims to nothing exactly when it is all whitespace, and
      otherwise its trimmed form starts and ends with non-whitespace. */
  lemma TrimBlank(s: string)
    ensures Trim(s) == "" <==> AllWhitespace(s)
    ensures Trim(s) != "" ==> !IsWhitespace(Trim(s)[0]) && !IsWhitespace(Trim(s)[|Trim(s)| - 1])
  {
    if Trim(s) == "" {
      BlankIsWhitespace(s);
    } else {
      TrimmedEnds(s);
    }
    if AllWhitespace(s) {
      WhitespaceTrimsAway(s);
      assert Trim(s) == TrimEnd([]);
    }
  }

  /** `toUpperCase` on one character, for the Latin-1 range: the ASCII
      letters, the accented small letters U+00E0..U+00FE (not the division
      sign U+00F7), U+00FF and the micro sign U+00B5. */
  function UpperChar(c: char): (u: char)
    ensures 'A' <= u <= 'Z' <==> 'A' <= c <= 'Z' || 'a' <= c <= 'z'
    ensures !('a' <= c <= 'z') && c < '\U{B5}' ==> u == c
  {
    if 'a' <= c <= 'z' then (c as int - 32) as char
    else if '\U{E0}' <= c <= '\U{FE}' && c != '\U{F7}' then (c as int - 32) as char
    else if c == '\U{FF}' then '\U{178}'
    else if c == '\U{B5}' then '\U{39C}'
    else c
  }

  /** `s.toUpperCase()`, character by character. */
  function Upper(s: string): (r: string)
    ensures |r| == |s| && forall i :: 0 <= i < |s| ==> r[i] == UpperChar(s[i])
  {
    seq(|s|, i requires 0 <= i < |s| => UpperChar(s[i]))
  }

  /** `s.split(sep)`: the pieces between separators, empty ones included;
      there is always at least one piece. */
  function Split(s: string, sep: char): (r: seq<string>)
    ensures |r| > 0
    ensures forall i :: 0 <= i < |r| ==> sep !in r[i]
    decreases |s|
  {
    match SplitFirst(s, sep)
    case None => [s]
    case Some(parts) =>
      assert |parts.1| < |s| by { assert |s| == |parts.0| + 1 + |parts.1|; }
      [parts.0] + Split(parts.1, sep)
  }

  /** Joining the pieces with the separator gives back the string. */
  function Join(pieces: seq<string>, sep: char): string
    requires |pieces| > 0
    decreases |pieces|
  {
    if |pieces| == 1 then pieces[0] else pieces[0] + [sep] + Join(pieces[1..], sep)
  }

  lemma {:induction false} SplitJoin(s: string, sep: char)
    ensures Join(Split(s, sep), sep) == s
    decreases |s|
  {
    match SplitFirst(s, sep)
    case None =>
    case Some(parts) =>
      assert |s| == |parts.0| + 1 + |parts.1|;
      SplitJoin(parts.1, sep);
      assert Split(s, sep)[1..] == Split(parts.1, sep);
  }
}
