/**
 * The string primitives the application relies on, restricted to what it uses:
 * `toLowerCase` (ASCII letters only), `includes` (substring test) and `trim`
 * (ECMAScript white space and line terminators), plus a splitter on one
 * character that states the line shape of generated text.
 */
module Text {

  predicate IsAsciiUpper(c: char) {
    'A' <= c <= 'Z'
  }

  function LowerChar(c: char): char {
    if IsAsciiUpper(c) then (c as int + 32) as char else c
  }

  function UpperChar(c: char): char {
    if 'a' <= c <= 'z' then (c as int - 32) as char else c
  }

  /** `s.toLowerCase()` on ASCII letters; every other character is kept. */
  function Lower(s: string): (r: string)
    ensures |r| == |s|
    ensures forall i :: 0 <= i < |s| ==> r[i] == LowerChar(s[i]) && !IsAsciiUpper(r[i])
  {
    seq(|s|, i requires 0 <= i < |s| => LowerChar(s[i]))
  }

  /** `s.toUpperCase()` on ASCII letters, used to state case-insensitivity. */
  function Upper(s: string): (r: string)
    ensures |r| == |s|
    ensures forall i :: 0 <= i < |s| ==> r[i] == UpperChar(s[i])
  {
    seq(|s|, i requires 0 <= i < |s| => UpperChar(s[i]))
  }

  /** Lower-casing forgets the case of every letter. */
  lemma LowerOfUpper(s: string)
    ensures Lower(Upper(s)) == Lower(s)
  {
    assert forall i :: 0 <= i < |s| ==> Lower(Upper(s))[i] == Lower(s)[i];
  }

  /** Lower-casing twice is lower-casing once. */
  lemma LowerIdempotent(s: string)
    ensures Lower(Lower(s)) == Lower(s)
  {
    assert forall i :: 0 <= i < |s| ==> Lower(Lower(s))[i] == Lower(s)[i];
  }

  /** `sub` occurs in `s` starting at position `i`. */
  ghost predicate OccursAt(s: string, sub: string, i: int) {
    0 <= i && i + |sub| <= |s| && s[i..i + |sub|] == sub
  }

  /** The three parts of a concatenation are its slices at their own offsets. */
  lemma ConcatSlices(a: string, b: string, c: string)
    ensures (a + b + c)[..|a|] == a
    ensures (a + b + c)[|a|..|a| + |b|] == b
    ensures (a + b + c)[|a| + |b|..] == c
  {
  }

  /** `s.includes(sub)`: tries every start position from the left. Only a text
      at least as long as `sub` can include it. */
  predicate Includes(s: string, sub: string)
    ensures Includes(s, sub) ==> |sub| <= |s|
    decreases |s|
  {
    sub <= s || (|s| > 0 && Includes(s[1..], sub))
  }

  /** An occurrence at any position makes `includes` hold. */
  lemma {:induction false} IncludesAt(s: string, sub: string, i: int)
    requires OccursAt(s, sub, i)
    ensures Includes(s, sub)
    decreases i
  {
    if i > 0 {
      assert s[1..][i - 1..i - 1 + |sub|] == s[i..i + |sub|];
      IncludesAt(s[1..], sub, i - 1);
    }
  }

  /** When `includes` holds there is a position where `sub` occurs. */
  lemma {:induction false} IncludesWitness(s: string, sub: string) returns (i: int)
    requires Includes(s, sub)
    ensures OccursAt(s, sub, i)
    decreases |s|
  {
    if sub <= s {
      i := 0;
    } else {
      var j := IncludesWitness(s[1..], sub);
      assert s[1..][j..j + |sub|] == s[j + 1..j + 1 + |sub|];
      i := j + 1;
    }
  }

  /** Every character of an included string is a character of the whole. */
  lemma IncludesChars(s: string, sub: string, c: char)
    requires Includes(s, sub) && c in sub
    ensures c in s
  {
    var i := IncludesWitness(s, sub);
    var k :| 0 <= k < |sub| && sub[k] == c;
    assert s[i + k] == s[i..i + |sub|][k];
  }

  /** `includes` holds exactly when `sub` occurs at some position of `s`. */
  lemma IncludesIff(s: string, sub: string)
    ensures Includes(s, sub) <==> exists i :: OccursAt(s, sub, i)
  {
    if Includes(s, sub) {
      var i := IncludesWitness(s, sub);
    } else {
      forall i | 0 <= i ensures !OccursAt(s, sub, i) {
        if OccursAt(s, sub, i) {
          IncludesAt(s, sub, i);
        }
      }
    }
  }

  /** The empty string is included in every string, as in JavaScript. */
  lemma IncludesEmpty(s: string)
    ensures Includes(s, "")
  {
  }

  /** ECMAScript WhiteSpace and LineTerminator code points, the set `trim` removes. */
  predicate IsJsWhitespace(c: char) {
    || c == '\t' || c == '\n' || c == '\U{000B}' || c == '\U{000C}' || c == '\r'
    || c == ' ' || c == '\U{00A0}' || c == '\U{1680}'
    || ('\U{2000}' <= c <= '\U{200A}')
    || c == '\U{2028}' || c == '\U{2029}' || c == '\U{202F}' || c == '\U{205F}'
    || c == '\U{3000}' || c == '\U{FEFF}'
  }

  ghost predicate AllWhitespace(s: string) {
    forall k :: 0 <= k < |s| ==> IsJsWhitespace(s[k])
  }

  /** The first position at or after `i` that does not hold white space, or `|s|`. */
  function SkipWhitespace(s: string, i: nat): (j: nat)
    requires i <= |s|
    ensures i <= j <= |s|
    ensures forall k :: i <= k < j ==> IsJsWhitespace(s[k])
    ensures j == |s| || !IsJsWhitespace(s[j])
    decreases |s| - i
  {
    if i < |s| && IsJsWhitespace(s[i]) then SkipWhitespace(s, i + 1) else i
  }

  /** Moving back from `j` towards `i`, the end of the last character that is not
      white space, or `i`. */
  function SkipWhitespaceBack(s: string, i: nat, j: nat): (e: nat)
    requires i <= j <= |s|
    ensures i <= e <= j
    ensures forall k :: e <= k < j ==> IsJsWhitespace(s[k])
    ensures e == i || !IsJsWhitespace(s[e - 1])
    decreases j - i
  {
    if i < j && IsJsWhitespace(s[j - 1]) then SkipWhitespaceBack(s, i, j - 1) else j
  }

  /** `r` is the slice of `s` at `i`, and everything before and after it is
      white space. */
  ghost predicate StrippedAt(s: string, r: string, i: int) {
    OccursAt(s, r, i) && AllWhitespace(s[..i]) && AllWhitespace(s[i + |r|..])
  }

  /** `s.trim()`: the slice of `s` between its leading and its trailing white
      space. It is blank exactly when `s` is all white space, and otherwise starts
      and ends with a character that is not. */
  function Trim(s: string): (r: string)
    ensures exists i :: StrippedAt(s, r, i)
    ensures r == [] <==> AllWhitespace(s)
    ensures r != [] ==> !IsJsWhitespace(r[0]) && !IsJsWhitespace(r[|r| - 1])
  {
    var i := SkipWhitespace(s, 0);
    var e := SkipWhitespaceBack(s, i, |s|);
    assert StrippedAt(s, s[i..e], i);
    assert e == i ==> AllWhitespace(s);
    assert e > i ==> s[i..e][0] == s[i] && s[i..e][e - i - 1] == s[e - 1];
    s[i..e]
  }

  /** Trimming a trimmed string changes nothing. */
  lemma TrimIdempotent(s: string)
    ensures Trim(Trim(s)) == Trim(s)
  {
    var t := Trim(s);
    if t != [] {
      assert SkipWhitespace(t, 0) == 0;
      assert SkipWhitespaceBack(t, 0, |t|) == |t|;
    }
  }

  /** A string that neither starts nor ends with white space is its own trim. */
  lemma TrimUnpadded(s: string)
    requires s != [] && !IsJsWhitespace(s[0]) && !IsJsWhitespace(s[|s| - 1])
    ensures Trim(s) == s
  {
    assert SkipWhitespace(s, 0) == 0;
    assert SkipWhitespaceBack(s, 0, |s|) == |s|;
  }

  /** The pieces of `s` between occurrences of `sep`, as `s.split(sep)` gives them. */
  function Split(s: string, sep: char): (parts: seq<string>)
    ensures |parts| >= 1
    ensures forall p :: p in parts ==> sep !in p
    decreases |s|
  {
    if s == [] then [""]
    else
      var rest := Split(s[1..], sep);
      if s[0] == sep then [""] + rest else [[s[0]] + rest[0]] + rest[1..]
  }

  /** Lines followed by `sep` each: `l0 + sep + l1 + sep + ...`. */
  function Terminated(lines: seq<string>, sep: char): string {
    if lines == [] then "" else lines[0] + [sep] + Terminated(lines[1..], sep)
  }

  /** A piece free of the separator comes back whole, before what follows it. */
  lemma {:induction false} SplitPiece(a: string, sep: char, b: string)
    requires sep !in a
    ensures Split(a + [sep] + b, sep) == [a] + Split(b, sep)
    decreases |a|
  {
    if a == [] {
      assert a + [sep] + b == [sep] + b;
      assert ([sep] + b)[1..] == b;
    } else {
      SplitPiece(a[1..], sep, b);
      assert (a + [sep] + b)[1..] == a[1..] + [sep] + b;
      assert [a[0]] + a[1..] == a;
    }
  }

  /** A string free of the separator is one piece. */
  lemma {:induction false} SplitWhole(a: string, sep: char)
    requires sep !in a
    ensures Split(a, sep) == [a]
    decreases |a|
  {
    if a != [] {
      SplitWhole(a[1..], sep);
      assert [a[0]] + a[1..] == a;
    }
  }

  /** Terminating one more line appends that line and a separator. */
  lemma {:induction false} TerminatedSnoc(lines: seq<string>, line: string, sep: char)
    ensures Terminated(lines + [line], sep) == Terminated(lines, sep) + line + [sep]
  {
    if lines == [] {
      assert lines + [line] == [line];
      assert [line][1..] == [];
    } else {
      assert (lines + [line])[1..] == lines[1..] + [line];
      TerminatedSnoc(lines[1..], line, sep);
    }
  }

  /** Splitting separator-terminated lines and a tail gives back the lines, then the
      pieces of the tail. */
  lemma {:induction false} SplitTerminated(lines: seq<string>, sep: char, tail: string)
    requires forall l :: l in lines ==> sep !in l
    ensures Split(Terminated(lines, sep) + tail, sep) == lines + Split(tail, sep)
    decreases |lines|
  {
    if lines != [] {
      var rest := Terminated(lines[1..], sep) + tail;
      SplitTerminated(lines[1..], sep, tail);
      assert Terminated(lines, sep) + tail == lines[0] + [sep] + rest;
      SplitPiece(lines[0], sep, rest);
      assert lines == [lines[0]] + lines[1..];
      assert [lines[0]] + (lines[1..] + Split(tail, sep)) == lines + Split(tail, sep);
    } else {
      assert Terminated(lines, sep) + tail == tail;
    }
  }
}
