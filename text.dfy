/**
 * The string primitives of JavaScript that the mail service relies on, written
 * over `seq<char>`: ASCII case mapping, the whitespace class shared by `\s`
 * and `String.prototype.trim`, `indexOf`, `split`, `join` and `replace` with
 * a string pattern.
 */
module Text {
  import opened Wrappers

  /** ECMAScript WhiteSpace and LineTerminator: the characters `\s` matches and `trim` removes. */
  predicate IsSpace(c: char) {
    || c == ' ' || c == '\t' || c == '\n' || c == '\r' || c == '\U{B}' || c == '\U{C}'
    || c == '\U{A0}' || c == '\U{1680}' || ('\U{2000}' <= c <= '\U{200A}')
    || c == '\U{2028}' || c == '\U{2029}' || c == '\U{202F}' || c == '\U{205F}'
    || c == '\U{3000}' || c == '\U{FEFF}'
  }

  /** The characters at which `^` and `$` match in a multiline regular expression, and which `.` refuses. */
  predicate IsLineTerminator(c: char) {
    c == '\n' || c == '\r' || c == '\U{2028}' || c == '\U{2029}'
  }

  predicate IsUpper(c: char) { 'A' <= c <= 'Z' }

  predicate IsLower(c: char) { 'a' <= c <= 'z' }

  /** The word characters of `\b` in a regular expression without the `u` flag. */
  predicate IsWordChar(c: char) {
    IsUpper(c) || IsLower(c) || ('0' <= c <= '9') || c == '_'
  }

  function LowerChar(c: char): (r: char)
    ensures !IsUpper(r)
    ensures IsUpper(c) ==> IsLower(r) && UpperChar(r) == c
    ensures !IsUpper(c) ==> r == c
  {
    if IsUpper(c) then (c as int + 32) as char else c
  }

  function UpperChar(c: char): (r: char)
    ensures !IsLower(r)
    ensures !IsLower(c) ==> r == c
  {
    if IsLower(c) then (c as int - 32) as char else c
  }

  /** `toLowerCase`, on the ASCII letters. */
  function Lower(s: string): (r: string)
    ensures |r| == |s|
    ensures forall i :: 0 <= i < |s| ==> r[i] == LowerChar(s[i])
  {
    seq(|s|, i requires 0 <= i < |s| => LowerChar(s[i]))
  }

  lemma LowerAppend(a: string, b: string)
    ensures Lower(a + b) == Lower(a) + Lower(b)
  {
  }

  lemma LowerIdempotent(s: string)
    ensures Lower(Lower(s)) == Lower(s)
  {
  }

  /** `t` occurs in `s` at index `i`. */
  predicate OccursAt(s: string, t: string, i: int) {
    0 <= i && i + |t| <= |s| && s[i..i + |t|] == t
  }

  /** `s.includes(t)`. */
  predicate Contains(s: string, t: string) {
    exists i | 0 <= i <= |s| - |t| :: OccursAt(s, t, i)
  }

  /** `s.indexOf(t, from)`: the leftmost occurrence at or after `from`, if any. */
  function IndexOfFrom(s: string, t: string, from: nat): (r: Option<nat>)
    requires from <= |s|
    ensures r.Some? ==> from <= r.value && OccursAt(s, t, r.value)
    ensures r.Some? ==> forall j :: from <= j < r.value ==> !OccursAt(s, t, j)
    ensures r.None? ==> forall j :: from <= j ==> !OccursAt(s, t, j)
    decreases |s| - from
  {
    if from + |t| > |s| then None
    else if s[from..from + |t|] == t then Some(from)
    else IndexOfFrom(s, t, from + 1)
  }

  function IndexOf(s: string, t: string): (r: Option<nat>)
    ensures r.Some? <==> Contains(s, t)
    ensures r.Some? ==> OccursAt(s, t, r.value) && forall j :: 0 <= j < r.value ==> !OccursAt(s, t, j)
  {
    IndexOfFrom(s, t, 0)
  }

  /** The text before the first `c`, or all of `s`: `s.split(c)[0]`. */
  function Before(s: string, c: char): (r: string)
    ensures r <= s
    ensures c !in r
    ensures |r| < |s| ==> s[|r|] == c
  {
    if |s| == 0 || s[0] == c then [] else [s[0]] + Before(s[1..], c)
  }

  lemma BeforeAppend(a: string, c: char, b: string)
    requires c !in a
    ensures Before(a + [c] + b, c) == a
  {
    if |a| > 0 {
      BeforeAppend(a[1..], c, b);
      assert (a + [c] + b)[1..] == a[1..] + [c] + b;
    }
  }

  /** A string without the character is its own prefix before that character. */
  lemma {:induction false} BeforeWithoutMark(s: string, c: char)
    requires c !in s
    ensures Before(s, c) == s
  {
    if |s| > 0 {
      BeforeWithoutMark(s[1..], c);
    }
  }

  /** `trimStart`: drops the leading whitespace. */
  function TrimStart(s: string): (r: string)
    ensures |r| <= |s| && r == s[|s| - |r|..]
    ensures r == [] || !IsSpace(r[0])
    ensures forall i :: 0 <= i < |s| - |r| ==> IsSpace(s[i])
  {
    if |s| > 0 && IsSpace(s[0]) then TrimStart(s[1..]) else s
  }

  /** Concatenation is associative; stated once so proofs can name the step. */
  lemma Assoc<T>(a: seq<T>, b: seq<T>, c: seq<T>)
    ensures a + (b + c) == a + b + c
  {
  }

  /** `trimEnd`: drops the trailing whitespace. */
  function TrimEnd(s: string): (r: string)
    ensures r <= s
    ensures r == [] || !IsSpace(r[|r| - 1])
    ensures forall i :: |r| <= i < |s| ==> IsSpace(s[i])
  {
    if |s| > 0 && IsSpace(s[|s| - 1]) then TrimEnd(s[..|s| - 1]) else s
  }

  /** `trim`. */
  function Trim(s: string): (r: string)
    ensures r == [] || (!IsSpace(r[0]) && !IsSpace(r[|r| - 1]))
  {
    TrimEnd(TrimStart(s))
  }

  /** What `trim` keeps is a piece of the original: it only ever removes characters at the ends. */
  lemma TrimIsSlice(s: string)
    ensures |Trim(s)| <= |s| && exists k | 0 <= k <= |s| - |Trim(s)| :: OccursAt(s, Trim(s), k)
  {
    var t := TrimStart(s);
    var r := TrimEnd(t);
    var k := |s| - |t|;
    assert t[..|r|] == r && s[k..k + |r|] == t[..|r|];
    assert OccursAt(s, r, k);
  }

  /** Trailing whitespace never reaches back past a non-space character. */
  lemma {:induction false} TrimEndKeepsPrefix(p: string, q: string)
    requires |p| > 0 && !IsSpace(p[|p| - 1])
    ensures p <= TrimEnd(p + q)
  {
    if |q| > 0 && IsSpace(q[|q| - 1]) {
      assert (p + q)[..|p + q| - 1] == p + q[..|q| - 1];
      TrimEndKeepsPrefix(p, q[..|q| - 1]);
    }
  }

  /** `trim` leaves alone a string that neither starts nor ends with whitespace. */
  lemma TrimFramed(s: string)
    requires |s| > 0 && !IsSpace(s[0]) && !IsSpace(s[|s| - 1])
    ensures Trim(s) == s
  {
  }

  /** A prefix ending in a non-space character survives `trim` of any text that starts with it. */
  lemma TrimKeepsHead(head: string, rest: string)
    requires |head| > 0 && !IsSpace(head[0]) && !IsSpace(head[|head| - 1])
    ensures head <= Trim(head + rest)
  {
    assert (head + rest)[0] == head[0];
    TrimEndKeepsPrefix(head, rest);
  }

  /** `parts.join(sep)`. */
  function Join(parts: seq<string>, sep: string): string {
    if |parts| == 0 then ""
    else if |parts| == 1 then parts[0]
    else parts[0] + sep + Join(parts[1..], sep)
  }

  /** Joining the first `k` parts yields a prefix of joining them all. */
  lemma {:induction false} JoinPrefix(parts: seq<string>, sep: string, k: nat)
    requires k <= |parts|
    ensures Join(parts[..k], sep) <= Join(parts, sep)
  {
    if k == 0 {
    } else if k == 1 {
      if |parts| > 1 {
        assert Join(parts, sep) == parts[0] + (sep + Join(parts[1..], sep));
      }
    } else {
      JoinPrefix(parts[1..], sep, k - 1);
      assert parts[..k][1..] == parts[1..][..k - 1];
      assert Join(parts[..k], sep) == parts[0] + sep + Join(parts[1..][..k - 1], sep);
    }
  }

  /** `s.split(sep)` for a non-empty separator: cut at every leftmost non-overlapping occurrence. */
  function SplitOn(s: string, sep: string): (parts: seq<string>)
    requires |sep| > 0
    ensures |parts| >= 1
    ensures Join(parts, sep) == s
    ensures NoneContains(parts, sep)
    ensures |parts| == 1 <==> !Contains(s, sep)
    ensures |parts| > 1 ==> IndexOf(s, sep) == Some(|parts[0]|)
    decreases |s|
  {
    match IndexOf(s, sep)
    case None => [s]
    case Some(i) =>
      var rest := SplitOn(s[i + |sep|..], sep);
      assert s == s[..i] + sep + s[i + |sep|..];
      NothingBeforeFirst(s, sep, i);
      ConsNoneContains(s[..i], rest, sep);
      [s[..i]] + rest
  }

  /** No piece contains `t`. */
  predicate NoneContains(pieces: seq<string>, t: string) {
    forall k :: 0 <= k < |pieces| ==> !Contains(pieces[k], t)
  }

  lemma ConsNoneContains(first: string, rest: seq<string>, t: string)
    requires !Contains(first, t) && NoneContains(rest, t)
    ensures NoneContains([first] + rest, t)
  {
    var pieces := [first] + rest;
    forall k | 0 <= k < |pieces|
      ensures !Contains(pieces[k], t)
    {
      if k > 0 {
        assert pieces[k] == rest[k - 1];
      }
    }
  }

  /** The text before the first occurrence of `t` does not contain `t`. */
  lemma NothingBeforeFirst(s: string, t: string, i: nat)
    requires |t| > 0 && i <= |s|
    requires forall j :: 0 <= j < i ==> !OccursAt(s, t, j)
    ensures !Contains(s[..i], t)
  {
    forall j | 0 <= j <= i - |t|
      ensures !OccursAt(s[..i], t, j)
    {
      assert s[..i][j..j + |t|] == s[j..j + |t|];
      assert j < i && !OccursAt(s, t, j);
    }
  }

  /** `s.replace(pattern, replacement)` with a string pattern: only the first occurrence changes. */
  function ReplaceFirst(s: string, pattern: string, replacement: string): (r: string)
    ensures !Contains(s, pattern) ==> r == s
    ensures Contains(s, pattern) ==>
      exists i :: OccursAt(s, pattern, i) && r == s[..i] + replacement + s[i + |pattern|..]
              && forall j :: 0 <= j < i ==> !OccursAt(s, pattern, j)
  {
    match IndexOf(s, pattern)
    case None => s
    case Some(i) => s[..i] + replacement + s[i + |pattern|..]
  }

  /** Replaces every occurrence of the character `c` by `replacement`: `s.replace(/c/g, replacement)`. */
  function ReplaceChar(s: string, c: char, replacement: string): (r: string)
    ensures c !in replacement ==> c !in r
    ensures c !in s ==> r == s
  {
    if |s| == 0 then ""
    else (if s[0] == c then replacement else [s[0]]) + ReplaceChar(s[1..], c, replacement)
  }

  /** Replacing a character distributes over concatenation. */
  lemma {:induction false} ReplaceCharAppend(a: string, b: string, c: char, replacement: string)
    ensures ReplaceChar(a + b, c, replacement) == ReplaceChar(a, c, replacement) + ReplaceChar(b, c, replacement)
  {
    if |a| == 0 {
      assert a + b == b;
    } else {
      assert (a + b)[0] == a[0];
      assert (a + b)[1..] == a[1..] + b;
      ReplaceCharAppend(a[1..], b, c, replacement);
    }
  }

  /** On one character: the replacement for `c`, and the character itself otherwise. */
  lemma ReplaceCharSingle(x: char, c: char, replacement: string)
    ensures ReplaceChar([x], c, replacement) == (if x == c then replacement else [x])
  {
    assert [x][1..] == [];
  }

  /** Lines free of `c` joined by `c` come back joined by the replacement. */
  lemma {:induction false} ReplaceCharJoined(lines: seq<string>, c: char, replacement: string)
    requires forall k :: 0 <= k < |lines| ==> c !in lines[k]
    ensures ReplaceChar(Join(lines, [c]), c, replacement) == Join(lines, replacement)
    decreases |lines|
  {
    if |lines| > 1 {
      var rest := Join(lines[1..], [c]);
      ReplaceCharJoined(lines[1..], c, replacement);
      ReplaceCharAppend(lines[0] + [c], rest, c, replacement);
      ReplaceCharAppend(lines[0], [c], c, replacement);
      ReplaceCharSingle(c, c, replacement);
    }
  }

  /** `t` does not occur across a character it does not hold: joining pieces free of `t` by that character keeps it out. */
  lemma {:induction false} JoinAvoids(lines: seq<string>, c: char, t: string)
    requires |t| > 0 && c !in t
    requires forall k :: 0 <= k < |lines| ==> !Contains(lines[k], t)
    ensures !Contains(Join(lines, [c]), t)
    decreases |lines|
  {
    if |lines| > 1 {
      var a := lines[0];
      var b := Join(lines[1..], [c]);
      JoinAvoids(lines[1..], c, t);
      var s := a + [c] + b;
      assert Join(lines, [c]) == s;
      forall i | 0 <= i <= |s| - |t|
        ensures !OccursAt(s, t, i)
      {
        if i + |t| <= |a| {
          assert s[i..i + |t|] == a[i..i + |t|];
          assert !OccursAt(a, t, i);
        } else if i > |a| {
          assert s[i..i + |t|] == b[i - |a| - 1..i - |a| - 1 + |t|];
          assert !OccursAt(b, t, i - |a| - 1);
        } else {
          assert s[i..i + |t|][|a| - i] == c;
        }
      }
    }
  }
}
