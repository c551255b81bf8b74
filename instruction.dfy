/**
 * How the Meta agent of src/agents/meta-agent.ts reads an address as an instruction: the
 * local part with camel case split, separator runs collapsed, trimmed and lower-cased.
 */
module Instruction {
  import opened Text

  /** No lower-case letter directly followed by an upper-case one. */
  predicate NoCamelBoundary(s: string) {
    forall i :: 0 <= i < |s| - 1 ==> !(IsLower(s[i]) && IsUpper(s[i + 1]))
  }

  /**
   * `replace(/([a-z])([A-Z])/g, "$1 $2")`: the match is tried left to right and consumes both
   * letters, so scanning resumes after the upper-case one.
   */
  function SplitCamel(s: string): (r: string)
    ensures |s| > 0 ==> |r| > 0 && r[0] == s[0]
    decreases |s|
  {
    if |s| < 2 then s
    else if IsLower(s[0]) && IsUpper(s[1]) then [s[0], ' ', s[1]] + SplitCamel(s[2..])
    else [s[0]] + SplitCamel(s[1..])
  }

  /** The string with its space characters removed. */
  function WithoutSpaces(s: string): (r: string)
    ensures ' ' !in r
  {
    if |s| == 0 then ""
    else if s[0] == ' ' then WithoutSpaces(s[1..])
    else [s[0]] + WithoutSpaces(s[1..])
  }

  /** The only change camel-case splitting makes is to add spaces. */
  lemma {:induction false} SplitCamelOnlyAddsSpaces(s: string)
    ensures WithoutSpaces(SplitCamel(s)) == WithoutSpaces(s)
    decreases |s|
  {
    if |s| >= 2 {
      if IsLower(s[0]) && IsUpper(s[1]) {
        SplitCamelOnlyAddsSpaces(s[2..]);
        var r := SplitCamel(s[2..]);
        var split := [s[0], ' ', s[1]] + r;
        assert split[1..][1..] == [s[1]] + r && ([s[1]] + r)[1..] == r;
        assert WithoutSpaces(split) == [s[0]] + WithoutSpaces(split[1..]);
        assert WithoutSpaces(split[1..]) == WithoutSpaces([s[1]] + r);
        assert WithoutSpaces([s[1]] + r) == [s[1]] + WithoutSpaces(r);
        assert s[1..][1..] == s[2..];
        assert WithoutSpaces(s) == [s[0]] + ([s[1]] + WithoutSpaces(s[2..]));
      } else {
        SplitCamelOnlyAddsSpaces(s[1..]);
        assert ([s[0]] + SplitCamel(s[1..]))[1..] == SplitCamel(s[1..]);
      }
    }
  }

  /** After splitting, every lower-to-upper boundary has a space in it. */
  lemma {:induction false} SplitCamelLeavesNoBoundary(s: string)
    ensures NoCamelBoundary(SplitCamel(s))
    decreases |s|
  {
    if |s| >= 2 {
      if IsLower(s[0]) && IsUpper(s[1]) {
        SplitCamelLeavesNoBoundary(s[2..]);
        var rest := SplitCamel(s[2..]);
        var r := [s[0], ' ', s[1]] + rest;
        forall i | 0 <= i < |r| - 1 ensures !(IsLower(r[i]) && IsUpper(r[i + 1])) {
          if i >= 3 {
            assert r[i] == rest[i - 3] && r[i + 1] == rest[i - 2];
          }
        }
      } else {
        SplitCamelLeavesNoBoundary(s[1..]);
        var rest := SplitCamel(s[1..]);
        var r := [s[0]] + rest;
        forall i | 0 <= i < |r| - 1 ensures !(IsLower(r[i]) && IsUpper(r[i + 1])) {
          if i >= 1 {
            assert r[i] == rest[i - 1] && r[i + 1] == rest[i];
          }
        }
      }
    }
  }

  /** Text without a lower-to-upper boundary is left as it is. */
  lemma {:induction false} SplitCamelWithoutBoundary(s: string)
    requires NoCamelBoundary(s)
    ensures SplitCamel(s) == s
    decreases |s|
  {
    if |s| >= 2 {
      assert NoCamelBoundary(s[1..]) by {
        forall i | 0 <= i < |s[1..]| - 1 ensures !(IsLower(s[1..][i]) && IsUpper(s[1..][i + 1])) {
          assert s[1..][i] == s[i + 1] && s[1..][i + 1] == s[i + 2];
        }
      }
      SplitCamelWithoutBoundary(s[1..]);
    }
  }

  /** Text cut where no boundary straddles the cut splits piece by piece. */
  lemma {:induction false} SplitCamelAppend(x: string, y: string)
    requires |x| == 0 || |y| == 0 || !(IsLower(x[|x| - 1]) && IsUpper(y[0]))
    ensures SplitCamel(x + y) == SplitCamel(x) + SplitCamel(y)
    decreases |x|
  {
    if |x| == 0 {
      assert x + y == y;
    } else if |x| == 1 {
      SplitCamelAppendOne(x, y);
    } else if IsLower(x[0]) && IsUpper(x[1]) {
      assert |x[2..]| == 0 || x[2..][|x[2..]| - 1] == x[|x| - 1];
      SplitCamelAppend(x[2..], y);
      SplitCamelPairStep(x, y);
    } else {
      assert x[1..][|x[1..]| - 1] == x[|x| - 1];
      SplitCamelAppend(x[1..], y);
      SplitCamelCharStep(x, y);
    }
  }

  lemma SplitCamelAppendOne(x: string, y: string)
    requires |x| == 1 && (|y| == 0 || !(IsLower(x[0]) && IsUpper(y[0])))
    ensures SplitCamel(x + y) == SplitCamel(x) + SplitCamel(y)
  {
    if |y| > 0 {
      var xy := x + y;
      assert xy[0] == x[0] && xy[1] == y[0] && xy[1..] == y;
    } else {
      assert x + y == x;
    }
  }

  lemma SplitCamelPairStep(x: string, y: string)
    requires |x| >= 2 && IsLower(x[0]) && IsUpper(x[1])
    requires SplitCamel(x[2..] + y) == SplitCamel(x[2..]) + SplitCamel(y)
    ensures SplitCamel(x + y) == SplitCamel(x) + SplitCamel(y)
  {
    var xy := x + y;
    var p := [x[0], ' ', x[1]];
    assert xy[0] == x[0] && xy[1] == x[1] && xy[2..] == x[2..] + y;
    assert SplitCamel(xy) == p + SplitCamel(x[2..] + y);
    assert SplitCamel(x) == p + SplitCamel(x[2..]);
    SeqAssoc(p, SplitCamel(x[2..]), SplitCamel(y));
  }

  lemma SplitCamelCharStep(x: string, y: string)
    requires |x| >= 2 && !(IsLower(x[0]) && IsUpper(x[1]))
    requires SplitCamel(x[1..] + y) == SplitCamel(x[1..]) + SplitCamel(y)
    ensures SplitCamel(x + y) == SplitCamel(x) + SplitCamel(y)
  {
    var xy := x + y;
    var p := [x[0]];
    assert xy[0] == x[0] && xy[1] == x[1] && xy[1..] == x[1..] + y;
    assert SplitCamel(xy) == p + SplitCamel(x[1..] + y);
    assert SplitCamel(x) == p + SplitCamel(x[1..]);
    SeqAssoc(p, SplitCamel(x[1..]), SplitCamel(y));
  }

  lemma SeqAssoc(a: string, b: string, c: string)
    ensures a + (b + c) == a + b + c
  {
  }

  /** A word ending in a lower-case letter before an upper-case one gets one space there. */
  lemma SplitCamelWordEnd(w: string, lower: char, upper: char)
    requires IsLower(lower) && IsUpper(upper) && NoCamelBoundary(w + [lower])
    ensures SplitCamel(w + [lower, upper]) == w + [lower, ' ', upper]
  {
    assert NoCamelBoundary(w) by {
      forall i | 0 <= i < |w| - 1 ensures !(IsLower(w[i]) && IsUpper(w[i + 1])) {
        assert w[i] == (w + [lower])[i] && w[i + 1] == (w + [lower])[i + 1];
      }
    }
    SplitCamelWithoutBoundary(w);
    SplitCamelAppend(w, [lower, upper]);
    assert [lower, upper][2..] == [];
  }

  /** The two characters the pattern `[-_]` matches. */
  predicate IsSeparator(c: char) {
    c == '-' || c == '_'
  }

  /** The length of the run of separators that starts `s`. */
  function LeadingSeparators(s: string): (n: nat)
    ensures n <= |s|
    ensures forall i :: 0 <= i < n ==> IsSeparator(s[i])
    ensures n < |s| ==> !IsSeparator(s[n])
  {
    if |s| == 0 || !IsSeparator(s[0]) then 0 else 1 + LeadingSeparators(s[1..])
  }

  /** `replace(/[-_]+/g, " ")`: every maximal run of separators becomes one space. */
  function CollapseSeparators(s: string): (r: string)
    ensures forall i :: 0 <= i < |r| ==> !IsSeparator(r[i])
    decreases |s|
  {
    if |s| == 0 then ""
    else if IsSeparator(s[0]) then " " + CollapseSeparators(s[LeadingSeparators(s)..])
    else [s[0]] + CollapseSeparators(s[1..])
  }

  /** Text without separators is left as it is. */
  lemma {:induction false} CollapseWithoutSeparators(s: string)
    requires forall i :: 0 <= i < |s| ==> !IsSeparator(s[i])
    ensures CollapseSeparators(s) == s
    decreases |s|
  {
    if |s| > 0 {
      CollapseWithoutSeparators(s[1..]);
    }
  }

  /** A whole run of separators becomes a single space. */
  lemma CollapseRun(run: string)
    requires |run| > 0 && forall i :: 0 <= i < |run| ==> IsSeparator(run[i])
    ensures CollapseSeparators(run) == " "
  {
    assert LeadingSeparators(run) == |run|;
  }

  /** Text cut where a run does not continue across the cut collapses piece by piece. */
  lemma {:induction false} CollapseAppend(x: string, y: string)
    requires |x| == 0 || |y| == 0 || !IsSeparator(x[|x| - 1]) || !IsSeparator(y[0])
    ensures CollapseSeparators(x + y) == CollapseSeparators(x) + CollapseSeparators(y)
    decreases |x|
  {
    if |x| == 0 {
      assert x + y == y;
    } else if !IsSeparator(x[0]) {
      assert |x[1..]| == 0 || x[1..][|x[1..]| - 1] == x[|x| - 1];
      CollapseAppend(x[1..], y);
      CollapseCharStep(x, y);
    } else {
      var n := LeadingSeparators(x);
      LeadingSeparatorsAppend(x, y);
      if n == |x| {
        CollapseRun(x);
        assert (x + y)[n..] == y;
      } else {
        assert x[n..][|x[n..]| - 1] == x[|x| - 1];
        CollapseAppend(x[n..], y);
        assert (x + y)[n..] == x[n..] + y;
        SeqAssoc(" ", CollapseSeparators(x[n..]), CollapseSeparators(y));
      }
    }
  }

  /** The run starting `x + y` is the run starting `x`, unless that run is all of `x`. */
  lemma LeadingSeparatorsAppend(x: string, y: string)
    requires |x| > 0 && IsSeparator(x[0])
    requires |y| == 0 || !IsSeparator(x[|x| - 1]) || !IsSeparator(y[0])
    ensures LeadingSeparators(x + y) == LeadingSeparators(x)
  {
    var n := LeadingSeparators(x);
    var xy := x + y;
    forall i | 0 <= i < n
      ensures IsSeparator(xy[i])
    {
      assert xy[i] == x[i];
    }
    if n < |x| {
      assert xy[n] == x[n];
    } else if |y| > 0 {
      assert IsSeparator(x[|x| - 1]);
      assert xy[n] == y[0];
    }
    LeadingSeparatorsIs(xy, n);
  }

  /** The run length is the first index of a non-separator. */
  lemma {:induction false} LeadingSeparatorsIs(s: string, n: nat)
    requires n <= |s| && (forall i :: 0 <= i < n ==> IsSeparator(s[i])) && (n < |s| ==> !IsSeparator(s[n]))
    ensures LeadingSeparators(s) == n
  {
    if n > 0 {
      LeadingSeparatorsIs(s[1..], n - 1);
    }
  }

  lemma CollapseCharStep(x: string, y: string)
    requires |x| > 0 && !IsSeparator(x[0])
    requires CollapseSeparators(x[1..] + y) == CollapseSeparators(x[1..]) + CollapseSeparators(y)
    ensures CollapseSeparators(x + y) == CollapseSeparators(x) + CollapseSeparators(y)
  {
    var xy := x + y;
    assert xy[0] == x[0] && xy[1..] == x[1..] + y;
    assert CollapseSeparators(xy) == [x[0]] + CollapseSeparators(x[1..] + y);
    assert CollapseSeparators(x) == [x[0]] + CollapseSeparators(x[1..]);
    SeqAssoc([x[0]], CollapseSeparators(x[1..]), CollapseSeparators(y));
  }

  /**
   * `parseAddressToInstruction`: the local part with camel case split, separator runs turned
   * into one space, trimmed and lower-cased. The instruction has no separators, no upper-case
   * letters, and no white space at either end.
   */
  function ParseAddressToInstruction(address: string): (r: string)
    ensures Normalised(r)
  {
    var c := SeparatedWords(Before(address, '@'));
    TrimKeepsNoSeparator(c);
    LowerKeepsNormalForm(Trim(c));
    Lower(Trim(c))
  }

  /** No separator, no upper-case letter, and no white space at either end. */
  predicate Normalised(r: string) {
    && (forall i :: 0 <= i < |r| ==> !IsSeparator(r[i]) && !IsUpper(r[i]))
    && (|r| > 0 ==> !IsSpace(r[0]) && !IsSpace(r[|r| - 1]))
  }

  /** The local part with its camel case split and its separator runs collapsed. */
  function SeparatedWords(local: string): string {
    CollapseSeparators(SplitCamel(local))
  }

  /** Trimming keeps the absence of separators, as it only removes characters at the ends. */
  lemma TrimKeepsNoSeparator(c: string)
    requires forall i :: 0 <= i < |c| ==> !IsSeparator(c[i])
    ensures forall i :: 0 <= i < |Trim(c)| ==> !IsSeparator(Trim(c)[i])
  {
    var t := Trim(c);
    TrimIsSlice(c);
    var k :| 0 <= k <= |c| - |t| && OccursAt(c, t, k);
    assert forall i :: 0 <= i < |t| ==> t[i] == c[k + i];
  }

  /** Only the local part counts: the domain never reaches the instruction. */
  lemma InstructionIgnoresDomain(local: string, domain: string)
    requires '@' !in local
    ensures ParseAddressToInstruction(local + "@" + domain) == ParseAddressToInstruction(local)
  {
    LocalPartBeforeAt(local, domain);
  }

  lemma LocalPartBeforeAt(local: string, domain: string)
    requires '@' !in local
    ensures Before(local + "@" + domain, '@') == Before(local, '@')
  {
    BeforeAppend(local, '@', domain);
    BeforeWithoutMark(local, '@');
  }

  /** Lower-casing keeps separators out and white space off the ends, and leaves no upper case. */
  lemma LowerKeepsNormalForm(t: string)
    requires forall i :: 0 <= i < |t| ==> !IsSeparator(t[i])
    requires |t| > 0 ==> !IsSpace(t[0]) && !IsSpace(t[|t| - 1])
    ensures var r := Lower(t);
            && (forall i :: 0 <= i < |r| ==> !IsSeparator(r[i]) && !IsUpper(r[i]))
            && (|r| > 0 ==> !IsSpace(r[0]) && !IsSpace(r[|r| - 1]))
  {
  }

  /** A word, a hyphen and more text: the hyphen becomes one space. */
  lemma CollapseHyphen(word: string, rest: string)
    requires |word| > 0 && forall i :: 0 <= i < |word| ==> !IsSeparator(word[i])
    requires |rest| > 0 && !IsSeparator(rest[0])
    ensures CollapseSeparators(word + "-" + rest) == word + " " + CollapseSeparators(rest)
  {
    var tail := "-" + rest;
    assert word + "-" + rest == word + tail;
    assert tail[0] == '-';
    CollapseAppend(word, tail);
    CollapseAppend("-", rest);
    CollapseRun("-");
    assert CollapseSeparators(tail) == " " + CollapseSeparators(rest);
    CollapseWithoutSeparators(word);
  }

  /** A lower-case letter, then a capital, then more text: one space goes in between. */
  lemma SplitCamelJoin(word: string, lower: char, upper: char, rest: string)
    requires IsLower(lower) && IsUpper(upper) && NoCamelBoundary(word + [lower])
    ensures SplitCamel(word + [lower, upper] + rest) == word + [lower, ' ', upper] + SplitCamel(rest)
  {
    SplitCamelWordEnd(word, lower, upper);
    SplitCamelAppend(word + [lower, upper], rest);
  }

  /** A word of an address: not empty, without separators and without a camel-case boundary. */
  predicate PlainWord(w: string) {
    |w| > 0 && (forall i :: 0 <= i < |w| ==> !IsSeparator(w[i])) && NoCamelBoundary(w)
  }

  /** Words joined by hyphens have no camel-case boundary to split. */
  lemma {:induction false} HyphenatedSplit(words: seq<string>)
    requires |words| > 0 && forall k :: 0 <= k < |words| ==> PlainWord(words[k])
    ensures SplitCamel(Join(words, "-")) == Join(words, "-")
  {
    if |words| == 1 {
      SplitCamelWithoutBoundary(words[0]);
    } else {
      var w := words[0];
      var rest := Join(words[1..], "-");
      HyphenatedSplit(words[1..]);
      assert w + "-" + rest == w + ("-" + rest);
      SplitCamelAppend(w, "-" + rest);
      SplitCamelAppend("-", rest);
      SplitCamelWithoutBoundary(w);
    }
  }

  /** Words joined by hyphens, once the separators are collapsed, are the words joined by spaces. */
  lemma {:induction false} HyphenatedCollapse(words: seq<string>)
    requires |words| > 0 && forall k :: 0 <= k < |words| ==> PlainWord(words[k])
    ensures CollapseSeparators(Join(words, "-")) == Join(words, " ")
  {
    if |words| == 1 {
      CollapseWithoutSeparators(words[0]);
    } else {
      HyphenatedCollapse(words[1..]);
      var rest := Join(words[1..], "-");
      if |words[1..]| == 1 {
        assert rest == words[1];
      } else {
        assert rest == words[1] + "-" + Join(words[2..], "-") by {
          assert words[1..][0] == words[1] && words[1..][1..] == words[2..];
        }
      }
      assert rest[0] == words[1][0];
      CollapseHyphen(words[0], rest);
    }
  }

  /**
   * Words written in camel case, each ending in a lower-case letter and each after the first
   * starting with a capital, are split into the words joined by spaces.
   */
  lemma {:induction false} CamelCaseSplit(words: seq<string>)
    requires |words| > 0 && forall k :: 0 <= k < |words| ==> PlainWord(words[k]) && IsLower(words[k][|words[k]| - 1])
    requires forall k :: 0 < k < |words| ==> |words[k]| > 0 && IsUpper(words[k][0])
    ensures SplitCamel(Join(words, "")) == Join(words, " ")
  {
    var w := words[0];
    if |words| == 1 {
      SplitCamelWithoutBoundary(w);
    } else {
      var rest := Join(words[1..], "");
      CamelCaseSplit(words[1..]);
      if |words[1..]| == 1 {
        assert rest == words[1];
      } else {
        assert rest == words[1] + "" + Join(words[2..], "") by {
          assert words[1..][0] == words[1] && words[1..][1..] == words[2..];
        }
      }
      assert rest[0] == words[1][0];
      CamelWordStep(w, rest);
      assert Join(words, "") == w + "" + rest;
      assert Join(words, " ") == w + " " + Join(words[1..], " ");
    }
  }

  /** A camel-case word followed by text that starts with a capital: one space goes in between. */
  lemma CamelWordStep(w: string, rest: string)
    requires PlainWord(w) && IsLower(w[|w| - 1])
    requires |rest| > 0 && IsUpper(rest[0])
    ensures SplitCamel(w + "" + rest) == w + " " + SplitCamel(rest)
  {
    var up, tl := rest[0], rest[1..];
    assert rest == [up] + tl;
    calc {
      SplitCamel(w + "" + rest);
      { assert w + "" + rest == w + [up] + tl; }
      SplitCamel(w + [up] + tl);
      { CamelHead(w, up, tl); }
      w + [' ', up] + SplitCamel(tl);
      { SeqAssoc(w + " ", [up], SplitCamel(tl)); }
      w + " " + ([up] + SplitCamel(tl));
      { SplitCamelAppendOne([up], tl);
        assert SplitCamel([up]) == [up]; }
      w + " " + SplitCamel(rest);
    }
  }

  /** The split of a camel-case word, an upper-case letter and more text. */
  lemma CamelHead(w: string, up: char, tl: string)
    requires PlainWord(w) && IsLower(w[|w| - 1]) && IsUpper(up)
    ensures SplitCamel(w + [up] + tl) == w + [' ', up] + SplitCamel(tl)
  {
    var lw, lo := w[..|w| - 1], w[|w| - 1];
    var a := lw + [lo, up];
    assert lw + [lo] == w;
    assert w + [up] == a;
    SplitCamelWordEnd(lw, lo, up);
    assert a[|a| - 1] == up;
    SplitCamelAppend(a, tl);
    assert lw + [lo, ' ', up] == w + [' ', up];
  }

}

/**
 * Instructions written as words joined by hyphens or in camel case, as in the source's own
 * comments ("write-haiku-about-cats", "writeHaikuAboutCats").
 */
module InstructionExamples {
  import opened Text
  import opened Instruction

  /** Every character of the joined text is a character of a part or of the separator. */
  lemma {:induction false} JoinKeeps(parts: seq<string>, sep: string, p: char -> bool)
    requires forall k, i :: 0 <= k < |parts| && 0 <= i < |parts[k]| ==> p(parts[k][i])
    requires forall i :: 0 <= i < |sep| ==> p(sep[i])
    ensures forall i :: 0 <= i < |Join(parts, sep)| ==> p(Join(parts, sep)[i])
  {
    if |parts| > 1 {
      JoinKeeps(parts[1..], sep, p);
      var rest := Join(parts[1..], sep);
      var whole := parts[0] + sep + rest;
      forall i | 0 <= i < |whole| ensures p(whole[i]) {
        if i < |parts[0]| {
          assert whole[i] == parts[0][i];
        } else if i < |parts[0]| + |sep| {
          assert whole[i] == sep[i - |parts[0]|];
        } else {
          assert whole[i] == rest[i - |parts[0]| - |sep|];
        }
      }
    }
  }

  /** The joined text starts with the first part's first character and ends with the last part's last. */
  lemma {:induction false} JoinEnds(parts: seq<string>, sep: string)
    requires |parts| > 0 && forall k :: 0 <= k < |parts| ==> |parts[k]| > 0
    ensures var j := Join(parts, sep);
            var last := parts[|parts| - 1];
            |j| > 0 && j[0] == parts[0][0] && j[|j| - 1] == last[|last| - 1]
  {
    if |parts| > 1 {
      JoinEnds(parts[1..], sep);
      assert parts[1..][|parts[1..]| - 1] == parts[|parts| - 1];
    }
  }

  /** A word of a lower-case instruction: no separator, capital, white space or `@`. */
  predicate LowerWord(w: string) {
    |w| > 0 && forall i :: 0 <= i < |w| ==> !IsSeparator(w[i]) && !IsUpper(w[i]) && !IsSpace(w[i]) && w[i] != '@'
  }

  /** Words without `@` joined by a separator without `@` are the whole local part of an address. */
  lemma JoinedLocalPart(words: seq<string>, sep: string, domain: string)
    requires forall k, i :: 0 <= k < |words| && 0 <= i < |words[k]| ==> words[k][i] != '@'
    requires '@' !in sep
    ensures Before(Join(words, sep) + "@" + domain, '@') == Join(words, sep)
  {
    JoinKeeps(words, sep, c => c != '@');
    BeforeAppend(Join(words, sep), '@', domain);
  }

  /** Hyphenated words, separated, are the words joined by spaces. */
  lemma HyphenatedWords(words: seq<string>)
    requires |words| > 0 && forall k :: 0 <= k < |words| ==> LowerWord(words[k])
    ensures SeparatedWords(Join(words, "-")) == Join(words, " ")
  {
    assert forall k :: 0 <= k < |words| ==> PlainWord(words[k]);
    HyphenatedSplit(words);
    HyphenatedCollapse(words);
  }

  /** Lower-case words joined by spaces are already trimmed and lower-cased. */
  lemma SpacedWordsKept(words: seq<string>)
    requires |words| > 0 && forall k :: 0 <= k < |words| ==> LowerWord(words[k])
    ensures Lower(Trim(Join(words, " "))) == Join(words, " ")
  {
    var spaced := Join(words, " ");
    var last := words[|words| - 1];
    JoinEnds(words, " ");
    assert !IsSpace(spaced[0]) && !IsSpace(spaced[|spaced| - 1]) by {
      assert LowerWord(words[0]) && LowerWord(last);
    }
    JoinKeeps(words, " ", c => !IsUpper(c));
    NormalFormIsKept(spaced);
  }

  /** Words joined by hyphens at any domain read as the words joined by spaces. */
  lemma HyphenatedInstruction(words: seq<string>, domain: string)
    requires |words| > 0 && forall k :: 0 <= k < |words| ==> LowerWord(words[k])
    ensures ParseAddressToInstruction(Join(words, "-") + "@" + domain) == Join(words, " ")
  {
    JoinedLocalPart(words, "-", domain);
    HyphenatedWords(words);
    SpacedWordsKept(words);
    InstructionStages(Join(words, "-") + "@" + domain, Join(words, "-"), Join(words, " "));
  }

  /**
   * A word of a camel-case instruction: a letter, then lower-case letters or digits, ending in
   * a lower-case letter.
   */
  predicate CamelWord(w: string) {
    && |w| > 1 && (IsLower(w[0]) || IsUpper(w[0])) && IsLower(w[|w| - 1])
    && forall i :: 1 <= i < |w| ==> IsLower(w[i]) || ('0' <= w[i] <= '9')
  }

  /** Camel-case words, the first lower-case and the others capitalised. */
  predicate CamelWords(words: seq<string>) {
    |words| > 0 && forall k :: 0 <= k < |words| ==> CamelWord(words[k]) && (k == 0 <==> IsLower(words[k][0]))
  }

  /** Camel-case words, separated, are the words joined by spaces. */
  lemma CamelCaseWords(words: seq<string>)
    requires CamelWords(words)
    ensures SeparatedWords(Join(words, "")) == Join(words, " ")
  {
    CamelCaseSplit(words);
    JoinKeeps(words, " ", c => !IsSeparator(c));
    CollapseWithoutSeparators(Join(words, " "));
  }

  /** Camel-case words joined by spaces have nothing to trim. */
  lemma CamelWordsTrimmed(words: seq<string>)
    requires CamelWords(words)
    ensures Trim(Join(words, " ")) == Join(words, " ")
  {
    JoinEnds(words, " ");
    TrimFramed(Join(words, " "));
  }

  /** Words in camel case at any domain read as the words joined by spaces, lower-cased. */
  lemma CamelCaseInstruction(words: seq<string>, domain: string)
    requires CamelWords(words)
    ensures ParseAddressToInstruction(Join(words, "") + "@" + domain) == Lower(Join(words, " "))
  {
    JoinedLocalPart(words, "", domain);
    CamelCaseWords(words);
    CamelWordsTrimmed(words);
    InstructionStages(Join(words, "") + "@" + domain, Join(words, ""), Join(words, " "));
  }

  /** The instruction is the trimmed, lower-cased form of the separated words of the local part. */
  lemma InstructionStages(address: string, local: string, words: string)
    requires Before(address, '@') == local && SeparatedWords(local) == words
    ensures ParseAddressToInstruction(address) == Lower(Trim(words))
  {
  }

  /** Text already in normal form is what trimming and lower-casing leave of it. */
  lemma NormalFormIsKept(s: string)
    requires |s| > 0 && !IsSpace(s[0]) && !IsSpace(s[|s| - 1])
    requires forall i :: 0 <= i < |s| ==> !IsUpper(s[i])
    ensures Lower(Trim(s)) == s
  {
    TrimFramed(s);
    assert forall i :: 0 <= i < |s| ==> Lower(s)[i] == s[i];
  }

  /** `write-haiku-about-cats` reads as "write haiku about cats". */
  lemma HyphenatedExample(domain: string)
    ensures ParseAddressToInstruction("write-haiku-about-cats" + "@" + domain) == "write haiku about cats"
  {
    var words := ExampleWords();
    InstructionOfWords(words, "write-haiku-about-cats", "write haiku about cats", domain);
  }

  lemma InstructionOfWords(words: seq<string>, local: string, spaced: string, domain: string)
    requires |words| > 0 && forall k :: 0 <= k < |words| ==> LowerWord(words[k])
    requires Join(words, "-") == local && Join(words, " ") == spaced
    ensures ParseAddressToInstruction(local + "@" + domain) == spaced
  {
    HyphenatedInstruction(words, domain);
  }

  /** The words of the documented example, with what the hyphenated case needs of them. */
  lemma ExampleWords() returns (words: seq<string>)
    ensures |words| > 0 && forall k :: 0 <= k < |words| ==> LowerWord(words[k])
    ensures Join(words, "-") == "write-haiku-about-cats" && Join(words, " ") == "write haiku about cats"
  {
    words := ["write", "haiku", "about", "cats"];
    ExampleJoined(words, "-", "write-haiku-about-cats");
    ExampleJoined(words, " ", "write haiku about cats");
  }

  lemma ExampleJoined(words: seq<string>, sep: string, joined: string)
    requires words == ["write", "haiku", "about", "cats"]
    requires joined == "write" + sep + "haiku" + sep + "about" + sep + "cats"
    ensures Join(words, sep) == joined
  {
    assert Join(words[3..], sep) == "cats";
    assert Join(words[2..], sep) == "about" + sep + "cats";
    assert Join(words[1..], sep) == "haiku" + sep + ("about" + sep + "cats");
  }

  /** `writeHaikuAboutCats` reads as the same instruction. */
  lemma CamelCaseExample(domain: string)
    ensures ParseAddressToInstruction("writeHaikuAboutCats" + "@" + domain) == "write haiku about cats"
  {
    var words := ["write", "Haiku", "About", "Cats"];
    assert Join(words, "") == "writeHaikuAboutCats";
    assert Join(words, " ") == "write Haiku About Cats";
    ExampleIsCamelCase(words);
    CamelCaseInstruction(words, domain);
    ExampleLowered("write Haiku About Cats");
  }

  lemma ExampleIsCamelCase(words: seq<string>)
    requires words == ["write", "Haiku", "About", "Cats"]
    ensures CamelWords(words)
  {
  }

  lemma ExampleLowered(spaced: string)
    requires spaced == "write Haiku About Cats"
    ensures Lower(spaced) == "write haiku about cats"
  {
  }
}
