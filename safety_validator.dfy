/**
 * The safety gate in front of the dynamic agent (src/utils/safety-validator.ts):
 * the recipient's local part is searched for blocked terms and the body for
 * prompt-injection phrases, each by a first-match scan over a fixed list of
 * patterns. Every regular expression of the source is encoded by hand below.
 */
module SafetyValidator {
  import opened Wrappers
  import opened Text

  datatype SafetyValidationResult = SafetyValidationResult(safe: bool, reason: Option<string>)

  /** A blocked term of the address check: found anywhere, or only as a whole word (`\bterm\b`). */
  datatype AddressPattern = Anywhere(term: string) | WholeWord(term: string)

  /** The address patterns, in the order the check tries them. */
  const UnsafeAddressPatterns: seq<AddressPattern> := [
    Anywhere("password"), Anywhere("hack"), Anywhere("exploit"), Anywhere("malware"),
    Anywhere("phishing"), Anywhere("spam"), Anywhere("illegal"), Anywhere("weapon"),
    Anywhere("drug"), Anywhere("bomb"), Anywhere("terror"), Anywhere("steal"),
    Anywhere("fraud"), Anywhere("scam"), Anywhere("attack"), Anywhere("bypass"),
    Anywhere("inject"), Anywhere("ddos"), Anywhere("ransomware"), Anywhere("keylog"),
    WholeWord("child"), WholeWord("porn"), WholeWord("nude"), WholeWord("sex")
  ]

  /** `t` occurs at `i` with no word character immediately on either side. */
  predicate WordBoundedAt(s: string, t: string, i: int) {
    OccursAt(s, t, i)
    && (i == 0 || !IsWordChar(s[i - 1]))
    && (i + |t| == |s| || !IsWordChar(s[i + |t|]))
  }

  /** The pattern's `test` on an already lower-cased local part. */
  predicate AddressPatternMatches(p: AddressPattern, s: string) {
    match p
    case Anywhere(t) => Contains(s, t)
    case WholeWord(t) => exists i | 0 <= i <= |s| - |t| :: WordBoundedAt(s, t, i)
  }

  /**
   * One element of a prompt-injection expression:
   * a literal, `\s+`, an optional word followed by `\s+` (`(all\s+)?`), or an optional character (`s?`).
   */
  datatype Token = Lit(text: string) | Spaces | OptionalWord(word: string) | OptionalChar(c: char)

  /** The prompt-injection expressions, lower case, in the order the check tries them. */
  const PromptInjectionPatterns: seq<seq<Token>> := [
    IgnorePreviousInstructions,
    [Lit("ignore"), Spaces, OptionalWord("all"), Lit("prior"), Spaces, Lit("instruction"), OptionalChar('s')],
    [Lit("disregard"), Spaces, OptionalWord("all"), Lit("previous")],
    [Lit("forget"), Spaces, OptionalWord("all"), Lit("previous")],
    [Lit("new"), Spaces, Lit("instruction"), OptionalChar('s'), Lit(":")],
    [Lit("override"), Spaces, Lit("system")],
    [Lit("you"), Spaces, Lit("are"), Spaces, Lit("now")],
    [Lit("pretend"), Spaces, Lit("you"), Spaces, Lit("are")],
    [Lit("act"), Spaces, Lit("as"), Spaces, Lit("if"), Spaces, Lit("you")],
    [Lit("jailbreak")],
    [Lit("dan"), Spaces, Lit("mode")],
    [Lit("developer"), Spaces, Lit("mode")]
  ]

  /** `ignore\s+(all\s+)?previous\s+instructions?`, the first of them. */
  const IgnorePreviousInstructions: seq<Token> :=
    [Lit("ignore"), Spaces, OptionalWord("all"), Lit("previous"), Spaces, Lit("instruction"), OptionalChar('s')]

  /** Some prefix of `s` is matched by `toks`, with backtracking over every choice. */
  predicate MatchesPrefix(toks: seq<Token>, s: string)
    decreases |s|, |toks|
  {
    if |toks| == 0 then true
    else match toks[0]
      case Lit(w) => w <= s && MatchesPrefix(toks[1..], s[|w|..])
      case Spaces => SpacesThen(toks[1..], s)
      case OptionalWord(w) => (w <= s && SpacesThen(toks[1..], s[|w|..])) || MatchesPrefix(toks[1..], s)
      case OptionalChar(c) => (|s| > 0 && s[0] == c && MatchesPrefix(toks[1..], s[1..])) || MatchesPrefix(toks[1..], s)
  }

  /** `s` starts with one or more whitespace characters followed by a match of `toks`. */
  predicate SpacesThen(toks: seq<Token>, s: string)
    decreases |s|, |toks|
  {
    |s| > 0 && IsSpace(s[0]) && (MatchesPrefix(toks, s[1..]) || SpacesThen(toks, s[1..]))
  }

  /** The case-insensitive `test` of an injection expression: a match starts somewhere in the text. */
  predicate PhraseFound(toks: seq<Token>, text: string) {
    var lowered := Lower(text);
    exists i | 0 <= i <= |lowered| :: MatchesPrefix(toks, lowered[i..])
  }

  /** The first index whose element satisfies `p`: the `for ... of` loop with an early `return`. */
  function FirstWhere<T>(xs: seq<T>, p: T -> bool): (r: Option<nat>)
    ensures r.Some? ==> r.value < |xs| && p(xs[r.value])
    ensures r.Some? ==> forall j :: 0 <= j < r.value ==> !p(xs[j])
    ensures r.None? ==> forall j :: 0 <= j < |xs| ==> !p(xs[j])
  {
    if |xs| == 0 then None
    else if p(xs[0]) then Some(0)
    else match FirstWhere(xs[1..], p)
      case None => None
      case Some(k) => Some(k + 1)
  }

  /** The text the address check inspects: the lower-cased part before the first `@`. */
  function ScreenedPart(address: string): string {
    Lower(Before(address, '@'))
  }

  function BlockedTermReason(term: string): string {
    "Address contains blocked term: \"" + term + "\""
  }

  const InjectionReason: string := "Message contains prompt injection attempt"

  /** The address loop over any list of patterns: the index of the first one matching `localPart`. */
  function FirstAddressMatch(patterns: seq<AddressPattern>, localPart: string): (r: Option<nat>)
    ensures r.Some? ==> r.value < |patterns| && AddressPatternMatches(patterns[r.value], localPart)
    ensures r.Some? ==> forall j :: 0 <= j < r.value ==> !AddressPatternMatches(patterns[j], localPart)
    ensures r.None? ==> forall j :: 0 <= j < |patterns| ==> !AddressPatternMatches(patterns[j], localPart)
  {
    FirstWhere(patterns, p => AddressPatternMatches(p, localPart))
  }

  function ValidateAddress(address: string): (r: SafetyValidationResult)
    ensures r.safe <==> forall k :: 0 <= k < |UnsafeAddressPatterns| ==>
                          !AddressPatternMatches(UnsafeAddressPatterns[k], ScreenedPart(address))
    ensures r.safe ==> r.reason == None
    ensures !r.safe ==>
      exists k :: 0 <= k < |UnsafeAddressPatterns|
        && AddressPatternMatches(UnsafeAddressPatterns[k], ScreenedPart(address))
        && (forall j :: 0 <= j < k ==> !AddressPatternMatches(UnsafeAddressPatterns[j], ScreenedPart(address)))
        && r.reason == Some(BlockedTermReason(UnsafeAddressPatterns[k].term))
  {
    match FirstAddressMatch(UnsafeAddressPatterns, ScreenedPart(address))
    case Some(k) => SafetyValidationResult(false, Some(BlockedTermReason(UnsafeAddressPatterns[k].term)))
    case None => SafetyValidationResult(true, None)
  }

  function ValidateBody(body: string): (r: SafetyValidationResult)
    ensures r.safe <==> forall k :: 0 <= k < |PromptInjectionPatterns| ==> !PhraseFound(PromptInjectionPatterns[k], body)
    ensures r.safe ==> r.reason == None
    ensures !r.safe ==> r.reason == Some(InjectionReason)
  {
    match FirstWhere(PromptInjectionPatterns, toks => PhraseFound(toks, body))
    case Some(_) => SafetyValidationResult(false, Some(InjectionReason))
    case None => SafetyValidationResult(true, None)
  }

  function ValidateRequest(address: string, body: string): (r: SafetyValidationResult)
    ensures !ValidateAddress(address).safe ==> r == ValidateAddress(address)
    ensures ValidateAddress(address).safe ==> r == ValidateBody(body)
    ensures r.safe <==> ValidateAddress(address).safe && ValidateBody(body).safe
    ensures r.safe ==> r.reason == None
  {
    var addressResult := ValidateAddress(address);
    if !addressResult.safe then addressResult
    else
      var bodyResult := ValidateBody(body);
      if !bodyResult.safe then bodyResult
      else SafetyValidationResult(true, None)
  }

  const BlockedOpening: string :=
    "I'm sorry, but I cannot process this request.\n\nYour message was blocked by our safety filters: "

  const BlockedClosing: string :=
    "\n\nIf you believe this is an error, please contact support or try rephrasing your request.\n\nBest regards,\nMail-to-AI Safety System"

  /** The rejection text sent back instead of a reply; the reason sits verbatim between fixed text. */
  function BlockedResponseMessage(reason: string): (r: string)
    ensures BlockedOpening <= r
    ensures |r| == |BlockedOpening| + |reason| + |BlockedClosing|
    ensures r[|BlockedOpening|..|BlockedOpening| + |reason|] == reason
    ensures r[|BlockedOpening| + |reason|..] == BlockedClosing
  {
    BlockedOpening + reason + BlockedClosing
  }

  /** Different reasons give different rejection texts: the reason can be read back. */
  lemma BlockedResponseMessageInjective(a: string, b: string)
    requires BlockedResponseMessage(a) == BlockedResponseMessage(b)
    ensures a == b
  {
    assert |a| == |b|;
    assert a == BlockedResponseMessage(a)[|BlockedOpening|..|BlockedOpening| + |a|];
  }

  /** Only the part before the first `@` is screened: the domain never changes the verdict. */
  lemma DomainIsIgnored(local: string, domain1: string, domain2: string)
    requires '@' !in local
    ensures ValidateAddress(local + "@" + domain1) == ValidateAddress(local + "@" + domain2)
  {
    BeforeAppend(local, '@', domain1);
    BeforeAppend(local, '@', domain2);
  }

  /** Lower-casing the whole address first changes nothing: the check is case-insensitive. */
  lemma {:induction false} ValidateAddressIgnoresCase(address: string)
    ensures ValidateAddress(Lower(address)) == ValidateAddress(address)
  {
    LowerBefore(address);
    LowerIdempotent(Before(address, '@'));
  }

  lemma {:induction false} LowerBefore(s: string)
    ensures Before(Lower(s), '@') == Lower(Before(s, '@'))
  {
    if |s| > 0 && s[0] != '@' {
      var ls := Lower(s);
      assert ls[0] == LowerChar(s[0]) != '@';
      assert Before(ls, '@') == [ls[0]] + Before(ls[1..], '@');
      assert ls[1..] == Lower(s[1..]);
      LowerBefore(s[1..]);
      assert Before(s, '@') == [s[0]] + Before(s[1..], '@');
      LowerAppend([s[0]], Before(s[1..], '@'));
    }
  }

  /** A plain blocked term anywhere in the local part, in any case, blocks the address. */
  lemma PlainTermBlocks(address: string, k: nat)
    requires k < |UnsafeAddressPatterns| && UnsafeAddressPatterns[k].Anywhere?
    requires Contains(ScreenedPart(address), UnsafeAddressPatterns[k].term)
    ensures !ValidateAddress(address).safe
  {
    assert AddressPatternMatches(UnsafeAddressPatterns[k], ScreenedPart(address));
  }

  /** `\bsex\b` does not fire inside a longer word. */
  lemma WholeWordNeedsBoundary()
    ensures !AddressPatternMatches(WholeWord("sex"), "sexy")
    ensures AddressPatternMatches(WholeWord("sex"), "no-sex")
  {
    assert WordBoundedAt("no-sex", "sex", 3);
  }

  /** The reason names the first pattern in list order, not the term that occurs first. */
  lemma ReasonFollowsListOrder(domain: string)
    ensures ValidateAddress("bomb-hack" + "@" + domain).reason == Some(BlockedTermReason("hack"))
  {
    var local := "bomb-hack";
    BeforeAppend(local, '@', domain);
    assert Lower(local) == local;
    NoOccurrence(local, "password");
    assert OccursAt(local, "hack", 5);
    HackComesFirst(local);
  }

  /** A text in which the first character of `t` never starts a long enough suffix does not contain `t`. */
  lemma NoOccurrence(s: string, t: string)
    requires |t| > 0 && forall i :: 0 <= i <= |s| - |t| ==> s[i] != t[0]
    ensures !Contains(s, t)
  {
    forall i | 0 <= i <= |s| - |t|
      ensures !OccursAt(s, t, i)
    {
      assert s[i..i + |t|][0] == s[i];
    }
  }

  /** With no `password` but a `hack`, the second pattern is the first to match. */
  lemma HackComesFirst(part: string)
    requires !Contains(part, "password") && Contains(part, "hack")
    ensures FirstAddressMatch(UnsafeAddressPatterns, part) == Some(1)
  {
    assert UnsafeAddressPatterns[0] == Anywhere("password");
    assert UnsafeAddressPatterns[1] == Anywhere("hack");
  }

  // Single steps of a match, for building concrete matches.

  lemma LitStep(w: string, toks: seq<Token>, s: string)
    requires MatchesPrefix(toks, s)
    ensures MatchesPrefix([Lit(w)] + toks, w + s)
  {
    assert ([Lit(w)] + toks)[1..] == toks;
    assert (w + s)[|w|..] == s;
  }
  lemma SpaceStep(toks: seq<Token>, s: string)
    requires MatchesPrefix(toks, s)
    ensures MatchesPrefix([Spaces] + toks, " " + s)
  {
    assert ([Spaces] + toks)[1..] == toks;
    assert (" " + s)[1..] == s;
  }
  lemma OptionalWordSkip(w: string, toks: seq<Token>, s: string)
    requires MatchesPrefix(toks, s)
    ensures MatchesPrefix([OptionalWord(w)] + toks, s)
  {
    assert ([OptionalWord(w)] + toks)[1..] == toks;
  }
  lemma OptionalCharTake(c: char, toks: seq<Token>, s: string)
    requires MatchesPrefix(toks, s)
    ensures MatchesPrefix([OptionalChar(c)] + toks, [c] + s)
  {
    assert ([OptionalChar(c)] + toks)[1..] == toks;
    assert ([c] + s)[1..] == s;
  }
  lemma IgnorePreviousInstructionsMatches(rest: string)
    ensures MatchesPrefix(IgnorePreviousInstructions, "ignore" + (" " + ("previous" + (" " + ("instruction" + ("s" + rest))))))
  {
    OptionalCharTake('s', [], rest);
    LitStep("instruction", [OptionalChar('s')], "s" + rest);
    SpaceStep([Lit("instruction"), OptionalChar('s')], "instruction" + ("s" + rest));
    LitStep("previous", [Spaces, Lit("instruction"), OptionalChar('s')], " " + ("instruction" + ("s" + rest)));
    OptionalWordSkip("all", [Lit("previous"), Spaces, Lit("instruction"), OptionalChar('s')], "previous" + (" " + ("instruction" + ("s" + rest))));
    SpaceStep([OptionalWord("all"), Lit("previous"), Spaces, Lit("instruction"), OptionalChar('s')], "previous" + (" " + ("instruction" + ("s" + rest))));
    LitStep("ignore", [Spaces, OptionalWord("all"), Lit("previous"), Spaces, Lit("instruction"), OptionalChar('s')], " " + ("previous" + (" " + ("instruction" + ("s" + rest)))));
  }


  lemma OpenerPieces(rest: string)
    ensures "ignore previous instructions" + rest
         == "ignore" + (" " + ("previous" + (" " + ("instruction" + ("s" + rest)))))
  {
  }

  lemma OpenerLowered()
    ensures Lower("Ignore previous instructions") == "ignore previous instructions"
  {
  }

  lemma LoweredOpener(before: string, after: string)
    ensures Lower(before + "Ignore previous instructions" + after)[|before|..]
         == "ignore" + (" " + ("previous" + (" " + ("instruction" + ("s" + Lower(after))))))
  {
    var opener := "Ignore previous instructions";
    LowerAppend(before + opener, after);
    LowerAppend(before, opener);
    OpenerLowered();
    var lowered := Lower(before) + "ignore previous instructions" + Lower(after);
    assert Lower(before + opener + after) == lowered;
    assert lowered[|before|..] == "ignore previous instructions" + Lower(after);
    OpenerPieces(Lower(after));
  }

  /** The classic injection opener is caught anywhere in a body, whatever its case. */
  lemma InjectionIsCaught(before: string, after: string)
    ensures ValidateBody(before + "Ignore previous instructions" + after).reason == Some(InjectionReason)
  {
    var body := before + "Ignore previous instructions" + after;
    LoweredOpener(before, after);
    IgnorePreviousInstructionsMatches(Lower(after));
    assert MatchesPrefix(PromptInjectionPatterns[0], Lower(body)[|before|..]);
    assert PhraseFound(PromptInjectionPatterns[0], body);
  }
}
