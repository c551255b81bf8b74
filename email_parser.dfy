/**
 * Normalisation of inbound mail (src/utils/email-parser.ts): the local part
 * of an address, CC extraction, pulling an address out of a `From` text,
 * stripping signatures and quoted replies from the body, and the defaults
 * `parseInboundEmail` fills in.
 */
module EmailParser {
  import opened Wrappers
  import opened Text
  import opened EmailTypes

  // ---------------------------------------------------------------- addresses

  /** `email.split("@")[0].toLowerCase()`. */
  function ExtractLocalPart(email: string): (r: string)
    ensures '@' !in r
    ensures |r| <= |email| && r == Lower(email[..|r|])
    ensures |r| < |email| ==> email[|r|] == '@'
  {
    var before := Before(email, '@');
    assert email[..|before|] == before;
    Lower(before)
  }

  /** The agent name of an address is its local part, with nothing more done to it. */
  function ExtractAgentName(toAddress: string): (r: string)
    ensures r == ExtractLocalPart(toAddress)
  {
    ExtractLocalPart(toAddress)
  }

  /** For `local@domain` with no `@` in `local`, the local part is `local` lower-cased and the domain is never read. */
  lemma LocalPartOfAddress(local: string, domain: string)
    requires '@' !in local
    ensures ExtractLocalPart(local + "@" + domain) == Lower(local)
  {
    BeforeAppend(local, '@', domain);
  }

  /** Without an `@`, the whole string lower-cased is the local part. */
  lemma {:induction false} LocalPartWithoutAt(s: string)
    requires '@' !in s
    ensures ExtractLocalPart(s) == Lower(s)
  {
    BeforeWithoutMark(s, '@');
  }

  // ---------------------------------------------------------------- CC

  /** One entry of the provider's CC list: its address may be missing or null. */
  datatype CcEntry = CcEntry(address: Option<string>)

  /** The provider's CC field, whose address list may be missing. */
  datatype CcField = CcField(addresses: Option<seq<CcEntry>>)

  /** The entries' addresses that are present and non-empty, in order. */
  function PresentAddresses(entries: seq<CcEntry>): (r: seq<string>)
    ensures |r| <= |entries|
    ensures forall k :: 0 <= k < |r| ==> r[k] != ""
    ensures forall x :: x in r <==> exists k :: 0 <= k < |entries| && entries[k].address == Some(x) && x != ""
  {
    if |entries| == 0 then []
    else
      var rest := PresentAddresses(entries[1..]);
      assert forall k :: 0 < k < |entries| ==> entries[k] == entries[1..][k - 1];
      if Truthy(entries[0].address) then [entries[0].address.value] + rest else rest
  }

  /** Filtering distributes over concatenation: the order of the kept addresses is the order of the list. */
  lemma {:induction false} PresentAddressesAppend(a: seq<CcEntry>, b: seq<CcEntry>)
    ensures PresentAddresses(a + b) == PresentAddresses(a) + PresentAddresses(b)
  {
    if |a| > 0 {
      assert (a + b)[0] == a[0];
      assert (a + b)[1..] == a[1..] + b;
      PresentAddressesAppend(a[1..], b);
    } else {
      assert a + b == b;
    }
  }

  function ExtractCcAddresses(cc: Option<CcField>): (r: seq<string>)
    ensures cc.None? || cc.value.addresses.None? ==> r == []
    ensures cc.Some? && cc.value.addresses.Some? ==> r == PresentAddresses(cc.value.addresses.value)
  {
    if cc.None? || cc.value.addresses.None? then [] else PresentAddresses(cc.value.addresses.value)
  }

  // ---------------------------------------------------------------- address in a From text

  /** `/<([^>]+)>/` tried at `i`: a `<`, then one or more non-`>` characters up to the next `>`. */
  function AngleAt(s: string, i: nat): (r: Option<string>)
    requires i < |s|
    ensures r.Some? ==> s[i] == '<' && |r.value| > 0 && '>' !in r.value
    ensures r.Some? ==> i + 1 + |r.value| < |s| && s[i + 1 + |r.value|] == '>'
    ensures r.Some? ==> r.value == s[i + 1..i + 1 + |r.value|]
  {
    if s[i] != '<' then None
    else match IndexOfFrom(s, ">", i + 1)
      case None => None
      case Some(j) =>
        if j == i + 1 then None
        else
          assert forall m :: i + 1 <= m < j ==> s[m] != '>' by {
            forall m | i + 1 <= m < j ensures s[m] != '>' {
              assert !OccursAt(s, ">", m);
              assert s[m..m + 1] == [s[m]];
            }
          }
          assert s[j..j + 1] == ">";
          Some(s[i + 1..j])
  }

  /** The bracket expression matches at no position in `[from, to)`. */
  predicate NoAngleBetween(s: string, from: nat, to: nat)
    requires to <= |s|
  {
    forall j | from <= j < to :: AngleAt(s, j).None?
  }

  /** The leftmost match of `/<([^>]+)>/` at or after `from`. */
  function FirstAngle(s: string, from: nat): (r: Option<string>)
    requires from <= |s|
    ensures r.Some? ==> exists i :: from <= i < |s| && AngleAt(s, i) == r && NoAngleBetween(s, from, i)
    ensures r.None? ==> NoAngleBetween(s, from, |s|)
    decreases |s| - from
  {
    if from == |s| then None
    else match AngleAt(s, from)
      case Some(inner) => Some(inner)
      case None => FirstAngle(s, from + 1)
  }

  /** A character of `[^\s<>]`. */
  predicate IsTokenChar(c: char) {
    !IsSpace(c) && c != '<' && c != '>'
  }

  /** The end of the run of token characters that starts at `i`. */
  function RunEnd(s: string, i: nat): (e: nat)
    requires i <= |s|
    ensures i <= e <= |s|
    ensures forall m :: i <= m < e ==> IsTokenChar(s[m])
    ensures e == |s| || !IsTokenChar(s[e])
    decreases |s| - i
  {
    if i == |s| || !IsTokenChar(s[i]) then i else RunEnd(s, i + 1)
  }

  /**
   * `/([^\s<>]+@[^\s<>]+)/` tried at `i`: the run of token characters from `i` must hold an `@`
   * with at least one token character before and after it; the greedy groups then take the whole run.
   */
  function BareAt(s: string, i: nat): (r: Option<string>)
    requires i <= |s|
    ensures r.Some? ==> r.value == s[i..RunEnd(s, i)] && '@' in r.value
  {
    var e := RunEnd(s, i);
    if exists k | i < k < e - 1 :: s[k] == '@' then Some(s[i..e]) else None
  }

  /** The bare-address expression matches at no position in `[from, to)`. */
  predicate NoBareBetween(s: string, from: nat, to: nat)
    requires to <= |s| + 1
  {
    forall j | from <= j < to :: BareAt(s, j).None?
  }

  /** The leftmost match of the bare-address expression at or after `from`. */
  function FirstBare(s: string, from: nat): (r: Option<string>)
    requires from <= |s|
    ensures r.Some? ==> exists i :: from <= i <= |s| && BareAt(s, i) == r && NoBareBetween(s, from, i)
    ensures r.None? ==> NoBareBetween(s, from, |s| + 1)
    decreases |s| - from
  {
    match BareAt(s, from)
    case Some(token) => Some(token)
    case None => if from == |s| then None else FirstBare(s, from + 1)
  }

  /** The address inside the first `<...>`, else the first bare `x@y` token, else nothing. */
  function ExtractEmailFromText(text: Option<string>): (r: Option<string>)
    ensures !Truthy(text) ==> r.None?
    ensures Truthy(text) && FirstAngle(text.value, 0).Some? ==> r == FirstAngle(text.value, 0)
    ensures Truthy(text) && FirstAngle(text.value, 0).None? ==> r == FirstBare(text.value, 0)
    ensures r.Some? ==> r.value != ""
  {
    if !Truthy(text) then None
    else match FirstAngle(text.value, 0)
      case Some(inner) => Some(inner)
      case None => FirstBare(text.value, 0)
  }

  /** `Name <address>`: the address between the brackets is what comes back. */
  lemma AngleAddressExtracted(name: string, address: string)
    requires '<' !in name && '>' !in address && address != ""
    ensures ExtractEmailFromText(Some(name + "<" + address + ">")) == Some(address)
  {
    var s := name + "<" + address + ">";
    AngleAtName(name, address);
    assert s[0..|name|] == name;
    NoAngleBefore(s, |name|, 0);
    assert FirstAngle(s, 0) == Some(address);
  }

  /** In `name<address>`, the bracket expression matches at the `<` and captures `address`. */
  lemma AngleAtName(name: string, address: string)
    requires '>' !in address && address != ""
    ensures AngleAt(name + "<" + address + ">", |name|) == Some(address)
  {
    var s := name + "<" + address + ">";
    var n := |name|;
    assert s[n] == '<';
    assert forall m :: n + 1 <= m < n + 1 + |address| ==> !OccursAt(s, ">", m) by {
      forall m | n + 1 <= m < n + 1 + |address| ensures !OccursAt(s, ">", m) {
        assert s[m] == address[m - n - 1];
        assert s[m..m + 1][0] == s[m];
      }
    }
    assert OccursAt(s, ">", n + 1 + |address|);
    assert IndexOfFrom(s, ">", n + 1) == Some(n + 1 + |address|);
    assert s[n + 1..n + 1 + |address|] == address;
  }

  /** No match of the bracket expression starts before the first `<`. */
  lemma {:induction false} NoAngleBefore(s: string, n: nat, from: nat)
    requires from <= n < |s|
    requires '<' !in s[from..n]
    ensures FirstAngle(s, from) == FirstAngle(s, n)
    decreases n - from
  {
    if from < n {
      assert s[from] == s[from..n][0] && s[from + 1..n] == s[from..n][1..];
      AngleSkip(s, from);
      NoAngleBefore(s, n, from + 1);
    }
  }

  /** A position that does not hold `<` starts no bracket match, so the search moves on. */
  lemma AngleSkip(s: string, from: nat)
    requires from < |s| && s[from] != '<'
    ensures FirstAngle(s, from) == FirstAngle(s, from + 1)
  {
    assert AngleAt(s, from) == None;
  }

  /** A bare `local@domain` token with nothing around it is returned whole. */
  lemma BareAddressExtracted(address: string)
    requires |address| >= 3 && '@' in address[1..|address| - 1]
    requires forall m :: 0 <= m < |address| ==> IsTokenChar(address[m])
    ensures ExtractEmailFromText(Some(address)) == Some(address)
  {
    NoAngleAnywhere(address, 0);
    var k :| k in address[1..|address| - 1] && k == '@';
    var e := RunEnd(address, 0);
    assert e == |address|;
    assert exists m | 0 < m < e - 1 :: address[m] == '@';
    assert address[0..e] == address;
  }

  lemma {:induction false} NoAngleAnywhere(s: string, from: nat)
    requires from <= |s|
    requires '<' !in s
    ensures FirstAngle(s, from) == None
    decreases |s| - from
  {
    if from < |s| {
      NoAngleAnywhere(s, from + 1);
    }
  }

  // ---------------------------------------------------------------- body cleaning

  /** The signature expressions: `^--\s*$` and six exact lines, all matched line by line. */
  datatype SignatureLine = DashDash | ExactLine(text: string)

  const SignaturePatterns: seq<SignatureLine> := [
    DashDash,
    ExactLine("Sent from my iPhone"),
    ExactLine("Sent from my iPad"),
    ExactLine("Sent from my Android"),
    ExactLine("Get Outlook for iOS"),
    ExactLine("Get Outlook for Android"),
    ExactLine("Sent from Mail for Windows")
  ]

  /** `^` of a multiline expression matches at `i`. */
  predicate LineStartAt(s: string, i: int) {
    0 <= i <= |s| && (i == 0 || IsLineTerminator(s[i - 1]))
  }

  /** `$` of a multiline expression matches at `j`. */
  predicate LineEndAt(s: string, j: int) {
    0 <= j <= |s| && (j == |s| || IsLineTerminator(s[j]))
  }

  /** `\s*$` matches from `j`: some whitespace, possibly none, ends at a line end. */
  predicate BlankToLineEnd(s: string, j: int)
    requires 0 <= j <= |s|
  {
    exists q | j <= q <= |s| :: LineEndAt(s, q) && forall m | j <= m < q :: IsSpace(s[m])
  }

  /** The signature expression matches starting at `i`. */
  predicate SignatureAt(p: SignatureLine, s: string, i: int) {
    LineStartAt(s, i) &&
    match p
    case DashDash => OccursAt(s, "--", i) && BlankToLineEnd(s, i + 2)
    case ExactLine(t) => OccursAt(s, t, i) && LineEndAt(s, i + |t|)
  }

  /** `cleaned.match(pattern)?.index`: the leftmost match at or after `from`. */
  function FirstSignature(p: SignatureLine, s: string, from: nat): (r: Option<nat>)
    requires from <= |s|
    ensures r.Some? ==> from <= r.value <= |s| && SignatureAt(p, s, r.value)
    ensures r.Some? ==> forall j :: from <= j < r.value ==> !SignatureAt(p, s, j)
    ensures r.None? ==> forall j :: from <= j <= |s| ==> !SignatureAt(p, s, j)
    decreases |s| - from
  {
    if SignatureAt(p, s, from) then Some(from)
    else if from == |s| then None
    else FirstSignature(p, s, from + 1)
  }

  /** One step of the signature loop: cut the text where the pattern first matches. */
  function CutAt(p: SignatureLine, s: string): (r: string)
    ensures r <= s
  {
    match FirstSignature(p, s, 0)
    case None => s
    case Some(i) => s[..i]
  }

  /** The signature loop as a whole: each pattern in turn cuts what the previous ones left. */
  function CutAtSignatures(ps: seq<SignatureLine>, s: string): (r: string)
    ensures r <= s
  {
    if |ps| == 0 then s else CutAtSignatures(ps[1..], CutAt(ps[0], s))
  }

  /** `/^On .+ wrote:$/i` on a whole (trimmed) line. */
  predicate IsAttributionLine(t: string) {
    |t| >= 11
    && Lower(t[..3]) == "on "
    && Lower(t[|t| - 7..]) == " wrote:"
    && forall m | 3 <= m < |t| - 7 :: !IsLineTerminator(t[m])
  }

  /** A line at which the body ends: quoted text or a reply attribution. */
  predicate IsQuoteStart(line: string) {
    ">" <= Trim(line) || IsAttributionLine(Trim(line))
  }

  /** The lines kept: all of them up to the first line at which the body ends. */
  function KeptLines(lines: seq<string>): (r: seq<string>)
    ensures r <= lines
  {
    if |lines| == 0 || IsQuoteStart(lines[0]) then [] else [lines[0]] + KeptLines(lines[1..])
  }

  /** The lines kept are exactly those before the first quote or attribution line. */
  lemma {:induction false} KeptLinesStopAtQuote(lines: seq<string>)
    ensures forall k :: 0 <= k < |KeptLines(lines)| ==> !IsQuoteStart(lines[k])
    ensures |KeptLines(lines)| < |lines| ==> IsQuoteStart(lines[|KeptLines(lines)|])
  {
    if |lines| > 0 && !IsQuoteStart(lines[0]) {
      KeptLinesStopAtQuote(lines[1..]);
      assert forall k :: 0 < k <= |KeptLines(lines[1..])| ==> lines[k] == lines[1..][k - 1];
    }
  }

  /** The body once the signatures are cut: the lines before the first quote, joined back and trimmed. */
  function BodyBeforeQuote(cut: string): string {
    Trim(Join(KeptLines(SplitOn(cut, "\n")), "\n"))
  }

  /** The cleaned body, as a function of the raw text: trimmed, so it neither starts nor ends with white space. */
  function CleanBody(text: string): (r: string)
    ensures r == [] || (!IsSpace(r[0]) && !IsSpace(r[|r| - 1]))
  {
    BodyBeforeQuote(CutAtSignatures(SignaturePatterns, text))
  }

  /** The signature loop then the line loop with its `break`, as `cleanTextBody` runs them. */
  method CleanTextBody(text: string) returns (r: string)
    ensures r == CleanBody(text)
  {
    var cleaned := CutSignatures(SignaturePatterns, text);
    var lines := SplitOn(cleaned, "\n");
    var contentLines := LinesBeforeQuote(lines);
    r := Trim(Join(contentLines, "\n"));
  }

  /** The line loop: lines are kept until the first quoted or attribution line, where it breaks. */
  method LinesBeforeQuote(lines: seq<string>) returns (contentLines: seq<string>)
    ensures contentLines == KeptLines(lines)
  {
    contentLines := [];
    var n := 0;
    assert lines[0..] == lines;
    while n < |lines| && !IsQuoteStart(lines[n])
      invariant n <= |lines| && contentLines == lines[..n]
      invariant KeptLines(lines) == contentLines + KeptLines(lines[n..])
    {
      KeptLinesFrom(lines, n, false);
      Assoc(contentLines, [lines[n]], KeptLines(lines[n + 1..]));
      contentLines := contentLines + [lines[n]];
      n := n + 1;
      assert lines[..n] == contentLines;
    }
    if n < |lines| {
      KeptLinesFrom(lines, n, true);
    } else {
      assert lines[n..] == [];
    }
    assert contentLines + [] == contentLines;
  }

  /** One step of `KeptLines` from line `n`. */
  lemma KeptLinesFrom(lines: seq<string>, n: nat, stop: bool)
    requires n < |lines| && stop == IsQuoteStart(lines[n])
    ensures stop ==> KeptLines(lines[n..]) == []
    ensures !stop ==> KeptLines(lines[n..]) == [lines[n]] + KeptLines(lines[n + 1..])
  {
    assert lines[n..][0] == lines[n] && lines[n..][1..] == lines[n + 1..];
  }

  /** The signature loop: each pattern in turn cuts the text at its first match. */
  method CutSignatures(patterns: seq<SignatureLine>, text: string) returns (cleaned: string)
    ensures cleaned == CutAtSignatures(patterns, text)
  {
    cleaned := text;
    for k := 0 to |patterns|
      invariant CutAtSignatures(patterns[k..], cleaned) == CutAtSignatures(patterns, text)
    {
      assert patterns[k..][1..] == patterns[k + 1..];
      match FirstSignature(patterns[k], cleaned, 0) {
        case Some(index) =>
          cleaned := cleaned[..index];
        case None =>
      }
    }
  }

  /** What is left after cutting at the signatures and the first quote is a prefix of what was cut. */
  lemma BodyBeforeQuoteIsTrimmedPrefix(cut: string)
    ensures exists p :: p <= cut && BodyBeforeQuote(cut) == Trim(p)
  {
    var lines := SplitOn(cut, "\n");
    var kept := KeptLines(lines);
    assert kept == lines[..|kept|];
    JoinPrefix(lines, "\n", |kept|);
    assert Join(kept, "\n") <= cut;
  }

  /** The cleaned body is the trim of a prefix of the raw text. */
  lemma CleanBodyIsTrimmedPrefix(text: string)
    ensures exists p :: p <= text && CleanBody(text) == Trim(p)
  {
    var cut := CutAtSignatures(SignaturePatterns, text);
    BodyBeforeQuoteIsTrimmedPrefix(cut);
    var p :| p <= cut && BodyBeforeQuote(cut) == Trim(p);
    assert p <= text;
  }

  // ---------------------------------------------------------------- parseInboundEmail

  datatype InboundAttachment = InboundAttachment(
    filename: Option<string>, contentType: Option<string>, size: Option<int>, downloadUrl: Option<string>)

  /** The fields of the provider's webhook payload that the parser reads. */
  datatype InboundEmail = InboundEmail(
    id: string,
    recipient: string,
    subject: Option<string>,
    threadId: Option<string>,
    messageId: Option<string>,
    fromText: Option<string>,
    cc: Option<CcField>,
    textBody: Option<string>,
    htmlBody: Option<string>,
    inReplyTo: Option<string>,
    references: Option<seq<string>>,
    attachments: seq<InboundAttachment>)

  /** What the provider's `getSenderInfo` helper reports. */
  datatype SenderInfo = SenderInfo(address: Option<string>, name: Option<string>)

  function ParseAttachment(att: InboundAttachment): (r: Attachment)
    ensures r.filename != "" && r.contentType != ""
    ensures r.filename == (if Truthy(att.filename) then att.filename.value else "unnamed")
    ensures r.contentType == (if Truthy(att.contentType) then att.contentType.value else "application/octet-stream")
    ensures r.size == (if att.size.Some? then att.size.value else 0)
    ensures r.url == att.downloadUrl
  {
    Attachment(
      OrElse(att.filename, "unnamed"),
      OrElse(att.contentType, "application/octet-stream"),
      if att.size.Some? && att.size.value != 0 then att.size.value else 0,
      att.downloadUrl)
  }

  /** An optional string that is present only when truthy: `x || undefined`. */
  function TruthyOrNone(o: Option<string>): (r: Option<string>)
    ensures r.Some? <==> Truthy(o)
    ensures r.Some? ==> r == o
  {
    if Truthy(o) then o else None
  }

  /** The sender's address: `getSenderInfo`'s, else the one in the `From` text, else a placeholder. */
  function SenderAddress(sender: SenderInfo, fromText: Option<string>): (r: string)
    ensures r != ""
    ensures Truthy(sender.address) ==> r == sender.address.value
    ensures !Truthy(sender.address) && ExtractEmailFromText(fromText).Some? ==> r == ExtractEmailFromText(fromText).value
    ensures !Truthy(sender.address) && ExtractEmailFromText(fromText).None? ==> r == "unknown@unknown.com"
  {
    if Truthy(sender.address) then sender.address.value
    else OrElse(ExtractEmailFromText(fromText), "unknown@unknown.com")
  }

  /** The attachment list, one parsed entry per entry of the payload. */
  function ParseAttachments(atts: seq<InboundAttachment>): (r: seq<Attachment>)
    ensures |r| == |atts|
    ensures forall k :: 0 <= k < |r| ==> r[k] == ParseAttachment(atts[k])
  {
    seq(|atts|, k requires 0 <= k < |atts| => ParseAttachment(atts[k]))
  }

  /**
   * The normalised email. The provider's helpers are inputs: `sender` is `getSenderInfo`,
   * `bodyText` and `bodyHtml` are `getEmailText` and `getEmailHtml`.
   */
  method ParseInboundEmail(email: InboundEmail, sender: SenderInfo, bodyText: Option<string>, bodyHtml: Option<string>)
    returns (r: ParsedEmail)
    ensures r.id == email.id && r.to == email.recipient
    ensures r.from == EmailAddress(SenderAddress(sender, email.fromText), TruthyOrNone(sender.name)) && r.from.email != ""
    ensures r.cc == ExtractCcAddresses(email.cc)
    ensures r.html == (if Truthy(bodyHtml) then bodyHtml else TruthyOrNone(email.htmlBody))
    ensures r.subject == (if Truthy(email.subject) then email.subject.value else "(no subject)")
    ensures r.body == CleanBody(if Truthy(bodyText) then bodyText.value else OrElse(email.textBody, ""))
    ensures r.messageId == (if Truthy(email.messageId) then email.messageId.value else email.id)
    ensures r.threadId == Some(if Truthy(email.threadId) then email.threadId.value else r.messageId)
    ensures r.references == (if email.references.Some? then email.references.value else [])
    ensures r.inReplyTo == TruthyOrNone(email.inReplyTo) && (r.inReplyTo.Some? ==> r.inReplyTo.value != "")
    ensures |r.attachments| == |email.attachments|
    ensures forall k :: 0 <= k < |r.attachments| ==> r.attachments[k] == ParseAttachment(email.attachments[k])
  {
    var fromAddress := SenderAddress(sender, email.fromText);
    var body := CleanTextBody(if Truthy(bodyText) then bodyText.value else OrElse(email.textBody, ""));
    r := ParsedEmail(
      email.id,
      EmailAddress(fromAddress, TruthyOrNone(sender.name)),
      email.recipient,
      ExtractCcAddresses(email.cc),
      OrElse(email.subject, "(no subject)"),
      body,
      if Truthy(bodyHtml) then bodyHtml else TruthyOrNone(email.htmlBody),
      Some(if Truthy(email.threadId) then email.threadId.value else OrElse(email.messageId, email.id)),
      OrElse(email.messageId, email.id),
      TruthyOrNone(email.inReplyTo),
      if email.references.Some? then email.references.value else [],
      ParseAttachments(email.attachments));
  }
}
