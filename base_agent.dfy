/**
 * The agent base class (src/agents/base-agent.ts) and the fixed agents that inherit from it
 * (echo, info, research, summarize): the user message built from an email, the conversation
 * history kept across emails, the reply assembled from the model's answer, and the HTML body.
 * The language model is an input: the outcome of the call, an answer or a thrown value.
 */
module BaseAgent {
  import opened Wrappers
  import opened Text
  import opened EmailTypes
  import opened Personas

  datatype Role = User | Assistant

  /** One entry of `conversationHistory`. */
  datatype Turn = Turn(role: Role, content: string)

  /** A value thrown by a call: an `Error` carrying a message, or anything else. */
  datatype Thrown = Error(message: string) | NonError

  /** `error instanceof Error ? error.message : "Unknown error"`. */
  function ErrorMessage(thrown: Thrown): (r: string)
    ensures thrown.Error? ==> r == thrown.message
    ensures thrown.NonError? ==> r == "Unknown error"
  {
    match thrown
    case Error(message) => message
    case NonError => "Unknown error"
  }

  /** A block of a Messages API response. */
  datatype ContentBlock = TextBlock(text: string) | OtherBlock(blockType: string)

  /** A tool call reported by the text-generation helper. */
  datatype ToolCall = ToolCall(toolName: string)

  /**
   * The model's answer as the two client libraries report it: the Messages API's content
   * blocks, and the text-generation helper's `text` and `toolCalls`.
   */
  datatype ModelAnswer = ModelAnswer(content: seq<ContentBlock>, text: string, toolCalls: Option<seq<ToolCall>>)

  const NoResponseText: string := "Sorry, I could not generate a response."

  /** The message of the TypeError raised by calling the content builder the research agent never defines. */
  const MissingContentBuilder: string := "this.buildMessageContent is not a function"

  // ---------------------------------------------------------------- the user message

  /** `email.from.name || email.from.email`. */
  function SenderLabel(from: EmailAddress): (r: string)
    ensures Truthy(from.name) ==> r == from.name.value
    ensures !Truthy(from.name) ==> r == from.email
  {
    OrElse(from.name, from.email)
  }

  /** The header lines of the user message: subject, then sender label and address. */
  function MessageHeader(email: ParsedEmail): string {
    "Subject: " + email.subject + "\n\nFrom: " + SenderLabel(email.from) + " <" + email.from.email + ">"
  }

  /**
   * `buildUserMessage`: header, then the body, the whole trimmed. The message starts with the
   * full header and ends with a visible character.
   */
  function BuildUserMessage(email: ParsedEmail): (r: string)
    ensures MessageHeader(email) <= r && !IsSpace(r[|r| - 1])
  {
    var head := MessageHeader(email);
    var rest := "\n\nMessage:\n" + email.body;
    assert head[0] == 'S' && head[|head| - 1] == '>';
    TrimKeepsHead(head, rest);
    assert head + "\n\nMessage:\n" + email.body == head + rest;
    Trim(head + rest)
  }

  /** A body that ends with a visible character reaches the model whole, after the header and the `Message:` line. */
  lemma UserMessageKeepsBody(email: ParsedEmail)
    requires |email.body| > 0 && !IsSpace(email.body[|email.body| - 1])
    ensures BuildUserMessage(email) == MessageHeader(email) + "\n\nMessage:\n" + email.body
  {
    var s := MessageHeader(email) + "\n\nMessage:\n" + email.body;
    assert s[0] == 'S' && s[|s| - 1] == email.body[|email.body| - 1];
    TrimFramed(s);
  }

  // ---------------------------------------------------------------- the model's answer

  /** `content.find(block => block.type === "text")?.text`. */
  function FirstText(content: seq<ContentBlock>): (r: Option<string>)
    ensures r.Some? <==> exists i :: 0 <= i < |content| && content[i].TextBlock?
  {
    if |content| == 0 then None
    else if content[0].TextBlock? then Some(content[0].text)
    else
      assert forall i :: 0 < i < |content| ==> content[i] == content[1..][i - 1];
      FirstText(content[1..])
  }

  /** The text found is that of the first text block: every block before it is of another type. */
  lemma {:induction false} FirstTextIsFirst(content: seq<ContentBlock>)
    requires FirstText(content).Some?
    ensures exists i :: 0 <= i < |content| && content[i] == TextBlock(FirstText(content).value)
                        && forall j :: 0 <= j < i ==> !content[j].TextBlock?
  {
    if !content[0].TextBlock? {
      var rest := content[1..];
      FirstTextIsFirst(rest);
      var i :| 0 <= i < |rest| && rest[i] == TextBlock(FirstText(rest).value)
               && forall j :: 0 <= j < i ==> !rest[j].TextBlock?;
      assert content[i + 1] == rest[i];
      assert forall j :: 0 < j < i + 1 ==> content[j] == rest[j - 1];
    }
  }

  /**
   * The text an agent answers with: the research agent reads the helper's `text`, the others
   * the first text block; either way an empty answer becomes the apology text.
   */
  function AnswerText(kind: AgentKind, answer: ModelAnswer): (r: string)
    ensures r != ""
  {
    if kind == Research then OrElse(Some(answer.text), NoResponseText)
    else OrElse(FirstText(answer.content), NoResponseText)
  }

  /** The block found is the one at the first index holding a text block. */
  lemma {:induction false} FirstTextAt(content: seq<ContentBlock>, i: nat)
    requires i < |content| && content[i].TextBlock?
    requires forall j :: 0 <= j < i ==> !content[j].TextBlock?
    ensures FirstText(content) == Some(content[i].text)
  {
    if i > 0 {
      assert forall j :: 0 <= j < i - 1 ==> content[1..][j] == content[j + 1];
      FirstTextAt(content[1..], i - 1);
    }
  }

  /**
   * A fixed agent other than research answers with its first text block when that is not
   * empty, and with the apology text when the block is empty or there is no text block.
   */
  lemma AnswerTextOfBlocks(kind: AgentKind, answer: ModelAnswer, i: nat)
    requires kind != Research && i < |answer.content| && answer.content[i].TextBlock?
    requires forall j :: 0 <= j < i ==> !answer.content[j].TextBlock?
    ensures answer.content[i].text != "" ==> AnswerText(kind, answer) == answer.content[i].text
    ensures answer.content[i].text == "" ==> AnswerText(kind, answer) == NoResponseText
  {
    FirstTextAt(answer.content, i);
  }

  /** Without any text block, or with an empty research text, the answer is the apology text. */
  lemma AnswerTextWithoutText(kind: AgentKind, answer: ModelAnswer)
    requires kind == Research ==> answer.text == ""
    requires kind != Research ==> forall j :: 0 <= j < |answer.content| ==> !answer.content[j].TextBlock?
    ensures AnswerText(kind, answer) == NoResponseText
  {
  }

  /** The research agent answers with the helper's non-empty text as it is. */
  lemma ResearchAnswerText(answer: ModelAnswer)
    requires answer.text != ""
    ensures AnswerText(Research, answer) == answer.text
  {
  }

  /** The research agent's `searchCount`: the tool calls named `web_search`, 0 when none are reported. */
  function SearchCount(toolCalls: Option<seq<ToolCall>>): (n: nat)
    ensures toolCalls.None? ==> n == 0
    ensures toolCalls.Some? ==> n <= |toolCalls.value|
    ensures toolCalls.Some? && (forall i :: 0 <= i < |toolCalls.value| ==> toolCalls.value[i].toolName != "web_search") ==> n == 0
  {
    if toolCalls.None? then 0 else CountSearches(toolCalls.value)
  }

  function CountSearches(calls: seq<ToolCall>): (n: nat)
    ensures n <= |calls|
    ensures (forall i :: 0 <= i < |calls| ==> calls[i].toolName != "web_search") ==> n == 0
    ensures (forall i :: 0 <= i < |calls| ==> calls[i].toolName == "web_search") ==> n == |calls|
  {
    if |calls| == 0 then 0
    else
      assert forall i :: 0 < i < |calls| ==> calls[i] == calls[1..][i - 1];
      (if calls[0].toolName == "web_search" then 1 else 0) + CountSearches(calls[1..])
  }

  /** Counting distributes over a split of the calls. */
  lemma {:induction false} CountSearchesAppend(a: seq<ToolCall>, b: seq<ToolCall>)
    ensures CountSearches(a + b) == CountSearches(a) + CountSearches(b)
  {
    if |a| == 0 {
      assert a + b == b;
    } else {
      assert (a + b)[0] == a[0];
      assert (a + b)[1..] == a[1..] + b;
      CountSearchesAppend(a[1..], b);
    }
  }

  // ---------------------------------------------------------------- the reply

  /** The `From` header: the name, then the address in angle brackets with its first `DOMAIN` replaced. */
  function FromHeader(name: string, address: string, domain: string): (r: string)
    ensures name + " <" <= r && r[|r| - 1] == '>'
    ensures !Contains(address, "DOMAIN") ==> r == name + " <" + address + ">"
    ensures r == name + " <" + ReplaceFirst(address, "DOMAIN", domain) + ">"
  {
    name + " <" + ReplaceFirst(address, "DOMAIN", domain) + ">"
  }

  /** An address written with the `DOMAIN` placeholder is sent from the serving domain. */
  lemma PlaceholderAddress(name: string, local: string, domain: string)
    requires !Contains(local, "DOMAIN")
    ensures FromHeader(name, local + "@DOMAIN", domain) == name + " <" + local + "@" + domain + ">"
  {
    var address := local + "@DOMAIN";
    var i := |local| + 1;
    assert address == local + ['@'] + "DOMAIN";
    FirstOccurrenceAfterMark(local, '@', "DOMAIN");
    assert IndexOf(address, "DOMAIN") == Some(i);
    assert address[..i] == local + "@" && address[i + 6..] == [];
  }

  /** In `local`, a mark and then `t`, the first `t` is the one after the mark when neither `local` nor `t` holds one. */
  lemma FirstOccurrenceAfterMark(local: string, c: char, t: string)
    requires |t| > 0 && c !in t && !Contains(local, t)
    ensures var s := local + [c] + t;
            && OccursAt(s, t, |local| + 1)
            && forall j :: 0 <= j < |local| + 1 ==> !OccursAt(s, t, j)
  {
    var s := local + [c] + t;
    var i := |local| + 1;
    assert s[i..i + |t|] == t;
    forall j | 0 <= j < i
      ensures !OccursAt(s, t, j)
    {
      if j + |t| <= |local| {
        assert s[j..j + |t|] == local[j..j + |t|];
        assert !OccursAt(local, t, j);
      } else if j + |t| <= |s| {
        assert s[j..j + |t|][|local| - j] == c;
        assert t[|local| - j] in t;
      }
    }
  }

  /** The reply to `email` carrying `body`, signed with the agent's name and address. */
  function BuildReply(agentName: string, agentAddress: string, domain: string, email: ParsedEmail, body: string)
    : (r: EmailReply)
    ensures r.to == email.from.email
    ensures r.from == FromHeader(agentName, agentAddress, domain)
    ensures r.subject == ReplySubject(email.subject)
    ensures r.body == body && r.html == Some(FormatAsHtml(body))
    ensures r.inReplyTo == Some(email.messageId)
    ensures r.references.Some? && |r.references.value| == |email.references| + 1
    ensures r.references.value[..|email.references|] == email.references
    ensures r.references.value[|email.references|] == email.messageId
  {
    EmailReply(
      email.from.email,
      FromHeader(agentName, agentAddress, domain),
      ReplySubject(email.subject),
      body,
      Some(FormatAsHtml(body)),
      Some(email.messageId),
      Some(email.references + [email.messageId]))
  }

  /** A reply built from a reply keeps the thread: the subject gains no second prefix and the chain grows by one id. */
  lemma ReplyToReply(agentName: string, agentAddress: string, domain: string, email: ParsedEmail, body: string,
                     next: ParsedEmail, body2: string)
    requires var first := BuildReply(agentName, agentAddress, domain, email, body);
             next.subject == first.subject && next.references == first.references.value
    ensures var second := BuildReply(agentName, agentAddress, domain, next, body2);
            second.subject == ReplySubject(email.subject)
            && second.references.value == email.references + [email.messageId, next.messageId]
  {
    ReplySubjectIdempotent(email.subject);
    assert email.references + [email.messageId] + [next.messageId] == email.references + [email.messageId, next.messageId];
  }

  /**
   * What `generateReply` hands back once `process` has settled: a reply carrying the text,
   * or, when `process` threw, a failure carrying the thrown message and no reply.
   */
  function ReplyResult(processed: Result<string, Thrown>, agentName: string, agentAddress: string,
                       domain: string, email: ParsedEmail): (r: AgentResult)
    ensures r.success <==> processed.Ok?
    ensures r.success ==> r.error == None && r.reply.Some?
                          && r.reply.value.body == processed.value
                          && r.reply.value.to == email.from.email
                          && r.reply.value.from == FromHeader(agentName, agentAddress, domain)
                          && r.reply.value.inReplyTo == Some(email.messageId)
    ensures r.success ==> r.reply == Some(BuildReply(agentName, agentAddress, domain, email, processed.value))
    ensures !r.success ==> r.reply == None && r.error == Some(ErrorMessage(processed.error))
  {
    match processed
    case Err(thrown) => AgentResult(false, None, Some(ErrorMessage(thrown)))
    case Ok(body) => AgentResult(true, Some(BuildReply(agentName, agentAddress, domain, email, body)), None)
  }

  // ---------------------------------------------------------------- HTML

  const Doctype: string := "<!DOCTYPE html>\n"

  const HtmlEnd: string := "</html>"

  const HtmlOpening: string := Doctype +
    "<html>\n<head>\n  <meta charset=\"utf-8\">\n  <style>\n    body {\n      font-family: -apple-system, BlinkMacSystemFont, 'Segoe UI', Roboto, sans-serif;\n      line-height: 1.6;\n      color: #333;\n      max-width: 600px;\n    }\n    p { margin: 1em 0; }\n    code {\n      background: #f4f4f4;\n      padding: 2px 6px;\n      border-radius: 3px;\n      font-family: 'Monaco', 'Menlo', monospace;\n    }\n    pre {\n      background: #f4f4f4;\n      padding: 12px;\n      border-radius: 6px;\n      overflow-x: auto;\n    }\n    pre code { background: none; padding: 0; }\n    a { color: #0066cc; }\n  </style>\n</head>\n<body>\n  "

  const HtmlClosing: string :=
    "\n\n  <hr style=\"margin: 2em 0; border: none; border-top: 1px solid #ddd;\">\n  <p style=\"color: #666; font-size: 0.9em;\">\n    This email was generated by an AI agent. Reply to continue the conversation.\n  </p>\n</body>\n" + HtmlEnd

  /** One paragraph: left as it is when it holds a `<pre>` block, else wrapped in `<p>` with `<br>` for each newline. */
  function HtmlParagraph(p: string): (r: string)
    ensures Contains(p, "<pre>") ==> r == p
    ensures !Contains(p, "<pre>") ==> "<p>" <= r && |r| >= 7 && r[|r| - 4..] == "</p>" && '\n' !in r
    ensures !Contains(p, "<pre>") && '\n' !in p ==> r == "<p>" + p + "</p>"
    ensures !Contains(p, "<pre>") ==> r == "<p>" + ReplaceChar(p, '\n', "<br>") + "</p>"
  {
    if Contains(p, "<pre>") then p
    else
      var inner := ReplaceChar(p, '\n', "<br>");
      assert '\n' !in "<br>";
      assert '\n' !in "<p>" + inner + "</p>";
      "<p>" + inner + "</p>"
  }

  /** A paragraph of several lines without `<pre>` becomes one `<p>` with the lines separated by `<br>`. */
  lemma HtmlParagraphLines(lines: seq<string>)
    requires forall k :: 0 <= k < |lines| ==> '\n' !in lines[k] && !Contains(lines[k], "<pre>")
    ensures HtmlParagraph(Join(lines, "\n")) == "<p>" + Join(lines, "<br>") + "</p>"
  {
    var p := Join(lines, ['\n']);
    PreTagIsOneLine();
    JoinAvoids(lines, '\n', "<pre>");
    ReplaceCharJoined(lines, '\n', "<br>");
    assert HtmlParagraph(p) == "<p>" + ReplaceChar(p, '\n', "<br>") + "</p>";
  }

  lemma PreTagIsOneLine()
    ensures |"<pre>"| > 0 && '\n' !in "<pre>"
  {
  }

  /** The paragraphs of the text, split at blank lines and converted one by one. */
  function HtmlParagraphs(text: string): (r: seq<string>)
    ensures var parts := SplitOn(text, "\n\n");
            |r| == |parts| && forall i :: 0 <= i < |r| ==> r[i] == HtmlParagraph(parts[i])
  {
    var parts := SplitOn(text, "\n\n");
    seq(|parts|, i requires 0 <= i < |parts| => HtmlParagraph(parts[i]))
  }

  /**
   * `formatAsHtml`, from the paragraph stage on: the converted paragraphs inside the fixed page.
   * The final `trim` never changes the page, which starts with `<` and ends with `>`.
   */
  function FormatAsHtml(text: string): (r: string)
    ensures r == HtmlOpening + Join(HtmlParagraphs(text), "\n  ") + HtmlClosing
  {
    var page := HtmlOpening + Join(HtmlParagraphs(text), "\n  ") + HtmlClosing;
    assert page[0] == Doctype[0];
    assert page[|page| - 1] == HtmlEnd[|HtmlEnd| - 1];
    TrimFramed(page);
    Trim(page)
  }

  // ---------------------------------------------------------------- the agent

  /** An instance of one of the fixed agents, with its persisted state. */
  class EmailAgent {
    const kind: AgentKind
    const domain: string
    /** `state.conversationHistory`. */
    var history: seq<Turn>
    /** `state.lastProcessedAt`, an ISO time supplied by the caller. */
    var lastProcessedAt: Option<string>

    /** A new instance starts from `initialState`: no history. */
    constructor(kind: AgentKind, domain: string)
      ensures this.kind == kind && this.domain == domain
      ensures history == [] && lastProcessedAt == None
    {
      this.kind := kind;
      this.domain := domain;
      history := [];
      lastProcessedAt := None;
    }

    function SystemPromptFor(today: string): string
      reads this
    {
      SystemPrompt(kind, domain, today)
    }

    /**
     * `process`: appends the user turn, calls the model, and appends the assistant turn. When
     * the call throws, the user turn stays and the thrown value goes to the caller.
     */
    method Process(email: ParsedEmail, now: string, call: Result<ModelAnswer, Thrown>) returns (r: Result<string, Thrown>)
      modifies this
      ensures call.Err? ==> r == Err(call.error) && history == old(history) + [Turn(User, BuildUserMessage(email))]
      ensures call.Ok? ==> r == Ok(AnswerText(kind, call.value))
      ensures call.Ok? ==> history == old(history) + [Turn(User, BuildUserMessage(email)), Turn(Assistant, r.value)]
      ensures lastProcessedAt == Some(now)
    {
      r := Exchange(BuildUserMessage(email), now, call);
    }

    /** The part of `process` after the user message is built: both turns, and the thrown value passed on. */
    method Exchange(userMessage: string, now: string, call: Result<ModelAnswer, Thrown>) returns (r: Result<string, Thrown>)
      modifies this
      ensures call.Err? ==> r == Err(call.error) && history == old(history) + [Turn(User, userMessage)]
      ensures call.Ok? ==> r == Ok(AnswerText(kind, call.value))
      ensures call.Ok? ==> history == old(history) + [Turn(User, userMessage), Turn(Assistant, r.value)]
      ensures lastProcessedAt == Some(now)
    {
      history := history + [Turn(User, userMessage)];
      lastProcessedAt := Some(now);
      match call {
        case Err(thrown) =>
          r := Err(thrown);
        case Ok(answer) =>
          var responseText := AnswerText(kind, answer);
          history := history + [Turn(Assistant, responseText)];
          r := Ok(responseText);
      }
    }

    /**
     * `process` of src/agents/research-agent.ts as written: its first step after `getTools` calls
     * `this.buildMessageContent`, which neither that class nor the base class defines, so the call
     * raises a TypeError before the history or the timestamp is touched.
     */
    method ResearchProcessAsWritten(email: ParsedEmail) returns (r: Result<string, Thrown>)
      requires kind == Research
      ensures r.Err? && r.error.Error? && r.error.message == MissingContentBuilder
    {
      r := Err(Error(MissingContentBuilder));
    }

    /**
     * `generateReply` of the Research agent as written: whatever the e-mail, processing throws, so
     * the result is a failure carrying the TypeError's message and no reply is built.
     */
    method ResearchGenerateReplyAsWritten(email: ParsedEmail) returns (result: AgentResult)
      requires kind == Research
      ensures !result.success && result.reply == None
      ensures result.error == Some("this.buildMessageContent is not a function")
    {
      var processed := ResearchProcessAsWritten(email);
      result := ReplyResult(processed, AgentName(kind), AgentAddress(kind, domain), domain, email);
    }

    /** `generateReply`: the reply on success, `{success: false, error}` when processing threw. */
    method GenerateReply(email: ParsedEmail, now: string, call: Result<ModelAnswer, Thrown>) returns (result: AgentResult)
      modifies this
      ensures result.success <==> call.Ok?
      ensures result == ReplyResult(if call.Ok? then Ok(AnswerText(kind, call.value)) else Err(call.error),
                                    AgentName(kind), AgentAddress(kind, domain), domain, email)
      ensures call.Err? ==> history == old(history) + [Turn(User, BuildUserMessage(email))]
      ensures call.Ok? ==> history == old(history) + [Turn(User, BuildUserMessage(email)), Turn(Assistant, AnswerText(kind, call.value))]
    {
      var processed := Process(email, now, call);
      result := ReplyResult(processed, AgentName(kind), AgentAddress(kind, domain), domain, email);
    }
  }
}
