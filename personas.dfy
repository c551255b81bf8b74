/**
 * The fixed agents (src/agents/echo-agent.ts, info-agent.ts, research-agent.ts and
 * summarize-agent.ts): each is a constant address, display name, system prompt and tool list.
 * The serving domain and the date shown in a prompt are parameters.
 */
module Personas {
  import opened Text

  /** The agent classes with a fixed persona. */
  datatype AgentKind = Echo | Info | Research | Summarize

  /** The local part each agent answers from. */
  function LocalName(kind: AgentKind): (r: string)
    ensures r != "" && '@' !in r && Lower(r) == r
  {
    match kind
    case Echo => "echo"
    case Info => "info"
    case Research => "research"
    case Summarize => "summarize"
  }

  /** `getAgentAddress`: `<name>@<domain>`. */
  function AgentAddress(kind: AgentKind, domain: string): (r: string)
    ensures Before(r, '@') == LocalName(kind)
    ensures |r| == |LocalName(kind)| + 1 + |domain| && r[|LocalName(kind)| + 1..] == domain
  {
    BeforeAppend(LocalName(kind), '@', domain);
    LocalName(kind) + "@" + domain
  }

  /** `getAgentName`. */
  function AgentName(kind: AgentKind): (r: string)
    ensures |r| > 6 && r[|r| - 6..] == " Agent"
  {
    match kind
    case Echo => "Echo Agent"
    case Info => "Info Agent"
    case Research => "Research Agent"
    case Summarize => "Summarize Agent"
  }

  const EchoPrompt: string :=
    "You are the Echo Agent, a simple test agent for the Email Agent Service.\n\nYour role is to acknowledge receipt of emails and echo back the content you received.\n\nFormat your response as:\n1. A friendly acknowledgment that you received the email\n2. Echo back the key details:\n   - Subject\n   - Sender\n   - Message content (summarized if very long)\n3. Confirm that the email pipeline is working correctly\n\nKeep your response concise and helpful. Sign off as \"Echo Agent\"."

  /** The first words of every prompt that names the serving domain. */
  function Opening(kind: AgentKind): string {
    "You are the " + AgentName(kind) + " for the Email Agent Service at "
  }

  const InfoIntro: string :=
    ".\n\nYour role is to help users understand how the service works and what agents are available.\n\n## About the Service\nThis service provides AI agents accessible via email. No apps, no APIs\U{2014}just email.\n\n## Built-in Agents\n"

  /** One line of the Info agent's list of built-in agents. */
  function ListEntry(local: string, domain: string, blurb: string): string {
    "- " + Bold(local + "@" + domain) + " - " + blurb + "\n"
  }

  function Bold(s: string): string {
    "**" + s + "**"
  }

  /** What the list says of each agent. */
  const EchoBlurb: string := "Test agent that echoes back your message"
  const InfoBlurb: string := "Information about the service (that's you!)"
  const ResearchBlurb: string := "Web research on any topic with cited sources"
  const SummarizeBlurb: string := "Summarize long emails or threads into key points"
  const WriteBlurb: string := "Draft emails, posts, articles (coming soon)"

  function BuiltInList(domain: string): string {
    ListEntry("echo", domain, EchoBlurb)
    + ListEntry("info", domain, InfoBlurb)
    + ListEntry("research", domain, ResearchBlurb)
    + ListEntry("summarize", domain, SummarizeBlurb)
    + ListEntry("write", domain, WriteBlurb)
  }

  function DynamicExamples(domain: string): string {
    "\n## Dynamic Agents (Meta-Agent)\nUsers can email ANY address to create a custom agent. The address becomes the instruction:\n- write-haiku-about-cats@" + domain
    + "\n- translate-to-spanish@" + domain
    + "\n- explain-like-im-five@" + domain
    + "\n- analyze-this-code@" + domain
  }

  const InfoClosing: string :=
    "\n\n## How It Works\n1. Send an email to any agent address\n2. The agent processes your request using AI (Claude)\n3. You receive a reply via email (usually within 60 seconds)\n4. Continue the conversation by replying to the email\n\n## Guidelines\n- Keep responses friendly, concise, and helpful\n- Encourage users to try different agents\n- If they ask for features we don't have yet, let them know it's coming\n- Sign off as \"Info Agent\"\n\nToday's date is "

  const SummarizeBody: string :=
    ".\n\nYour role is to help users quickly understand long emails, documents, and threads by extracting key information.\n\n## Guidelines\n\n1. **Identify Core Message**: What is the main point or purpose of the content?\n\n2. **Extract Key Points**: Pull out the most important details, facts, and arguments.\n\n3. **Find Action Items**: Explicitly list any tasks, requests, or next steps mentioned.\n\n4. **Be Concise**: Aim for 20-30% of the original length while preserving meaning.\n\n5. **Maintain Accuracy**: Never add information that wasn't in the original content.\n\n6. **Adapt to Content Type**:\n   - Emails: Focus on requests, decisions, and action items\n   - Articles: Focus on main thesis and supporting points\n   - Threads: Track the conversation flow and resolution\n   - Documents: Focus on structure and key sections\n\n## Response Format\n\n**Summary:** [1-3 sentence overview of the content]\n\n**Key Points:**\n- [Important point 1]\n- [Important point 2]\n- [Important point 3]\n\n**Action Items:** (if applicable)\n- [ ] [Task 1]\n- [ ] [Task 2]\n\n**Additional Details:** (if relevant)\n[Any important context, deadlines, or nuances]\n\nSign off as \"Summarize Agent\"\n\nToday's date is "

  const ResearchBody: string :=
    ".\n\nYour role is to help users find accurate, up-to-date information on any topic using web search.\n\n## Guidelines\n\n1. **Proactive Search**: Use web search liberally for any factual, current, or verifiable information. When in doubt, search.\n\n2. **Source Citations**: Always cite your sources using markdown links. Format: [Source Name](URL)\n\n3. **Synthesis Over Listing**: Don't just list search results. Synthesize information into a coherent, helpful response.\n\n4. **Current Information**: Prioritize recent sources for time-sensitive topics (news, prices, events).\n\n5. **Accuracy**: If search results are conflicting or unclear, acknowledge this and present multiple perspectives.\n\n6. **Limitations**: If you cannot find reliable information, say so rather than guessing.\n\n## Response Format\n\nCRITICAL: Your response must contain ONLY the final research report. Do NOT include:\n- Your internal thoughts or reasoning process\n- Phrases like \"I found...\", \"Let me search...\", \"I'll look for...\"\n- Meta-commentary about what you're doing or planning to do\n\nStructure your responses clearly:\n- Start with a direct answer when possible\n- Provide supporting details and context\n- Include source citations inline or at the end\n- Note any caveats or limitations\n\nSign off as \"Research Agent\"\n\nToday's date is "

  /** The text between the opening and the date line. */
  function PromptBody(kind: AgentKind, domain: string): string {
    match kind
    case Echo => ""
    case Info => InfoIntro + BuiltInList(domain) + DynamicExamples(domain) + InfoClosing
    case Research => ResearchBody
    case Summarize => SummarizeBody
  }

  /**
   * `getSystemPrompt`. The Echo prompt is one constant; the others open with the
   * serving domain and close with today's date.
   */
  function SystemPrompt(kind: AgentKind, domain: string, today: string): (r: string)
    ensures kind == Echo ==> r == EchoPrompt
    ensures kind != Echo ==> Opening(kind) + domain <= r
    ensures kind != Echo ==> |r| > |today| && r[|r| - |today| - 1..] == today + "."
  {
    if kind == Echo then EchoPrompt
    else
      var head := Opening(kind) + domain;
      var body := PromptBody(kind, domain);
      Framed(head, body, today + ".");
      head + body + (today + ".")
  }

  /** `head` opens and `foot` closes `head + body + foot`. */
  lemma Framed(head: string, body: string, foot: string)
    ensures head <= head + body + foot
    ensures (head + body + foot)[|head + body + foot| - |foot|..] == foot
  {
  }

  lemma ContainsRight(a: string, s: string, t: string)
    requires Contains(s, t)
    ensures Contains(a + s, t)
  {
    var i :| 0 <= i <= |s| - |t| && OccursAt(s, t, i);
    assert (a + s)[|a| + i..|a| + i + |t|] == s[i..i + |t|];
    assert OccursAt(a + s, t, |a| + i);
  }

  lemma ContainsLeft(s: string, b: string, t: string)
    requires Contains(s, t)
    ensures Contains(s + b, t)
  {
    var i :| 0 <= i <= |s| - |t| && OccursAt(s, t, i);
    assert (s + b)[i..i + |t|] == s[i..i + |t|];
    assert OccursAt(s + b, t, i);
  }

  lemma EntryShowsAddress(local: string, domain: string, blurb: string)
    ensures Contains(ListEntry(local, domain, blurb), Bold(local + "@" + domain))
  {
    var e := ListEntry(local, domain, blurb);
    var b := Bold(local + "@" + domain);
    assert e == "- " + b + (" - " + blurb + "\n");
    assert e[2..2 + |b|] == b;
    assert OccursAt(e, b, 2);
  }

  function Blurb(kind: AgentKind): string {
    match kind
    case Echo => EchoBlurb
    case Info => InfoBlurb
    case Research => ResearchBlurb
    case Summarize => SummarizeBlurb
  }

  /** The list of built-in agents names every fixed agent's address. */
  lemma {:induction false} ListShowsAgent(kind: AgentKind, domain: string)
    ensures Contains(BuiltInList(domain), Bold(AgentAddress(kind, domain)))
  {
    var e1 := ListEntry("echo", domain, EchoBlurb);
    var e2 := ListEntry("info", domain, InfoBlurb);
    var e3 := ListEntry("research", domain, ResearchBlurb);
    var e4 := ListEntry("summarize", domain, SummarizeBlurb);
    var e5 := ListEntry("write", domain, WriteBlurb);
    var t := Bold(AgentAddress(kind, domain));
    EntryShowsAddress(LocalName(kind), domain, Blurb(kind));
    match kind {
      case Echo =>
        ContainsLeft(e1, e2, t); ContainsLeft(e1 + e2, e3, t); ContainsLeft(e1 + e2 + e3, e4, t);
        ContainsLeft(e1 + e2 + e3 + e4, e5, t);
      case Info =>
        ContainsRight(e1, e2, t); ContainsLeft(e1 + e2, e3, t); ContainsLeft(e1 + e2 + e3, e4, t);
        ContainsLeft(e1 + e2 + e3 + e4, e5, t);
      case Research =>
        ContainsRight(e1 + e2, e3, t); ContainsLeft(e1 + e2 + e3, e4, t);
        ContainsLeft(e1 + e2 + e3 + e4, e5, t);
      case Summarize =>
        ContainsRight(e1 + e2 + e3, e4, t); ContainsLeft(e1 + e2 + e3 + e4, e5, t);
    }
  }

  /** Whatever `list` contains, the Info prompt built around it contains too. */
  lemma ContainsInInfoPrompt(head: string, intro: string, list: string, examples: string, closing: string, foot: string, t: string)
    requires Contains(list, t)
    ensures Contains(head + (intro + list + examples + closing) + foot, t)
  {
    ContainsRight(intro, list, t);
    ContainsLeft(intro + list, examples, t);
    ContainsLeft(intro + list + examples, closing, t);
    ContainsRight(head, intro + list + examples + closing, t);
    ContainsLeft(head + (intro + list + examples + closing), foot, t);
  }

  /** The Info agent's prompt lists every fixed agent's address on the serving domain, in bold. */
  lemma InfoPromptListsAgents(kind: AgentKind, domain: string, today: string)
    ensures Contains(SystemPrompt(Info, domain, today), Bold(AgentAddress(kind, domain)))
  {
    ListShowsAgent(kind, domain);
    ContainsInInfoPrompt(Opening(Info) + domain, InfoIntro, BuiltInList(domain), DynamicExamples(domain), InfoClosing,
      today + ".", Bold(AgentAddress(kind, domain)));
    InfoPromptShape(domain, today);
  }

  lemma InfoPromptShape(domain: string, today: string)
    ensures SystemPrompt(Info, domain, today) == Opening(Info) + domain + PromptBody(Info, domain) + (today + ".")
  {
  }

  /** A tool offered to the model: its name and how often one reply may use it. */
  datatype Tool = Tool(name: string, maxUses: nat)

  const WebSearch: Tool := Tool("web_search", 5)

  /** `getTools`: only the Research agent has a tool, one bounded web search. */
  function Tools(kind: AgentKind): (r: seq<Tool>)
    ensures |r| > 0 <==> kind == Research
    ensures kind == Research ==> r == [Tool("web_search", 5)]
    ensures forall t :: t in r ==> t.name == "web_search" && t.maxUses == 5
  {
    if kind == Research then [WebSearch] else []
  }
}
