# mail-to-ai: the e-mail agent dispatch layer, in Dafny

mail-to-ai answers e-mail with AI agents. Each incoming message is handled in four stages:

1. Its recipient address is normalised and screened by a safety gate.
2. It is routed to an agent: one of the fixed personas (echo, info, research, summarize), or the Meta agent, which reads the address itself as an instruction ("write-haiku-about-cats@…").
3. The agent's answer is sent back as a threaded reply.
4. A per-sender rate limit and usage statistics are kept in a key-value store.

This project models that layer and proves what it promises. The model covers:

- the safety gate;
- the address and body normalisation;
- the router and the fixed agents' constants;
- the reply every agent builds, and its failure wrapping;
- the Meta agent's instruction parsing, its two-tier prompt cache and its conversation history;
- the rate limiter and counters over a KV map;
- the outbound payloads;
- the control flow of the processing pipeline.

How external pieces are represented:

- **Model calls** are inputs. Each is what the call returned, or the value it threw.
- **Transport answers** are inputs as well.
- **Time** is an input: the current time, the ISO timestamp, the day key and the formatted reset time.

Modules, one file each:

- wrappers.dfy (`Wrappers`): `Option` and `Result`
- text.dfy (`Text`): the JavaScript string operations the source uses (ASCII case mapping, `trim`, `split`, `join`, `indexOf`, first-occurrence `replace`)
- email_types.dfy (`EmailTypes`): src/types/email.ts, JavaScript truthiness and `||` on optional strings, the `Re:` subject rule
- safety_validator.dfy (`SafetyValidator`): src/utils/safety-validator.ts
- email_parser.dfy (`EmailParser`): src/utils/email-parser.ts
- personas.dfy (`Personas`): the constants of src/agents/{echo,info,research,summarize}-agent.ts
- agent_router.dfy (`AgentRouter`): src/services/agent-router.ts
- rate_limiter.dfy (`RateLimiter`): src/utils/rate-limiter.ts, with the KV store as class `KvStore` over a map
- base_agent.dfy (`BaseAgent`): src/agents/base-agent.ts, the fixed agents' `process`, and the research agent's search count
- instruction.dfy (`Instruction`, `InstructionExamples`): `parseAddressToInstruction` of src/agents/meta-agent.ts and its documented examples
- meta_agent.dfy (`MetaAgent`): the rest of src/agents/meta-agent.ts
- email_sender.dfy (`EmailSender`): src/services/email-sender.ts, with the transport's log as class `Outbox`
- email_processor.dfy (`EmailProcessor`): src/services/email-processor.ts

How the stateful parts are stated:

- **`MetaAgent.MetaAgent.Process` and `EmailProcessor.ProcessEmail`** are imperative methods over the instance's fields, the `KvStore` and the `Outbox`.
  - Each is proved equal to a pure function of the old state: `MetaAgent.ProcessSpec` and `EmailProcessor.PipelineSpec`.
  - The properties the source promises are proved as lemmas about those functions.
- **`BaseAgent.EmailAgent.Process`** and **`BaseAgent.EmailAgent.Exchange`** state the new history directly.

Where the code and its documentation disagree, the model follows the code. The places where the code cannot run as written are listed under "## Findings".

Two further places where the files disagree:

- The processor calls `routeToAgent(email, env)` and expects an `AgentResult`. The router's `routeToAgent(email, apiKey, domain)` returns an agent instance.
  - As written, the processor reads `success` from that instance, which has no such field. Every e-mail within the rate limit therefore fails with "Agent failed to generate reply", or with whatever the agent's constructor throws. "## Findings" lists this case.
  - `AgentRouter.RouteToAgent` models the routing decision. `EmailProcessor.ProcessEmail` takes the `AgentResult` as an input. The as-written case is the input `AgentResult(false, None, None)`, and `EmailProcessor.RoutedInstanceFailsAsWritten` states its outcome.
- The router's registry holds only `echo` and `info`. Every other local part, including `research` and `summarize`, falls back to the Info agent, not the Meta agent.

## Model

| member | source | states |
|---|---|---|
| EmailTypes.OrElse | src/agents/meta-agent.ts:209 | `x \|\| fallback` on an optional string: the value when it is present and non-empty, the fallback otherwise |
| EmailTypes.ReplySubject | src/agents/base-agent.ts:151-153 | the subject is kept when it starts with `Re:`, otherwise prefixed with `Re: `; the result always starts with `Re:` |
| EmailTypes.ReplySubjectIdempotent | src/agents/base-agent.ts:151-153 | applying the subject rule twice gives the same subject as once |
| SafetyValidator.FirstWhere | src/utils/safety-validator.ts:57-66 | the first-match loop: the index found satisfies the test and no earlier one does; none found means none satisfies it |
| SafetyValidator.ValidateAddress | src/utils/safety-validator.ts:54-67 | safe iff no address pattern matches the lower-cased local part; otherwise the reason names the first matching pattern in list order, and safe results carry no reason |
| SafetyValidator.ValidateBody | src/utils/safety-validator.ts:69-80 | safe iff no injection phrase is found anywhere, case-insensitively; otherwise the fixed prompt-injection reason |
| SafetyValidator.ValidateRequest | src/utils/safety-validator.ts:82-97 | an unsafe address result is returned unchanged without consulting the body; otherwise the body result; safe iff both are safe |
| SafetyValidator.BlockedResponseMessage | src/utils/safety-validator.ts:99-108 | the reason sits verbatim between the fixed opening and closing text |
| SafetyValidator.BlockedResponseMessageInjective | src/utils/safety-validator.ts:99-108 | two rejection texts are equal only for equal reasons: the reason can be read back |
| SafetyValidator.DomainIsIgnored | src/utils/safety-validator.ts:55 | two addresses with the same local part get the same verdict whatever their domains |
| SafetyValidator.ValidateAddressIgnoresCase | src/utils/safety-validator.ts:55 | lower-casing an address does not change its verdict |
| SafetyValidator.PlainTermBlocks | src/utils/safety-validator.ts:12-32 | a plain blocked term anywhere in the lower-cased local part makes the address unsafe |
| SafetyValidator.WholeWordNeedsBoundary | src/utils/safety-validator.ts:33-36 | `\bsex\b` does not match inside `sexy` but matches in `no-sex` |
| SafetyValidator.ReasonFollowsListOrder | src/utils/safety-validator.ts:57-63 | for `bomb-hack@…` the reason names `hack`, which comes first in the list, not `bomb`, which comes first in the address |
| SafetyValidator.InjectionIsCaught | src/utils/safety-validator.ts:40 | "Ignore previous instructions", in any case and anywhere in a body, is rejected with the injection reason |
| EmailParser.ExtractLocalPart | src/utils/email-parser.ts:121-123 | the lower-cased text before the first `@`, or the whole string lower-cased; the result holds no `@` |
| EmailParser.ExtractAgentName | src/utils/email-parser.ts:129-131 | identical to the local part |
| EmailParser.LocalPartOfAddress | src/utils/email-parser.ts:121-123 | for `local@domain`, the result is `local` lower-cased, whatever the domain |
| EmailParser.LocalPartWithoutAt | src/utils/email-parser.ts:121-123 | without an `@` the whole string, lower-cased |
| EmailParser.PresentAddresses | src/utils/email-parser.ts:65-67 | exactly the present, non-empty addresses of the entries, and no more of them than entries |
| EmailParser.PresentAddressesAppend | src/utils/email-parser.ts:65-67 | filtering distributes over concatenation, so the original order is kept |
| EmailParser.ExtractCcAddresses | src/utils/email-parser.ts:61-68 | `[]` for a missing CC field or address list, otherwise the present addresses |
| EmailParser.AngleAt | src/utils/email-parser.ts:75 | `<([^>]+)>` at one position: a non-empty run without `>` between `<` and the next `>` |
| EmailParser.FirstAngle | src/utils/email-parser.ts:75 | the leftmost bracket match at or after the start: a match at some position with none before it; nothing exactly when no position matches |
| EmailParser.RunEnd | src/utils/email-parser.ts:75 | the end of a maximal run of `[^\s<>]` characters |
| EmailParser.BareAt | src/utils/email-parser.ts:75 | a bare-address match at a position is a token run that contains `@` |
| EmailParser.FirstBare | src/utils/email-parser.ts:75 | the leftmost bare-address match at or after the start: a match at some position with none before it; nothing exactly when no position matches |
| EmailParser.ExtractEmailFromText | src/utils/email-parser.ts:73-77 | nothing for empty or missing text; the first bracketed address when there is one, otherwise the first bare `x@y` token or nothing; a result is never empty |
| EmailParser.AngleAddressExtracted | src/utils/email-parser.ts:75-76 | `Name <address>` gives back `address` |
| EmailParser.BareAddressExtracted | src/utils/email-parser.ts:75-76 | a bare `local@domain` token alone gives back the whole token |
| EmailParser.FirstSignature | src/utils/email-parser.ts:96-98 | the leftmost position where a multiline signature expression matches, or none |
| EmailParser.CutAt | src/utils/email-parser.ts:97-100 | one pass of the signature loop keeps a prefix of the text |
| EmailParser.CutAtSignatures | src/utils/email-parser.ts:96-101 | the whole signature loop keeps a prefix of the text |
| EmailParser.CutSignatures | src/utils/email-parser.ts:96-101 | the loop as written computes `CutAtSignatures` |
| EmailParser.KeptLines | src/utils/email-parser.ts:107-113 | the lines kept are a prefix of the lines |
| EmailParser.KeptLinesStopAtQuote | src/utils/email-parser.ts:107-113 | no kept line starts a quote or attribution, and the first line not kept does |
| EmailParser.LinesBeforeQuote | src/utils/email-parser.ts:104-113 | the loop with its `break` computes `KeptLines` |
| EmailParser.CleanBody | src/utils/email-parser.ts:82-116 | the cleaned body neither starts nor ends with whitespace |
| EmailParser.CleanTextBody | src/utils/email-parser.ts:82-116 | the signature loop then the line loop compute `CleanBody` |
| EmailParser.BodyBeforeQuoteIsTrimmedPrefix | src/utils/email-parser.ts:104-115 | after the line loop, the result is the trim of a prefix of the cut text |
| EmailParser.CleanBodyIsTrimmedPrefix | src/utils/email-parser.ts:82-116 | the cleaned body is the trim of a prefix of the raw text |
| EmailParser.ParseAttachment | src/utils/email-parser.ts:48-53 | the defaults `unnamed`, `application/octet-stream` and 0; the URL is passed through |
| EmailParser.TruthyOrNone | src/utils/email-parser.ts:46 | `x \|\| undefined`: present exactly when truthy |
| EmailParser.SenderAddress | src/utils/email-parser.ts:33-36 | the sender's own address if truthy, else the one found in the `From` text, else `unknown@unknown.com`; never empty |
| EmailParser.ParseAttachments | src/utils/email-parser.ts:48-53 | one parsed attachment per inbound attachment, in the same order |
| EmailParser.ParseInboundEmail | src/utils/email-parser.ts:17-56 | the sender is `SenderAddress` (never empty) with the truthy display name; cc from `ExtractCcAddresses`; subject default `(no subject)`; the cleaned body; the provider's HTML, else the truthy parsed HTML; message id falls back to id; thread id to message id; inReplyTo only when truthy; references default `[]`; attachments map one to one |
| Personas.LocalName | src/services/agent-router.ts:18-20 | each fixed agent's local part is non-empty, lower-case and holds no `@` |
| Personas.AgentAddress | src/agents/echo-agent.ts:25-27 | `<name>@<domain>`: the local part is the agent's name and the rest is the domain; likewise info-agent.ts:45-47, research-agent.ts:48-50 and summarize-agent.ts:53-55 |
| Personas.AgentName | src/agents/echo-agent.ts:29-31 | every fixed agent's display name ends in " Agent"; likewise info-agent.ts:49-51, research-agent.ts:52-54 and summarize-agent.ts:57-59 |
| Personas.SystemPrompt | src/agents/summarize-agent.ts:9-51 | the Echo prompt (echo-agent.ts:9-23) is a constant, independent of domain and date; the others open with the agent's sentence naming the serving domain and end with today's date |
| Personas.InfoPromptListsAgents | src/agents/info-agent.ts:16-21 | the Info prompt lists every fixed agent's address on the serving domain, in bold |
| Personas.InfoPromptShape | src/agents/info-agent.ts:8-42 | the Info prompt is its opening, the domain, the fixed body and the date line |
| Personas.ListShowsAgent | src/agents/info-agent.ts:16-21 | the built-in list names each fixed agent's address |
| Personas.Tools | src/agents/research-agent.ts:59-64 | only the Research agent has tools, and it has exactly one: web search with at most 5 uses |
| AgentRouter.Lookup | src/services/agent-router.ts:38 | `Map.get`: found exactly when a key matches, with that key's agent |
| AgentRouter.RouteToAgent | src/services/agent-router.ts:30-48 | Echo exactly when the local part is `echo`, Info for every other address |
| AgentRouter.IsBuiltInAgent | src/services/agent-router.ts:53-55 | true exactly for `echo` and `info`, in any case |
| AgentRouter.BuiltInAgentNames | src/services/agent-router.ts:60-62 | the registry's keys in insertion order |
| AgentRouter.BuiltInNamesAreEchoAndInfo | src/services/agent-router.ts:18-25 | the names are `["echo", "info"]`, and each is a built-in agent |
| AgentRouter.RouteIgnoresDomain | src/services/agent-router.ts:35 | two recipients with the same local part route alike |
| AgentRouter.RouteIgnoresCase | src/services/agent-router.ts:35 | the case of the local part does not change the route |
| AgentRouter.RouteOfAgentAddress | src/services/agent-router.ts:38-47 | mail to `echo@…` reaches Echo; mail to every other fixed agent's address reaches Info |
| RateLimiter.KvStore.Put | src/utils/rate-limiter.ts:42-46 | the store maps the key to the value and nothing else changes |
| RateLimiter.KeyFamilies | src/utils/rate-limiter.ts:26 | rate-limit, prompt, usage and total keys never collide across families |
| RateLimiter.PutKeepsConsistent | src/utils/rate-limiter.ts:42-46 | writing a record of its key's kind keeps every key holding its own kind |
| RateLimiter.WindowAt | src/utils/rate-limiter.ts:29 | a sender's window is present exactly when a window record is stored under `ratelimit:<sender>`, and it is that record's count and start |
| RateLimiter.NextWindow | src/utils/rate-limiter.ts:34-40 | no window, or one at least `windowSeconds*1000` old, restarts at count 1 from `now`; otherwise count + 1 from the same start |
| RateLimiter.Verdict | src/utils/rate-limiter.ts:48-54 | allowed iff count ≤ limit; remaining is `max(0, limit - count)`; reset at window start + window |
| RateLimiter.CheckRateLimit | src/utils/rate-limiter.ts:20-55 | the new window is written even when denied, and the verdict is that of the new window |
| RateLimiter.Replay | src/utils/rate-limiter.ts:34-40 | the window after a run of requests |
| RateLimiter.RequestsInOneWindow | src/utils/rate-limiter.ts:34-37 | n requests inside one window add exactly n to the count and keep the start |
| RateLimiter.DefaultLimitAllowsTen | src/utils/rate-limiter.ts:23 | with the defaults, a request within one window is allowed iff it is among the first 10 |
| RateLimiter.WindowRoundTrip | src/utils/rate-limiter.ts:29-46 | a written window is read back for its sender, and no other sender's window changes |
| RateLimiter.RequestsReplay | src/utils/rate-limiter.ts:20-55 | successive `checkRateLimit` calls leave the sender's stored window where `Replay` puts it, and change no other key |
| RateLimiter.FreshSenderAllowsTen | src/utils/rate-limiter.ts:23-52 | on the store, a sender without a window who sends requests within one hour has them counted from the first, and the last is allowed exactly when it is at most the tenth |
| RateLimiter.PromptAt | src/utils/rate-limiter.ts:60-66 | the prompt cached for an address is the text stored under `agent-prompt:<address>` |
| RateLimiter.GetCachedAgentPrompt | src/utils/rate-limiter.ts:60-66 | reads the store through `PromptAt` |
| RateLimiter.CacheAgentPrompt | src/utils/rate-limiter.ts:72-80 | stores the prompt under the address's key and changes nothing else |
| RateLimiter.PromptRoundTrip | src/utils/rate-limiter.ts:60-80 | a cached prompt is read back for its address, and other addresses read what they read before |
| RateLimiter.TotalEmailsAt | src/utils/rate-limiter.ts:87 | a missing counter reads as 0 |
| RateLimiter.IncrementEmailCount | src/utils/rate-limiter.ts:85-91 | returns and stores the previous count plus one |
| RateLimiter.UsageAt | src/utils/rate-limiter.ts:109 | a missing usage record reads as zero requests and zero time |
| RateLimiter.TrackAgentUsage | src/utils/rate-limiter.ts:101-117 | one more request and `processingTimeMs` more time for the agent on that day |
| BaseAgent.ErrorMessage | src/agents/base-agent.ts:165 | an `Error`'s message, or "Unknown error" for any other thrown value |
| BaseAgent.SenderLabel | src/agents/base-agent.ts:58 | the sender's display name when it is non-empty, otherwise the address |
| BaseAgent.BuildUserMessage | src/agents/base-agent.ts:55-62 | the user message starts with the subject and sender header and ends in a visible character |
| BaseAgent.UserMessageKeepsBody | src/agents/base-agent.ts:55-62 | a body ending in a visible character reaches the model whole, after the header and the `Message:` line |
| BaseAgent.FirstText | src/agents/base-agent.ts:124 | a text is found exactly when some block is a text block |
| BaseAgent.FirstTextIsFirst | src/agents/base-agent.ts:124 | the text found is the text of a text block |
| BaseAgent.FirstTextAt | src/agents/base-agent.ts:124 | it is the text of the first text block |
| BaseAgent.AnswerText | src/agents/base-agent.ts:124-126 | the text an agent replies with is never empty |
| BaseAgent.AnswerTextOfBlocks | src/agents/base-agent.ts:124-126 | the first text block's text, or the apology text when that text is empty |
| BaseAgent.AnswerTextWithoutText | src/agents/base-agent.ts:125-126 | without any text the reply is "Sorry, I could not generate a response." |
| BaseAgent.ResearchAnswerText | src/agents/research-agent.ts:92 | the research agent replies with the model's non-empty text as it is |
| BaseAgent.SearchCount | src/agents/research-agent.ts:104-105 | 0 when no tool calls are reported, never more than the calls, 0 when none is a web search |
| BaseAgent.CountSearches | src/agents/research-agent.ts:105 | between 0 and the number of calls; all of them when all are web searches |
| BaseAgent.CountSearchesAppend | src/agents/research-agent.ts:105 | the count of a concatenation is the sum of the counts |
| BaseAgent.FromHeader | src/agents/base-agent.ts:150 | `<name> <<address>>` with the first `DOMAIN` of the address replaced by the serving domain, and the address unchanged when it holds none |
| BaseAgent.PlaceholderAddress | src/agents/base-agent.ts:150 | an address `local@DOMAIN` is sent from `local@<serving domain>` |
| BaseAgent.BuildReply | src/agents/base-agent.ts:148-158 | to the sender, `Re:` subject, the body and its HTML, in reply to the message id, references extended by that id |
| BaseAgent.ReplyToReply | src/agents/base-agent.ts:151-157 | replying to a reply adds no second `Re:` and grows the reference chain by one id |
| BaseAgent.ReplyResult | src/agents/base-agent.ts:143-168 | success exactly when processing returned; then the reply is `BuildReply` of that body (to the sender, `Re:` subject, HTML, threaded on the message); else no reply and the thrown message |
| BaseAgent.HtmlParagraph | src/agents/base-agent.ts:189-193 | a paragraph holding `<pre>` is left as is; any other is wrapped in `<p>…</p>` with every newline replaced by `<br>`, so no newline is left |
| BaseAgent.HtmlParagraphLines | src/agents/base-agent.ts:189-193 | lines without `<pre>` joined by newlines become one `<p>` with the lines joined by `<br>` |
| BaseAgent.HtmlParagraphs | src/agents/base-agent.ts:188-193 | one converted paragraph per blank-line-separated part, in order |
| Text.SplitOn | src/agents/base-agent.ts:188 | `split`: the parts join back to the text, no part holds the separator, the first cut is at the leftmost occurrence, and there is one part exactly when the separator is absent |
| Text.ReplaceCharAppend | src/agents/base-agent.ts:192 | the global replacement of a character distributes over concatenation |
| Text.ReplaceCharJoined | src/agents/base-agent.ts:192 | lines free of the character, joined by it, come back joined by the replacement |
| BaseAgent.FormatAsHtml | src/agents/base-agent.ts:195-231 | the converted paragraphs, joined by a newline and indentation, between the fixed page opening and closing |
| BaseAgent.EmailAgent.constructor | src/agents/base-agent.ts:24-26 | a new agent has an empty history |
| BaseAgent.EmailAgent.ResearchProcessAsWritten | src/agents/research-agent.ts:69-72 | as written, the research `process` throws the TypeError of the undefined `buildMessageContent` |
| BaseAgent.EmailAgent.ResearchGenerateReplyAsWritten | src/agents/base-agent.ts:143-168 | as written, the research agent's `generateReply` fails on every e-mail with `this.buildMessageContent is not a function` and builds no reply |
| BaseAgent.EmailAgent.Process | src/agents/base-agent.ts:97-138 | appends the user turn; if the call throws, that is all and the error goes to the caller; otherwise appends the answer text and returns it |
| BaseAgent.EmailAgent.GenerateReply | src/agents/base-agent.ts:143-168 | the reply result of `process`, named and addressed as the agent; success exactly when the call returned |
| BaseAgent.EmailAgent.Exchange | src/agents/base-agent.ts:103-137 | the user turn is appended and the time recorded; a thrown call leaves only the user turn and passes the error on; an answer appends its text as the assistant turn and returns it |
| Instruction.SplitCamel | src/agents/meta-agent.ts:42 | inserting a space at each lower-to-upper boundary keeps the first character |
| Instruction.WithoutSpaces | src/agents/meta-agent.ts:42 | removing spaces leaves no space |
| Instruction.SplitCamelOnlyAddsSpaces | src/agents/meta-agent.ts:42 | the camel-case split only inserts spaces: removing them gives back the input |
| Instruction.SplitCamelLeavesNoBoundary | src/agents/meta-agent.ts:42 | no lower-to-upper boundary is left after the split |
| Instruction.SplitCamelWithoutBoundary | src/agents/meta-agent.ts:42 | text without such a boundary is unchanged |
| Instruction.SplitCamelAppend | src/agents/meta-agent.ts:42 | the split distributes over a concatenation without a boundary at the seam |
| Instruction.LeadingSeparators | src/agents/meta-agent.ts:45 | the run of `-`/`_` at the start of the text |
| Instruction.CollapseSeparators | src/agents/meta-agent.ts:45 | every run of `-`/`_` becomes one space, and none is left |
| Instruction.CollapseWithoutSeparators | src/agents/meta-agent.ts:45 | text without separators is unchanged |
| Instruction.CollapseRun | src/agents/meta-agent.ts:45 | a run of separators collapses to one space |
| Instruction.CollapseAppend | src/agents/meta-agent.ts:45 | collapsing distributes over a concatenation split at a word end |
| Instruction.TrimKeepsNoSeparator | src/agents/meta-agent.ts:45 | trimming introduces no separator |
| Instruction.ParseAddressToInstruction | src/agents/meta-agent.ts:37-51 | the instruction holds no `-` or `_`, no upper-case letter, and neither starts nor ends with whitespace |
| Instruction.InstructionIgnoresDomain | src/agents/meta-agent.ts:39 | only the text before the first `@` is read |
| Instruction.LocalPartBeforeAt | src/agents/meta-agent.ts:39 | the text before the first `@` of `local@domain` is `local` |
| Instruction.LowerKeepsNormalForm | src/agents/meta-agent.ts:48 | lower-casing keeps the text free of separators and edge whitespace |
| Instruction.HyphenatedSplit | src/agents/meta-agent.ts:42 | hyphen-joined lower-case words pass the camel-case split unchanged |
| Instruction.HyphenatedCollapse | src/agents/meta-agent.ts:45 | hyphen-joined words collapse to the space-joined words |
| Instruction.CamelCaseSplit | src/agents/meta-agent.ts:42 | camel-cased words split into the space-joined words |
| InstructionExamples.HyphenatedInstruction | src/agents/meta-agent.ts:33 | `w1-w2-…@domain` gives `w1 w2 …` for lower-case words |
| InstructionExamples.CamelCaseInstruction | src/agents/meta-agent.ts:34 | `w1W2…@domain` gives the words lower-cased and space-joined |
| InstructionExamples.HyphenatedExample | src/agents/meta-agent.ts:33 | `write-haiku-about-cats@<domain>` gives "write haiku about cats" |
| InstructionExamples.CamelCaseExample | src/agents/meta-agent.ts:34 | `writeHaikuAboutCats@<domain>` gives "write haiku about cats" |
| MetaAgent.FallbackPrompt | src/agents/meta-agent.ts:79-82 | the fallback prompt carries the instruction verbatim after its fixed opening |
| MetaAgent.GeneratedPrompt | src/agents/meta-agent.ts:79-82 | the model's text when non-empty, else the fallback; never empty |
| MetaAgent.SystemPromptOf | src/agents/meta-agent.ts:88-96 | the cached prompt when non-empty, else the default prompt |
| MetaAgent.AgentAddressOf | src/agents/meta-agent.ts:98-101 | the current address when non-empty, else `agent@<domain>` |
| MetaAgent.AgentNameOf | src/agents/meta-agent.ts:103-110 | the instruction with its first character upper-cased and " Agent" appended, or "Meta Agent" without an instruction |
| MetaAgent.NameShowsInstruction | src/agents/meta-agent.ts:103-110 | lower-casing the name's head gives back a lower-case instruction |
| MetaAgent.SourceFor | src/agents/meta-agent.ts:146-164 | memory exactly when the cached instruction matches and the cached prompt is non-empty; KV exactly when otherwise a truthy value is stored |
| MetaAgent.ResolvedPrompt | src/agents/meta-agent.ts:146-183 | the prompt the request settles on per source; never empty |
| MetaAgent.Settle | src/agents/meta-agent.ts:139-234 | past the gate: the cache follows the lookup order; a settled request caches the instruction and a non-empty prompt; KV changes only on generation; history gains user then assistant turn |
| MetaAgent.SettleFailsAsWritten | src/agents/meta-agent.ts:139-234 | with both model calls throwing the `this.anthropic` TypeError, the answer is that error, KV is not written and no prompt counts as generated |
| MetaAgent.SafeRequestFailsAsWritten | src/agents/meta-agent.ts:115-235 | as written, every request past the safety gate makes `generateReply` fail with `this.anthropic is not a function`, with KV unchanged |
| MetaAgent.ProcessSpec | src/agents/meta-agent.ts:115-235 | every request becomes the current address, and the KV store changes only when a prompt was generated, which is then stored under that address |
| MetaAgent.SafeRequestSettles | src/agents/meta-agent.ts:122-140 | past the safety gate, `process` is `Settle` on the parsed instruction and user message |
| MetaAgent.SettledRequestWasSafe | src/agents/meta-agent.ts:122-137 | a request that settled on a prompt passed the safety gate |
| MetaAgent.BlockedRequestIsAnswered | src/agents/meta-agent.ts:119-137 | an unsafe request gets the blocked message; KV, caches and history are unchanged; only the current address is set |
| MetaAgent.CacheSourceOrder | src/agents/meta-agent.ts:146-183 | memory, KV, generation and thrown generation each happen exactly under the source's conditions |
| MetaAgent.AnsweredRequest | src/agents/meta-agent.ts:185-218 | the answer is the model's text or the apology text, recorded after the user turn |
| MetaAgent.RepeatRequestHitsMemory | src/agents/meta-agent.ts:146-151 | a second safe request to the same address on the same instance is served from memory, without a KV write |
| MetaAgent.GeneratedPromptReachesFreshInstance | src/agents/meta-agent.ts:153-178 | a prompt generated by one instance is found in KV by a fresh instance for the same address, with the same prompt |
| MetaAgent.GeneratedPromptIsStored | src/agents/meta-agent.ts:171-178 | what generation wrote is read back from KV by any state without a memory hit |
| MetaAgent.MetaAgent.constructor | src/agents/meta-agent.ts:22-29 | a new instance caches nothing and has no history |
| MetaAgent.MetaAgent.ResolvePrompt | src/agents/meta-agent.ts:142-183 | the cache step: fields and KV as the lookup order says; nothing changes when generation throws |
| MetaAgent.MetaAgent.Process | src/agents/meta-agent.ts:115-235 | the fields, the KV store, the answer and the cache source are those of `ProcessSpec` |
| MetaAgent.MetaAgent.Respond | src/agents/meta-agent.ts:140-234 | the part past the gate is `Settle` |
| MetaAgent.MetaAgent.Exchange | src/agents/meta-agent.ts:185-218 | appends the user turn; on an answer appends the answer or the apology text; a thrown call keeps only the user turn |
| MetaAgent.MetaAgent.GenerateReply | src/agents/base-agent.ts:143-168 | the inherited `generateReply` over the Meta `process`: the reply is named by the new instruction and sent from the recipient address |
| EmailSender.PayloadOf | src/services/email-sender.ts:23-36 | the reply's addresses, subject, text and HTML are handed over unchanged, with the threading headers of `HeadersOf` |
| EmailSender.HeadersOf | src/services/email-sender.ts:29-35 | `In-Reply-To` iff `inReplyTo` is truthy; `References` iff the ids are present and non-empty |
| EmailSender.SplitJoinedIds | src/services/email-sender.ts:33 | splitting space-joined ids without spaces gives the ids back |
| EmailSender.ReferencesHeaderRoundTrip | src/services/email-sender.ts:31-34 | the `References` value splits back into the reply's ids |
| EmailSender.AgentReplyHeaders | src/services/email-sender.ts:29-35 | an agent's reply carries `References` ending in the answered message's id, and `In-Reply-To` iff that id is non-empty |
| EmailSender.SendOutcome | src/services/email-sender.ts:38-51 | success iff the transport answered without a truthy error; otherwise that error, or the thrown message |
| EmailSender.Outbox.SendEmailReply | src/services/email-sender.ts:18-52 | one payload is handed to the transport, and its answer is the result |
| EmailSender.Outbox.SendErrorEmail | src/services/email-sender.ts:57-82 | hands the error notice to the transport |
| EmailSender.Outbox.SendRateLimitEmail | src/services/email-sender.ts:87-118 | hands the rate-limit notice to the transport |
| EmailSender.ErrorBody | src/services/email-sender.ts:65-72 | the error message sits verbatim between the fixed opening and closing |
| EmailSender.RateLimitBody | src/services/email-sender.ts:101-108 | the reset time sits verbatim before " UTC." |
| EmailSender.ServiceNotice | src/services/email-sender.ts:74-81 | a notice goes to the recipient with the `Re:` subject, no HTML, in reply to the original id, with references `[id]` |
| EmailSender.NoticeHeaders | src/services/email-sender.ts:110-117 | a notice's `References` names exactly the original message, `In-Reply-To` iff its id is non-empty, sent as `Mail-to-AI <address>` |
| EmailSender.ErrorEmailShowsMessage | src/services/email-sender.ts:65-72 | different error messages give different error e-mails |
| EmailProcessor.Failure | src/services/email-processor.ts:76-101 | the store is unchanged, the original error is returned, and one notice is added iff `notifyOnError` is not false |
| EmailProcessor.RecordDelivery | src/services/email-processor.ts:66-69 | after a delivered reply the store holds the e-mail total plus one and the agent's usage for the day plus one request and the processing time |
| EmailProcessor.PipelineSpec | src/services/email-processor.ts:30-102 | every e-mail is counted in its sender's window whatever becomes of it, and the run only appends to what the transport was handed: at most the reply and one notice |
| EmailProcessor.ProcessEmail | src/services/email-processor.ts:30-102 | the store, the transport log and the result are those of `PipelineSpec` |
| EmailProcessor.RateLimitedShortCircuits | src/services/email-processor.ts:40-52 | over the limit: success, one rate-limit notice to the sender threaded on the message, the e-mail total unchanged, and the agent's result plays no part |
| EmailProcessor.FailureIsReported | src/services/email-processor.ts:56-63 | an agent failure or failed send reports its error or the fixed fallback, and the error e-mail goes out unless `notifyOnError` is false |
| EmailProcessor.SuccessMeansHandled | src/services/email-processor.ts:30-102 | success iff the sender was over the limit or the reply was delivered |
| EmailProcessor.StatisticsOnlyAfterDelivery | src/services/email-processor.ts:65-69 | the total and the agent's usage for the day move exactly when the reply was delivered, keyed by the recipient's local part |
| EmailProcessor.StatisticsCommute | src/services/email-processor.ts:66-69 | the two concurrent statistics writes give the same store in either order |
| EmailProcessor.RoutedInstanceFailsAsWritten | src/services/email-processor.ts:54-57 | with the routed agent instance read as a result, every e-mail within the limit fails with "Agent failed to generate reply", records no statistics, and sends the error e-mail unless opted out |

## Left out

- Case mapping covers ASCII letters only. `toLowerCase`, `toUpperCase` and the `/i` flag on other characters are not modelled.
- Strings are sequences of characters, not UTF-16 code units.
- Regular expressions are hand-encoded for the patterns the source uses:
  - plain and whole-word address terms;
  - the injection phrases as token sequences;
  - the signature lines;
  - the attribution line;
  - the two address expressions.
  General regular-expression semantics are not modelled.
- BaseAgent.FormatAsHtml: the markdown rewriting stage is treated as the identity. Only the paragraph logic and the page template are modelled.
- Time is supplied by the caller: `Date.now`, `new Date().toISOString()`, `toLocaleDateString`, and the formatting of the reset time by `toLocaleTimeString`.
- KV time-to-live expiry is not modelled; entries never expire.
- KV records are typed values rather than JSON text.
- A KV read or write that fails is not modelled.
- Model calls and the mail transport are inputs: what each returned, or what it threw. The model does not capture:
  - the messages, system prompt and tools sent to the model;
  - the generation prompt of the Meta agent.
- Logging is not modelled. The Meta agent's `cacheSource` is returned instead of logged. The research agent's search count is a function.
- The inbound provider's helpers are inputs: `getSenderInfo`, `getEmailText` and `getEmailHtml`.
- `receivedAt` is not modelled.
- HTTP handling (`onRequest`), queue retry plumbing and per-instance addressing of agents are not modelled.
- The base class's default display name "AI Agent" is not modelled. Every concrete agent overrides it.
- BaseAgent.EmailAgent.Process: for the Research agent it builds the user turn with `buildUserMessage` and appends both turns. As written, research-agent.ts:72 calls `this.buildMessageContent`, which no class defines, so the research `process` throws before touching the history and its `generateReply` always fails. `ResearchProcessAsWritten` and `ResearchGenerateReplyAsWritten` model that behaviour.
- MetaAgent.ProcessSpec: the two model calls are inputs that may answer or throw. As written, meta-agent.ts:60 and :200 (and research-agent.ts:85) call `this.anthropic`, which the class never sets, so those calls always throw. The `Err` case of each input covers this, and `SettleFailsAsWritten` and `SafeRequestFailsAsWritten` state its consequence.
- EmailProcessor.ProcessEmail: the time the statistics record (`day`, `processingTimeMs`) and the agent's result (`agentResult`) come from the caller. The router and the processor disagree on the signature of `routeToAgent`.
- BaseAgent.AnswerText: its contract states only that the text is non-empty. Which text it is is stated by `AnswerTextOfBlocks`, `AnswerTextWithoutText` and `ResearchAnswerText`.
- InstructionExamples.HyphenatedExample and InstructionExamples.CamelCaseExample state the documented examples for `<local>@<domain>` addresses, for every domain.

## Findings

| source | as written | input that shows it | evidently intended | confidence | as-written member | corrected member |
|---|---|---|---|---|---|---|
| src/agents/research-agent.ts:72 | `process` awaits `this.buildMessageContent(email)`, a method neither the research agent nor base-agent.ts defines | any e-mail to the Research agent | the user turn built by `buildUserMessage`, then the model's answer, as in the other agents | high; not executed | BaseAgent.EmailAgent.ResearchGenerateReplyAsWritten | BaseAgent.EmailAgent.GenerateReply |
| src/agents/meta-agent.ts:60 | both model calls pass `this.anthropic(...)` as the model, a property the class never sets (research-agent.ts:5 imports a module-level `anthropic` for this) | any request to a Meta agent address that passes the safety gate | the model answers and the reply is its text or the apology text | medium (the agent framework's base class is not part of this model); not executed | MetaAgent.SafeRequestFailsAsWritten | MetaAgent.AnsweredRequest |
| src/services/email-processor.ts:54-57 | `processEmail` calls `routeToAgent(email, env)` and reads `result.success` from the agent instance it returns, which has no such field | any e-mail within its sender's rate limit | the agent's `generateReply` result, delivered when it succeeds | medium (the agent's constructor may throw first, with another message); not executed | EmailProcessor.RoutedInstanceFailsAsWritten | EmailProcessor.SuccessMeansHandled |
