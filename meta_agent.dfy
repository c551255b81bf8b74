/**
 * The Meta agent of src/agents/meta-agent.ts: the recipient address is read as an instruction,
 * and the system prompt for that instruction is resolved through an in-memory cache, then the
 * KV store, then generation by the model.
 */
module MetaAgent {
  import opened Wrappers
  import opened Text
  import opened EmailTypes
  import opened SafetyValidator
  import opened RateLimiter
  import opened BaseAgent
  import opened Instruction

  // ---------------------------------------------------------------- prompts and names

  /** What `getSystemPrompt` falls back to before any prompt is cached. */
  const DefaultPrompt: string := "You are a helpful AI assistant. Respond to emails professionally and helpfully."

  /** The prompt `generateSystemPromptFromInstruction` falls back to when the model returns no text. */
  function FallbackPrompt(instruction: string): (r: string)
    ensures FallbackOpening <= r && |r| > |FallbackOpening| + |instruction|
    ensures r[|FallbackOpening|..|FallbackOpening| + |instruction|] == instruction
  {
    FallbackOpening + instruction + ". Respond to emails professionally and helpfully."
  }

  const FallbackOpening: string := "You are a helpful AI assistant. Your task is to: "

  /** `generateSystemPromptFromInstruction` once the model answered `text`: that text, or the fallback. */
  function GeneratedPrompt(instruction: string, text: string): (r: string)
    ensures r != ""
    ensures text != "" ==> r == text
    ensures text == "" ==> r == FallbackPrompt(instruction)
  {
    if text != "" then text else FallbackPrompt(instruction)
  }

  /** `getSystemPrompt`: the cached prompt, or the default before one is cached. */
  function SystemPromptOf(cachedSystemPrompt: string): (r: string)
    ensures r != ""
    ensures cachedSystemPrompt != "" ==> r == cachedSystemPrompt
    ensures cachedSystemPrompt == "" ==> r == DefaultPrompt
  {
    if cachedSystemPrompt != "" then cachedSystemPrompt else DefaultPrompt
  }

  /** `getAgentAddress`: the address that reached the agent, or `agent@<domain>` before any did. */
  function AgentAddressOf(currentAddress: string, domain: string): (r: string)
    ensures currentAddress != "" ==> r == currentAddress
    ensures currentAddress == "" ==> r == "agent@" + domain
  {
    if currentAddress != "" then currentAddress else "agent@" + domain
  }

  /** `getAgentName`: the instruction with its first character upper-cased and " Agent" added. */
  function AgentNameOf(cachedInstruction: string): (r: string)
    ensures cachedInstruction == "" ==> r == "Meta Agent"
    ensures cachedInstruction != "" ==>
              && |r| == |cachedInstruction| + 6
              && r[0] == UpperChar(cachedInstruction[0])
              && r[1..|cachedInstruction|] == cachedInstruction[1..]
              && r[|cachedInstruction|..] == " Agent"
  {
    if cachedInstruction != "" then [UpperChar(cachedInstruction[0])] + cachedInstruction[1..] + " Agent"
    else "Meta Agent"
  }

  /**
   * Lower-casing the name of an agent whose instruction has no upper-case letters, as every
   * parsed instruction does, gives the instruction back.
   */
  lemma NameShowsInstruction(instruction: string)
    requires instruction != "" && forall i :: 0 <= i < |instruction| ==> !IsUpper(instruction[i])
    ensures Lower(AgentNameOf(instruction)[..|instruction|]) == instruction
  {
    var name := AgentNameOf(instruction)[..|instruction|];
    forall i | 0 <= i < |instruction| ensures LowerChar(name[i]) == instruction[i] {
      if i == 0 {
        assert !IsUpper(instruction[0]);
      } else {
        assert name[i] == instruction[1..][i - 1];
      }
    }
  }

  // ---------------------------------------------------------------- prompt resolution

  /** Where a request's system prompt came from, as `process` logs it in `cacheSource`. */
  datatype CacheSource = Memory | Kv | Generated

  /** The memory hit, else a truthy KV value, else generation. */
  function SourceFor(cachedInstruction: string, cachedSystemPrompt: string, instruction: string, stored: Option<string>)
    : (r: CacheSource)
    ensures r == Memory <==> cachedInstruction == instruction && cachedSystemPrompt != ""
    ensures r == Kv <==> !(cachedInstruction == instruction && cachedSystemPrompt != "") && Truthy(stored)
  {
    if cachedInstruction == instruction && cachedSystemPrompt != "" then Memory
    else if Truthy(stored) then Kv
    else Generated
  }

  /** The prompt the request settles on, given what the KV store held and what generation produced. */
  function ResolvedPrompt(source: CacheSource, cachedSystemPrompt: string, instruction: string,
                          stored: Option<string>, generatedText: string): (r: string)
    requires source == Memory ==> cachedSystemPrompt != ""
    requires source == Kv ==> Truthy(stored)
    ensures r != ""
    ensures source == Memory ==> r == cachedSystemPrompt
    ensures source == Kv ==> r == stored.value
    ensures source == Generated ==> r == GeneratedPrompt(instruction, generatedText)
  {
    match source
    case Memory => cachedSystemPrompt
    case Kv => stored.value
    case Generated => GeneratedPrompt(instruction, generatedText)
  }

  // ---------------------------------------------------------------- process, as a function of the state

  /** The fields of a Meta agent instance that `process` reads and writes. */
  datatype MetaState = MetaState(
    cachedInstruction: string,
    cachedSystemPrompt: string,
    currentAddress: string,
    history: seq<Turn>,           // `state.conversationHistory`
    lastProcessedAt: Option<string>)

  /** A fresh instance: nothing cached, no history. */
  const FreshState: MetaState := MetaState("", "", "", [], None)

  /** Everything one call of `process` leaves behind: the instance, the KV store, its answer and cache source. */
  datatype ProcessOutcome = ProcessOutcome(
    state: MetaState,
    entries: map<string, KvValue>,
    answer: Result<string, Thrown>,
    source: Option<CacheSource>)

  /**
   * `process` on state `st` and KV contents `entries`. `generation` is the prompt-writing model
   * call (asked only when neither cache hits) and `response` the answering model call; a thrown
   * value from either goes to the caller. An unsafe request is answered with the blocked-request
   * message and changes nothing but the current address. Every request becomes the current
   * address, and the KV store changes only when a prompt was generated, which is then stored
   * under that address.
   */
  function ProcessSpec(st: MetaState, entries: map<string, KvValue>, email: ParsedEmail, now: string,
                       generation: Result<string, Thrown>, response: Result<string, Thrown>): (out: ProcessOutcome)
    ensures out.state.currentAddress == email.to
    ensures out.entries != entries ==> && out.source == Some(Generated)
                                       && out.entries == entries[PromptKey(email.to) := Text(out.state.cachedSystemPrompt)]
  {
    var verdict := ValidateRequest(email.to, email.body);
    if !verdict.safe then
      ProcessOutcome(st.(currentAddress := email.to), entries,
                     Ok(BlockedResponseMessage(OrElse(verdict.reason, "Safety check failed"))), None)
    else
      Settle(st.(currentAddress := email.to), entries, email.to, ParseAddressToInstruction(email.to),
             BuildUserMessage(email), now, generation, response)
  }

  /**
   * The part of `process` past the safety gate, for the instruction read from `address` and the
   * user turn `userMessage`: the prompt is resolved (memory, KV, generation), the user turn is
   * recorded and the model's answer, or the apology for an empty one, is recorded after it.
   * `source` is what the source logs as `cacheSource`, None when generation threw.
   */
  function Settle(st: MetaState, entries: map<string, KvValue>, address: string, instruction: string,
                  userMessage: string, now: string,
                  generation: Result<string, Thrown>, response: Result<string, Thrown>): (out: ProcessOutcome)
    ensures out.state.currentAddress == st.currentAddress
    ensures var s := SourceFor(st.cachedInstruction, st.cachedSystemPrompt, instruction, PromptAt(entries, address));
            && (out.source == None <==> s == Generated && generation.Err?)
            && (out.source.Some? ==> out.source == Some(s))
    ensures out.source == None ==> generation.Err? && out == ProcessOutcome(st, entries, Err(generation.error), None)
    ensures out.source.Some? ==>
              && out.state.cachedInstruction == instruction && out.state.cachedSystemPrompt != ""
              && out.state.lastProcessedAt == Some(now)
              && (out.answer.Err? ==> out.answer == response && out.state.history == st.history + [Turn(User, userMessage)])
              && (out.answer.Ok? ==> out.state.history == st.history + [Turn(User, userMessage), Turn(Assistant, out.answer.value)])
              && (response.Ok? ==> out.answer == Ok(OrElse(Some(response.value), NoResponseText)))
    ensures out.entries != entries ==> && out.source == Some(Generated)
                                       && out.entries == entries[PromptKey(address) := Text(out.state.cachedSystemPrompt)]
  {
    var stored := PromptAt(entries, address);
    var s := SourceFor(st.cachedInstruction, st.cachedSystemPrompt, instruction, stored);
    if s == Generated && generation.Err? then
      ProcessOutcome(st, entries, Err(generation.error), None)
    else
      var prompt := ResolvedPrompt(s, st.cachedSystemPrompt, instruction, stored,
                                   if generation.Ok? then generation.value else "");
      var written := if s == Generated then entries[PromptKey(address) := Text(prompt)] else entries;
      var asked := st.(cachedInstruction := instruction, cachedSystemPrompt := prompt,
                       history := st.history + [Turn(User, userMessage)], lastProcessedAt := Some(now));
      match response
      case Err(thrown) => ProcessOutcome(asked, written, Err(thrown), Some(s))
      case Ok(text) =>
        var finalText := OrElse(Some(text), NoResponseText);
        ProcessOutcome(asked.(history := asked.history + [Turn(Assistant, finalText)]), written, Ok(finalText), Some(s))
  }

  /** Past the safety gate, `process` is `Settle` on the instruction and user turn built from the e-mail. */
  lemma SafeRequestSettles(st: MetaState, entries: map<string, KvValue>, email: ParsedEmail, now: string,
                           generation: Result<string, Thrown>, response: Result<string, Thrown>)
    requires ValidateRequest(email.to, email.body).safe
    ensures ProcessSpec(st, entries, email, now, generation, response)
            == Settle(st.(currentAddress := email.to), entries, email.to, ParseAddressToInstruction(email.to),
                      BuildUserMessage(email), now, generation, response)
  {
  }

  /** A request that settled on a prompt passed the safety gate. */
  lemma SettledRequestWasSafe(st: MetaState, entries: map<string, KvValue>, email: ParsedEmail, now: string,
                              generation: Result<string, Thrown>, response: Result<string, Thrown>)
    requires ProcessSpec(st, entries, email, now, generation, response).source.Some?
    ensures ValidateRequest(email.to, email.body).safe
  {
  }

  /** A blocked request is answered with the blocked-request message and leaves the caches and history alone. */
  lemma BlockedRequestIsAnswered(st: MetaState, entries: map<string, KvValue>, email: ParsedEmail, now: string,
                                 generation: Result<string, Thrown>, response: Result<string, Thrown>)
    requires !ValidateRequest(email.to, email.body).safe
    ensures var out := ProcessSpec(st, entries, email, now, generation, response);
            && out.answer == Ok(BlockedResponseMessage(OrElse(ValidateRequest(email.to, email.body).reason,
                                                              "Safety check failed")))
            && out.source == None && out.entries == entries && out.state == st.(currentAddress := email.to)
  {
  }

  /** The three cache sources, each exactly when the source's lookup order says so. */
  lemma CacheSourceOrder(st: MetaState, entries: map<string, KvValue>, email: ParsedEmail, now: string,
                         generation: Result<string, Thrown>, response: Result<string, Thrown>)
    requires ValidateRequest(email.to, email.body).safe
    ensures var out := ProcessSpec(st, entries, email, now, generation, response);
            var instruction := ParseAddressToInstruction(email.to);
            var memoryHit := st.cachedInstruction == instruction && st.cachedSystemPrompt != "";
            var stored := Truthy(PromptAt(entries, email.to));
            && (out.source == Some(Memory) <==> memoryHit)
            && (out.source == Some(Kv) <==> !memoryHit && stored)
            && (out.source == Some(Generated) <==> !memoryHit && !stored && generation.Ok?)
            && (out.source == None <==> !memoryHit && !stored && generation.Err?)
  {
    SafeRequestSettles(st, entries, email, now, generation, response);
  }

  /** When the model answers, the reply is its text (or the apology for an empty one) and both turns are recorded. */
  lemma AnsweredRequest(st: MetaState, entries: map<string, KvValue>, email: ParsedEmail, now: string,
                        generation: Result<string, Thrown>, text: string)
    requires ProcessSpec(st, entries, email, now, generation, Ok(text)).source.Some?
    ensures var out := ProcessSpec(st, entries, email, now, generation, Ok(text));
            && out.answer == Ok(if text == "" then NoResponseText else text)
            && out.state.history == st.history + [Turn(User, BuildUserMessage(email)), Turn(Assistant, out.answer.value)]
  {
    SettledRequestWasSafe(st, entries, email, now, generation, Ok(text));
    SafeRequestSettles(st, entries, email, now, generation, Ok(text));
    SettledAnswer(st.(currentAddress := email.to), entries, email.to, ParseAddressToInstruction(email.to),
                  BuildUserMessage(email), now, generation, text);
  }

  lemma SettledAnswer(st: MetaState, entries: map<string, KvValue>, address: string, instruction: string,
                      userMessage: string, now: string, generation: Result<string, Thrown>, text: string)
    requires Settle(st, entries, address, instruction, userMessage, now, generation, Ok(text)).source.Some?
    ensures var out := Settle(st, entries, address, instruction, userMessage, now, generation, Ok(text));
            && out.answer == Ok(if text == "" then NoResponseText else text)
            && out.state.history == st.history + [Turn(User, userMessage), Turn(Assistant, out.answer.value)]
  {
  }

  /** A second request to the same address on the same instance is served from memory. */
  lemma RepeatRequestHitsMemory(st: MetaState, entries: map<string, KvValue>, email: ParsedEmail, now: string,
                                generation: Result<string, Thrown>, response: Result<string, Thrown>,
                                next: ParsedEmail, later: string,
                                generation2: Result<string, Thrown>, response2: Result<string, Thrown>)
    requires ProcessSpec(st, entries, email, now, generation, response).source.Some?
    requires next.to == email.to && ValidateRequest(next.to, next.body).safe
    ensures var first := ProcessSpec(st, entries, email, now, generation, response);
            var second := ProcessSpec(first.state, first.entries, next, later, generation2, response2);
            && second.source == Some(Memory)
            && second.entries == first.entries
            && second.state.cachedSystemPrompt == first.state.cachedSystemPrompt
  {
    var first := ProcessSpec(st, entries, email, now, generation, response);
    SettledRequestWasSafe(st, entries, email, now, generation, response);
    SafeRequestSettles(st, entries, email, now, generation, response);
    SafeRequestSettles(first.state, first.entries, next, later, generation2, response2);
  }

  /**
   * A prompt generated by one instance is found in the KV store by a fresh instance serving
   * the same address, which then settles on the same prompt without generating again.
   */
  lemma GeneratedPromptReachesFreshInstance(st: MetaState, entries: map<string, KvValue>, email: ParsedEmail,
                                            now: string, generation: Result<string, Thrown>,
                                            response: Result<string, Thrown>, next: ParsedEmail, later: string,
                                            generation2: Result<string, Thrown>, response2: Result<string, Thrown>)
    requires ProcessSpec(st, entries, email, now, generation, response).source == Some(Generated)
    requires next.to == email.to && ValidateRequest(next.to, next.body).safe
    ensures var first := ProcessSpec(st, entries, email, now, generation, response);
            var second := ProcessSpec(FreshState, first.entries, next, later, generation2, response2);
            && second.source == Some(Kv)
            && second.entries == first.entries
            && second.state.cachedSystemPrompt == first.state.cachedSystemPrompt
  {
    SettledRequestWasSafe(st, entries, email, now, generation, response);
    SafeRequestSettles(st, entries, email, now, generation, response);
    SafeRequestSettles(FreshState, ProcessSpec(st, entries, email, now, generation, response).entries,
                       next, later, generation2, response2);
    GeneratedPromptIsStored(st.(currentAddress := email.to), entries, email.to, ParseAddressToInstruction(email.to),
                            BuildUserMessage(email), now, generation, response,
                            FreshState.(currentAddress := email.to), BuildUserMessage(next), later, generation2, response2);
  }

  /** What `Settle` generated is read back from the KV store by any state without a memory hit. */
  lemma GeneratedPromptIsStored(st: MetaState, entries: map<string, KvValue>, address: string, instruction: string,
                                userMessage: string, now: string,
                                generation: Result<string, Thrown>, response: Result<string, Thrown>,
                                other: MetaState, userMessage2: string, later: string,
                                generation2: Result<string, Thrown>, response2: Result<string, Thrown>)
    requires Settle(st, entries, address, instruction, userMessage, now, generation, response).source == Some(Generated)
    requires !(other.cachedInstruction == instruction && other.cachedSystemPrompt != "")
    ensures var first := Settle(st, entries, address, instruction, userMessage, now, generation, response);
            var second := Settle(other, first.entries, address, instruction, userMessage2, later, generation2, response2);
            && second.source == Some(Kv)
            && second.entries == first.entries
            && second.state.cachedSystemPrompt == first.state.cachedSystemPrompt
  {
    var first := Settle(st, entries, address, instruction, userMessage, now, generation, response);
    var prompt := first.state.cachedSystemPrompt;
    assert first.entries == entries[PromptKey(address) := Text(prompt)];
    PromptRoundTrip(entries, address, address, prompt);
  }

  /**
   * The message of the TypeError both model calls of src/agents/meta-agent.ts raise as written:
   * they call `this.anthropic`, a property the class never sets.
   */
  const MissingProvider: string := "this.anthropic is not a function"

  /**
   * Past the safety gate with both model calls throwing that TypeError, as the source is written:
   * the answer is the error, the KV store is not written, and no prompt counts as generated.
   */
  lemma SettleFailsAsWritten(st: MetaState, entries: map<string, KvValue>, address: string, instruction: string,
                             userMessage: string, now: string)
    ensures var thrown: Result<string, Thrown> := Err(Error(MissingProvider));
            var out := Settle(st, entries, address, instruction, userMessage, now, thrown, thrown);
            && out.answer == thrown && out.entries == entries && out.source != Some(Generated)
  {
  }

  /**
   * As written, every request that passes the safety gate fails: `generateReply` reports the
   * TypeError's message and builds no reply, and the KV store is left as it was.
   */
  lemma SafeRequestFailsAsWritten(st: MetaState, entries: map<string, KvValue>, email: ParsedEmail, now: string,
                                  domain: string)
    requires ValidateRequest(email.to, email.body).safe
    ensures var thrown: Result<string, Thrown> := Err(Error(MissingProvider));
            var out := ProcessSpec(st, entries, email, now, thrown, thrown);
            var result := ReplyResult(out.answer, AgentNameOf(out.state.cachedInstruction),
                                      AgentAddressOf(email.to, domain), domain, email);
            && out.entries == entries
            && !result.success && result.reply == None && result.error == Some(MissingProvider)
  {
    var thrown: Result<string, Thrown> := Err(Error(MissingProvider));
    SafeRequestSettles(st, entries, email, now, thrown, thrown);
    SettleFailsAsWritten(st.(currentAddress := email.to), entries, email.to, ParseAddressToInstruction(email.to),
                         BuildUserMessage(email), now);
  }

  // ---------------------------------------------------------------- the agent

  /** An instance of the Meta agent, with its prompt cache and its persisted state. */
  class MetaAgent {
    const domain: string
    var cachedInstruction: string
    var cachedSystemPrompt: string
    var currentAddress: string
    /** `state.conversationHistory`. */
    var history: seq<Turn>
    /** `state.lastProcessedAt`, an ISO time supplied by the caller. */
    var lastProcessedAt: Option<string>

    /** A new instance has nothing cached and no history. */
    constructor(domain: string)
      ensures this.domain == domain && State() == FreshState
    {
      this.domain := domain;
      cachedInstruction := "";
      cachedSystemPrompt := "";
      currentAddress := "";
      history := [];
      lastProcessedAt := None;
    }

    function State(): MetaState
      reads this
    {
      MetaState(cachedInstruction, cachedSystemPrompt, currentAddress, history, lastProcessedAt)
    }

    function SystemPrompt(): string
      reads this
    {
      SystemPromptOf(cachedSystemPrompt)
    }

    function AgentAddress(): string
      reads this
    {
      AgentAddressOf(currentAddress, domain)
    }

    function AgentName(): string
      reads this
    {
      AgentNameOf(cachedInstruction)
    }

    /**
     * The cache step of `process`: the memory hit, else a truthy KV value under the full
     * address, else generation followed by a KV write. `generation` is the prompt-writing
     * model call, asked only when neither cache hits; when it throws nothing changes.
     */
    method ResolvePrompt(instruction: string, address: string, kv: KvStore, generation: Result<string, Thrown>)
      returns (outcome: Result<CacheSource, Thrown>)
      modifies this, kv
      ensures var s := SourceFor(old(cachedInstruction), old(cachedSystemPrompt), instruction, PromptAt(old(kv.entries), address));
              s == Generated && generation.Err? ==>
                && outcome == Err(generation.error)
                && cachedInstruction == old(cachedInstruction) && cachedSystemPrompt == old(cachedSystemPrompt)
                && kv.entries == old(kv.entries)
      ensures var stored := PromptAt(old(kv.entries), address);
              var s := SourceFor(old(cachedInstruction), old(cachedSystemPrompt), instruction, stored);
              var prompt := ResolvedPrompt(s, old(cachedSystemPrompt), instruction, stored,
                                           if generation.Ok? then generation.value else "");
              s != Generated || generation.Ok? ==>
                && outcome == Ok(s)
                && cachedInstruction == instruction && cachedSystemPrompt == prompt
                && kv.entries == (if s == Generated then old(kv.entries)[PromptKey(address) := Text(prompt)]
                                  else old(kv.entries))
      ensures currentAddress == old(currentAddress) && history == old(history) && lastProcessedAt == old(lastProcessedAt)
    {
      var promptCached := false;
      var kvCached := false;
      if cachedInstruction == instruction && cachedSystemPrompt != "" {
        promptCached := true;
      } else {
        var kvPrompt := GetCachedAgentPrompt(kv, address);
        if Truthy(kvPrompt) {
          cachedInstruction := instruction;
          cachedSystemPrompt := kvPrompt.value;
          promptCached := true;
          kvCached := true;
        }
      }
      if promptCached {
        outcome := Ok(if kvCached then Kv else Memory);
      } else {
        match generation {
          case Err(thrown) =>
            outcome := Err(thrown);
          case Ok(text) =>
            var generatedPrompt := GeneratedPrompt(instruction, text);
            cachedInstruction := instruction;
            cachedSystemPrompt := generatedPrompt;
            CacheAgentPrompt(kv, address, generatedPrompt);
            outcome := Ok(Generated);
        }
      }
    }

    /**
     * `process`: the address is recorded, the request passes the safety gate, the prompt is
     * resolved and the conversation extended, exactly as `ProcessSpec` describes.
     */
    method Process(email: ParsedEmail, now: string, kv: KvStore,
                   generation: Result<string, Thrown>, response: Result<string, Thrown>)
      returns (r: Result<string, Thrown>, source: Option<CacheSource>)
      modifies this, kv
      ensures ProcessOutcome(State(), kv.entries, r, source)
              == ProcessSpec(old(State()), old(kv.entries), email, now, generation, response)
    {
      currentAddress := email.to;
      var verdict := ValidateRequest(email.to, email.body);
      if !verdict.safe {
        return Ok(BlockedResponseMessage(OrElse(verdict.reason, "Safety check failed"))), None;
      }
      r, source := Respond(email.to, ParseAddressToInstruction(email.to), BuildUserMessage(email), now, kv,
                           generation, response);
    }

    /** The part of `process` past the safety gate, as `Settle` describes it. */
    method Respond(address: string, instruction: string, userMessage: string, now: string, kv: KvStore,
                   generation: Result<string, Thrown>, response: Result<string, Thrown>)
      returns (r: Result<string, Thrown>, source: Option<CacheSource>)
      modifies this, kv
      ensures ProcessOutcome(State(), kv.entries, r, source)
              == Settle(old(State()), old(kv.entries), address, instruction, userMessage, now, generation, response)
    {
      var outcome := ResolvePrompt(instruction, address, kv, generation);
      if outcome.Err? {
        return Err(outcome.error), None;
      }
      source := Some(outcome.value);
      r := Exchange(userMessage, now, response);
    }

    /**
     * The conversation step of `process`: the user turn, then the model's answer with the
     * apology text for an empty one; when the call throws only the user turn is kept.
     */
    method Exchange(userMessage: string, now: string, response: Result<string, Thrown>) returns (r: Result<string, Thrown>)
      modifies this
      ensures lastProcessedAt == Some(now)
      ensures response.Err? ==> r == Err(response.error) && history == old(history) + [Turn(User, userMessage)]
      ensures response.Ok? ==> r == Ok(OrElse(Some(response.value), NoResponseText))
                               && history == old(history) + [Turn(User, userMessage), Turn(Assistant, r.value)]
      ensures cachedInstruction == old(cachedInstruction) && cachedSystemPrompt == old(cachedSystemPrompt)
      ensures currentAddress == old(currentAddress)
    {
      history := history + [Turn(User, userMessage)];
      lastProcessedAt := Some(now);
      match response {
        case Err(thrown) =>
          r := Err(thrown);
        case Ok(responseText) =>
          var finalText := OrElse(Some(responseText), NoResponseText);
          history := history + [Turn(Assistant, finalText)];
          r := Ok(finalText);
      }
    }

    /**
     * `generateReply` as inherited from the base agent, which calls this agent's `process`,
     * name and address: a blocked request is still answered, with the blocked-request message.
     */
    method GenerateReply(email: ParsedEmail, now: string, kv: KvStore,
                         generation: Result<string, Thrown>, response: Result<string, Thrown>)
      returns (result: AgentResult)
      modifies this, kv
      ensures var out := ProcessSpec(old(State()), old(kv.entries), email, now, generation, response);
              && State() == out.state && kv.entries == out.entries
              && result == ReplyResult(out.answer, AgentNameOf(out.state.cachedInstruction),
                                       AgentAddressOf(email.to, domain), domain, email)
    {
      var processed, _ := Process(email, now, kv, generation, response);
      result := ReplyResult(processed, AgentName(), AgentAddress(), domain, email);
    }
  }
}
