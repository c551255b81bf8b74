/**
 * The pipeline one inbound e-mail goes through (src/services/email-processor.ts): the sender's
 * rate limit, the agent's result, the send of its reply, the statistics, and the error e-mail
 * on failure. The agent's result and every transport answer are inputs; so are the clock, the
 * formatting of the reset time and the day key of the statistics.
 */
module EmailProcessor {
  import opened Wrappers
  import opened EmailTypes
  import opened EmailParser
  import opened RateLimiter
  import opened EmailSender

  /** The text of the error e-mail the pipeline sends, whatever went wrong. */
  const RetryMessage: string :=
    "We tried multiple times to process your email but kept hitting a technical issue. Please try sending it again in a few minutes."

  /** The address the service's own notices come from. */
  function NoReplyAddress(domain: string): string {
    "noreply@" + domain
  }

  /** The KV store, the transport's log and the result once `processEmail` is done. */
  datatype PipelineOutcome = PipelineOutcome(entries: map<string, KvValue>, attempts: seq<Payload>, result: SendResult)

  /** The sender's window after this request, and the verdict on it, with the default limit. */
  function RateWindow(entries: map<string, KvValue>, sender: string, now: int): (int, int) {
    NextWindow(WindowAt(entries, sender), now, DefaultWindowSeconds)
  }

  /**
   * `processEmail` on KV contents `entries` with `attempts` already handed to the transport.
   * `agentResult` is what the agent produced, `replySend` the transport's answer to the reply,
   * `notifyOnError` the option of that name (None when it is not given), `formatTime` the
   * formatting of the reset time, and `day` and `processingTimeMs` what the statistics record.
   * Every e-mail is counted against its sender's window, whatever becomes of it, and the run
   * only appends to what was handed to the transport: at most the reply and one notice.
   */
  function PipelineSpec(entries: map<string, KvValue>, attempts: seq<Payload>, email: ParsedEmail, domain: string,
                        now: int, formatTime: int -> string, agentResult: AgentResult, replySend: Transport,
                        notifyOnError: Option<bool>, day: string, processingTimeMs: int): (out: PipelineOutcome)
    ensures WindowAt(out.entries, email.from.email) == Some(RateWindow(entries, email.from.email, now))
    ensures attempts <= out.attempts && |out.attempts| <= |attempts| + 2
  {
    var sender := email.from.email;
    KeyFamilies(sender, "", ExtractAgentName(email.to), day);
    var w := RateWindow(entries, sender, now);
    var counted := entries[RateLimitKey(sender) := Window(w.0, w.1)];
    var rate := Verdict(w, DefaultLimit, DefaultWindowSeconds);
    if !rate.allowed then
      var notice := RateLimitEmail(sender, email.subject, email.messageId, formatTime(rate.resetAt), NoReplyAddress(domain));
      PipelineOutcome(counted, attempts + [PayloadOf(notice)], SendResult(true, None))
    else if !agentResult.success || agentResult.reply.None? then
      Failure(counted, attempts, email, domain, notifyOnError, OrElse(agentResult.error, "Agent failed to generate reply"))
    else
      var attempted := attempts + [PayloadOf(agentResult.reply.value)];
      var sent := SendOutcome(replySend);
      if !sent.success then
        Failure(counted, attempted, email, domain, notifyOnError, OrElse(sent.error, "Failed to send email"))
      else
        PipelineOutcome(Recorded(counted, ExtractAgentName(email.to), day, processingTimeMs), attempted, SendResult(true, None))
  }

  /** The statistics after a delivered reply: the total counter, then the agent's usage for the day. */
  function Recorded(entries: map<string, KvValue>, agent: string, day: string, processingTimeMs: int): map<string, KvValue> {
    var bumped := entries[TotalEmailsKey := Number(TotalEmailsAt(entries) + 1)];
    var usage := UsageAt(bumped, agent, day);
    bumped[UsageKey(agent, day) := Usage(usage.0 + 1, usage.1 + processingTimeMs)]
  }

  /**
   * The `catch` of `processEmail`: the error e-mail goes out unless `notifyOnError` is false,
   * whatever the transport makes of it, and the original error is reported.
   */
  function Failure(entries: map<string, KvValue>, attempts: seq<Payload>, email: ParsedEmail, domain: string,
                   notifyOnError: Option<bool>, errorMessage: string): (out: PipelineOutcome)
    ensures out.entries == entries && out.result == SendResult(false, Some(errorMessage))
    ensures notifyOnError != Some(false) <==> |out.attempts| == |attempts| + 1
    ensures attempts <= out.attempts
  {
    var notice := ErrorEmail(email.from.email, email.subject, email.messageId, RetryMessage, NoReplyAddress(domain));
    PipelineOutcome(entries, if notifyOnError != Some(false) then attempts + [PayloadOf(notice)] else attempts,
                    SendResult(false, Some(errorMessage)))
  }

  /** `processEmail`. `noticeSend` is the transport's answer to the rate-limit or error e-mail, which is ignored. */
  method ProcessEmail(email: ParsedEmail, kv: KvStore, outbox: Outbox, domain: string, now: int,
                      formatTime: int -> string, agentResult: AgentResult, replySend: Transport, noticeSend: Transport,
                      notifyOnError: Option<bool>, day: string, processingTimeMs: int)
    returns (r: SendResult)
    modifies kv, outbox
    ensures PipelineOutcome(kv.entries, outbox.attempts, r)
            == PipelineSpec(old(kv.entries), old(outbox.attempts), email, domain, now, formatTime, agentResult,
                            replySend, notifyOnError, day, processingTimeMs)
  {
    var agentName := ExtractAgentName(email.to);
    var rateLimit := CheckRateLimit(kv, email.from.email, now, DefaultLimit, DefaultWindowSeconds);
    if !rateLimit.allowed {
      outbox.SendRateLimitEmail(email.from.email, email.subject, email.messageId, formatTime(rateLimit.resetAt),
                                NoReplyAddress(domain), noticeSend);
      return SendResult(true, None);
    }
    var errorMessage: string;
    if !agentResult.success || agentResult.reply.None? {
      errorMessage := OrElse(agentResult.error, "Agent failed to generate reply");
    } else {
      var sendResult := outbox.SendEmailReply(agentResult.reply.value, replySend);
      if sendResult.success {
        RecordDelivery(kv, agentName, day, processingTimeMs);
        return SendResult(true, None);
      }
      errorMessage := OrElse(sendResult.error, "Failed to send email");
    }
    if notifyOnError != Some(false) {
      outbox.SendErrorEmail(email.from.email, email.subject, email.messageId, RetryMessage, NoReplyAddress(domain),
                            noticeSend);
    }
    r := SendResult(false, Some(errorMessage));
  }

  /** The statistics `processEmail` writes once the reply is delivered: the total counter, then the agent's usage. */
  method RecordDelivery(kv: KvStore, agentName: string, day: string, processingTimeMs: int)
    modifies kv
    ensures kv.entries == Recorded(old(kv.entries), agentName, day, processingTimeMs)
  {
    var _ := IncrementEmailCount(kv);
    TrackAgentUsage(kv, agentName, day, processingTimeMs);
  }

  // ---------------------------------------------------------------- what the pipeline promises

  /** Whether the pipeline delivers the agent's reply: the sender is within the limit, the agent succeeded and the send did. */
  predicate Delivered(entries: map<string, KvValue>, email: ParsedEmail, now: int, agentResult: AgentResult,
                      replySend: Transport)
  {
    && Verdict(RateWindow(entries, email.from.email, now), DefaultLimit, DefaultWindowSeconds).allowed
    && agentResult.success && agentResult.reply.Some?
    && SendOutcome(replySend).success
  }

  /**
   * A sender over the limit gets the rate-limit notice, in reply to their message, and a success;
   * the agent's result and the reply's transport play no part, and no statistics are written.
   */
  lemma RateLimitedShortCircuits(entries: map<string, KvValue>, attempts: seq<Payload>, email: ParsedEmail,
                                 domain: string, now: int, formatTime: int -> string,
                                 agentResult: AgentResult, replySend: Transport, notifyOnError: Option<bool>,
                                 day: string, processingTimeMs: int,
                                 otherResult: AgentResult, otherSend: Transport)
    requires !Verdict(RateWindow(entries, email.from.email, now), DefaultLimit, DefaultWindowSeconds).allowed
    ensures var out := PipelineSpec(entries, attempts, email, domain, now, formatTime, agentResult, replySend,
                                    notifyOnError, day, processingTimeMs);
            && out.result == SendResult(true, None)
            && |out.attempts| == |attempts| + 1
            && out.attempts[|attempts|].to == email.from.email
            && out.attempts[|attempts|].headers.references == Some(email.messageId)
            && TotalEmailsAt(out.entries) == TotalEmailsAt(entries)
            && out == PipelineSpec(entries, attempts, email, domain, now, formatTime, otherResult, otherSend,
                                   notifyOnError, day, processingTimeMs)
  {
    var w := RateWindow(entries, email.from.email, now);
    var resetTime := formatTime(Verdict(w, DefaultLimit, DefaultWindowSeconds).resetAt);
    NoticeHeaders(email.from.email, email.subject, email.messageId, RateLimitBody(resetTime), NoReplyAddress(domain));
    KeyFamilies(email.from.email, "", "", "");
  }

  /**
   * A failure is reported with its own message (the agent's error, else "Agent failed to generate
   * reply"; the transport's error, else "Failed to send email"), and the error e-mail goes out
   * unless `notifyOnError` is false.
   */
  lemma FailureIsReported(entries: map<string, KvValue>, attempts: seq<Payload>, email: ParsedEmail,
                          domain: string, now: int, formatTime: int -> string,
                          agentResult: AgentResult, replySend: Transport, notifyOnError: Option<bool>,
                          day: string, processingTimeMs: int)
    requires Verdict(RateWindow(entries, email.from.email, now), DefaultLimit, DefaultWindowSeconds).allowed
    requires !Delivered(entries, email, now, agentResult, replySend)
    ensures var out := PipelineSpec(entries, attempts, email, domain, now, formatTime, agentResult, replySend,
                                    notifyOnError, day, processingTimeMs);
            var agentFailed := !agentResult.success || agentResult.reply.None?;
            && !out.result.success
            && out.result.error == Some(if agentFailed then OrElse(agentResult.error, "Agent failed to generate reply")
                                        else OrElse(SendOutcome(replySend).error, "Failed to send email"))
            && (notifyOnError != Some(false) ==>
                  out.attempts[|out.attempts| - 1]
                  == PayloadOf(ErrorEmail(email.from.email, email.subject, email.messageId, RetryMessage,
                                          NoReplyAddress(domain))))
            && (notifyOnError == Some(false) ==> |out.attempts| == |attempts| + (if agentFailed then 0 else 1))
  {
  }

  /** The pipeline succeeds exactly when the sender is over the limit or the reply was delivered. */
  lemma SuccessMeansHandled(entries: map<string, KvValue>, attempts: seq<Payload>, email: ParsedEmail,
                            domain: string, now: int, formatTime: int -> string,
                            agentResult: AgentResult, replySend: Transport, notifyOnError: Option<bool>,
                            day: string, processingTimeMs: int)
    ensures var out := PipelineSpec(entries, attempts, email, domain, now, formatTime, agentResult, replySend,
                                    notifyOnError, day, processingTimeMs);
            out.result.success <==>
              !Verdict(RateWindow(entries, email.from.email, now), DefaultLimit, DefaultWindowSeconds).allowed
              || Delivered(entries, email, now, agentResult, replySend)
  {
  }

  /**
   * The total counter moves by one exactly when the reply was delivered, and then the agent
   * named by the recipient's local part gains one request and the processing time for the day.
   */
  lemma StatisticsOnlyAfterDelivery(entries: map<string, KvValue>, attempts: seq<Payload>, email: ParsedEmail,
                                    domain: string, now: int, formatTime: int -> string,
                                    agentResult: AgentResult, replySend: Transport, notifyOnError: Option<bool>,
                                    day: string, processingTimeMs: int)
    ensures var out := PipelineSpec(entries, attempts, email, domain, now, formatTime, agentResult, replySend,
                                    notifyOnError, day, processingTimeMs);
            var agent := ExtractAgentName(email.to);
            && TotalEmailsAt(out.entries)
               == TotalEmailsAt(entries) + (if Delivered(entries, email, now, agentResult, replySend) then 1 else 0)
            && UsageAt(out.entries, agent, day)
               == (if Delivered(entries, email, now, agentResult, replySend)
                   then (UsageAt(entries, agent, day).0 + 1, UsageAt(entries, agent, day).1 + processingTimeMs)
                   else UsageAt(entries, agent, day))
  {
    var sender := email.from.email;
    var agent := ExtractAgentName(email.to);
    var w := RateWindow(entries, sender, now);
    var counted := entries[RateLimitKey(sender) := Window(w.0, w.1)];
    KeyFamilies(sender, "", agent, day);
    assert TotalEmailsAt(counted) == TotalEmailsAt(entries);
    assert UsageAt(counted, agent, day) == UsageAt(entries, agent, day);
    var bumped := counted[TotalEmailsKey := Number(TotalEmailsAt(counted) + 1)];
    assert UsageAt(bumped, agent, day) == UsageAt(counted, agent, day);
  }

  /**
   * As written, `processEmail` reads `success` from the agent instance `routeToAgent` returns, which
   * has no such field, so it sees `AgentResult(false, None, None)`: every e-mail within the limit
   * fails with "Agent failed to generate reply", records no statistics, and sends the error e-mail
   * unless `notifyOnError` is false.
   */
  lemma RoutedInstanceFailsAsWritten(entries: map<string, KvValue>, attempts: seq<Payload>, email: ParsedEmail,
                                     domain: string, now: int, formatTime: int -> string, replySend: Transport,
                                     notifyOnError: Option<bool>, day: string, processingTimeMs: int)
    requires Verdict(RateWindow(entries, email.from.email, now), DefaultLimit, DefaultWindowSeconds).allowed
    ensures var out := PipelineSpec(entries, attempts, email, domain, now, formatTime, AgentResult(false, None, None),
                                    replySend, notifyOnError, day, processingTimeMs);
            && out.result == SendResult(false, Some("Agent failed to generate reply"))
            && TotalEmailsAt(out.entries) == TotalEmailsAt(entries)
            && out.attempts == attempts + (if notifyOnError != Some(false)
                                           then [PayloadOf(ErrorEmail(email.from.email, email.subject, email.messageId,
                                                                      RetryMessage, NoReplyAddress(domain)))]
                                           else [])
  {
    StatisticsOnlyAfterDelivery(entries, attempts, email, domain, now, formatTime, AgentResult(false, None, None),
                                replySend, notifyOnError, day, processingTimeMs);
  }

  /** The two statistics writes touch different keys, so running them concurrently in either order gives one store. */
  lemma StatisticsCommute(entries: map<string, KvValue>, agent: string, day: string, processingTimeMs: int)
    ensures var usage := UsageAt(entries, agent, day);
            var tracked := entries[UsageKey(agent, day) := Usage(usage.0 + 1, usage.1 + processingTimeMs)];
            Recorded(entries, agent, day, processingTimeMs)
            == tracked[TotalEmailsKey := Number(TotalEmailsAt(tracked) + 1)]
  {
    KeyFamilies("", "", agent, day);
    var bumped := entries[TotalEmailsKey := Number(TotalEmailsAt(entries) + 1)];
    assert UsageAt(bumped, agent, day) == UsageAt(entries, agent, day);
  }
}
