/**
 * The key-value store and the counters kept in it (src/utils/rate-limiter.ts): a fixed-window
 * rate limit per sender, the cache of generated agent prompts, and usage statistics.
 * Entries are stored as typed records rather than JSON text; expiry times are not modelled.
 */
module RateLimiter {
  import opened Wrappers

  /** What one key holds. */
  datatype KvValue =
    | Text(text: string)                            // a cached prompt
    | Number(n: int)                                // the total e-mail counter
    | Window(count: int, windowStart: int)          // a sender's rate-limit window
    | Usage(count: int, totalTime: int)             // one agent's usage on one day

  /** The store: a map from key to record, updated in place by `Put`. */
  class KvStore {
    var entries: map<string, KvValue>

    constructor()
      ensures entries == map[]
    {
      entries := map[];
    }

    /** `kv.put(key, value)`; the time-to-live is not modelled, so entries never expire. */
    method Put(key: string, value: KvValue)
      modifies this
      ensures entries == old(entries)[key := value]
    {
      entries := entries[key := value];
    }
  }

  // ---------------------------------------------------------------- keys

  function RateLimitKey(sender: string): string { "ratelimit:" + sender }

  function PromptKey(address: string): string { "agent-prompt:" + address }

  const TotalEmailsKey: string := "stats:total-emails"

  function UsageKey(agentType: string, day: string): string { "stats:agent:" + agentType + ":" + day }

  /** The record kind each key family holds. */
  datatype KeyFamily = RateLimitKeys | PromptKeys | UsageKeys | TotalEmails | OtherKeys

  function FamilyOf(key: string): KeyFamily {
    if "ratelimit:" <= key then RateLimitKeys
    else if "agent-prompt:" <= key then PromptKeys
    else if "stats:agent:" <= key then UsageKeys
    else if key == TotalEmailsKey then TotalEmails
    else OtherKeys
  }

  /** The key scheme keeps the families apart: every key is read back as the family that wrote it. */
  lemma KeyFamilies(sender: string, address: string, agentType: string, day: string)
    ensures FamilyOf(RateLimitKey(sender)) == RateLimitKeys
    ensures FamilyOf(PromptKey(address)) == PromptKeys
    ensures FamilyOf(UsageKey(agentType, day)) == UsageKeys
    ensures FamilyOf(TotalEmailsKey) == TotalEmails
  {
    assert PromptKey(address)[0] == 'a';
    assert UsageKey(agentType, day)[0] == 's' && UsageKey(agentType, day)[6] == 'a';
    assert "stats:agent:" <= UsageKey(agentType, day);
    assert TotalEmailsKey[6] == 't';
  }

  /** A record of the kind its key's family holds. */
  predicate WellTyped(key: string, value: KvValue) {
    match FamilyOf(key)
    case RateLimitKeys => value.Window?
    case PromptKeys => value.Text?
    case UsageKeys => value.Usage?
    case TotalEmails => value.Number?
    case OtherKeys => true
  }

  /** The store invariant: every key holds a record of its family's kind. */
  predicate Consistent(entries: map<string, KvValue>) {
    forall key :: key in entries ==> WellTyped(key, entries[key])
  }

  /** Writing a record of the right kind keeps the store consistent. */
  lemma PutKeepsConsistent(entries: map<string, KvValue>, key: string, value: KvValue)
    requires Consistent(entries) && WellTyped(key, value)
    ensures Consistent(entries[key := value])
  {
  }

  // ---------------------------------------------------------------- rate limit

  const DefaultLimit: int := 10
  const DefaultWindowSeconds: int := 3600

  /** `RateLimitResult`; `resetAt` is a time in milliseconds. */
  datatype RateLimitResult = RateLimitResult(allowed: bool, remaining: int, resetAt: int)

  /** The stored window of a sender, if there is one. */
  function WindowAt(entries: map<string, KvValue>, sender: string): (r: Option<(int, int)>)
    ensures r.Some? <==> RateLimitKey(sender) in entries && entries[RateLimitKey(sender)].Window?
    ensures r.Some? ==> r.value == (entries[RateLimitKey(sender)].count, entries[RateLimitKey(sender)].windowStart)
  {
    var key := RateLimitKey(sender);
    if key in entries && entries[key].Window? then Some((entries[key].count, entries[key].windowStart)) else None
  }

  /** A written window is read back for its sender, and every other sender's window is untouched. */
  lemma {:induction false} WindowRoundTrip(entries: map<string, KvValue>, sender: string, other: string,
                                           count: int, windowStart: int)
    ensures WindowAt(entries[RateLimitKey(sender) := Window(count, windowStart)], sender) == Some((count, windowStart))
    ensures other != sender ==>
              WindowAt(entries[RateLimitKey(sender) := Window(count, windowStart)], other) == WindowAt(entries, other)
  {
    if other != sender {
      assert RateLimitKey(other)[10..] == other && RateLimitKey(sender)[10..] == sender;
    }
  }

  /**
   * The window after one more request at `now`: it restarts with count 1 when there is none or
   * the old one is `windowSeconds` or more old, and otherwise counts one more from the same start.
   */
  function NextWindow(existing: Option<(int, int)>, now: int, windowSeconds: int): (w: (int, int))
    ensures existing.None? || now - existing.value.1 >= windowSeconds * 1000 ==> w == (1, now)
    ensures existing.Some? && now - existing.value.1 < windowSeconds * 1000 ==>
              w.0 == existing.value.0 + 1 && w.1 == existing.value.1
  {
    if existing.Some? && now - existing.value.1 < windowSeconds * 1000 then (existing.value.0 + 1, existing.value.1)
    else (1, now)
  }

  /** The verdict for a request that brought the window to `w`. */
  function Verdict(w: (int, int), limit: int, windowSeconds: int): (r: RateLimitResult)
    ensures r.allowed <==> w.0 <= limit
    ensures r.remaining >= 0 && (r.allowed ==> r.remaining == limit - w.0)
    ensures !r.allowed ==> r.remaining == 0
    ensures r.resetAt == w.1 + windowSeconds * 1000
  {
    RateLimitResult(w.0 <= limit, if limit - w.0 > 0 then limit - w.0 else 0, w.1 + windowSeconds * 1000)
  }

  /** `checkRateLimit`: one read-modify-write of the sender's window; the window is written even when the request is denied. */
  method CheckRateLimit(kv: KvStore, sender: string, now: int, limit: int, windowSeconds: int) returns (r: RateLimitResult)
    modifies kv
    ensures kv.entries == AfterRequest(old(kv.entries), sender, now, windowSeconds)
    ensures r == Verdict(NextWindow(WindowAt(old(kv.entries), sender), now, windowSeconds), limit, windowSeconds)
    ensures Consistent(old(kv.entries)) ==> Consistent(kv.entries)
  {
    var key := RateLimitKey(sender);
    var count: int;
    var windowStart: int;
    if key in kv.entries && kv.entries[key].Window? && now - kv.entries[key].windowStart < windowSeconds * 1000 {
      count := kv.entries[key].count + 1;
      windowStart := kv.entries[key].windowStart;
    } else {
      count := 1;
      windowStart := now;
    }
    KeyFamilies(sender, "", "", "");
    kv.Put(key, Window(count, windowStart));
    r := RateLimitResult(count <= limit, if limit - count > 0 then limit - count else 0, windowStart + windowSeconds * 1000);
  }

  /** The store after one `checkRateLimit` by `sender` at `now`: that sender's window moved on by one request. */
  function AfterRequest(entries: map<string, KvValue>, sender: string, now: int, windowSeconds: int)
    : map<string, KvValue>
  {
    var w := NextWindow(WindowAt(entries, sender), now, windowSeconds);
    entries[RateLimitKey(sender) := Window(w.0, w.1)]
  }

  /** The store after successive `checkRateLimit` calls by `sender` at the given times. */
  function AfterRequests(entries: map<string, KvValue>, sender: string, times: seq<int>, windowSeconds: int)
    : map<string, KvValue>
    decreases |times|
  {
    if |times| == 0 then entries
    else AfterRequests(AfterRequest(entries, sender, times[0], windowSeconds), sender, times[1..], windowSeconds)
  }

  /**
   * Successive `checkRateLimit` calls leave the sender's stored window where `Replay` puts it,
   * and change no other key of the store.
   */
  lemma {:induction false} RequestsReplay(entries: map<string, KvValue>, sender: string, times: seq<int>,
                                          windowSeconds: int)
    ensures WindowAt(AfterRequests(entries, sender, times, windowSeconds), sender)
            == Replay(WindowAt(entries, sender), times, windowSeconds)
    ensures AfterRequests(entries, sender, times, windowSeconds) - {RateLimitKey(sender)}
            == entries - {RateLimitKey(sender)}
    decreases |times|
  {
    if |times| > 0 {
      var w := NextWindow(WindowAt(entries, sender), times[0], windowSeconds);
      var next := AfterRequest(entries, sender, times[0], windowSeconds);
      WindowRoundTrip(entries, sender, sender, w.0, w.1);
      assert WindowAt(next, sender) == Some(w);
      RequestsReplay(next, sender, times[1..], windowSeconds);
      assert next - {RateLimitKey(sender)} == entries - {RateLimitKey(sender)};
    }
  }

  /** The windows after a run of requests at the given times, starting from `w`. */
  function Replay(w: Option<(int, int)>, times: seq<int>, windowSeconds: int): (r: Option<(int, int)>)
    ensures |times| > 0 ==> r.Some?
    ensures |times| == 0 ==> r == w
    decreases |times|
  {
    if |times| == 0 then w else Replay(Some(NextWindow(w, times[0], windowSeconds)), times[1..], windowSeconds)
  }

  /**
   * Requests that all come less than `windowSeconds` after the window's start each count one
   * more and keep that start.
   */
  lemma {:induction false} RequestsInOneWindow(w: Option<(int, int)>, times: seq<int>, windowSeconds: int, start: int)
    requires w.Some? && w.value.1 == start
    requires forall k :: 0 <= k < |times| ==> times[k] - start < windowSeconds * 1000
    ensures Replay(w, times, windowSeconds) == Some((w.value.0 + |times|, start))
    decreases |times|
  {
    if |times| > 0 {
      var next := NextWindow(w, times[0], windowSeconds);
      assert next == (w.value.0 + 1, start);
      RequestsInOneWindow(Some(next), times[1..], windowSeconds, start);
    }
  }

  /**
   * With the default limit, a fresh sender's requests within one hour are allowed up to the
   * tenth; the eleventh and later are refused.
   */
  lemma DefaultLimitAllowsTen(times: seq<int>)
    requires |times| > 0
    requires forall k :: 0 <= k < |times| ==> times[k] - times[0] < DefaultWindowSeconds * 1000
    ensures var w := Replay(None, times, DefaultWindowSeconds).value;
            w == (|times|, times[0])
            && (Verdict(w, DefaultLimit, DefaultWindowSeconds).allowed <==> |times| <= 10)
  {
    var first := NextWindow(None, times[0], DefaultWindowSeconds);
    assert first == (1, times[0]);
    RequestsInOneWindow(Some(first), times[1..], DefaultWindowSeconds, times[0]);
  }

  /**
   * On the store: a sender with no window who sends requests within one hour has them counted
   * from the first, and the last of them is allowed exactly when it is at most the tenth.
   */
  lemma FreshSenderAllowsTen(entries: map<string, KvValue>, sender: string, times: seq<int>)
    requires WindowAt(entries, sender) == None
    requires |times| > 0
    requires forall k :: 0 <= k < |times| ==> times[k] - times[0] < DefaultWindowSeconds * 1000
    ensures var w := WindowAt(AfterRequests(entries, sender, times, DefaultWindowSeconds), sender);
            && w == Some((|times|, times[0]))
            && (Verdict(w.value, DefaultLimit, DefaultWindowSeconds).allowed <==> |times| <= 10)
  {
    RequestsReplay(entries, sender, times, DefaultWindowSeconds);
    DefaultLimitAllowsTen(times);
  }

  // ---------------------------------------------------------------- prompt cache

  /** `getCachedAgentPrompt`: the prompt stored for an address, if any. */
  function PromptAt(entries: map<string, KvValue>, address: string): (r: Option<string>)
    ensures r.Some? <==> PromptKey(address) in entries && entries[PromptKey(address)].Text?
  {
    var key := PromptKey(address);
    if key in entries && entries[key].Text? then Some(entries[key].text) else None
  }

  /** `getCachedAgentPrompt` on the store. */
  function GetCachedAgentPrompt(kv: KvStore, address: string): (r: Option<string>)
    reads kv
    ensures r == PromptAt(kv.entries, address)
  {
    PromptAt(kv.entries, address)
  }

  /** `cacheAgentPrompt`: stores the prompt under the address's key; the seven-day expiry is not modelled. */
  method CacheAgentPrompt(kv: KvStore, address: string, prompt: string)
    modifies kv
    ensures kv.entries == old(kv.entries)[PromptKey(address) := Text(prompt)]
    ensures Consistent(old(kv.entries)) ==> Consistent(kv.entries)
  {
    KeyFamilies("", address, "", "");
    kv.Put(PromptKey(address), Text(prompt));
  }

  /** A cached prompt is read back for its address, and for no other. */
  lemma {:induction false} PromptRoundTrip(entries: map<string, KvValue>, address: string, other: string, prompt: string)
    ensures PromptAt(entries[PromptKey(address) := Text(prompt)], address) == Some(prompt)
    ensures other != address ==> PromptAt(entries[PromptKey(address) := Text(prompt)], other) == PromptAt(entries, other)
  {
    if other != address {
      assert PromptKey(other)[13..] == other && PromptKey(address)[13..] == address;
    }
  }

  // ---------------------------------------------------------------- statistics

  /** The total e-mail counter; a missing counter reads as 0. */
  function TotalEmailsAt(entries: map<string, KvValue>): (n: int)
    ensures TotalEmailsKey !in entries ==> n == 0
  {
    if TotalEmailsKey in entries && entries[TotalEmailsKey].Number? then entries[TotalEmailsKey].n else 0
  }

  /** `incrementEmailCount`: stores and returns the previous count plus one. */
  method IncrementEmailCount(kv: KvStore) returns (newCount: int)
    modifies kv
    ensures newCount == TotalEmailsAt(old(kv.entries)) + 1
    ensures kv.entries == old(kv.entries)[TotalEmailsKey := Number(newCount)]
    ensures TotalEmailsAt(kv.entries) == newCount
    ensures Consistent(old(kv.entries)) ==> Consistent(kv.entries)
  {
    var current := 0;
    if TotalEmailsKey in kv.entries && kv.entries[TotalEmailsKey].Number? {
      current := kv.entries[TotalEmailsKey].n;
    }
    newCount := current + 1;
    KeyFamilies("", "", "", "");
    kv.Put(TotalEmailsKey, Number(newCount));
  }

  /** An agent's usage record for a day; a missing record reads as zero requests and zero time. */
  function UsageAt(entries: map<string, KvValue>, agentType: string, day: string): (r: (int, int))
    ensures UsageKey(agentType, day) !in entries ==> r == (0, 0)
  {
    var key := UsageKey(agentType, day);
    if key in entries && entries[key].Usage? then (entries[key].count, entries[key].totalTime) else (0, 0)
  }

  /**
   * `trackAgentUsage`: one more request and `processingTimeMs` more time for the agent on `day`
   * (the ISO date of the call, taken as a parameter).
   */
  method TrackAgentUsage(kv: KvStore, agentType: string, day: string, processingTimeMs: int)
    modifies kv
    ensures var before := UsageAt(old(kv.entries), agentType, day);
            kv.entries == old(kv.entries)[UsageKey(agentType, day) := Usage(before.0 + 1, before.1 + processingTimeMs)]
    ensures UsageAt(kv.entries, agentType, day).0 == UsageAt(old(kv.entries), agentType, day).0 + 1
    ensures Consistent(old(kv.entries)) ==> Consistent(kv.entries)
  {
    var key := UsageKey(agentType, day);
    var count := 0;
    var totalTime := 0;
    if key in kv.entries && kv.entries[key].Usage? {
      count := kv.entries[key].count;
      totalTime := kv.entries[key].totalTime;
    }
    KeyFamilies("", "", agentType, day);
    kv.Put(key, Usage(count + 1, totalTime + processingTimeMs));
  }
}
