/**
 * The outbound side of the service (src/services/email-sender.ts): the payload handed to the
 * mail transport, with its threading headers, and the two notices the service sends on its own
 * account, the error e-mail and the rate-limit e-mail. The transport is an input: what it
 * answered, or what it threw.
 */
module EmailSender {
  import opened Wrappers
  import opened Text
  import opened EmailTypes
  import opened BaseAgent

  // ---------------------------------------------------------------- the payload

  /** The `headers` object of a send: each header is either present with a value or absent. */
  datatype Headers = Headers(inReplyTo: Option<string>, references: Option<string>)

  /**
   * `In-Reply-To` is present exactly when `inReplyTo` is truthy; `References` exactly when there
   * is a non-empty list of ids, which it carries separated by single spaces.
   */
  function HeadersOf(reply: EmailReply): (h: Headers)
    ensures h.inReplyTo.Some? <==> Truthy(reply.inReplyTo)
    ensures h.inReplyTo.Some? ==> h.inReplyTo == reply.inReplyTo
    ensures h.references.Some? <==> reply.references.Some? && |reply.references.value| > 0
  {
    Headers(if Truthy(reply.inReplyTo) then reply.inReplyTo else None,
            if reply.references.Some? && |reply.references.value| > 0 then Some(Join(reply.references.value, " "))
            else None)
  }

  /** What `sendEmailReply` hands to the transport. */
  datatype Payload = Payload(from: string, to: string, subject: string, text: string, html: Option<string>,
                             headers: Headers)

  /** What `sendEmailReply` sends: the reply's addresses, subject, text and HTML unchanged, with its threading headers. */
  function PayloadOf(reply: EmailReply): (p: Payload)
    ensures p.from == reply.from && p.to == reply.to && p.subject == reply.subject
    ensures p.text == reply.body && p.html == reply.html
    ensures p.headers == HeadersOf(reply)
  {
    Payload(reply.from, reply.to, reply.subject, reply.body, reply.html, HeadersOf(reply))
  }

  /** Splitting a space-joined list of ids that hold no space gives the ids back. */
  lemma {:induction false} SplitJoinedIds(ids: seq<string>)
    requires |ids| > 0
    requires forall k :: 0 <= k < |ids| ==> ' ' !in ids[k]
    ensures SplitOn(Join(ids, " "), " ") == ids
  {
    var s := Join(ids, " ");
    if |ids| == 1 {
      forall i | 0 <= i < |s|
        ensures !OccursAt(s, " ", i)
      {
        assert s[i..i + 1] == [s[i]];
        assert s[i] in ids[0];
      }
      assert !Contains(s, " ");
    } else {
      var first := ids[0];
      var rest := Join(ids[1..], " ");
      assert s == first + " " + rest;
      assert s[|first|..|first| + 1] == " ";
      assert OccursAt(s, " ", |first|);
      var found := IndexOf(s, " ");
      assert found.Some?;
      forall j | 0 <= j < |first|
        ensures s[j] != ' '
      {
        assert s[j] == first[j];
      }
      assert s[found.value] == s[found.value..found.value + 1][0];
      assert found.value == |first|;
      assert s[..|first|] == first;
      assert s[|first| + 1..] == rest;
      SplitJoinedIds(ids[1..]);
      assert SplitOn(s, " ") == [first] + ids[1..];
    }
  }

  /** The `References` header can be split back into the reply's ids when no id holds a space. */
  lemma ReferencesHeaderRoundTrip(reply: EmailReply)
    requires reply.references.Some? && |reply.references.value| > 0
    requires forall k :: 0 <= k < |reply.references.value| ==> ' ' !in reply.references.value[k]
    ensures HeadersOf(reply).references.Some?
    ensures SplitOn(HeadersOf(reply).references.value, " ") == reply.references.value
  {
    SplitJoinedIds(reply.references.value);
  }

  /** An agent's reply always carries `References`, ending in the id of the message it answers. */
  lemma AgentReplyHeaders(agentName: string, agentAddress: string, domain: string, email: ParsedEmail, body: string)
    ensures var h := HeadersOf(BuildReply(agentName, agentAddress, domain, email, body));
            && (h.inReplyTo.Some? <==> email.messageId != "")
            && h.references == Some(Join(email.references + [email.messageId], " "))
  {
  }

  // ---------------------------------------------------------------- sending

  /** What the transport did with a payload: answered, with or without an error, or threw. */
  datatype Transport = Answered(error: Option<string>) | Raised(thrown: Thrown)

  /** `{ success, error? }` as `sendEmailReply` returns it. */
  datatype SendResult = SendResult(success: bool, error: Option<string>)

  /** A truthy transport error or a thrown value is a failure carrying its message; anything else succeeds. */
  function SendOutcome(transport: Transport): (r: SendResult)
    ensures r.success <==> transport.Answered? && !Truthy(transport.error)
    ensures r.success ==> r.error == None
    ensures transport.Answered? && Truthy(transport.error) ==> r == SendResult(false, transport.error)
    ensures transport.Raised? ==> r == SendResult(false, Some(ErrorMessage(transport.thrown)))
  {
    match transport
    case Answered(error) => if Truthy(error) then SendResult(false, error) else SendResult(true, None)
    case Raised(thrown) => SendResult(false, Some(ErrorMessage(thrown)))
  }

  /** Every payload handed to the transport, in order. */
  class Outbox {
    var attempts: seq<Payload>

    constructor()
      ensures attempts == []
    {
      attempts := [];
    }

    /** `sendEmailReply`: one payload goes to the transport, and its answer becomes the result. */
    method SendEmailReply(reply: EmailReply, transport: Transport) returns (r: SendResult)
      modifies this
      ensures attempts == old(attempts) + [PayloadOf(reply)]
      ensures r == SendOutcome(transport)
    {
      attempts := attempts + [PayloadOf(reply)];
      match transport {
        case Answered(error) =>
          if Truthy(error) {
            r := SendResult(false, error);
          } else {
            r := SendResult(true, None);
          }
        case Raised(thrown) =>
          r := SendResult(false, Some(ErrorMessage(thrown)));
      }
    }

    /** `sendErrorEmail`; the outcome of the send is dropped. */
    method SendErrorEmail(to: string, subject: string, originalMessageId: string, errorMessage: string,
                          fromAddress: string, transport: Transport)
      modifies this
      ensures attempts == old(attempts) + [PayloadOf(ErrorEmail(to, subject, originalMessageId, errorMessage, fromAddress))]
    {
      var _ := SendEmailReply(ErrorEmail(to, subject, originalMessageId, errorMessage, fromAddress), transport);
    }

    /** `sendRateLimitEmail`, with the reset time already formatted; the outcome of the send is dropped. */
    method SendRateLimitEmail(to: string, subject: string, originalMessageId: string, resetTime: string,
                              fromAddress: string, transport: Transport)
      modifies this
      ensures attempts == old(attempts) + [PayloadOf(RateLimitEmail(to, subject, originalMessageId, resetTime, fromAddress))]
    {
      var _ := SendEmailReply(RateLimitEmail(to, subject, originalMessageId, resetTime, fromAddress), transport);
    }
  }

  // ---------------------------------------------------------------- the service's own notices

  const ServiceSignature: string := "\n\n---\nMail-to-AI Service"

  const ErrorOpening: string := "We encountered an error processing your request:\n\n"

  const ErrorClosing: string := "\n\nIf this persists, please try again later or contact support."

  const RateLimitOpening: string := "You've reached your hourly limit of email requests.\n\nYour limit will reset at "

  const RateLimitClosing: string := " UTC.\n\nPlease try again after that time."

  /** The error e-mail's text: the message sits verbatim between the fixed opening and closing. */
  function ErrorBody(errorMessage: string): (r: string)
    ensures |r| == |ErrorOpening| + |errorMessage| + |ErrorClosing + ServiceSignature| && ErrorOpening <= r
    ensures r[|ErrorOpening|..|ErrorOpening| + |errorMessage|] == errorMessage
    ensures r[|ErrorOpening| + |errorMessage|..] == ErrorClosing + ServiceSignature
  {
    ErrorOpening + errorMessage + ErrorClosing + ServiceSignature
  }

  /** The rate-limit e-mail's text: the reset time sits verbatim before " UTC.". */
  function RateLimitBody(resetTime: string): (r: string)
    ensures |r| == |RateLimitOpening| + |resetTime| + |RateLimitClosing + ServiceSignature| && RateLimitOpening <= r
    ensures r[|RateLimitOpening|..|RateLimitOpening| + |resetTime|] == resetTime
    ensures r[|RateLimitOpening| + |resetTime|..] == RateLimitClosing + ServiceSignature
  {
    RateLimitOpening + resetTime + RateLimitClosing + ServiceSignature
  }

  /** The `From` header of the service's notices. */
  function ServiceFrom(fromAddress: string): string {
    "Mail-to-AI <" + fromAddress + ">"
  }

  /**
   * A notice in reply to message `originalMessageId`: sent from the service, with the reply
   * subject, no HTML part, and threaded on that one message.
   */
  function ServiceNotice(to: string, subject: string, originalMessageId: string, body: string, fromAddress: string)
    : (r: EmailReply)
    ensures r.to == to && r.body == body && r.html == None
    ensures r.subject == ReplySubject(subject)
    ensures r.inReplyTo == Some(originalMessageId) && r.references == Some([originalMessageId])
  {
    EmailReply(to, ServiceFrom(fromAddress), ReplySubject(subject), body, None,
               Some(originalMessageId), Some([originalMessageId]))
  }

  /** `sendErrorEmail`'s reply. */
  function ErrorEmail(to: string, subject: string, originalMessageId: string, errorMessage: string, fromAddress: string)
    : EmailReply
  {
    ServiceNotice(to, subject, originalMessageId, ErrorBody(errorMessage), fromAddress)
  }

  /** `sendRateLimitEmail`'s reply. */
  function RateLimitEmail(to: string, subject: string, originalMessageId: string, resetTime: string, fromAddress: string)
    : EmailReply
  {
    ServiceNotice(to, subject, originalMessageId, RateLimitBody(resetTime), fromAddress)
  }

  /**
   * A notice goes out with `References` naming exactly the original message, and with
   * `In-Reply-To` naming it whenever its id is non-empty.
   */
  lemma NoticeHeaders(to: string, subject: string, originalMessageId: string, body: string, fromAddress: string)
    ensures var p := PayloadOf(ServiceNotice(to, subject, originalMessageId, body, fromAddress));
            && p.headers.references == Some(originalMessageId)
            && (p.headers.inReplyTo.Some? <==> originalMessageId != "")
            && p.html == None && p.from == ServiceFrom(fromAddress)
  {
  }

  /** The error e-mail carries its message, and a different message gives a different e-mail. */
  lemma ErrorEmailShowsMessage(to: string, subject: string, id: string, fromAddress: string, m1: string, m2: string)
    requires m1 != m2
    ensures ErrorEmail(to, subject, id, m1, fromAddress) != ErrorEmail(to, subject, id, m2, fromAddress)
  {
    var b1 := ErrorBody(m1);
    var b2 := ErrorBody(m2);
    if |m1| == |m2| {
      assert b1[|ErrorOpening|..|ErrorOpening| + |m1|] != b2[|ErrorOpening|..|ErrorOpening| + |m2|];
    } else {
      assert |b1| != |b2|;
    }
  }
}
