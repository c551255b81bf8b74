/** The records the mail service passes between its parts (src/types/email.ts). */
module EmailTypes {
  import opened Wrappers

  /** A mailbox: its address and an optional display name. */
  datatype EmailAddress = EmailAddress(email: string, name: Option<string>)

  datatype Attachment = Attachment(filename: string, contentType: string, size: int, url: Option<string>)

  /** An inbound email after normalisation; the receive timestamp is not modelled. */
  datatype ParsedEmail = ParsedEmail(
    id: string,
    from: EmailAddress,
    to: string,
    cc: seq<string>,
    subject: string,
    body: string,
    html: Option<string>,
    threadId: Option<string>,
    messageId: string,
    inReplyTo: Option<string>,
    references: seq<string>,
    attachments: seq<Attachment>)

  /** A reply ready for the outbound transport. */
  datatype EmailReply = EmailReply(
    to: string,
    from: string,
    subject: string,
    body: string,
    html: Option<string>,
    inReplyTo: Option<string>,
    references: Option<seq<string>>)

  /** What an agent hands back to the pipeline. */
  datatype AgentResult = AgentResult(success: bool, reply: Option<EmailReply>, error: Option<string>)

  /** JavaScript truthiness of an optional string: present and non-empty. */
  predicate Truthy(o: Option<string>) {
    o.Some? && o.value != ""
  }

  /** `o || fallback` for an optional string. */
  function OrElse(o: Option<string>, fallback: string): (r: string)
    ensures Truthy(o) ==> r == o.value
    ensures !Truthy(o) ==> r == fallback
  {
    if Truthy(o) then o.value else fallback
  }

  /** The subject of a reply: kept when it already starts with `Re:`, otherwise prefixed with `Re: `. */
  function ReplySubject(subject: string): (r: string)
    ensures "Re:" <= r
    ensures "Re:" <= subject ==> r == subject
    ensures !("Re:" <= subject) ==> r == "Re: " + subject
  {
    if "Re:" <= subject then subject else "Re: " + subject
  }

  /** Replying to a reply adds no second prefix. */
  lemma ReplySubjectIdempotent(subject: string)
    ensures ReplySubject(ReplySubject(subject)) == ReplySubject(subject)
  {
  }
}
