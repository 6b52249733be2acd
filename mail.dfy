/** What the two email canaries do with lettre: the message they build and how
    they classify the relay's answer. The SMTP session itself is not modelled;
    its answer to one send is an input. */
module Mail {
  import opened Wrappers
  import opened Text

  /** A mailbox as given on the command line, kept as its display text. */
  datatype Mailbox = Mailbox(display: string)

  datatype ContentType = TextHtml

  datatype Message = Message(
    from: Mailbox,
    replyTo: Mailbox,
    to: Mailbox,
    subject: string,
    contentType: ContentType,
    body: string)

  const SubjectPrefix := "Internet connection canary message from "

  function Subject(hostname: string): string {
    SubjectPrefix + hostname
  }

  /** The hostname a subject line names, if it is a canary subject. */
  function HostOfSubject(subject: string): Option<string> {
    StripPrefix(SubjectPrefix, subject)
  }

  /** The subject names the host, and nothing else: it can be read back. */
  lemma SubjectNamesHost(hostname: string)
    ensures HostOfSubject(Subject(hostname)) == Some(hostname)
  {
    assert (SubjectPrefix + hostname)[|SubjectPrefix|..] == hostname;
  }

  /** The canary message: sent from, replied to and addressed to the one
      configured mailbox, an HTML body, and a subject naming the host. */
  function Compose(mailbox: Mailbox, hostname: string, body: string): (m: Message)
    ensures m.from == m.replyTo == m.to == mailbox
    ensures m.subject == Subject(hostname)
    ensures m.contentType == TextHtml && m.body == body
  {
    Message(mailbox, mailbox, mailbox, Subject(hostname), TextHtml, body)
  }

  /** The reply classes of section 4.2.1 of RFC 5321 (first digit 2 to 5). */
  datatype Severity =
    | PositiveCompletion
    | PositiveIntermediate
    | TransientNegativeCompletion
    | PermanentNegativeCompletion

  /** The relay's reply to the message: its class and its text lines. */
  datatype Response = Response(severity: Severity, lines: seq<string>) {
    /** lettre's `is_positive`: a 2yz or 3yz reply. */
    predicate IsPositive() {
      severity == PositiveCompletion || severity == PositiveIntermediate
    }
  }

  /** What `SmtpTransport::send` returns: a reply, or an error whose debug
      rendering is `detail`. */
  datatype SendResult = Replied(response: Response) | SendError(detail: string)

  datatype DeliveryOutcome =
    | Success
    | RejectedByServer(lines: seq<string>)
    | TransportFailure(detail: string)

  /** The three ways one send can end. */
  function Classify(r: SendResult): (o: DeliveryOutcome)
    ensures o.Success? <==> r.Replied? && r.response.IsPositive()
    ensures o.RejectedByServer? <==> r.Replied? && !r.response.IsPositive()
    ensures o.TransportFailure? <==> r.SendError?
    ensures o.RejectedByServer? ==> o.lines == r.response.lines
    ensures o.TransportFailure? ==> o.detail == r.detail
  {
    match r
    case Replied(response) =>
      if response.IsPositive() then Success else RejectedByServer(response.lines)
    case SendError(detail) => TransportFailure(detail)
  }
}
