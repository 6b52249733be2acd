/** src/email_canary.rs, the variant of the loop that takes its body from
    `info::current` and reports through leveled log records instead of raw
    stderr lines: one record naming the recipient, one carrying the body,
    and one error record when the send did not succeed. */
module EmailCanary {
  import opened Wrappers
  import opened Text
  import Info
  import opened Mail
  import opened Scheduler

  const RefusalHeading := "Error from SMTP server:\n"

  /** What the handling of the relay's answer logs: nothing for a positive
      reply, otherwise one error record. A refusal carries every line of the
      reply, joined with newlines. */
  function ErrorLog(outcome: DeliveryOutcome): seq<LogEntry> {
    match outcome
    case Success => []
    case RejectedByServer(lines) => [LogEntry(ErrorLevel, RefusalHeading + Join(lines, "\n"))]
    case TransportFailure(detail) => [LogEntry(ErrorLevel, "Error sending email: " + detail)]
  }

  /** What one send logs: the recipient, the body, then the error, if any. */
  function SendLog(mailbox: Mailbox, body: string, outcome: DeliveryOutcome): seq<LogEntry> {
    [LogEntry(InfoLevel, "Sending email to " + mailbox.display),
     LogEntry(DebugLevel, "Email body:\n" + body)]
    + ErrorLog(outcome)
  }

  function TickLog(mailbox: Mailbox, hostname: string, startTime: string, t: Tick): seq<LogEntry> {
    SendLog(mailbox, Letter(mailbox, hostname, startTime, t).body, Classify(t.sent))
  }

  /** The log of each iteration, in order. */
  function TickLogs(mailbox: Mailbox, hostname: string, startTime: string, ticks: seq<Tick>)
    : seq<seq<LogEntry>>
  {
    seq(|ticks|, i requires 0 <= i < |ticks| => TickLog(mailbox, hostname, startTime, ticks[i]))
  }

  /** A send logs an error record exactly when it did not succeed, and at
      most one; the two records before it name the recipient and carry the
      body, whatever happened. */
  lemma ErrorExactlyOnFailure(mailbox: Mailbox, body: string, outcome: DeliveryOutcome)
    ensures var log := SendLog(mailbox, body, outcome);
      (|log| == 3 <==> !outcome.Success?) && (|log| == 2 <==> outcome.Success?) &&
      log[0] == LogEntry(InfoLevel, "Sending email to " + mailbox.display) &&
      log[1] == LogEntry(DebugLevel, "Email body:\n" + body) &&
      forall i :: 0 <= i < |log| ==> (log[i].level == ErrorLevel <==> i == 2)
  {
    var head := [LogEntry(InfoLevel, "Sending email to " + mailbox.display),
                 LogEntry(DebugLevel, "Email body:\n" + body)];
    assert SendLog(mailbox, body, outcome) == head + ErrorLog(outcome);
  }

  /** The refusal record loses none of the reply: after its heading, splitting
      at newlines gives back the server's lines, each in its place, as long as
      no line itself contains a newline. */
  lemma RefusalKeepsEveryLine(lines: seq<string>)
    requires |lines| >= 1
    requires forall i :: 0 <= i < |lines| ==> '\n' !in lines[i]
    ensures var text := ErrorLog(RejectedByServer(lines))[0].text;
      var rest := StripPrefix(RefusalHeading, text);
      rest.Some? && Split(rest.value, '\n') == lines
  {
    var joined := Join(lines, "\n");
    assert StripPrefix(RefusalHeading, RefusalHeading + joined) == Some(joined);
    SplitJoin(lines, '\n');
  }

  /** `send_email`: logs the recipient and the body, sends the report of
      `info::current`, and logs one error when the relay refuses it or the
      send fails; it returns normally either way. */
  method SendEmail(fx: Effects, mailbox: Mailbox, hostname: string, startTime: string, t: Tick)
    modifies fx
    ensures fx.trace == old(fx.trace) + [Deliver(Letter(mailbox, hostname, startTime, t))]
    ensures fx.log == old(fx.log) + TickLog(mailbox, hostname, startTime, t)
  {
    var subject := Subject(hostname);
    var body := Info.Current(hostname, startTime, t.now, t.uptimeSecs, t.ip);
    ghost var log0 := fx.log;

    var greeting := LogEntry(InfoLevel, "Sending email to " + mailbox.display);
    var dump := LogEntry(DebugLevel, "Email body:\n" + body);
    fx.Write(greeting);
    fx.Write(dump);

    var email := Message(mailbox, mailbox, mailbox, subject, TextHtml, body);
    fx.Send(email);

    ghost var log1 := fx.log;
    match t.sent {
      case Replied(response) =>
        if !response.IsPositive() {
          var message := Join(response.lines, "\n");
          fx.Write(LogEntry(ErrorLevel, RefusalHeading + message));
        }
      case SendError(detail) =>
        fx.Write(LogEntry(ErrorLevel, "Error sending email: " + detail));
    }
    assert fx.log == log1 + ErrorLog(Classify(t.sent));
    assert fx.log == log0 + ([greeting, dump] + ErrorLog(Classify(t.sent)));
    LetterOfBody(mailbox, hostname, startTime, t, body);
    assert TickLog(mailbox, hostname, startTime, t) == SendLog(mailbox, body, Classify(t.sent));
  }

  /** `run_forever`, for as many iterations as there are ticks: start time and
      hostname are read once, then every iteration sends and then sleeps the
      configured interval, whatever the send did. */
  method RunForever(fx: Effects, mailbox: Mailbox, interval: nat,
                    clock: string, hostnameRead: string, ticks: seq<Tick>)
    modifies fx
    ensures fx.trace == old(fx.trace) + Rounds(Outbox(mailbox, hostnameRead, clock, ticks), interval)
    ensures fx.log == old(fx.log) + Flatten(TickLogs(mailbox, hostnameRead, clock, ticks))
  {
    var startTime := clock;
    var hostname := hostnameRead;
    ghost var letters := Outbox(mailbox, hostname, startTime, ticks);
    ghost var logs := TickLogs(mailbox, hostname, startTime, ticks);
    var i := 0;
    while i < |ticks|
      invariant 0 <= i <= |ticks|
      invariant fx.trace == old(fx.trace) + Rounds(letters[..i], interval)
      invariant fx.log == old(fx.log) + Flatten(logs[..i])
    {
      ghost var traceBefore := fx.trace;
      ghost var logBefore := fx.log;
      SendEmail(fx, mailbox, hostname, startTime, ticks[i]);
      fx.Pause(interval);
      TraceStep(old(fx.trace), traceBefore, fx.trace, letters, i, interval);
      LogStep(old(fx.log), logBefore, fx.log, logs, i);
      i := i + 1;
    }
    assert letters[..i] == letters && logs[..i] == logs;
  }
}
