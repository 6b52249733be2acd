/** src/canary.rs, the loop the binary runs: each iteration computes the
    report inline, logs it, sends it, echoes any failure to stderr, and then
    sleeps. */
module Canary {
  import opened Decimal
  import Info
  import opened Mail
  import opened Scheduler

  // The body template of send_email, piece by piece between its placeholders.
  const Heading := "<h2>Internet is UP for host "
  const AfterHost := "</h2>\n\n<table>\n<tr>\n<td>Current time</td>\n<td>"
  const AfterCurrent := "</td>\n</tr>\n<tr>\n<td>Canary start time</td>\n<td>"
  const AfterStart := "</td>\n</tr>\n<tr>\n<td>Host uptime</td>\n<td>"
  const AfterDays := "d "
  const AfterHours := "h</td>\n</tr>\n<tr>\n<td>IP address</td>\n<td>"
  const AfterIp := "</td>\n</tr>\n</table>\n"

  /** The body as send_email formats it, without going through `info`. */
  function Template(hostname: string, currentTime: string, startTime: string,
                    days: nat, hours: nat, ip: string): string
  {
    Heading + hostname + AfterHost + currentTime + AfterCurrent + startTime + AfterStart
    + Show(days) + AfterDays + Show(hours) + AfterHours + ip + AfterIp
  }

  lemma PieceAfterHost() ensures AfterHost == Info.TitleClose + Info.RowOpen("Current time") {}
  lemma PieceAfterCurrent() ensures AfterCurrent == Info.CellClose + Info.RowOpen("Canary start time") {}
  lemma PieceAfterStart() ensures AfterStart == Info.CellClose + Info.RowOpen("Host uptime") {}
  lemma PieceAfterHours() ensures AfterHours == "h" + Info.CellClose + Info.RowOpen("IP address") {}
  lemma PieceAfterIp() ensures AfterIp == Info.CellClose + Info.TableClose {}

  /** Concatenation regrouped: the template's pieces against the report's rows. */
  lemma Regroup(p0: string, x1: string, a: string, b: string, x2: string, c: string, d: string,
                x3: string, e: string, y: string, f: string, z: string, g: string, h: string,
                x5: string, i: string)
    ensures p0 + x1 + (a + b) + x2 + (c + d) + x3 + (c + e) + y + f + z + (g + c + h) + x5 + (c + i)
         == p0 + x1 + a + (b + x2 + c) + (d + x3 + c) + (e + (y + f + z + g) + c) + (h + x5 + c) + i
  {
  }

  /** The inlined template is character for character the factored report. */
  lemma TemplateIsReport(hostname: string, currentTime: string, startTime: string,
                         days: nat, hours: nat, ip: string)
    ensures Template(hostname, currentTime, startTime, days, hours, ip)
         == Info.Render(Info.Snapshot(hostname, startTime, currentTime, days, hours, ip))
  {
    PieceAfterHost();
    PieceAfterCurrent();
    PieceAfterStart();
    PieceAfterHours();
    PieceAfterIp();
    Regroup(Info.TitleOpen, hostname, Info.TitleClose, Info.RowOpen("Current time"), currentTime,
            Info.CellClose, Info.RowOpen("Canary start time"), startTime, Info.RowOpen("Host uptime"),
            Show(days), "d ", Show(hours), "h", Info.RowOpen("IP address"), ip, Info.TableClose);
    Info.ReportLayout(Info.Snapshot(hostname, startTime, currentTime, days, hours, ip));
  }

  /** The inline uptime split and IP fallback, fed to the inline template,
      give exactly what `info::current` renders. */
  lemma InlineBodyIsCurrent(hostname: string, startTime: string, currentTime: string,
                            uptimeSecs: nat, ip: Info.HttpOutcome)
    ensures
      var hours := uptimeSecs / 3600;
      var address := if ip.Responded? && ip.body.Some? then ip.body.value else Info.Placeholder;
      Template(hostname, currentTime, startTime, hours / 24, hours % 24, address)
        == Info.Current(hostname, startTime, currentTime, uptimeSecs, ip)
  {
    var hours := uptimeSecs / 3600;
    var address := if ip.Responded? && ip.body.Some? then ip.body.value else Info.Placeholder;
    TemplateIsReport(hostname, currentTime, startTime, hours / 24, hours % 24, address);
  }

  /** Each line of a refused reply, echoed on its own. */
  function Echo(lines: seq<string>): (entries: seq<LogEntry>)
    ensures |entries| == |lines|
    ensures forall i :: 0 <= i < |lines| ==> entries[i] == LogEntry(Stderr, lines[i])
  {
    if lines == [] then [] else Echo(lines[..|lines| - 1]) + [LogEntry(Stderr, lines[|lines| - 1])]
  }

  /** What the handling of the relay's answer writes to stderr. */
  function OutcomeLog(outcome: DeliveryOutcome): seq<LogEntry> {
    match outcome
    case Success => []
    case RejectedByServer(lines) => [LogEntry(Stderr, "Error from SMTP server:")] + Echo(lines)
    case TransportFailure(detail) => [LogEntry(Stderr, "Error sending email: " + detail)]
  }

  function BodyLine(body: string): string {
    "Sending email with body...\n" + body + "\n\n"
  }

  /** What one send writes to stderr: the body first, then the failure, if any. */
  function SendLog(body: string, outcome: DeliveryOutcome): seq<LogEntry> {
    [LogEntry(Stderr, BodyLine(body))] + OutcomeLog(outcome)
  }

  function TickLog(mailbox: Mailbox, hostname: string, startTime: string, t: Tick): seq<LogEntry> {
    SendLog(Letter(mailbox, hostname, startTime, t).body, Classify(t.sent))
  }

  /** The log of each iteration, in order. */
  function TickLogs(mailbox: Mailbox, hostname: string, startTime: string, ticks: seq<Tick>)
    : (logs: seq<seq<LogEntry>>)
    ensures |logs| == |ticks|
  {
    seq(|ticks|, i requires 0 <= i < |ticks| => TickLog(mailbox, hostname, startTime, ticks[i]))
  }

  /** A delivery's log starts with the body, and a positive reply adds
      nothing after it. */
  lemma SendLogStartsWithBody(body: string, outcome: DeliveryOutcome)
    ensures SendLog(body, outcome)[0] == LogEntry(Stderr, BodyLine(body))
    ensures |SendLog(body, outcome)| == 1 <==> outcome.Success?
  {
    match outcome
    case Success =>
    case RejectedByServer(lines) =>
      assert |OutcomeLog(outcome)| == 1 + |lines|;
    case TransportFailure(detail) =>
  }

  /** A refusal adds the heading and then every line of the server's reply,
      in order. */
  lemma RefusalEchoesEveryLine(body: string, lines: seq<string>)
    ensures var log := SendLog(body, RejectedByServer(lines));
      |log| == 2 + |lines| && log[1].text == "Error from SMTP server:" &&
      forall i :: 0 <= i < |lines| ==> log[2 + i] == LogEntry(Stderr, lines[i])
  {
    var first := LogEntry(Stderr, BodyLine(body));
    var log := [first] + ([LogEntry(Stderr, "Error from SMTP server:")] + Echo(lines));
    assert SendLog(body, RejectedByServer(lines)) == log;
    assert forall i :: 0 <= i < |lines| ==> log[2 + i] == Echo(lines)[i];
  }

  /** A transport error adds one line naming it. */
  lemma TransportFailureLogsOneLine(body: string, detail: string)
    ensures SendLog(body, TransportFailure(detail))[1..] == [LogEntry(Stderr, "Error sending email: " + detail)]
  {
    var first := LogEntry(Stderr, BodyLine(body));
    var rest := OutcomeLog(TransportFailure(detail));
    assert ([first] + rest)[1..] == rest;
  }

  /** `for line in response.message()`: each line of the reply, in order. */
  method EchoLines(fx: Effects, lines: seq<string>)
    modifies fx
    ensures fx.trace == old(fx.trace)
    ensures fx.log == old(fx.log) + Echo(lines)
  {
    var i := 0;
    while i < |lines|
      invariant 0 <= i <= |lines|
      invariant fx.log == old(fx.log) + Echo(lines[..i])
      invariant fx.trace == old(fx.trace)
    {
      fx.Write(LogEntry(Stderr, lines[i]));
      assert lines[..i + 1][..i] == lines[..i];
      i := i + 1;
    }
    assert lines[..i] == lines;
  }

  /** The match on the relay's answer: a positive reply is silent, a
      refusal prints a heading and then every line of the reply, a transport
      error prints one line. Never fails. */
  method LogOutcome(fx: Effects, sent: SendResult)
    modifies fx
    ensures fx.trace == old(fx.trace)
    ensures fx.log == old(fx.log) + OutcomeLog(Classify(sent))
  {
    match sent {
      case Replied(response) =>
        if !response.IsPositive() {
          ghost var before := fx.log;
          var heading := LogEntry(Stderr, "Error from SMTP server:");
          fx.Write(heading);
          EchoLines(fx, response.lines);
          assert fx.log == before + ([heading] + Echo(response.lines));
        }
      case SendError(detail) =>
        fx.Write(LogEntry(Stderr, "Error sending email: " + detail));
    }
  }

  /** The first half of `send_email`: the uptime split, the IP fallback and
      the template, all written inline; the body is the one `info::current`
      renders from the same reads. */
  method InlineBody(hostname: string, startTime: string, t: Tick) returns (body: string)
    ensures body == Info.Current(hostname, startTime, t.now, t.uptimeSecs, t.ip)
  {
    var currentTime := t.now;
    var hours := t.uptimeSecs / 3600;
    var days := hours / 24;
    var uptimeDays, uptimeHours := days, hours % 24;

    var ipAddress := Info.Placeholder;
    match t.ip {
      case CallFailed =>
      case Responded(text) =>
        if text.Some? {
          ipAddress := text.value;
        }
    }

    body := Template(hostname, currentTime, startTime, uptimeDays, uptimeHours, ipAddress);
    InlineBodyIsCurrent(hostname, startTime, currentTime, t.uptimeSecs, t.ip);
  }

  /** `send_email`: logs the body, sends it, and logs a refusal or an error;
      whatever the relay answers, it returns normally. */
  method SendEmail(fx: Effects, mailbox: Mailbox, hostname: string, startTime: string, t: Tick)
    modifies fx
    ensures fx.trace == old(fx.trace) + [Deliver(Letter(mailbox, hostname, startTime, t))]
    ensures fx.log == old(fx.log) + TickLog(mailbox, hostname, startTime, t)
  {
    var body := InlineBody(hostname, startTime, t);
    var subject := Subject(hostname);
    ghost var log0 := fx.log;

    var line := LogEntry(Stderr, BodyLine(body));
    fx.Write(line);

    var email := Message(mailbox, mailbox, mailbox, subject, TextHtml, body);
    fx.Send(email);

    LogOutcome(fx, t.sent);
    assert fx.log == log0 + ([line] + OutcomeLog(Classify(t.sent)));
    LetterOfBody(mailbox, hostname, startTime, t, body);
    assert TickLog(mailbox, hostname, startTime, t) == SendLog(body, Classify(t.sent));
  }

  /** `run_forever`, for as many iterations as there are ticks: start time and
      hostname are read once, then every iteration sends and then sleeps the
      configured interval, whatever the send did. */
  method RunForever(fx: Effects, mailbox: Mailbox, interval: nat,
                    clock: string, hostnameRead: string, ticks: seq<Tick>)
    modifies fx
    ensures fx.trace == old(fx.trace) + Rounds(Outbox(mailbox, hostnameRead, clock, ticks), interval)
    ensures fx.log == old(fx.log) + Flatten(TickLogs(mailbox, hostnameRead, clock, ticks))
  {
    var startTime := clock;
    var hostname := hostnameRead;
    ghost var letters := Outbox(mailbox, hostname, startTime, ticks);
    ghost var logs := TickLogs(mailbox, hostname, startTime, ticks);
    var i := 0;
    while i < |ticks|
      invariant 0 <= i <= |ticks|
      invariant fx.trace == old(fx.trace) + Rounds(letters[..i], interval)
      invariant fx.log == old(fx.log) + Flatten(logs[..i])
    {
      ghost var traceBefore := fx.trace;
      ghost var logBefore := fx.log;
      SendEmail(fx, mailbox, hostname, startTime, ticks[i]);
      fx.Pause(interval);
      TraceStep(old(fx.trace), traceBefore, fx.trace, letters, i, interval);
      LogStep(old(fx.log), logBefore, fx.log, logs, i);
      i := i + 1;
    }
    assert letters[..i] == letters && logs[..i] == logs;
  }
}
