# internet-canary, modelled in Dafny

internet-canary is a liveness watchdog. A binary runs on a host and, every
few minutes, emails a small HTML status report through an SMTP relay to one
mailbox. The report names the host and gives the current time, the time the
canary started, the host uptime in days and hours, and the host's public IP
address. When the emails stop arriving, the host (or its Internet link) is
down.

This project models the deterministic core of that program and proves
properties of it:

- `info.dfy` (module `Info`) — `info::current`. It covers the split of uptime
  seconds into whole days and leftover hours, the fallback to the literal
  "Error obtaining IP address" when the IP lookup fails at either step, and
  the rendering of the four-row HTML table. A reader (`ParseReport`) is its
  partner: the report read back gives every field, row by row.
- `canary.dfy` (module `Canary`) — `send_email` and `run_forever` of
  src/canary.rs, the loop the binary actually runs. This `send_email`
  inlines its own copy of the uptime split, the IP fallback and the
  template, and the copy is proved character for character equal to
  `info::current`.
- `email_canary.dfy` (module `EmailCanary`) — the variant in
  src/email_canary.rs. It takes the body from `info::current` and logs
  through leveled records; a refusal's server lines are joined with
  newlines.
- `cli.dfy` (module `Cli`) — the `--interval` argument of src/main.rs. The
  argument is parsed as a u64 number of minutes with the range `1..`, turned
  into seconds by `DurationAsMinutes::new`, defaults to "5", and is handed
  to `run_forever`. `Launch` is `main` as written, with the wrapping
  conversion. The corrected parser of the Findings section (range
  `1..=MaxMinutes`) is modelled beside it, and `LaunchCorrected` is `main`
  built on it.
- Shared pieces:
  - `scheduler.dfy` (module `Scheduler`): the `Effects` class, whose `trace`
    records deliveries and sleeps and whose `log` records log lines. It also
    holds the reference shape of a send-then-sleep run.
  - `mail.dfy` (module `Mail`): the message, the subject and the RFC 5321
    reply classes.
  - `decimal.dfy` (module `Decimal`): the decimal rendering of unsigned
    integers, with its inverse.
  - `text.dfy` (module `Text`): prefix stripping, splitting and joining.
  - `wrappers.dfy` (module `Wrappers`): Option and Result.

Everything the program reads from the outside world is a parameter. A `Tick`
holds one iteration's reads: the clock display, the uptime in seconds, the
outcome of the HTTP call to the IP service, and the relay's answer to the
send. The start time and the hostname are read once, before the loop. The
endless loop runs for as many iterations as there are ticks.

## Model

| member | source | states |
|---|---|---|
| Info.UptimeSplit | src/info.rs:5-11 | the hours left over are below 24, and days × 24 + hours equals the whole hours of uptime |
| Info.UptimeWholeDays | src/info.rs:8-10 | the days field equals uptime seconds divided by 86400 |
| Info.UptimeSplitUnique | src/info.rs:8-10 | the split is the only (days, hours < 24) pair adding up to the whole hours |
| Info.UptimeOfNinetyThousandSeconds | src/info.rs:7-10 | 90000 seconds split into one day and one hour, and the cell shows "1d 1h" |
| Info.UptimeUnderAnHour | src/info.rs:7-10 | any uptime under 3600 seconds splits into (0, 0), and the cell shows "0d 0h" |
| Info.IpLookup | src/info.rs:13-16 | the chained lookup succeeds exactly when the call got a response and its body could be read |
| Info.IpAddress | src/info.rs:13-17 | the IP text is the placeholder when the call fails or the body cannot be read, and the body verbatim otherwise |
| Info.Build | src/info.rs:5-17 | the snapshot keeps the hostname, start time and current time it was given; its hours are below 24 and days × 24 + hours is the whole hours of uptime; its IP is the lookup's text or the placeholder |
| Info.Render | src/info.rs:19-41 | the report of a snapshot: the title naming the host, then the table; its layout is stated by Info.ReportLayout and its inverse by Info.ParseRender |
| Info.Current | src/info.rs:3-42 | `info::current` is the report of the snapshot built from the reads; Info.FailedLookupStillReports and Canary.InlineBodyIsCurrent state what it produces |
| Info.ReportLayout | src/info.rs:19-41 | the report is the title naming the host, then the rows Current time, Canary start time, Host uptime and IP address in that order, then the end of the table |
| Info.CurrentOpensWithTitle | src/info.rs:19-22 | whatever the IP lookup did, the report starts with the title naming the host |
| Info.ParseUptimeCellOf | src/info.rs:33 | the uptime cell "{days}d {hours}h" reads back as the same days and hours |
| Info.ParseRowsOf | src/info.rs:23-38 | rows read back in caption order give the values they were rendered from, and the text after them, given no value contains '<' |
| Info.ParseTableOf | src/info.rs:22-39 | the table reads back as the snapshot's four fields in their rows, given no value contains '<' |
| Info.ParseRender | src/info.rs:19-41 | rendering loses nothing: reading the report back gives the snapshot, given no field contains '<' |
| Info.FailedLookupStillReports | src/info.rs:13-41 | for any fields, a failed lookup still yields the full report: the title, the current time, start time and uptime rows as usual, and the placeholder in the IP row |
| Info.FailedLookupReadsBack | src/info.rs:13-41 | read back, a report after a failed lookup gives the placeholder as the IP and every other field unchanged, given no field contains '<' |
| Decimal.Show | src/info.rs:33 | the decimal rendering is non-empty, all digits, and has no leading zero unless the number is 0 |
| Decimal.ValueOfShow | src/info.rs:33 | reading a decimal rendering back gives the number |
| Decimal.ShowInjective | src/info.rs:33 | different numbers render differently |
| Text.SplitJoin | src/email_canary.rs:34 | splitting newline-joined lines that contain no newline gives the lines back (one or more lines, none containing a newline) |
| Mail.SubjectNamesHost | src/canary.rs:22 | the subject is the fixed prefix followed by the hostname, and the hostname can be read back from it |
| Mail.Compose | src/email_canary.rs:21-28 | From, Reply-To and To are the one mailbox; the subject names the host; the body is HTML and is the given body |
| Mail.Classify | src/canary.rs:66-78 | a reply is a success exactly when it is positive, a refusal exactly when it is not (keeping its lines), and a transport failure exactly when the send errs (keeping its detail) |
| Scheduler.Effects.Send | src/canary.rs:66 | a send appends one delivery of that message to the trace and leaves the log alone |
| Scheduler.Effects.Pause | src/canary.rs:87 | a sleep appends one sleep of that length to the trace and leaves the log alone |
| Scheduler.Effects.Write | src/canary.rs:54 | a log line is appended to the log, and the trace is left alone |
| Scheduler.Rounds | src/canary.rs:85-88 | the reference trace of a run: per message, one delivery and then one sleep of the interval; its shape is stated by Scheduler.RoundsShape |
| Scheduler.Letter | src/email_canary.rs:14-28 | the message of one iteration: the `info::current` report on that tick's reads, composed for the one mailbox with the subject naming the host |
| Scheduler.Outbox | src/canary.rs:81-86 | the messages of a run, one per tick, all built with the hostname and start time read before the loop |
| Scheduler.RoundsShape | src/canary.rs:85-88 | after k iterations the trace has 2k events: iteration i delivers the i-th report and then sleeps the interval |
| Scheduler.Alternation | src/canary.rs:85-88 | deliveries and sleeps alternate, starting with a delivery, and every sleep lasts the interval |
| Scheduler.OutcomesDoNotSteer | src/canary.rs:81-88 | runs that differ only in the relay's answers send the same messages: a failed send does not change later iterations |
| Scheduler.FixedHostAndStart | src/canary.rs:81-86 | for any field contents, every report of a run opens with the title naming the hostname read before the loop, then that tick's current time row, then the start time row; its subject names the same host |
| Scheduler.FixedHostAndStartReadBack | src/canary.rs:81-86 | read back, every report of a run gives the fixed hostname and start time and that tick's current time, given no field contains '<' |
| Canary.Template | src/canary.rs:30-52 | the inlined template of `send_email`, filled in piece by piece; Canary.TemplateIsReport proves it equal to the factored report |
| Canary.TemplateIsReport | src/canary.rs:30-52 | the inlined template, filled with the same values, is character for character the factored report of `info::current` |
| Canary.InlineBodyIsCurrent | src/canary.rs:13-52 | the inlined uptime split and IP fallback, fed to the inlined template, give exactly `info::current` for the same reads |
| Canary.InlineBody | src/canary.rs:13-52 | the body computed inline is the report `info::current` renders from the same reads |
| Canary.Echo | src/canary.rs:70-72 | each reply line becomes one stderr line, in order |
| Canary.EchoLines | src/canary.rs:70-72 | the loop over the reply's lines appends exactly those lines to the log, in order, and sends nothing |
| Canary.OutcomeLog | src/canary.rs:66-78 | the stderr lines for an answer: none for success, the heading and every reply line for a refusal, one line for a transport error |
| Canary.SendLog | src/canary.rs:54-78 | one send's stderr lines: the body line, then the outcome's lines |
| Canary.LogOutcome | src/canary.rs:66-78 | the relay's answer is handled without failing: a positive reply logs nothing, a refusal logs the heading and every line, an error logs one line |
| Canary.SendLogStartsWithBody | src/canary.rs:54-78 | a send's log starts with the body, and stops there exactly when the reply was positive |
| Canary.RefusalEchoesEveryLine | src/canary.rs:68-72 | a refusal logs the heading and then every server line in its place |
| Canary.TransportFailureLogsOneLine | src/canary.rs:75-77 | a transport error logs exactly one line naming it |
| Canary.SendEmail | src/canary.rs:7-79 | one send delivers the report for this tick to the mailbox and logs the body and then the outcome, whatever the relay answers |
| Canary.RunForever | src/canary.rs:81-89 | the trace is the reference run, one delivery then one sleep per tick, and the log is each tick's log in order |
| EmailCanary.ErrorLog | src/email_canary.rs:31-41 | the error records for an answer: none for success, one with the joined reply lines for a refusal, one naming a transport error |
| EmailCanary.SendLog | src/email_canary.rs:18-41 | one send's records: the recipient at info level, the body at debug level, then the error records |
| EmailCanary.ErrorExactlyOnFailure | src/email_canary.rs:18-41 | a send logs the recipient and the body, then one error record exactly when it did not succeed, and no other error |
| EmailCanary.RefusalKeepsEveryLine | src/email_canary.rs:33-35 | the refusal record is the heading and then the server lines joined by newlines, which split back into those lines (one or more lines, none containing a newline) |
| EmailCanary.SendEmail | src/email_canary.rs:8-42 | one send delivers the `info::current` report to the mailbox, and logs the recipient, the body and then any error |
| EmailCanary.RunForever | src/email_canary.rs:44-52 | the trace is the reference run, one delivery then one sleep per tick, and the log is each tick's log in order |
| Cli.ParseU64 | src/main.rs:31 | an accepted number fits in a u64; every failure is the single not-a-u64 error |
| Cli.ParseU64OfShow | src/main.rs:31 | every u64 in decimal, with or without a leading '+', reads back as itself |
| Cli.ParseU64OfDigits | src/main.rs:31 | any non-empty run of digits, leading zeros included, with or without '+', reads as its decimal value when that is at most 2^64 - 1 and is refused otherwise |
| Cli.ParseU64Rejects | src/main.rs:31 | text with a character that is not a digit (other than one leading '+') is refused |
| Cli.ParseU64RejectsNoDigits | src/main.rs:31 | the empty text and a lone '+' are refused |
| Cli.ParseU64RejectsOverflow | src/main.rs:31 | numbers above 2^64 - 1 are refused |
| Cli.NewAsWritten | src/main.rs:22-24 | as written, the seconds are below 2^64, and equal 60 × minutes unless the product overflows |
| Cli.ParseIntervalAsWritten | src/main.rs:30-32 | as written, an accepted interval is below 2^64 seconds |
| Cli.AsWrittenAccepted | src/main.rs:22-32 | as written, an argument is accepted exactly when it parses as a u64 of at least 1, however it is spelt, and the interval is then 60 × that many minutes modulo 2^64 |
| Cli.AsWrittenOfShow | src/main.rs:22-32 | as written, any u64 count of minutes from 1 is accepted, and the interval is 60 × minutes modulo 2^64 |
| Cli.WrappedToZero | src/main.rs:23 | as written, 2^62 minutes is accepted and gives an interval of 0 seconds |
| Cli.WrappedToFortyFourSeconds | src/main.rs:23 | as written, one minute past the largest safe count gives an interval of 44 seconds |
| Cli.MaxMinutesIsTheBound | src/main.rs:23 | MaxMinutes is (2^64 - 1) / 60: its seconds fit in a u64, and one more minute's do not |
| Cli.FromMinutes | src/main.rs:22-24 | corrected definition (Findings): the interval is a whole number of minutes in seconds, exactly the minutes given, and fits in a u64 |
| Cli.ParseInterval | src/main.rs:30-32 | corrected definition (Findings): every accepted interval is at least 60 seconds, a whole number of minutes, and fits in a u64 |
| Cli.IntervalAccepted | src/main.rs:31 | corrected definition (Findings): an argument is accepted exactly when it is a u64 from 1 to MaxMinutes, giving 60 × that many seconds; 0 and larger counts are refused as out of range |
| Cli.IntervalOfShow | src/main.rs:22-32 | corrected definition (Findings): every accepted count of minutes, written in decimal, gives 60 × that many seconds |
| Cli.IntervalGrowsWithMinutes | src/main.rs:23 | corrected definition (Findings): more minutes give a strictly longer interval |
| Cli.AsWrittenAgreesBelowOverflow | src/main.rs:22-32 | the corrected parser agrees with the original on every argument whose product does not overflow |
| Cli.DefaultIsFiveMinutes | src/main.rs:58-65 | the default argument "5" gives 300 seconds, as written and under the corrected parser |
| Cli.Start | src/main.rs:75-98 | a refused interval ends with a usage error and writes clap's message to stderr; a failed set-up ends with a panic and writes the panic message to stderr; neither sends anything nor writes any other line. Otherwise the canary loop runs with the parsed interval, unchanged |
| Cli.Launch | src/main.rs:75-98 | `main` as written: the interval of the `1..` range and the wrapping conversion (zero seconds included) is handed to the loop unchanged; a refused argument or a failed set-up sends nothing and writes only its one stderr message |
| Cli.LaunchCorrected | src/main.rs:75-98 | corrected definition (Findings): `main` on the corrected parser, so the loop only ever runs with an interval of at least 60 seconds |

## Left out

- src/discord_canary.rs is not part of this model. It wraps a Discord client, and its only logic is an exact "!ping" match.
- I/O is replaced by parameters:
  - the clock, uptime source, hostname, HTTP call to the IP service and SMTP send are parameters (`Tick` and the clock and hostname reads of `RunForever`);
  - sleeping and sending are trace events;
  - logging and stderr output are log entries.
- Timestamps are opaque strings: chrono's formatting is not modelled.
- The endless loop is modelled for a finite number of iterations, one per tick.
- Panics from `unwrap()` are not modelled on the report path. The uptime read, the hostname read and its UTF-8 conversion, and the message builder are taken to succeed.
- Set-up in `main` is one optional panic message, absent when the set-up succeeds. That covers reading and parsing the credentials file and building the relay. The credentials, the SMTP server name and the environment-variable defaults are not modelled.
- The mailbox argument is not parsed: a mailbox is its display text, which the log shows. Address syntax is lettre's and is not modelled.
- The SMTP reply is taken as given:
  - the relay's reply class and its text lines are inputs;
  - which failures lettre reports as an error rather than a negative reply is not modelled;
  - `IsPositive` follows the 2yz/3yz classes of section 4.2.1 of RFC 5321.
- Log levels are recorded on each entry. Filtering by the logger's configured level is not modelled.
- Cli.ParseU64: the different error kinds of u64 parsing (empty, invalid digit, overflow) are collapsed into one error, and invalid UTF-8 arguments are not modelled.
- Cli.Start, Cli.Launch, Cli.LaunchCorrected: the texts of clap's usage message and of the set-up panic (with the panic hook's framing) are parameters, because they are produced by code outside the model; each exit path writes its text to stderr as one entry. clap's process exit status is represented only by the `Exit` value.
- Cli.NewAsWritten: models the release build, where the product wraps modulo 2^64. A debug build panics on the overflow instead.
- Info.ParseRowsOf, Info.ParseTableOf, Info.ParseRender, Info.FailedLookupReadsBack, Scheduler.FixedHostAndStartReadBack: the read-back holds only when no field contains '<'. The report does not escape HTML, so a field containing a tag cannot be told apart from the markup.
- Info.IpLookup: the HTTP call and the body read each fail in one way only. Their error details are discarded by the source too.

## Findings

| source | as written | input that shows it | evidently intended | confidence | as-written member | corrected member |
|---|---|---|---|---|---|---|
| src/main.rs:23 | the parser accepts any u64 count of minutes from 1 up, and `60 * minutes` is computed in u64, so large counts wrap around (release build) or panic (debug build) | `--interval 4611686018427387904` (2^62) gives a 0-second interval, so the canary sends in a tight loop; `--interval 307445734561825861` gives 44 seconds | accept only counts whose seconds fit in a u64 (1 to 307445734561825860), so the interval is always exactly 60 × minutes seconds | not executed | Cli.WrappedToZero | Cli.IntervalAccepted |
