/** The effects the canary loops have on the world, recorded in order: every
    message handed to the relay and every sleep in one trace, every line
    written to the log in another. */
module Scheduler {
  import Info
  import opened Wrappers
  import opened Mail
  import Text

  datatype Event = Deliver(message: Message) | Sleep(seconds: nat)

  /** Stderr is `eprintln!`; the other three are the `log` crate's levels. */
  datatype Level = Stderr | InfoLevel | DebugLevel | ErrorLevel

  datatype LogEntry = LogEntry(level: Level, text: string)

  /** The reads one loop iteration makes: the clock, the host uptime in
      seconds, the IP lookup, and what the relay answers to the send. */
  datatype Tick = Tick(now: string, uptimeSecs: nat, ip: Info.HttpOutcome, sent: SendResult)

  class Effects {
    var trace: seq<Event>
    var log: seq<LogEntry>

    constructor ()
      ensures trace == [] && log == []
    {
      trace, log := [], [];
    }

    /** `sender.send(&email)`: the message goes to the relay. */
    method Send(m: Message)
      modifies this
      ensures trace == old(trace) + [Deliver(m)] && log == old(log)
    {
      trace := trace + [Deliver(m)];
    }

    /** `std::thread::sleep`. */
    method Pause(seconds: nat)
      modifies this
      ensures trace == old(trace) + [Sleep(seconds)] && log == old(log)
    {
      trace := trace + [Sleep(seconds)];
    }

    /** One line to the log. */
    method Write(e: LogEntry)
      modifies this
      ensures log == old(log) + [e] && trace == old(trace)
    {
      log := log + [e];
    }
  }

  /** The trace of a send-then-sleep loop that delivered `msgs` in order. */
  function Rounds(msgs: seq<Message>, interval: nat): seq<Event> {
    if msgs == [] then []
    else [Deliver(msgs[0]), Sleep(interval)] + Rounds(msgs[1..], interval)
  }

  /** One more iteration adds one delivery and then one sleep at the end. */
  lemma {:induction false} RoundsSnoc(msgs: seq<Message>, m: Message, interval: nat)
    ensures Rounds(msgs + [m], interval) == Rounds(msgs, interval) + [Deliver(m), Sleep(interval)]
  {
    if msgs != [] {
      assert (msgs + [m])[1..] == msgs[1..] + [m];
      RoundsSnoc(msgs[1..], m, interval);
    }
  }

  /** After k iterations the trace is (Deliver, Sleep)^k: deliveries at even
      positions in the order they were made, each followed by a sleep of the
      one interval. */
  lemma {:induction false} RoundsShape(msgs: seq<Message>, interval: nat)
    ensures |Rounds(msgs, interval)| == 2 * |msgs|
    ensures forall i :: 0 <= i < |msgs| ==>
      Rounds(msgs, interval)[2 * i] == Deliver(msgs[i]) &&
      Rounds(msgs, interval)[2 * i + 1] == Sleep(interval)
  {
    if msgs != [] {
      RoundsShape(msgs[1..], interval);
      var t := Rounds(msgs, interval);
      forall i | 0 <= i < |msgs|
        ensures t[2 * i] == Deliver(msgs[i]) && t[2 * i + 1] == Sleep(interval)
      {
        if i > 0 {
          assert t[2 * i] == Rounds(msgs[1..], interval)[2 * (i - 1)];
          assert t[2 * i + 1] == Rounds(msgs[1..], interval)[2 * (i - 1) + 1];
        }
      }
    }
  }

  /** One more iteration of the loop extends the trace by the next round. */
  lemma TraceStep(start: seq<Event>, before: seq<Event>, after: seq<Event>,
                  msgs: seq<Message>, i: nat, interval: nat)
    requires i < |msgs|
    requires before == start + Rounds(msgs[..i], interval)
    requires after == before + [Deliver(msgs[i])] + [Sleep(interval)]
    ensures after == start + Rounds(msgs[..i + 1], interval)
  {
    assert msgs[..i + 1] == msgs[..i] + [msgs[i]];
    RoundsSnoc(msgs[..i], msgs[i], interval);
  }

  /** Deliveries and sleeps alternate, starting with a delivery: no sleep
      comes before the first report, and two deliveries always have a sleep
      of the full interval between them. */
  lemma Alternation(msgs: seq<Message>, interval: nat, k: nat)
    requires k < |Rounds(msgs, interval)|
    ensures Rounds(msgs, interval)[k].Deliver? <==> k % 2 == 0
    ensures Rounds(msgs, interval)[k].Sleep? ==> Rounds(msgs, interval)[k].seconds == interval
  {
    RoundsShape(msgs, interval);
    var i := k / 2;
    assert k == 2 * i || k == 2 * i + 1;
  }

  /** The message one iteration sends: the report on this tick's reads, under
      the hostname and start time fixed before the loop. */
  function Letter(mailbox: Mailbox, hostname: string, startTime: string, t: Tick): Message {
    Compose(mailbox, hostname, Info.Current(hostname, startTime, t.now, t.uptimeSecs, t.ip))
  }

  /** The letter of one iteration, in terms of the body it carries. */
  lemma LetterOfBody(mailbox: Mailbox, hostname: string, startTime: string, t: Tick, body: string)
    requires body == Info.Current(hostname, startTime, t.now, t.uptimeSecs, t.ip)
    ensures Letter(mailbox, hostname, startTime, t)
         == Message(mailbox, mailbox, mailbox, Subject(hostname), TextHtml, body)
  {
  }

  /** The messages of successive iterations, in order: iteration i sends the
      letter built from tick i. */
  function Outbox(mailbox: Mailbox, hostname: string, startTime: string, ticks: seq<Tick>): (msgs: seq<Message>)
    ensures |msgs| == |ticks|
  {
    seq(|ticks|, i requires 0 <= i < |ticks| => Letter(mailbox, hostname, startTime, ticks[i]))
  }

  /** The log lines of successive iterations, one after the other. */
  function Flatten(parts: seq<seq<LogEntry>>): seq<LogEntry> {
    if parts == [] then [] else Flatten(parts[..|parts| - 1]) + parts[|parts| - 1]
  }

  /** One more iteration of the loop extends the log by that iteration's lines. */
  lemma LogStep(start: seq<LogEntry>, before: seq<LogEntry>, after: seq<LogEntry>,
                parts: seq<seq<LogEntry>>, i: nat)
    requires i < |parts|
    requires before == start + Flatten(parts[..i])
    requires after == before + parts[i]
    ensures after == start + Flatten(parts[..i + 1])
  {
    assert parts[..i + 1][..i] == parts[..i];
  }

  /** Two ticks that read the same clock, uptime and IP. */
  predicate SameReads(t: Tick, u: Tick) {
    t.now == u.now && t.uptimeSecs == u.uptimeSecs && t.ip == u.ip
  }

  /** Failure isolation: what the relay answered on earlier iterations has no
      bearing on what is sent later. Runs that differ only in the delivery
      outcomes send the same messages. */
  lemma OutcomesDoNotSteer(mailbox: Mailbox, hostname: string, startTime: string,
                           ticks: seq<Tick>, others: seq<Tick>)
    requires |ticks| == |others|
    requires forall i :: 0 <= i < |ticks| ==> SameReads(ticks[i], others[i])
    ensures Outbox(mailbox, hostname, startTime, ticks) == Outbox(mailbox, hostname, startTime, others)
  {
  }

  /** Every report of a run names the host and the start time fixed before
      the loop, whatever the tick and whatever the fields contain: the body
      opens with the title naming the host, then the row of this tick's
      current time, then the row of the start time; and the subject names the
      same host. */
  lemma FixedHostAndStart(mailbox: Mailbox, hostname: string, startTime: string, ticks: seq<Tick>, i: nat)
    requires i < |ticks|
    ensures var m := Outbox(mailbox, hostname, startTime, ticks)[i];
      HostOfSubject(m.subject) == Some(hostname) &&
      Info.TitleOpen + hostname + Info.TitleClose
        + Info.Row("Current time", ticks[i].now) + Info.Row("Canary start time", startTime) <= m.body
  {
    var t := ticks[i];
    var snap := Info.Build(hostname, startTime, t.now, t.uptimeSecs, t.ip);
    var m := Outbox(mailbox, hostname, startTime, ticks)[i];
    assert m == Letter(mailbox, hostname, startTime, t);
    assert m.body == Info.Render(snap) && m.subject == Subject(hostname);
    SubjectNamesHost(hostname);
    Info.ReportLayout(snap);
    var head := Info.TitleOpen + hostname + Info.TitleClose
      + Info.Row("Current time", t.now) + Info.Row("Canary start time", startTime);
    var uptime := Info.Row("Host uptime", Info.UptimeCell(snap.uptimeDays, snap.uptimeHours));
    var address := Info.Row("IP address", snap.publicIp);
    Text.PrefixExtends(head, head, uptime);
    Text.PrefixExtends(head, head + uptime, address);
    Text.PrefixExtends(head, head + uptime + address, Info.TableClose);
  }

  /** A reader of any report of a run recovers the fixed host and start time
      and that tick's current time, as long as no field contains '<'. */
  lemma FixedHostAndStartReadBack(mailbox: Mailbox, hostname: string, startTime: string,
                                  ticks: seq<Tick>, i: nat)
    requires i < |ticks|
    requires '<' !in hostname && '<' !in startTime && '<' !in ticks[i].now
    requires ticks[i].ip.Responded? && ticks[i].ip.body.Some? ==> '<' !in ticks[i].ip.body.value
    ensures var m := Outbox(mailbox, hostname, startTime, ticks)[i];
      var s := Info.ParseReport(m.body);
      s.Some? && s.value.hostname == hostname && s.value.startTime == startTime &&
      s.value.currentTime == ticks[i].now
  {
    var t := ticks[i];
    var snap := Info.Build(hostname, startTime, t.now, t.uptimeSecs, t.ip);
    var m := Outbox(mailbox, hostname, startTime, ticks)[i];
    assert m == Letter(mailbox, hostname, startTime, t);
    assert m.body == Info.Render(snap);
    assert '<' !in Info.Placeholder;
    Info.ParseRender(snap);
  }
}
