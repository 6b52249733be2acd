/** The status report of src/info.rs: the uptime split, the fallback for a
    failed public-IP lookup and the HTML rendering. The clock, the uptime
    source and the HTTP call are inputs; timestamps are opaque strings in
    whatever form the clock displays them. */
module Info {
  import opened Wrappers
  import opened Decimal
  import opened Text

  /** What the text of the IP field becomes when the lookup fails. */
  const Placeholder := "Error obtaining IP address"

  /** The GET to the "what is my IP" service: either the call itself failed,
      or a response arrived whose body was read as text (`Some`) or could
      not be read (`None`). */
  datatype HttpOutcome = CallFailed | Responded(body: Option<string>)

  /** A point-in-time report; a fresh one is built for every delivery. */
  datatype Snapshot = Snapshot(
    hostname: string,
    startTime: string,
    currentTime: string,
    uptimeDays: nat,
    uptimeHours: nat,
    publicIp: string)

  /** Host uptime in whole days and the whole hours left over. */
  function UptimeSplit(secs: nat): (r: (nat, nat))
    ensures r.1 < 24
    ensures r.0 * 24 + r.1 == secs / 3600
  {
    var hours := secs / 3600;
    (hours / 24, hours % 24)
  }

  /** The days field counts whole days of uptime. */
  lemma UptimeWholeDays(secs: nat)
    ensures UptimeSplit(secs).0 == secs / 86400
  {
    var (d, h) := UptimeSplit(secs);
    var r := secs % 3600;
    assert secs == 3600 * (secs / 3600) + r;
    assert secs == 86400 * d + (3600 * h + r);
    assert 0 <= 3600 * h + r < 86400;
  }

  /** The split is the only pair of whole days and hours below 24 that adds
      up to the whole hours of uptime. */
  lemma UptimeSplitUnique(secs: nat, days: nat, hours: nat)
    requires hours < 24 && days * 24 + hours == secs / 3600
    ensures UptimeSplit(secs) == (days, hours)
  {
  }

  /** The HTTP call chained with reading its body; both failures collapse
      into one error. */
  function IpLookup(o: HttpOutcome): (r: Result<string, ()>)
    ensures r.Ok? <==> o.Responded? && o.body.Some?
  {
    match o
    case CallFailed => Err(())
    case Responded(body) =>
      match body
      case None => Err(())
      case Some(text) => Ok(text)
  }

  /** The text of the IP field: the body verbatim, or the placeholder when
      either step of the lookup failed. */
  function IpAddress(o: HttpOutcome): (ip: string)
    ensures o.CallFailed? ==> ip == Placeholder
    ensures o.Responded? && o.body.None? ==> ip == Placeholder
    ensures o.Responded? && o.body.Some? ==> ip == o.body.value
  {
    match IpLookup(o)
    case Ok(text) => text
    case Err(_) => Placeholder
  }

  /** Assembles the snapshot from the two values fixed at start-up and the
      three reads made for this report. */
  function Build(hostname: string, startTime: string, currentTime: string,
                 uptimeSecs: nat, ip: HttpOutcome): (s: Snapshot)
    ensures s.hostname == hostname && s.startTime == startTime && s.currentTime == currentTime
    ensures s.uptimeHours < 24 && s.uptimeDays * 24 + s.uptimeHours == uptimeSecs / 3600
    ensures s.publicIp == IpAddress(ip)
  {
    var (days, hours) := UptimeSplit(uptimeSecs);
    Snapshot(hostname, startTime, currentTime, days, hours, IpAddress(ip))
  }

  const TitleOpen := "<h2>Internet is UP for host "
  const TitleClose := "</h2>\n\n<table>\n"
  const TableClose := "</table>\n"
  const CellClose := "</td>\n</tr>\n"

  function RowOpen(caption: string): string {
    "<tr>\n<td>" + caption + "</td>\n<td>"
  }

  /** One table row: the caption in the first cell, the value in the second. */
  function Row(caption: string, value: string): string {
    RowOpen(caption) + value + CellClose
  }

  /** The uptime cell, "{days}d {hours}h". */
  function UptimeCell(days: nat, hours: nat): string {
    Show(days) + "d " + Show(hours) + "h"
  }

  /** The captions of the four rows, in the order the table lists them. */
  const Captions := ["Current time", "Canary start time", "Host uptime", "IP address"]

  /** The second cell of each row, in the same order. */
  function Cells(s: Snapshot): seq<string> {
    [s.currentTime, s.startTime, UptimeCell(s.uptimeDays, s.uptimeHours), s.publicIp]
  }

  function Rows(captions: seq<string>, values: seq<string>): string
    requires |captions| == |values|
  {
    if captions == [] then ""
    else Row(captions[0], values[0]) + Rows(captions[1..], values[1..])
  }

  /** The table: the four rows in a fixed order, then the closing tag. */
  function Table(s: Snapshot): string {
    Rows(Captions, Cells(s)) + TableClose
  }

  /** The HTML report: a title naming the host, then the table. */
  function Render(s: Snapshot): string {
    TitleOpen + s.hostname + TitleClose + Table(s)
  }

  /** Four rows are the four rows one after the other. */
  lemma RowsOfFour(c: seq<string>, v: seq<string>)
    requires |c| == 4 && |v| == 4
    ensures Rows(c, v) == Row(c[0], v[0]) + Row(c[1], v[1]) + Row(c[2], v[2]) + Row(c[3], v[3])
  {
    assert Rows(c[4..], v[4..]) == "";
    assert c[3..][1..] == c[4..] && v[3..][1..] == v[4..];
    assert Rows(c[3..], v[3..]) == Row(c[3], v[3]);
    assert c[2..][1..] == c[3..] && v[2..][1..] == v[3..];
    assert Rows(c[2..], v[2..]) == Row(c[2], v[2]) + Row(c[3], v[3]);
    assert c[1..][1..] == c[2..] && v[1..][1..] == v[2..];
    assert Rows(c[1..], v[1..]) == Row(c[1], v[1]) + (Row(c[2], v[2]) + Row(c[3], v[3]));
  }

  /** The report row by row: the title naming the host, then Current time,
      Canary start time, Host uptime and IP address, in that order. */
  lemma ReportLayout(s: Snapshot)
    ensures Render(s) == TitleOpen + s.hostname + TitleClose
      + Row("Current time", s.currentTime) + Row("Canary start time", s.startTime)
      + Row("Host uptime", UptimeCell(s.uptimeDays, s.uptimeHours)) + Row("IP address", s.publicIp)
      + TableClose
  {
    RowsOfFour(Captions, Cells(s));
  }

  /** `info::current`: the report on the snapshot of this moment. */
  function Current(hostname: string, startTime: string, currentTime: string,
                   uptimeSecs: nat, ip: HttpOutcome): string
  {
    Render(Build(hostname, startTime, currentTime, uptimeSecs, ip))
  }

  /** Whatever the IP lookup did, the report opens with the title naming the
      host. */
  lemma CurrentOpensWithTitle(hostname: string, startTime: string, currentTime: string,
                              uptimeSecs: nat, ip: HttpOutcome)
    ensures TitleOpen + hostname + TitleClose <= Current(hostname, startTime, currentTime, uptimeSecs, ip)
  {
    var s := Build(hostname, startTime, currentTime, uptimeSecs, ip);
    assert Render(s) == TitleOpen + hostname + TitleClose + Table(s);
  }

  // ---------------------------------------------------------------------
  // Reading a report back. A reader of the message recovers every field,
  // in the order the rows appear, as long as no field contains '<'.

  /** Text after the literal `open`, up to the next '<'. */
  function ParseText(open: string, s: string): Option<(string, string)> {
    var t :- StripPrefix(open, s);
    TakeUntil('<', t)
  }

  function ParseRow(caption: string, s: string): Option<(string, string)> {
    var p :- ParseText(RowOpen(caption), s);
    var rest :- StripPrefix(CellClose, p.1);
    Some((p.0, rest))
  }

  function ParseNumber(stop: char, s: string): Option<(nat, string)> {
    var p :- TakeUntil(stop, s);
    if p.0 != [] && AllDigits(p.0) then Some((Value(p.0), p.1)) else None
  }

  function ParseUptimeCell(cell: string): Option<(nat, nat)> {
    var d :- ParseNumber('d', cell);
    var t :- StripPrefix("d ", d.1);
    var h :- ParseNumber('h', t);
    if h.1 == "h" then Some((d.0, h.0)) else None
  }

  /** The values of rows with the given captions, and the text after them. */
  function ParseRows(captions: seq<string>, t: string): Option<(seq<string>, string)>
  {
    if captions == [] then Some(([], t))
    else
      var p :- ParseRow(captions[0], t);
      var q :- ParseRows(captions[1..], p.1);
      Some(([p.0] + q.0, q.1))
  }

  /** The four rows and the end of the table; the hostname is left empty. */
  function ParseTable(t: string): Option<Snapshot> {
    var p :- ParseRows(Captions, t);
    if |p.0| != 4 || p.1 != TableClose then None
    else
      var dh :- ParseUptimeCell(p.0[2]);
      Some(Snapshot("", p.0[1], p.0[0], dh.0, dh.1, p.0[3]))
  }

  function ParseReport(report: string): Option<Snapshot> {
    var title :- ParseText(TitleOpen, report);
    var t :- StripPrefix(TitleClose, title.1);
    var rows :- ParseTable(t);
    Some(rows.(hostname := title.0))
  }

  /** No field would be cut short by a reader looking for the next tag. */
  predicate Plain(s: Snapshot) {
    '<' !in s.hostname && '<' !in s.startTime && '<' !in s.currentTime && '<' !in s.publicIp
  }

  lemma ParseRowOf(caption: string, value: string, rest: string)
    requires '<' !in value
    ensures ParseRow(caption, Row(caption, value) + rest) == Some((value, rest))
  {
    var s := Row(caption, value) + rest;
    assert s == RowOpen(caption) + (value + (CellClose + rest));
    TakeUntilAfter('<', value, CellClose + rest);
  }

  lemma ParseNumberOf(n: nat, stop: char, rest: string)
    requires !IsDigit(stop)
    requires |rest| > 0 && rest[0] == stop
    ensures ParseNumber(stop, Show(n) + rest) == Some((n, rest))
  {
    TakeUntilAfter(stop, Show(n), rest);
    ValueOfShow(n);
  }

  lemma ParseUptimeCellOf(days: nat, hours: nat)
    ensures ParseUptimeCell(UptimeCell(days, hours)) == Some((days, hours))
  {
    var tail := Show(hours) + "h";
    assert UptimeCell(days, hours) == Show(days) + ("d " + tail);
    ParseNumberOf(days, 'd', "d " + tail);
    assert ("d " + tail)[2..] == tail;
    ParseNumberOf(hours, 'h', "h");
  }

  lemma RowsAppend(captions: seq<string>, values: seq<string>, rest: string)
    requires |captions| == |values| > 0
    ensures Rows(captions, values) + rest
         == Row(captions[0], values[0]) + (Rows(captions[1..], values[1..]) + rest)
  {
  }

  lemma ParseRowsStep(captions: seq<string>, t: string, v: string, mid: string,
                      vs: seq<string>, rest: string)
    requires |captions| > 0
    requires ParseRow(captions[0], t) == Some((v, mid))
    requires ParseRows(captions[1..], mid) == Some((vs, rest))
    ensures ParseRows(captions, t) == Some(([v] + vs, rest))
  {
  }

  /** Rows read back give the values they were rendered from. */
  lemma {:induction false} ParseRowsOf(captions: seq<string>, values: seq<string>, rest: string)
    requires |captions| == |values|
    requires forall i :: 0 <= i < |values| ==> '<' !in values[i]
    ensures ParseRows(captions, Rows(captions, values) + rest) == Some((values, rest))
  {
    if captions == [] {
      assert Rows(captions, values) + rest == rest;
    } else {
      var tail := Rows(captions[1..], values[1..]) + rest;
      RowsAppend(captions, values, rest);
      ParseRowOf(captions[0], values[0], tail);
      ParseRowsOf(captions[1..], values[1..], rest);
      ParseRowsStep(captions, Rows(captions, values) + rest, values[0], tail, values[1..], rest);
      assert [values[0]] + values[1..] == values;
    }
  }

  lemma ParseTableOf(s: Snapshot)
    requires Plain(s)
    ensures ParseTable(Table(s)) == Some(s.(hostname := ""))
  {
    var cells := Cells(s);
    assert '<' !in cells[2] by {
      var d, h := Show(s.uptimeDays), Show(s.uptimeHours);
      assert cells[2] == d + "d " + h + "h";
      assert forall i :: 0 <= i < |d| ==> d[i] != '<';
      assert forall i :: 0 <= i < |h| ==> h[i] != '<';
    }
    ParseRowsOf(Captions, cells, TableClose);
    ParseUptimeCellOf(s.uptimeDays, s.uptimeHours);
  }

  /** Rendering loses nothing: the report read back gives the snapshot,
      every row in its place. */
  lemma ParseRender(s: Snapshot)
    requires Plain(s)
    ensures ParseReport(Render(s)) == Some(s)
  {
    var table := Table(s);
    assert Render(s) == TitleOpen + (s.hostname + (TitleClose + table));
    TakeUntilAfter('<', s.hostname, TitleClose + table);
    assert StripPrefix(TitleClose, TitleClose + table) == Some(table);
    ParseTableOf(s);
  }

  /** A failed lookup still yields the whole report: the placeholder in the
      IP row, and every other row as it would have been, whatever the fields
      contain. */
  lemma FailedLookupStillReports(hostname: string, startTime: string, currentTime: string,
                                 uptimeSecs: nat, ip: HttpOutcome)
    requires IpLookup(ip).Err?
    ensures
      var (days, hours) := UptimeSplit(uptimeSecs);
      Current(hostname, startTime, currentTime, uptimeSecs, ip)
        == TitleOpen + hostname + TitleClose
           + Row("Current time", currentTime) + Row("Canary start time", startTime)
           + Row("Host uptime", UptimeCell(days, hours)) + Row("IP address", Placeholder)
           + TableClose
  {
    var (days, hours) := UptimeSplit(uptimeSecs);
    ReportLayout(Snapshot(hostname, startTime, currentTime, days, hours, Placeholder));
  }

  /** A reader of a report built after a failed lookup recovers the
      placeholder in the IP field and every other field unchanged. */
  lemma FailedLookupReadsBack(hostname: string, startTime: string, currentTime: string,
                              uptimeSecs: nat, ip: HttpOutcome)
    requires IpLookup(ip).Err?
    requires '<' !in hostname && '<' !in startTime && '<' !in currentTime
    ensures
      var (days, hours) := UptimeSplit(uptimeSecs);
      ParseReport(Current(hostname, startTime, currentTime, uptimeSecs, ip))
        == Some(Snapshot(hostname, startTime, currentTime, days, hours, Placeholder))
  {
    ParseRender(Build(hostname, startTime, currentTime, uptimeSecs, ip));
  }

  /** 90000 seconds (25 hours) is shown as one day and one hour. */
  lemma UptimeOfNinetyThousandSeconds()
    ensures UptimeSplit(90000) == (1, 1)
    ensures UptimeCell(1, 1) == "1d 1h"
  {
  }

  /** Anything under an hour is shown as "0d 0h". */
  lemma UptimeUnderAnHour(secs: nat)
    requires secs < 3600
    ensures UptimeSplit(secs) == (0, 0)
    ensures UptimeCell(0, 0) == "0d 0h"
  {
  }
}
