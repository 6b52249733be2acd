/** src/main.rs: the `--interval` argument, read as a whole number of
    minutes by a ranged u64 parser and turned into seconds, and the hand-off
    from start-up to the canary loop. */
module Cli {
  import opened Wrappers
  import opened Decimal
  import opened Mail
  import opened Scheduler
  import Canary

  /** The largest u64. */
  const U64Max: nat := 0xFFFF_FFFF_FFFF_FFFF

  /** 2^64, the modulus of u64 arithmetic. */
  const U64Modulus: nat := 0x1_0000_0000_0000_0000

  /** The interval used when `--interval` is not given. */
  const DefaultMinutes := "5"

  /** Why an interval argument is refused: not a u64 at all, or a u64 outside
      the accepted range. */
  datatype ArgError = NotAU64 | OutOfRange(minutes: nat)

  /** `str::parse::<u64>`: an optional '+', then one or more decimal digits
      whose value fits in 64 bits. Every failure is reported the same way. */
  function ParseU64(s: string): (r: Result<nat, ArgError>)
    ensures r.Ok? ==> r.value <= U64Max
    ensures r.Err? ==> r.error == NotAU64
  {
    var digits := if |s| > 0 && s[0] == '+' then s[1..] else s;
    if |digits| == 0 || !AllDigits(digits) then Err(NotAU64)
    else if Value(digits) > U64Max then Err(NotAU64)
    else Ok(Value(digits))
  }

  /** Every u64 written in decimal, with or without a leading '+', reads back
      as itself. */
  lemma ParseU64OfShow(n: nat)
    requires n <= U64Max
    ensures ParseU64(Show(n)) == Ok(n)
    ensures ParseU64("+" + Show(n)) == Ok(n)
  {
    ValueOfShow(n);
    assert ("+" + Show(n))[1..] == Show(n);
  }

  /** Any non-empty run of digits, leading zeros included and with or
      without a leading '+', reads as its decimal value when that fits in 64
      bits, and is refused otherwise. */
  lemma ParseU64OfDigits(s: string)
    requires |s| > 0 && AllDigits(s)
    ensures ParseU64(s) == ParseU64("+" + s)
    ensures ParseU64(s) == if Value(s) <= U64Max then Ok(Value(s)) else Err(NotAU64)
  {
    assert ("+" + s)[1..] == s;
  }

  /** Any text with a character that is not a digit (other than one leading
      '+') is refused. */
  lemma ParseU64Rejects(s: string, i: nat)
    requires i < |s| && !IsDigit(s[i]) && !(i == 0 && s[0] == '+')
    ensures ParseU64(s) == Err(NotAU64)
  {
    if |s| > 0 && s[0] == '+' {
      assert s[1..][i - 1] == s[i];
    }
  }

  /** Text without any digit, the empty text or a lone '+', is refused. */
  lemma ParseU64RejectsNoDigits()
    ensures ParseU64("") == Err(NotAU64) && ParseU64("+") == Err(NotAU64)
  {
  }

  /** A number too large for 64 bits is refused however it is written. */
  lemma ParseU64RejectsOverflow(n: nat)
    requires n > U64Max
    ensures ParseU64(Show(n)) == Err(NotAU64)
  {
    ValueOfShow(n);
  }

  // ---------------------------------------------------------------------
  // The interval as written: `RangedU64ValueParser::new().range(1..)` then
  // `DurationAsMinutes::new`, whose `60 * minutes` is a u64 product that
  // wraps around in a release build.

  /** `DurationAsMinutes::new` as written: seconds modulo 2^64. */
  function NewAsWritten(minutes: nat): (seconds: nat)
    requires minutes <= U64Max
    ensures seconds < U64Modulus
    ensures seconds == 60 * minutes || 60 * minutes >= U64Modulus
  {
    (60 * minutes) % U64Modulus
  }

  /** The value parser as written: at least one minute, no upper bound. */
  function ParseIntervalAsWritten(arg: string): (r: Result<nat, ArgError>)
    ensures r.Ok? ==> r.value < U64Modulus
  {
    var minutes :- ParseU64(arg);
    if minutes < 1 then Err(OutOfRange(minutes)) else Ok(NewAsWritten(minutes))
  }

  /** The value parser as written accepts exactly the u64 texts of at least
      one minute, however they are spelt, and gives their seconds modulo
      2^64. */
  lemma AsWrittenAccepted(arg: string)
    ensures ParseIntervalAsWritten(arg).Ok? <==> ParseU64(arg).Ok? && ParseU64(arg).value >= 1
    ensures ParseIntervalAsWritten(arg).Ok? ==>
      ParseIntervalAsWritten(arg).value == (60 * ParseU64(arg).value) % U64Modulus
  {
  }

  /** What is left of a product after whole wraps of 2^64. */
  lemma WrapAround(x: nat, wraps: nat, left: nat)
    requires left < U64Modulus && x == wraps * U64Modulus + left
    ensures x % U64Modulus == left
  {
  }

  /** Any count of minutes from 1 up passes the range, and the interval is
      its seconds modulo 2^64. */
  lemma AsWrittenOfShow(minutes: nat)
    requires 1 <= minutes <= U64Max
    ensures ParseIntervalAsWritten(Show(minutes)) == Ok((60 * minutes) % U64Modulus)
  {
    ParseU64OfShow(minutes);
  }

  /** 2^62 minutes passes the `1..` range, and its seconds wrap to zero: the
      canary would send without pausing at all. */
  lemma WrappedToZero(minutes: nat)
    requires minutes == 0x4000_0000_0000_0000
    ensures ParseIntervalAsWritten(Show(minutes)) == Ok(0)
  {
    AsWrittenOfShow(minutes);
    WrapAround(60 * minutes, 15, 0);
  }

  /** Just past the largest whole number of minutes that fits, the interval
      wraps to 44 seconds. */
  lemma WrappedToFortyFourSeconds(minutes: nat)
    requires minutes == MaxMinutes + 1
    ensures ParseIntervalAsWritten(Show(minutes)) == Ok(44)
  {
    AsWrittenOfShow(minutes);
    WrapAround(60 * minutes, 1, 44);
  }

  // ---------------------------------------------------------------------
  // The interval as intended: a range that stops where the seconds still
  // fit, so the interval is exactly sixty times the minutes given.

  /** The most minutes whose count of seconds fits in a u64. */
  const MaxMinutes: nat := 307_445_734_561_825_860

  /** MaxMinutes is the bound: its seconds fit, one more minute's do not. */
  lemma MaxMinutesIsTheBound()
    ensures 60 * MaxMinutes <= U64Max < 60 * (MaxMinutes + 1)
    ensures MaxMinutes == U64Max / 60
  {
  }

  /** `DurationAsMinutes::new` without overflow. */
  function FromMinutes(minutes: nat): (seconds: nat)
    requires minutes <= MaxMinutes
    ensures seconds <= U64Max
    ensures seconds % 60 == 0 && seconds / 60 == minutes
  {
    60 * minutes
  }

  /** The value parser with the range `1..=MaxMinutes`. */
  function ParseInterval(arg: string): (r: Result<nat, ArgError>)
    ensures r.Ok? ==> 60 <= r.value <= U64Max && r.value % 60 == 0
  {
    var minutes :- ParseU64(arg);
    if minutes < 1 || minutes > MaxMinutes then Err(OutOfRange(minutes))
    else Ok(FromMinutes(minutes))
  }

  /** An argument is accepted exactly when it is a u64 from 1 to MaxMinutes,
      and then the interval is that many minutes in seconds; zero and every
      count whose seconds would overflow are refused as out of range. */
  lemma IntervalAccepted(arg: string)
    ensures ParseInterval(arg).Ok? <==>
      ParseU64(arg).Ok? && 1 <= ParseU64(arg).value <= MaxMinutes
    ensures ParseInterval(arg).Ok? ==> ParseInterval(arg).value == 60 * ParseU64(arg).value
    ensures ParseU64(arg).Ok? && (ParseU64(arg).value == 0 || ParseU64(arg).value > MaxMinutes) ==>
      ParseInterval(arg) == Err(OutOfRange(ParseU64(arg).value))
  {
  }

  /** Every accepted count of minutes, written in decimal, gives back sixty
      times itself. */
  lemma IntervalOfShow(minutes: nat)
    requires 1 <= minutes <= MaxMinutes
    ensures ParseInterval(Show(minutes)) == Ok(60 * minutes)
  {
    ParseU64OfShow(minutes);
  }

  /** More minutes give a strictly longer interval. */
  lemma IntervalGrowsWithMinutes(a: string, b: string)
    requires ParseInterval(a).Ok? && ParseInterval(b).Ok?
    requires ParseU64(a).value < ParseU64(b).value
    ensures ParseInterval(a).value < ParseInterval(b).value
  {
    IntervalAccepted(a);
    IntervalAccepted(b);
  }

  /** The two parsers agree wherever the product does not overflow, so the
      correction changes nothing for any interval the original handled
      correctly. */
  lemma AsWrittenAgreesBelowOverflow(arg: string)
    requires ParseU64(arg).Ok? ==> ParseU64(arg).value <= MaxMinutes
    ensures ParseIntervalAsWritten(arg) == ParseInterval(arg)
  {
  }

  /** The default of five minutes is a 300-second interval, as written and
      corrected alike. */
  lemma DefaultIsFiveMinutes()
    ensures ParseIntervalAsWritten(DefaultMinutes) == Ok(300)
    ensures ParseInterval(DefaultMinutes) == Ok(300)
  {
    ParseU64OfShow(5);
  }

  // ---------------------------------------------------------------------
  // Start-up.

  /** How `main` ends: clap refuses the interval, the SMTP set-up (reading
      and parsing the credentials file, building the relay) panics, or the
      canary loop runs. */
  datatype Exit = UsageError(error: ArgError) | SetupPanic | Looping(interval: nat)

  /** What `main` does once the interval argument has been parsed: a refused
      argument ends it with clap's usage message on stderr before anything
      else happens; then the transport is set up, and a failure there ends it
      with the panic message on stderr; then the canary loop of
      src/canary.rs runs with the parsed interval, for as many iterations as
      there are ticks. The texts of clap's message and of the panic come from
      code outside the model and are parameters: `setupPanic` is the panic
      message when the set-up fails, and `None` when it succeeds. */
  method Start(fx: Effects, parsed: Result<nat, ArgError>, usageText: string,
               setupPanic: Option<string>,
               mailbox: Mailbox, clock: string, hostnameRead: string, ticks: seq<Tick>)
    returns (exit: Exit)
    modifies fx
    ensures parsed.Err? ==>
      exit == UsageError(parsed.error) && fx.trace == old(fx.trace) &&
      fx.log == old(fx.log) + [LogEntry(Stderr, usageText)]
    ensures parsed.Ok? && setupPanic.Some? ==>
      exit == SetupPanic && fx.trace == old(fx.trace) &&
      fx.log == old(fx.log) + [LogEntry(Stderr, setupPanic.value)]
    ensures parsed.Ok? && setupPanic.None? ==>
      exit == Looping(parsed.value) &&
      fx.trace == old(fx.trace) + Rounds(Outbox(mailbox, hostnameRead, clock, ticks), parsed.value) &&
      fx.log == old(fx.log) + Flatten(Canary.TickLogs(mailbox, hostnameRead, clock, ticks))
  {
    if parsed.Err? {
      fx.Write(LogEntry(Stderr, usageText));
      return UsageError(parsed.error);
    }
    if setupPanic.Some? {
      fx.Write(LogEntry(Stderr, setupPanic.value));
      return SetupPanic;
    }
    Canary.RunForever(fx, mailbox, parsed.value, clock, hostnameRead, ticks);
    exit := Looping(parsed.value);
  }

  /** `main` as written: the argument (or its default) goes through the
      `1..` range and the wrapping conversion, and whatever interval results
      is handed to the loop unchanged, zero seconds included. */
  method Launch(fx: Effects, intervalArg: Option<string>, usageText: string,
                setupPanic: Option<string>,
                mailbox: Mailbox, clock: string, hostnameRead: string, ticks: seq<Tick>)
    returns (exit: Exit)
    modifies fx
    ensures ParseIntervalAsWritten(intervalArg.GetOr(DefaultMinutes)).Err? ==>
      exit == UsageError(ParseIntervalAsWritten(intervalArg.GetOr(DefaultMinutes)).error) &&
      fx.trace == old(fx.trace) && fx.log == old(fx.log) + [LogEntry(Stderr, usageText)]
    ensures ParseIntervalAsWritten(intervalArg.GetOr(DefaultMinutes)).Ok? && setupPanic.Some? ==>
      exit == SetupPanic && fx.trace == old(fx.trace) &&
      fx.log == old(fx.log) + [LogEntry(Stderr, setupPanic.value)]
    ensures ParseIntervalAsWritten(intervalArg.GetOr(DefaultMinutes)).Ok? && setupPanic.None? ==>
      var interval := ParseIntervalAsWritten(intervalArg.GetOr(DefaultMinutes)).value;
      exit == Looping(interval) &&
      fx.trace == old(fx.trace) + Rounds(Outbox(mailbox, hostnameRead, clock, ticks), interval) &&
      fx.log == old(fx.log) + Flatten(Canary.TickLogs(mailbox, hostnameRead, clock, ticks))
  {
    var arg := intervalArg.GetOr(DefaultMinutes);
    exit := Start(fx, ParseIntervalAsWritten(arg), usageText, setupPanic, mailbox, clock, hostnameRead, ticks);
  }

  /** `main` with the corrected range: counts whose seconds would overflow
      are refused before anything is sent. */
  method LaunchCorrected(fx: Effects, intervalArg: Option<string>, usageText: string,
                         setupPanic: Option<string>,
                         mailbox: Mailbox, clock: string, hostnameRead: string, ticks: seq<Tick>)
    returns (exit: Exit)
    modifies fx
    ensures ParseInterval(intervalArg.GetOr(DefaultMinutes)).Err? ==>
      exit == UsageError(ParseInterval(intervalArg.GetOr(DefaultMinutes)).error) &&
      fx.trace == old(fx.trace) && fx.log == old(fx.log) + [LogEntry(Stderr, usageText)]
    ensures ParseInterval(intervalArg.GetOr(DefaultMinutes)).Ok? && setupPanic.Some? ==>
      exit == SetupPanic && fx.trace == old(fx.trace) &&
      fx.log == old(fx.log) + [LogEntry(Stderr, setupPanic.value)]
    ensures ParseInterval(intervalArg.GetOr(DefaultMinutes)).Ok? && setupPanic.None? ==>
      var interval := ParseInterval(intervalArg.GetOr(DefaultMinutes)).value;
      exit == Looping(interval) && 60 <= interval &&
      fx.trace == old(fx.trace) + Rounds(Outbox(mailbox, hostnameRead, clock, ticks), interval) &&
      fx.log == old(fx.log) + Flatten(Canary.TickLogs(mailbox, hostnameRead, clock, ticks))
  {
    var arg := intervalArg.GetOr(DefaultMinutes);
    exit := Start(fx, ParseInterval(arg), usageText, setupPanic, mailbox, clock, hostnameRead, ticks);
  }
}
