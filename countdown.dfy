/**
  The QR-code countdown: a seconds counter that a one-second interval
  decrements while it is positive, its `MM:SS` rendering and the three
  urgency levels that pick the colours and the message.
 */
module Countdown {
  import opened Text

  /** One second of the interval: it only runs while time is left. */
  function Step(timeLeft: int): (r: int)
    ensures timeLeft > 0 ==> r == timeLeft - 1
    ensures timeLeft <= 0 ==> r == timeLeft
  {
    if timeLeft > 0 then timeLeft - 1 else timeLeft
  }

  /** The counter after `n` seconds. */
  function AfterTicks(timeLeft: int, n: nat): int
    decreases n
  {
    if n == 0 then timeLeft else AfterTicks(Step(timeLeft), n - 1)
  }

  /** From a non-negative start the counter reaches zero and stays there; a
      counter at or below zero never moves. */
  lemma {:induction false} AfterTicksClosedForm(timeLeft: int, n: nat)
    ensures timeLeft >= 0 ==> AfterTicks(timeLeft, n) == if timeLeft >= n then timeLeft - n else 0
    ensures timeLeft <= 0 ==> AfterTicks(timeLeft, n) == timeLeft
    decreases n
  {
    if n > 0 {
      AfterTicksClosedForm(Step(timeLeft), n - 1);
    }
  }

  /** JavaScript's `a % b` for a positive `b`: the sign follows `a`. */
  function JsRem(a: int, b: int): (r: int)
    requires b > 0
    ensures a >= 0 ==> r == a % b
    ensures -b < r < b
    ensures a < 0 ==> r <= 0
  {
    if a >= 0 then a % b else -((-a) % b)
  }

  /** `n.toString().padStart(2, '0')`. */
  function TwoDigits(n: int): string {
    PadStart(IntToString(n), 2, '0')
  }

  /** `formatTime(seconds)`: floored minutes, a colon, and JavaScript's
      remainder of the seconds, each padded to two characters. */
  function FormatTime(seconds: int): string {
    TwoDigits(seconds / 60) + ":" + TwoDigits(JsRem(seconds, 60))
  }

  /** A single digit is padded with one zero. */
  lemma TwoDigitsOfDigit(n: nat)
    requires n < 10
    ensures TwoDigits(n) == ['0', Digit(n)]
  {
    assert IntToString(n) == [Digit(n)];
    assert seq(1, _ => '0') == ['0'];
  }

  /** A number below a hundred prints as two digits that read back as it. */
  lemma TwoDigitsOfSmall(n: nat)
    requires n < 100
    ensures |TwoDigits(n)| == 2 && AllDigits(TwoDigits(n)) && ParseDigits(TwoDigits(n)) == n
  {
    var p := TwoDigits(n);
    if n < 10 {
      TwoDigitsOfDigit(n);
      assert p[..1] == ['0'];
      assert ['0'][..0] == [];
    } else {
      var s := NatToString(n);
      assert NatToString(n / 10) == [Digit(n / 10)];
      assert |s| == 2;
      assert p == s;
      ParseNatToString(n);
    }
  }

  /** The shape `MM:SS`: two digits, a colon, two digits. */
  predicate IsClock(r: string) {
    |r| == 5 && r[2] == ':' && AllDigits(r[..2]) && AllDigits(r[3..])
  }

  /** The number of seconds an `MM:SS` text stands for. */
  function ClockSeconds(r: string): nat
    requires IsClock(r)
  {
    ParseDigits(r[..2]) * 60 + ParseDigits(r[3..])
  }

  /** Below a hundred minutes the text is split into whole minutes and the
      remaining seconds. */
  lemma FormatTimeFields(seconds: int)
    requires 0 <= seconds < 6000
    ensures seconds / 60 < 100 && seconds % 60 < 60
    ensures (seconds / 60) * 60 + seconds % 60 == seconds
    ensures FormatTime(seconds) == TwoDigits(seconds / 60) + ":" + TwoDigits(seconds % 60)
  {
  }

  /** Two two-digit fields around a colon make a clock that reads back as the
      fields' values. */
  lemma ClockOfFields(mm: string, ss: string)
    requires |mm| == 2 && AllDigits(mm) && |ss| == 2 && AllDigits(ss)
    ensures IsClock(mm + ":" + ss)
    ensures (mm + ":" + ss)[3..] == ss
    ensures ClockSeconds(mm + ":" + ss) == ParseDigits(mm) * 60 + ParseDigits(ss)
  {
    var r := mm + ":" + ss;
    assert r[..2] == mm;
    assert r[3..] == ss;
  }

  /** Below a hundred minutes the rendering is an `MM:SS` clock whose seconds
      field is below sixty and which reads back as the counter's value. */
  lemma FormatTimeRoundTrip(seconds: int)
    requires 0 <= seconds < 6000
    ensures IsClock(FormatTime(seconds))
    ensures ParseDigits(FormatTime(seconds)[3..]) < 60
    ensures ClockSeconds(FormatTime(seconds)) == seconds
  {
    var mins, secs := seconds / 60, seconds % 60;
    var r := TwoDigits(mins) + ":" + TwoDigits(secs);
    assert FormatTime(seconds) == r && mins < 100 && secs < 60 && mins * 60 + secs == seconds by {
      FormatTimeFields(seconds);
    }
    ClockOf(mins, secs, seconds);
  }

  lemma ClockOf(mins: nat, secs: nat, total: nat)
    requires mins < 100 && secs < 60 && mins * 60 + secs == total
    ensures IsClock(TwoDigits(mins) + ":" + TwoDigits(secs))
    ensures ParseDigits((TwoDigits(mins) + ":" + TwoDigits(secs))[3..]) == secs
    ensures ClockSeconds(TwoDigits(mins) + ":" + TwoDigits(secs)) == total
  {
    TwoDigitsOfSmall(mins);
    TwoDigitsOfSmall(secs);
    ClockOfFields(TwoDigits(mins), TwoDigits(secs));
  }

  /** How close the code is to expiring. */
  datatype Urgency = Calm | Warning | Expired

  /** `isExpired` (no time left) wins over `isWarning` (five minutes or less). */
  function UrgencyOf(timeLeft: int): (u: Urgency)
    ensures u == Expired <==> timeLeft <= 0
    ensures u == Warning <==> 0 < timeLeft <= 300
    ensures u == Calm <==> timeLeft > 300
  {
    if IsExpired(timeLeft) then Expired else if IsWarning(timeLeft) then Warning else Calm
  }

  predicate IsWarning(timeLeft: int) {
    timeLeft <= 300
  }

  predicate IsExpired(timeLeft: int) {
    timeLeft <= 0
  }

  /** An expired counter is also a warning one. */
  lemma ExpiredIsWarning(timeLeft: int)
    ensures IsExpired(timeLeft) ==> IsWarning(timeLeft)
    ensures UrgencyOf(timeLeft) != Calm <==> IsWarning(timeLeft)
  {
  }

  datatype Tone = Red | Orange | Blue | Gray

  /** The digits, the progress track and the progress bar: red over orange
      over blue. */
  function DisplayTone(u: Urgency): (t: Tone)
    ensures t == Red <==> u == Expired
    ensures t == Orange <==> u == Warning
    ensures t == Blue <==> u == Calm
  {
    match u
    case Expired => Red
    case Warning => Orange
    case Calm => Blue
  }

  /** The clock icon only knows the warning threshold. */
  function IconTone(timeLeft: int): (t: Tone)
    ensures t == Orange <==> IsWarning(timeLeft)
    ensures t == Blue <==> !IsWarning(timeLeft)
  {
    if IsWarning(timeLeft) then Orange else Blue
  }

  /** The message under the bar is grey, not blue, when calm. */
  function MessageTone(u: Urgency): (t: Tone)
    ensures u != Calm ==> t == DisplayTone(u)
    ensures u == Calm <==> t == Gray
  {
    match u
    case Expired => Red
    case Warning => Orange
    case Calm => Gray
  }

  /** Each urgency has its own line; the expiry notice appears only once
      the code has expired. */
  function Message(u: Urgency): (r: string)
    ensures r == "QR Code expired. Please refresh to generate new code." <==> u == Expired
    ensures r == "QR Code will expire soon" <==> u == Warning
    ensures r == "Please complete payment before time expires" <==> u == Calm
  {
    match u
    case Expired => "QR Code expired. Please refresh to generate new code."
    case Warning => "QR Code will expire soon"
    case Calm => "Please complete payment before time expires"
  }

  /** The digits shown: `00:00` once expired, whatever the counter holds. */
  function Display(timeLeft: int): (r: string)
    ensures IsExpired(timeLeft) ==> r == "00:00"
    ensures !IsExpired(timeLeft) ==> r == FormatTime(timeLeft)
  {
    if IsExpired(timeLeft) then "00:00" else FormatTime(timeLeft)
  }

  /** Every displayed value is a five-character clock while under a hundred minutes. */
  lemma DisplayIsClock(timeLeft: int)
    requires timeLeft < 6000
    ensures IsClock(Display(timeLeft))
  {
    if !IsExpired(timeLeft) {
      FormatTimeRoundTrip(timeLeft);
    }
  }

  /** The timer widget; `timeLeft` starts at `initialTime`. */
  class CountdownTimer {
    var timeLeft: int

    constructor (initialTime: int)
      ensures timeLeft == initialTime
    {
      timeLeft := initialTime;
    }

    /** One second passes. */
    method Tick()
      modifies this
      ensures timeLeft == Step(old(timeLeft))
    {
      if timeLeft > 0 {
        timeLeft := timeLeft - 1;
      }
    }

    function Shown(): string
      reads this
    {
      Display(timeLeft)
    }

    function Tone(): Tone
      reads this
    {
      DisplayTone(UrgencyOf(timeLeft))
    }
  }

  /** One character is padded with one zero. */
  lemma PadOne(c: char)
    ensures PadStart([c], 2, '0') == ['0', c]
  {
    assert seq(1, _ => '0') == ['0'];
  }

  lemma TenSeconds()
    ensures Display(10) == "00:10"
  {
    assert 10 / 60 == 0 && JsRem(10, 60) == 10;
    assert IntToString(0) == "0" && IntToString(10) == "10";
    PadOne('0');
  }

  lemma SevenSeconds()
    ensures Display(7) == "00:07"
  {
    assert 7 / 60 == 0 && JsRem(7, 60) == 7;
    assert IntToString(0) == "0" && IntToString(7) == "7";
    PadOne('0');
    PadOne('7');
  }

  lemma FiveMinutesOneSecond()
    ensures Display(301) == "05:01"
  {
    assert 301 / 60 == 5 && JsRem(301, 60) == 1;
    assert IntToString(5) == "5" && IntToString(1) == "1";
    PadOne('5');
    PadOne('1');
  }

  lemma FiveMinutes()
    ensures Display(300) == "05:00"
  {
    assert 300 / 60 == 5 && JsRem(300, 60) == 0;
    assert IntToString(5) == "5" && IntToString(0) == "0";
    PadOne('5');
    PadOne('0');
  }

  /** Starting at ten seconds, `00:10`, and three seconds later `00:07`. */
  method CountsDown() returns (before: string, after: string)
    ensures before == "00:10" && after == "00:07"
  {
    var timer := new CountdownTimer(10);
    TenSeconds();
    SevenSeconds();
    before := timer.Shown();
    timer.Tick();
    timer.Tick();
    timer.Tick();
    after := timer.Shown();
  }

  /** At 301 seconds the digits are blue; one second later, at exactly five
      minutes, they turn orange. */
  method WarnsUnderFiveMinutes() returns (before: string, toneBefore: Tone, after: string, toneAfter: Tone)
    ensures before == "05:01" && toneBefore == Blue
    ensures after == "05:00" && toneAfter == Orange
  {
    var timer := new CountdownTimer(301);
    FiveMinutesOneSecond();
    FiveMinutes();
    before := timer.Shown();
    toneBefore := timer.Tone();
    timer.Tick();
    after := timer.Shown();
    toneAfter := timer.Tone();
  }

  /** A timer started at zero shows `00:00` and never counts. */
  method StartsExpired() returns (shown: string, later: int)
    ensures shown == "00:00" && later == 0
  {
    var timer := new CountdownTimer(0);
    shown := timer.Shown();
    timer.Tick();
    later := timer.timeLeft;
  }
}
