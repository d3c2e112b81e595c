/**
 * The dashboard page's own rules: the "MM:SS" timer text, the three-band
 * status text, the fallback for the fetched duration, the start/stop/reset
 * guards, the countdown, and the warning poll that alerts on new warnings
 * and stops the session at the second one.
 *
 * Requests to the backend are parameters: what a request answered, or that
 * it failed. Timers are methods the environment calls when they fire.
 */
module Dashboard {
  import opened Wrappers
  import FocusSession

  // -------------------------------------------------------------- timer text

  function DigitChar(d: nat): char
    requires d < 10
  {
    "0123456789"[d]
  }

  function DigitValue(c: char): int
  {
    c as int - '0' as int
  }

  /** The decimal digits of `n`, without leading zeros. */
  function NatString(n: nat): (r: string)
    ensures 1 <= |r| && (n < 100 ==> |r| <= 2)
    decreases n
  {
    if n < 10 then [DigitChar(n)] else NatString(n / 10) + [DigitChar(n % 10)]
  }

  /** String(n) on an integer. */
  function IntString(n: int): string
  {
    if n < 0 then "-" + NatString(-n) else NatString(n)
  }

  /** padStart(2, "0"). */
  function PadTwo(s: string): (r: string)
    ensures |r| >= 2 && (|s| >= 2 ==> r == s)
  {
    if |s| >= 2 then s else seq(2 - |s|, _ => '0') + s
  }

  /** The remainder operator on integers, which keeps the sign of the dividend. */
  function Remainder(a: int, b: int): int
    requires b > 0
  {
    if a >= 0 then a % b else -((-a) % b)
  }

  /**
   * The timer text: whole minutes, a colon, the remaining seconds, each
   * padded to two places; the seconds of a non-negative time always take the
   * last two characters.
   */
  function FormatTime(seconds: int): (r: string)
    ensures |r| >= 5
    ensures 0 <= seconds ==> r[|r| - 3] == ':'
  {
    PadTwo(IntString(seconds / 60)) + ":" + PadTwo(IntString(Remainder(seconds, 60)))
  }

  /** The value of a two-character "MM:SS" text. */
  function ClockValue(text: string): int
    requires |text| == 5
  {
    (10 * DigitValue(text[0]) + DigitValue(text[1])) * 60 + 10 * DigitValue(text[3]) + DigitValue(text[4])
  }

  lemma DigitRoundTrip(d: nat)
    requires d < 10
    ensures DigitValue(DigitChar(d)) == d && '0' <= DigitChar(d) <= '9'
  {
  }

  /** Two digits padded: the tens digit, then the units digit. */
  lemma PadTwoDigits(n: nat)
    requires n < 100
    ensures PadTwo(IntString(n)) == [DigitChar(n / 10), DigitChar(n % 10)]
  {
    if n < 10 {
      assert IntString(n) == [DigitChar(n)];
    } else {
      assert NatString(n / 10) == [DigitChar(n / 10)];
    }
  }

  /** Two padded digits read back as the number they came from. */
  lemma PadTwoValue(n: nat)
    requires n < 100
    ensures var text := PadTwo(IntString(n));
      && |text| == 2 && '0' <= text[0] <= '9' && '0' <= text[1] <= '9'
      && 10 * DigitValue(text[0]) + DigitValue(text[1]) == n
  {
    PadTwoDigits(n);
    DigitRoundTrip(n / 10);
    DigitRoundTrip(n % 10);
  }

  /**
   * Below 100 minutes the text is exactly "MM:SS": five characters, a colon
   * in the middle, digits elsewhere, with seconds under 60, and it reads back
   * as the number of seconds it was made from.
   */
  lemma FormatTimeRoundTrip(seconds: int)
    requires 0 <= seconds < 6000
    ensures var text := FormatTime(seconds);
      && |text| == 5 && text[2] == ':'
      && (forall i :: 0 <= i < 5 && i != 2 ==> '0' <= text[i] <= '9')
      && 10 * DigitValue(text[3]) + DigitValue(text[4]) < 60
      && ClockValue(text) == seconds
  {
    var minutes, secs := seconds / 60, seconds % 60;
    assert Remainder(seconds, 60) == secs;
    var mm, ss := PadTwo(IntString(minutes)), PadTwo(IntString(secs));
    PadTwoValue(minutes);
    PadTwoValue(secs);
    var text := FormatTime(seconds);
    assert text == mm + ":" + ss;
    assert text[0] == mm[0] && text[1] == mm[1] && text[3] == ss[0] && text[4] == ss[1];
    assert seconds == minutes * 60 + secs;
  }

  // ------------------------------------------------------------ status text

  /** The status line for a polled focus score. */
  function StatusText(score: real): (text: string)
    ensures text == "Status: Focused" <==> score > 0.7
    ensures text == "Status: Partially Focused" <==> 0.3 < score <= 0.7
    ensures text == "Status: Not Focused" <==> score <= 0.3
  {
    if score > 0.7 then "Status: Focused"
    else if score > 0.3 then "Status: Partially Focused"
    else "Status: Not Focused"
  }

  /** On a backend score the page's status line and the backend's status label agree. */
  lemma StatusAgreesWithBackend(score: int)
    ensures StatusText(score as real / 10.0) == "Status: Focused" <==> FocusSession.StatusLabel(score) == "focused"
    ensures StatusText(score as real / 10.0) == "Status: Partially Focused" <==>
      FocusSession.StatusLabel(score) == "partially focused"
    ensures StatusText(score as real / 10.0) == "Status: Not Focused" <==> FocusSession.StatusLabel(score) == "not focused"
  {
    var x := score as real / 10.0;
    assert x > 0.7 <==> score > 7;
    assert x > 0.3 <==> score > 3;
  }

  // --------------------------------------------------------------- duration

  /** What the duration request gave: a failure, or an answer whose `duration` may be absent. */
  datatype DurationResponse = RequestFailed | Answered(duration: Option<int>)

  const DefaultMinutes: int := 25

  /** The fetched duration when it is present and non-zero, else 25 minutes. */
  function FetchDuration(response: DurationResponse): (minutes: int)
    ensures minutes != 0
    ensures response.Answered? && response.duration.Some? && response.duration.value != 0 ==>
      minutes == response.duration.value
    ensures response.RequestFailed? || response.duration.None? || response.duration.value == 0 ==>
      minutes == DefaultMinutes
  {
    match response
    case RequestFailed => DefaultMinutes
    case Answered(d) => if d.Some? && d.value != 0 then d.value else DefaultMinutes
  }

  // ------------------------------------------------------------------ page

  /** The page's state as one value. */
  datatype PageState = PageState(
    isSessionActive: bool,
    startDisabled: bool,
    stopDisabled: bool,
    resetDisabled: bool,
    startText: string,
    stopText: string,
    totalSeconds: int,
    countdownActive: bool,
    resetPending: bool,
    lastWarningCount: int)

  /** `resetState`: no session, start and reset enabled, stop disabled, the idle texts. */
  function Idle(s: PageState): PageState
  {
    s.(isSessionActive := false, startDisabled := false, stopDisabled := true, resetDisabled := false,
       startText := "Start", stopText := "Stop")
  }

  /** A started session: the buttons locked, the timer at `minutes`, the countdown running. */
  function Started(s: PageState, minutes: int): PageState
  {
    s.(isSessionActive := true, startDisabled := true, stopDisabled := false, resetDisabled := true,
       startText := "Session Started", stopText := "Stop", totalSeconds := minutes * 60, countdownActive := true)
  }

  /** A stopped session: no countdown, the stop button says how it ended, the delayed reset pending. */
  function Stopped(s: PageState, autoEnded: bool): PageState
  {
    s.(isSessionActive := false, countdownActive := false,
       stopText := if autoEnded then "Session Complete" else "Session Stopped", resetPending := true)
  }

  /** One countdown tick: a second less, and a completed session once none is left. */
  function TickState(s: PageState): PageState
  {
    var t := s.(totalSeconds := s.totalSeconds - 1);
    if t.totalSeconds <= 0 then Stopped(t, true) else t
  }

  /** `n` ticks of the countdown; the interval is cleared once the countdown stops. */
  function Ticks(s: PageState, n: nat): PageState
    decreases n
  {
    if n == 0 || !s.countdownActive then s else Ticks(TickState(s), n - 1)
  }

  /**
   * A running countdown with `T` seconds left goes on for exactly `T` ticks:
   * after `k < T` ticks the session still runs with `T - k` seconds left and
   * nothing else changed, and the `T`-th tick completes the session.
   */
  lemma {:induction false} CountdownRunsOut(s: PageState, k: nat)
    requires s.countdownActive && 0 < s.totalSeconds && k <= s.totalSeconds
    ensures k < s.totalSeconds ==> Ticks(s, k) == s.(totalSeconds := s.totalSeconds - k)
    ensures k == s.totalSeconds ==> Ticks(s, k) == Stopped(s.(totalSeconds := 0), true)
    decreases k
  {
    if k > 0 {
      var next := TickState(s);
      if s.totalSeconds == 1 {
        assert Ticks(next, k - 1) == next;
      } else {
        CountdownRunsOut(next, k - 1);
      }
    }
  }

  /** The dashboard's state: the session flag, the buttons, the countdown, the warning poll. */
  class DashboardPage {
    var isSessionActive: bool
    var startDisabled: bool
    var stopDisabled: bool
    var resetDisabled: bool
    var startText: string
    var stopText: string
    var totalSeconds: int
    /** The countdown interval is installed. */
    var countdownActive: bool
    /** A stop has scheduled the delayed reset of the buttons. */
    var resetPending: bool
    /** The last warning count the poll saw. */
    var lastWarningCount: int

    function State(): PageState
      reads this
    {
      PageState(isSessionActive, startDisabled, stopDisabled, resetDisabled, startText, stopText,
                totalSeconds, countdownActive, resetPending, lastWarningCount)
    }

    /**
     * What the handlers keep true: the countdown runs only in a session; in
     * a session start and reset are disabled; while the delayed reset is
     * pending no session runs and start and reset stay disabled.
     */
    ghost predicate Valid()
      reads this
    {
      && (countdownActive ==> isSessionActive)
      && (isSessionActive ==> startDisabled && resetDisabled)
      && (resetPending ==> !isSessionActive && startDisabled && resetDisabled)
    }

    /** The page after loading: the fetched duration on the timer and the stop button disabled. */
    constructor (response: DurationResponse)
      ensures Valid()
      ensures State() == PageState(false, false, true, false, "Start", "Stop",
                                   FetchDuration(response) * 60, false, false, 0)
    {
      isSessionActive := false;
      startDisabled, stopDisabled, resetDisabled := false, true, false;
      startText, stopText := "Start", "Stop";
      totalSeconds := FetchDuration(response) * 60;
      countdownActive, resetPending := false, false;
      lastWarningCount := 0;
    }

    /** Buttons back to idle: start and reset enabled, stop disabled, no session. */
    method ResetState()
      modifies this
      ensures State() == Idle(old(State()))
    {
      isSessionActive := false;
      startDisabled := false;
      stopDisabled := true;
      resetDisabled := false;
      startText := "Start";
      stopText := "Stop";
    }

    /**
     * Start a session; a no-op while one is active. If the start request
     * fails the buttons go back to idle; otherwise the timer is set to the
     * fetched duration and the countdown starts.
     */
    method StartTimer(startRequestOk: bool, response: DurationResponse)
      requires Valid() && !resetPending
      modifies this
      ensures Valid()
      ensures old(isSessionActive) ==> unchanged(this)
      ensures !old(isSessionActive) && !startRequestOk ==> State() == Idle(old(State()))
      ensures !old(isSessionActive) && startRequestOk ==> State() == Started(old(State()), FetchDuration(response))
    {
      if isSessionActive {
        return;
      }
      isSessionActive := true;
      startDisabled := true;
      stopDisabled := false;
      resetDisabled := true;
      startText := "Session Started";
      stopText := "Stop";
      if !startRequestOk {
        ResetState();
        return;
      }
      var minutes := FetchDuration(response);
      totalSeconds := minutes * 60;
      countdownActive := true;
    }

    /**
     * Stop the session; a no-op when none is active. The countdown is
     * cleared, the stop button says how the session ended, and the delayed
     * reset of the buttons is scheduled.
     */
    method StopTimer(autoEnded: bool)
      requires Valid()
      modifies this
      ensures Valid()
      ensures !old(isSessionActive) ==> unchanged(this)
      ensures old(isSessionActive) ==> State() == Stopped(old(State()), autoEnded)
    {
      if !isSessionActive {
        return;
      }
      isSessionActive := false;
      countdownActive := false;
      stopText := if autoEnded then "Session Complete" else "Session Stopped";
      resetPending := true;
    }

    /** The delayed reset fires: the buttons and their texts go back to idle. */
    method ResetTimeout()
      requires Valid() && resetPending
      modifies this
      ensures Valid()
      ensures State() == Idle(old(State())).(resetPending := false)
    {
      resetPending := false;
      ResetState();
    }

    /**
     * The reset button: stop a running session, reload the duration, and go
     * back to idle. A stop made here leaves its delayed reset pending.
     */
    method ResetTimer(response: DurationResponse)
      requires Valid() && !resetPending
      modifies this
      ensures !old(isSessionActive) ==> Valid()
      ensures var stopped := if old(isSessionActive) then Stopped(old(State()), false) else old(State());
        State() == Idle(stopped.(totalSeconds := FetchDuration(response) * 60))
    {
      if isSessionActive {
        StopTimer(false);
      }
      var minutes := FetchDuration(response);
      totalSeconds := minutes * 60;
      ResetState();
    }

    /** One tick of the countdown: one second less, and the session stops once none is left. */
    method Tick()
      requires Valid() && countdownActive
      modifies this
      ensures Valid() && State() == TickState(old(State()))
      ensures countdownActive <==> totalSeconds > 0
    {
      totalSeconds := totalSeconds - 1;
      if totalSeconds <= 0 {
        countdownActive := false;
        StopTimer(true);
      }
    }

    /** A click on the start button, which does nothing while the button is disabled. */
    method StartClick(startRequestOk: bool, response: DurationResponse)
      requires Valid()
      modifies this
      ensures Valid()
      ensures old(startDisabled) ==> unchanged(this)
      ensures !old(startDisabled) && !startRequestOk ==> State() == Idle(old(State()))
      ensures !old(startDisabled) && startRequestOk ==> State() == Started(old(State()), FetchDuration(response))
    {
      if !startDisabled {
        StartTimer(startRequestOk, response);
      }
    }

    /** A click on the reset button, which does nothing while the button is disabled. */
    method ResetClick(response: DurationResponse)
      requires Valid()
      modifies this
      ensures Valid()
      ensures old(resetDisabled) ==> unchanged(this)
      ensures !old(resetDisabled) ==> State() == Idle(old(State()).(totalSeconds := FetchDuration(response) * 60))
    {
      if !resetDisabled {
        ResetTimer(response);
      }
    }

    /** A click on the stop button, which does nothing while the button is disabled. */
    method StopClick()
      requires Valid()
      modifies this
      ensures Valid()
      ensures old(stopDisabled) || !old(isSessionActive) ==> unchanged(this)
      ensures !old(stopDisabled) && old(isSessionActive) ==> State() == Stopped(old(State()), false)
    {
      if !stopDisabled {
        StopTimer(false);
      }
    }

    /**
     * The warning poll: a count of 2 or more clicks the stop button, an alert
     * is raised exactly when the count went up since the last poll, and the
     * count is remembered.
     */
    method CheckWarnings(warnings: int) returns (alerted: bool)
      requires Valid()
      modifies this
      ensures Valid() && alerted == (warnings > old(lastWarningCount))
      ensures var stops := warnings >= 2 && !old(stopDisabled) && old(isSessionActive);
        var clicked := if stops then Stopped(old(State()), false) else old(State());
        State() == clicked.(lastWarningCount := warnings)
    {
      if warnings >= 2 {
        StopClick();
      }
      alerted := warnings > lastWarningCount;
      lastWarningCount := warnings;
    }
  }
}
