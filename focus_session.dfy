/**
 * The focus-tracking session of the study tracker's backend: the per-frame
 * focus score, the two interval trackers (the focus window and the low-focus
 * watch), the warning counter that ends a session, the session summary, and
 * the controller operations that reset, stop and query the detector.
 *
 * Scores are integers in tenths (7 stands for 0.7); timestamps are seconds.
 * A frame's detections arrive as the eye count of each detected face.
 */
module FocusSession {
  import opened Wrappers

  /** A score above this (0.7) counts as focused. */
  const FocusedThreshold: int := 7
  /** A score below this (0.3) counts as low focus. */
  const LowFocusThreshold: int := 3
  /** The cap on a frame's score (1.0). */
  const MaxScore: int := 10
  /** Seconds of unbroken low focus that earn a warning. */
  const WarningDelay: real := 5.0
  /** The warning count at which the frame loop stops. */
  const WarningLimit: nat := 2

  // ------------------------------------------------------------------ scorer

  /** What one face adds: 0.3, plus 0.4 with two or more eyes or 0.2 with one. */
  function FaceScore(eyes: nat): nat
  {
    3 + (if eyes >= 2 then 4 else if eyes == 1 then 2 else 0)
  }

  /** The uncapped sum of the faces' contributions, accumulated left to right. */
  function RawSum(faces: seq<nat>): nat
  {
    if |faces| == 0 then 0 else RawSum(faces[..|faces| - 1]) + FaceScore(faces[|faces| - 1])
  }

  /** The score of one frame: 0 without a face, else the sum capped at 1.0. */
  function Score(faces: seq<nat>): (r: nat)
    ensures r <= MaxScore
    ensures r == 0 <==> |faces| == 0
  {
    if |faces| == 0 then 0
    else if RawSum(faces) < MaxScore then RawSum(faces) else MaxScore
  }

  /** Each face adds between 0.3 and 0.7 before the cap. */
  lemma {:induction false} RawSumBounds(faces: seq<nat>)
    ensures 3 * |faces| <= RawSum(faces) <= 7 * |faces|
  {
    if |faces| > 0 {
      RawSumBounds(faces[..|faces| - 1]);
    }
  }

  /**
   * The three bands seen through the scorer: one face scores at most 0.7, so
   * "focused" needs two faces; three faces are focused whatever their eyes;
   * a score below 0.3 means that no face was found, and 0.3 means one
   * face with no eyes.
   */
  lemma ScoreBands(faces: seq<nat>)
    ensures Score(faces) > FocusedThreshold ==> |faces| >= 2
    ensures |faces| >= 3 ==> Score(faces) > FocusedThreshold
    ensures Score(faces) < LowFocusThreshold <==> |faces| == 0
    ensures Score(faces) == LowFocusThreshold <==> faces == [0]
  {
    RawSumBounds(faces);
    if |faces| == 1 {
      assert faces[..0] == [];
    }
    if |faces| >= 2 {
      RawSumBounds(faces[..|faces| - 1]);
    }
  }

  /** The scorer's reference values: none, one face with 0, 1, 2 eyes, two full faces. */
  lemma ScoreExamples()
    ensures Score([]) == 0 && Score([0]) == 3 && Score([1]) == 5 && Score([2]) == 7
    ensures Score([2, 2]) == 10 && RawSum([2, 2]) == 14
  {
    assert [2, 2][..1] == [2];
    assert [2][..0] == [];
  }

  /** The scoring loop: 0.3 per face plus the eye bonus, capped at 1.0. */
  method CalculateFocusScore(faces: seq<nat>) returns (r: nat)
    ensures r == Score(faces)
  {
    if |faces| == 0 {
      return 0;
    }
    var sum := 0;
    for i := 0 to |faces|
      invariant sum == RawSum(faces[..i])
    {
      assert faces[..i + 1][..i] == faces[..i];
      sum := sum + FaceScore(faces[i]);
    }
    assert faces[..|faces|] == faces;
    r := if sum < MaxScore then sum else MaxScore;
  }

  // ------------------------------------------------------- per-frame update

  /** The tracking fields of the detector. */
  datatype Tracker = Tracker(
    focusStart: Option<real>,
    totalFocusTime: real,
    lowFocusStart: Option<real>,
    currentScore: int,
    warningCount: nat,
    lastWarningTime: real)

  /** The tracking fields as a freshly initialised detector holds them. */
  function FreshTracker(): Tracker
  {
    Tracker(None, 0.0, None, 0, 0, 0.0)
  }

  /** No open interval was opened after time `t`. */
  predicate OpenedBy(s: Tracker, t: real)
  {
    && (s.focusStart.Some? ==> s.focusStart.value <= t)
    && (s.lowFocusStart.Some? ==> s.lowFocusStart.value <= t)
  }

  /**
   * One frame with score `score` at time `t`: the focus window is opened above
   * 0.7 and closed (its length added to the focus time) otherwise; the
   * low-focus watch is opened below 0.3, turned into a warning once it has
   * lasted 5 seconds, and dropped on recovery.
   */
  function FrameUpdate(s: Tracker, score: int, t: real): (r: Tracker)
    ensures r.currentScore == score
    ensures r.focusStart.None? || r.lowFocusStart.None?
    ensures r.focusStart.Some? <==> score > FocusedThreshold
    ensures r.lowFocusStart.Some? ==> score < LowFocusThreshold
    ensures s.focusStart.Some? && score > FocusedThreshold ==> r.focusStart == s.focusStart
    ensures OpenedBy(s, t) ==> OpenedBy(r, t) && r.totalFocusTime >= s.totalFocusTime
    ensures r.totalFocusTime != s.totalFocusTime ==> s.focusStart.Some? && score <= FocusedThreshold
    ensures r.warningCount == s.warningCount || r.warningCount == s.warningCount + 1
    ensures r.warningCount == s.warningCount + 1 <==>
      score < LowFocusThreshold && s.lowFocusStart.Some? && t - s.lowFocusStart.value >= WarningDelay
    ensures r.warningCount > s.warningCount ==> r.lowFocusStart.None? && r.lastWarningTime == t
    ensures r.warningCount == s.warningCount ==> r.lastWarningTime == s.lastWarningTime
    ensures score > FocusedThreshold && s.focusStart.None? ==> r.focusStart == Some(t)
    ensures score <= FocusedThreshold && s.focusStart.Some? ==>
      r.totalFocusTime == s.totalFocusTime + (t - s.focusStart.value)
    ensures score < LowFocusThreshold && s.lowFocusStart.None? ==> r.lowFocusStart == Some(t)
    ensures score < LowFocusThreshold && s.lowFocusStart.Some? && t - s.lowFocusStart.value < WarningDelay ==>
      r.lowFocusStart == s.lowFocusStart
  {
    var focusStart :=
      if score > FocusedThreshold then (if s.focusStart.None? then Some(t) else s.focusStart)
      else None;
    var total :=
      if score <= FocusedThreshold && s.focusStart.Some? then s.totalFocusTime + (t - s.focusStart.value)
      else s.totalFocusTime;
    var low := if score > FocusedThreshold then None else s.lowFocusStart;
    if score < LowFocusThreshold then
      if low.None? then Tracker(focusStart, total, Some(t), score, s.warningCount, s.lastWarningTime)
      else if t - low.value >= WarningDelay then Tracker(focusStart, total, None, score, s.warningCount + 1, t)
      else Tracker(focusStart, total, low, score, s.warningCount, s.lastWarningTime)
    else
      Tracker(focusStart, total, None, score, s.warningCount, s.lastWarningTime)
  }

  // -------------------------------------------------------------- the loop

  /** What the loop sees: a camera frame, or the controller's stop request. */
  datatype Event = Frame(faces: seq<nat>, t: real) | StopRequest

  /** Why the frame loop ended. */
  datatype ExitCause = SourceEnded | StoppedExternally | WarningLimitReached

  /** The tracker after the loop, the scores of the frames it processed, and why it ended. */
  datatype RunOutcome = RunOutcome(final: Tracker, scores: seq<int>, cause: ExitCause)

  /**
   * The frame loop from tracker `s`: the end of `events` is a failed camera
   * read, a stop request ends the loop before the next frame, and the frame
   * that brings the warning count to 2 is scored and then ends the loop.
   */
  function RunFrom(s: Tracker, events: seq<Event>): (r: RunOutcome)
    ensures |r.scores| <= |events|
    ensures r.cause == SourceEnded ==> |r.scores| == |events|
    ensures r.cause == StoppedExternally ==> |r.scores| < |events| && events[|r.scores|] == StopRequest
    ensures r.cause == WarningLimitReached ==> |r.scores| > 0 && r.final.warningCount >= WarningLimit
    decreases |events|
  {
    if |events| == 0 then RunOutcome(s, [], SourceEnded)
    else match events[0]
      case StopRequest => RunOutcome(s, [], StoppedExternally)
      case Frame(faces, t) =>
        var score := Score(faces);
        var next := FrameUpdate(s, score, t);
        if next.warningCount >= WarningLimit then RunOutcome(next, [score], WarningLimitReached)
        else
          var rest := RunFrom(next, events[1..]);
          RunOutcome(rest.final, [score] + rest.scores, rest.cause)
  }

  /** `o` with `scores` processed before it. */
  function Prepend(scores: seq<int>, o: RunOutcome): RunOutcome
  {
    RunOutcome(o.final, scores + o.scores, o.cause)
  }

  lemma PrependTwice(first: seq<int>, second: seq<int>, o: RunOutcome)
    ensures Prepend(first, Prepend(second, o)) == Prepend(first + second, o)
  {
    assert first + (second + o.scores) == (first + second) + o.scores;
  }

  /** One loop iteration from position `i`, as `RunFrom` takes it. */
  lemma RunFromFrame(s: Tracker, events: seq<Event>, i: nat)
    requires i < |events| && events[i].Frame?
    ensures var score := Score(events[i].faces);
      var next := FrameUpdate(s, score, events[i].t);
      RunFrom(s, events[i..]) ==
        if next.warningCount >= WarningLimit then RunOutcome(next, [score], WarningLimitReached)
        else Prepend([score], RunFrom(next, events[i + 1..]))
  {
    assert events[i..][0] == events[i] && events[i..][1..] == events[i + 1..];
  }

  /** Timestamps never go backwards: first `t0`, then every frame's, then `tEnd`. */
  predicate Ordered(t0: real, events: seq<Event>, tEnd: real)
    decreases |events|
  {
    if |events| == 0 then t0 <= tEnd
    else match events[0]
      case StopRequest => Ordered(t0, events[1..], tEnd)
      case Frame(_, t) => t0 <= t && Ordered(t, events[1..], tEnd)
  }

  /** With time running forward, the loop never lowers the accumulated focus time. */
  lemma {:induction false} RunKeepsFocusTime(s: Tracker, t0: real, events: seq<Event>, tEnd: real)
    requires OpenedBy(s, t0) && Ordered(t0, events, tEnd)
    ensures RunFrom(s, events).final.totalFocusTime >= s.totalFocusTime
    decreases |events|
  {
    if |events| > 0 && events[0].Frame? {
      var next := FrameUpdate(s, Score(events[0].faces), events[0].t);
      if next.warningCount < WarningLimit {
        RunKeepsFocusTime(next, events[0].t, events[1..], tEnd);
      }
    }
  }

  /**
   * Starting below the limit, the loop ends on the warning limit exactly when
   * the count reaches 2, and the count never passes 2: the first warning does
   * not stop the session.
   */
  lemma {:induction false} RunStopsOnSecondWarning(s: Tracker, events: seq<Event>)
    requires s.warningCount < WarningLimit
    ensures RunFrom(s, events).final.warningCount <= WarningLimit
    ensures RunFrom(s, events).cause == WarningLimitReached <==>
      RunFrom(s, events).final.warningCount == WarningLimit
    decreases |events|
  {
    if |events| > 0 && events[0].Frame? {
      var next := FrameUpdate(s, Score(events[0].faces), events[0].t);
      if next.warningCount < WarningLimit {
        RunStopsOnSecondWarning(next, events[1..]);
      }
    }
  }

  /**
   * The loop ends on the very frame that brings the warning count to 2: the
   * frames before it run without reaching the limit, that frame is the last
   * one scored, and the final tracker is its update.
   */
  lemma {:induction false} RunEndsOnSecondWarningFrame(s: Tracker, events: seq<Event>)
    requires s.warningCount < WarningLimit
    ensures var o := RunFrom(s, events);
      o.cause == WarningLimitReached ==>
        var n := |o.scores| - 1;
        var before := RunFrom(s, events[..n]);
        && before.cause == SourceEnded && before.final.warningCount < WarningLimit
        && events[n].Frame?
        && o.final == FrameUpdate(before.final, Score(events[n].faces), events[n].t)
    decreases |events|
  {
    if |events| > 0 && events[0].Frame? {
      var next := FrameUpdate(s, Score(events[0].faces), events[0].t);
      if next.warningCount >= WarningLimit {
        assert events[..0] == [];
      } else {
        var rest := RunFrom(next, events[1..]);
        RunEndsOnSecondWarningFrame(next, events[1..]);
        if rest.cause == WarningLimitReached {
          var m := |rest.scores| - 1;
          assert RunFrom(s, events) == Prepend([Score(events[0].faces)], rest);
          RunFromPrefix(s, events, m);
          assert events[m + 1] == events[1..][m];
        }
      }
    }
  }

  /** A prefix that starts with a frame below the limit runs on from that frame's update. */
  lemma RunFromPrefix(s: Tracker, events: seq<Event>, m: nat)
    requires m + 1 <= |events| && events[0].Frame?
    requires FrameUpdate(s, Score(events[0].faces), events[0].t).warningCount < WarningLimit
    ensures var next := FrameUpdate(s, Score(events[0].faces), events[0].t);
      RunFrom(s, events[..m + 1]) == Prepend([Score(events[0].faces)], RunFrom(next, events[1..][..m]))
  {
    var pre := events[..m + 1];
    assert pre[0] == events[0] && pre[1..] == events[1..][..m];
  }

  /** Every score the loop records lies in 0..10. */
  lemma {:induction false} RunScoresInRange(s: Tracker, events: seq<Event>)
    ensures forall i :: 0 <= i < |RunFrom(s, events).scores| ==> 0 <= RunFrom(s, events).scores[i] <= MaxScore
    decreases |events|
  {
    if |events| > 0 && events[0].Frame? {
      var next := FrameUpdate(s, Score(events[0].faces), events[0].t);
      if next.warningCount < WarningLimit {
        RunScoresInRange(next, events[1..]);
      }
    }
  }

  /** The recorded scores are the scores of the leading frames, one per frame and in order. */
  lemma {:induction false} RunScoresAreFrameScores(s: Tracker, events: seq<Event>)
    ensures var o := RunFrom(s, events);
      forall i :: 0 <= i < |o.scores| ==> events[i].Frame? && o.scores[i] == Score(events[i].faces)
    decreases |events|
  {
    if |events| > 0 && events[0].Frame? {
      var next := FrameUpdate(s, Score(events[0].faces), events[0].t);
      if next.warningCount < WarningLimit {
        RunScoresAreFrameScores(next, events[1..]);
        var rest := RunFrom(next, events[1..]);
        forall i | 1 <= i < 1 + |rest.scores|
          ensures events[i].Frame? && ([Score(events[0].faces)] + rest.scores)[i] == Score(events[i].faces)
        {
          assert events[1..][i - 1] == events[i];
        }
      }
    }
  }

  /**
   * The focus time, plus the still-open window, fits inside the session:
   * every window lies between the session start and the current time.
   */
  predicate FocusBudget(s: Tracker, tStart: real, t: real)
  {
    && OpenedBy(s, t)
    && 0.0 <= s.totalFocusTime
    && (s.focusStart.Some? ==> tStart <= s.focusStart.value)
    && s.totalFocusTime + (if s.focusStart.Some? then t - s.focusStart.value else 0.0) <= t - tStart
  }

  /** With time running forward, a session's focus time never exceeds its length. */
  lemma {:induction false} RunFocusWithinSession(s: Tracker, tStart: real, t0: real, events: seq<Event>, tEnd: real)
    requires FocusBudget(s, tStart, t0) && Ordered(t0, events, tEnd)
    ensures FocusBudget(RunFrom(s, events).final, tStart, tEnd)
    ensures 0.0 <= RunFrom(s, events).final.totalFocusTime <= tEnd - tStart
    decreases |events|
  {
    if |events| == 0 {
    } else if events[0].StopRequest? {
      OrderedEnd(t0, events[1..], tEnd);
    } else {
      var t := events[0].t;
      var next := FrameUpdate(s, Score(events[0].faces), t);
      assert FocusBudget(next, tStart, t);
      if next.warningCount < WarningLimit {
        RunFocusWithinSession(next, tStart, t, events[1..], tEnd);
      } else {
        OrderedEnd(t, events[1..], tEnd);
      }
    }
  }

  /** An ordered timeline ends no earlier than it starts. */
  lemma {:induction false} OrderedEnd(t0: real, events: seq<Event>, tEnd: real)
    requires Ordered(t0, events, tEnd)
    ensures t0 <= tEnd
    decreases |events|
  {
    if |events| > 0 {
      match events[0]
      case StopRequest => OrderedEnd(t0, events[1..], tEnd);
      case Frame(_, t) => OrderedEnd(t, events[1..], tEnd);
    }
  }

  /**
   * Low focus from 0 to 4 s, a recovery at 4.5 s, low focus again from 5 to
   * 9 s: neither stretch reaches 5 s, so there is no warning.
   */
  lemma RecoveryResetsWatch()
    ensures RunFrom(FreshTracker(),
      [Frame([], 0.0), Frame([], 4.0), Frame([1], 4.5), Frame([], 5.0), Frame([], 9.0)]).final.warningCount == 0
  {
    var e := [Frame([], 0.0), Frame([], 4.0), Frame([1], 4.5), Frame([], 5.0), Frame([], 9.0)];
    assert e[1..] == [Frame([], 4.0), Frame([1], 4.5), Frame([], 5.0), Frame([], 9.0)];
    assert e[2..] == [Frame([1], 4.5), Frame([], 5.0), Frame([], 9.0)];
    assert e[3..] == [Frame([], 5.0), Frame([], 9.0)];
    assert e[4..] == [Frame([], 9.0)];
    ScoreExamples();
  }

  /**
   * Frames without a face every second from 0 to 5: the watch opened at 0
   * keeps its start, so the frame at 5 earns the first warning and the
   * session goes on.
   */
  lemma ContinuousLowFocusWarns()
    ensures var o := RunFrom(FreshTracker(),
      [Frame([], 0.0), Frame([], 1.0), Frame([], 2.0), Frame([], 3.0), Frame([], 4.0), Frame([], 5.0)]);
      o.final.warningCount == 1 && o.cause == SourceEnded
  {
    var e := [Frame([], 0.0), Frame([], 1.0), Frame([], 2.0), Frame([], 3.0), Frame([], 4.0), Frame([], 5.0)];
    assert e[1..] == [Frame([], 1.0), Frame([], 2.0), Frame([], 3.0), Frame([], 4.0), Frame([], 5.0)];
    assert e[2..] == [Frame([], 2.0), Frame([], 3.0), Frame([], 4.0), Frame([], 5.0)];
    assert e[3..] == [Frame([], 3.0), Frame([], 4.0), Frame([], 5.0)];
    assert e[4..] == [Frame([], 4.0), Frame([], 5.0)];
    assert e[5..] == [Frame([], 5.0)];
    ScoreExamples();
  }

  /**
   * Two separate 5-second stretches without a face: the first earns one
   * warning and the session goes on; the second earns the second warning and
   * ends the session on that frame, so the last frame is never scored.
   */
  lemma TwoWarningsEndSession()
    ensures var o := RunFrom(FreshTracker(),
      [Frame([], 0.0), Frame([], 5.0), Frame([], 6.0), Frame([], 11.0), Frame([2, 2], 12.0)]);
      o.cause == WarningLimitReached && o.final.warningCount == 2 && o.scores == [0, 0, 0, 0]
  {
    var e := [Frame([], 0.0), Frame([], 5.0), Frame([], 6.0), Frame([], 11.0), Frame([2, 2], 12.0)];
    assert e[1..] == [Frame([], 5.0), Frame([], 6.0), Frame([], 11.0), Frame([2, 2], 12.0)];
    assert e[2..] == [Frame([], 6.0), Frame([], 11.0), Frame([2, 2], 12.0)];
    assert e[3..] == [Frame([], 11.0), Frame([2, 2], 12.0)];
  }

  // ---------------------------------------------------------------- summary

  /** The session summary. */
  datatype Summary = Summary(
    totalFocusTime: real,
    averageFocusScore: real,
    focusPercentage: real,
    sessionDuration: real)

  /** The sum of a sequence of scores, in tenths. */
  function SumScores(scores: seq<int>): int
  {
    if |scores| == 0 then 0 else SumScores(scores[..|scores| - 1]) + scores[|scores| - 1]
  }

  lemma {:induction false} SumScoresBounds(scores: seq<int>)
    requires forall i :: 0 <= i < |scores| ==> 0 <= scores[i] <= MaxScore
    ensures 0 <= SumScores(scores) <= MaxScore * |scores|
  {
    if |scores| > 0 {
      SumScoresBounds(scores[..|scores| - 1]);
    }
  }

  /**
   * The summary: the mean frame score (0 when no frame was scored), and the
   * focus time as a percentage of the session (0 for a session of no length).
   */
  function Summarize(totalFocusTime: real, scores: seq<int>, duration: real): (r: Summary)
    ensures r.totalFocusTime == totalFocusTime && r.sessionDuration == duration
    ensures |scores| == 0 ==> r.averageFocusScore == 0.0
    ensures |scores| > 0 ==> r.averageFocusScore * (10 * |scores|) as real == SumScores(scores) as real
    ensures duration <= 0.0 ==> r.focusPercentage == 0.0
    ensures duration > 0.0 ==> r.focusPercentage * duration == totalFocusTime * 100.0
  {
    var average := if |scores| == 0 then 0.0 else SumScores(scores) as real / (10 * |scores|) as real;
    var percentage := if duration > 0.0 then totalFocusTime / duration * 100.0 else 0.0;
    Summary(totalFocusTime, average, percentage, duration)
  }

  /** Scores in 0..10 average to a value in [0, 1]; focus time within the session gives 0..100 %. */
  lemma SummaryBounds(totalFocusTime: real, scores: seq<int>, duration: real)
    requires forall i :: 0 <= i < |scores| ==> 0 <= scores[i] <= MaxScore
    requires 0.0 <= totalFocusTime <= duration
    ensures 0.0 <= Summarize(totalFocusTime, scores, duration).averageFocusScore <= 1.0
    ensures 0.0 <= Summarize(totalFocusTime, scores, duration).focusPercentage <= 100.0
  {
    SumScoresBounds(scores);
    if duration > 0.0 {
      assert totalFocusTime / duration <= 1.0;
    }
  }

  /** The reference values: 30 s focused of 100 s is 30 %; a session of no length is 0 %. */
  lemma SummaryExamples()
    ensures Summarize(30.0, [], 100.0).focusPercentage == 30.0
    ensures Summarize(0.0, [], 0.0).focusPercentage == 0.0
  {
  }

  /** A session run from a fresh start: average in [0, 1], percentage in 0..100. */
  lemma FreshRunBounds(events: seq<Event>, tStart: real, tExit: real)
    requires Ordered(tStart, events, tExit)
    ensures var o := RunFrom(FreshTracker(), events);
      var summary := Summarize(o.final.totalFocusTime, o.scores, tExit - tStart);
      && 0.0 <= summary.averageFocusScore <= 1.0
      && 0.0 <= summary.focusPercentage <= 100.0
  {
    var o := RunFrom(FreshTracker(), events);
    RunScoresInRange(FreshTracker(), events);
    RunFocusWithinSession(FreshTracker(), tStart, tStart, events, tExit);
    SummaryBounds(o.final.totalFocusTime, o.scores, tExit - tStart);
  }

  // ----------------------------------------------------------------- status

  /** The three-level label of the status query. */
  function StatusLabel(score: int): (s: string)
    ensures s == "focused" <==> score > FocusedThreshold
    ensures s == "partially focused" <==> LowFocusThreshold < score <= FocusedThreshold
    ensures s == "not focused" <==> score <= LowFocusThreshold
  {
    if score > FocusedThreshold then "focused"
    else if score > LowFocusThreshold then "partially focused"
    else "not focused"
  }

  /** The answer to a full status query. */
  datatype StatusReport = StatusReport(
    isRunning: bool,
    focusScore: int,
    status: string,
    focusDuration: real,
    warnings: nat)

  // --------------------------------------------------------------- detector

  /** The detector: one instance whose fields the frame loop and the controller update. */
  class FocusDetector {
    var focusStart: Option<real>
    var totalFocusTime: real
    var lowFocusStart: Option<real>
    var currentFocusScore: int
    var isRunning: bool
    var sessionResults: Option<Summary>
    var warningCount: nat
    var lastWarningTime: real

    /** The tracking fields as one value. */
    function Tracking(): Tracker
      reads this
    {
      Tracker(focusStart, totalFocusTime, lowFocusStart, currentFocusScore, warningCount, lastWarningTime)
    }

    constructor ()
      ensures Tracking() == FreshTracker() && !isRunning && sessionResults == None
    {
      focusStart, totalFocusTime, lowFocusStart := None, 0.0, None;
      currentFocusScore, isRunning, sessionResults := 0, false, None;
      warningCount, lastWarningTime := 0, 0.0;
    }

    /**
     * Start a session: every tracking field back to its initial value, no
     * stale summary, running. The new state does not depend on the old one,
     * so starting twice is the same as starting once.
     */
    method StartSession()
      modifies this
      ensures Tracking() == FreshTracker() && isRunning && sessionResults == None
    {
      focusStart, totalFocusTime, lowFocusStart := None, 0.0, None;
      currentFocusScore, isRunning, sessionResults := 0, false, None;
      warningCount, lastWarningTime := 0, 0.0;
      isRunning := true;
    }

    /** The tracking part of one loop iteration, for a frame scored `score` at time `t`. */
    method Step(score: int, t: real)
      modifies this
      ensures Tracking() == FrameUpdate(old(Tracking()), score, t)
      ensures isRunning == old(isRunning) && sessionResults == old(sessionResults)
    {
      currentFocusScore := score;
      if score > FocusedThreshold {
        if focusStart.None? {
          focusStart := Some(t);
        }
        lowFocusStart := None;
      } else if focusStart.Some? {
        totalFocusTime := totalFocusTime + (t - focusStart.value);
        focusStart := None;
      }
      if score < LowFocusThreshold {
        if lowFocusStart.None? {
          lowFocusStart := Some(t);
        } else if t - lowFocusStart.value >= WarningDelay {
          warningCount := warningCount + 1;
          lowFocusStart := None;
          lastWarningTime := t;
        }
      } else {
        lowFocusStart := None;
      }
    }

    /** The loop's teardown: the summary of a session that started at `tStart` and ends at `tExit`. */
    method Finalize(tStart: real, scores: seq<int>, tExit: real)
      modifies this`sessionResults
      ensures sessionResults == Some(Summarize(totalFocusTime, scores, tExit - tStart))
    {
      sessionResults := Some(Summarize(totalFocusTime, scores, tExit - tStart));
    }

    /**
     * The frame loop: it behaves as `RunFrom`, and it leaves `isRunning` set
     * only when the camera ran out.
     */
    method FrameLoop(events: seq<Event>) returns (scores: seq<int>, cause: ExitCause)
      modifies this
      ensures var o := RunFrom(old(Tracking()), events);
        Tracking() == o.final && scores == o.scores && cause == o.cause
      ensures isRunning == (cause == SourceEnded) && sessionResults == old(sessionResults)
    {
      ghost var o := RunFrom(Tracking(), events);
      isRunning := true;
      scores := [];
      var i := 0;
      cause := SourceEnded;
      while isRunning
        invariant 0 <= i <= |events| && sessionResults == old(sessionResults)
        invariant isRunning ==> cause == SourceEnded && o == Prepend(scores, RunFrom(Tracking(), events[i..]))
        invariant !isRunning ==> Tracking() == o.final && scores == o.scores && cause == o.cause && cause != SourceEnded
        decreases |events| - i, isRunning
      {
        if i == |events| {
          assert events[i..] == [];
          break;
        }
        match events[i]
        case StopRequest =>
          assert events[i..][0] == events[i];
          isRunning := false;
          cause := StoppedExternally;
        case Frame(faces, t) =>
          RunFromFrame(Tracking(), events, i);
          var score := CalculateFocusScore(faces);
          Step(score, t);
          if warningCount >= WarningLimit {
            isRunning := false;
            cause := WarningLimitReached;
          } else {
            PrependTwice(scores, [score], RunFrom(Tracking(), events[i + 1..]));
          }
          scores := scores + [score];
          i := i + 1;
      }
    }

    /**
     * A whole session, started at `tStart` and torn down at `tExit`: the
     * frame loop, then the summary of what it recorded. A session run from a
     * fresh start gets an average in [0, 1] and a percentage in 0..100.
     */
    method Run(events: seq<Event>, tStart: real, tExit: real) returns (cause: ExitCause)
      requires Ordered(tStart, events, tExit)
      modifies this
      ensures var o := RunFrom(old(Tracking()), events);
        && Tracking() == o.final
        && cause == o.cause
        && isRunning == (cause == SourceEnded)
        && sessionResults == Some(Summarize(o.final.totalFocusTime, o.scores, tExit - tStart))
      ensures old(Tracking()) == FreshTracker() ==>
        && 0.0 <= sessionResults.value.averageFocusScore <= 1.0
        && 0.0 <= sessionResults.value.focusPercentage <= 100.0
    {
      ghost var s0 := Tracking();
      var scores;
      scores, cause := FrameLoop(events);
      Finalize(tStart, scores, tExit);
      if s0 == FreshTracker() {
        FreshRunBounds(events, tStart, tExit);
      }
    }

    /** The stop request: clear `isRunning` and hand back whatever summary is stored. */
    method StopSession() returns (results: Option<Summary>)
      modifies this`isRunning
      ensures !isRunning && results == sessionResults
    {
      isRunning := false;
      results := sessionResults;
    }

    /** The full status query, with its three-level label. */
    method FocusStatus() returns (report: StatusReport)
      ensures report.isRunning == isRunning && report.focusScore == currentFocusScore
      ensures report.focusDuration == totalFocusTime && report.warnings == warningCount
      ensures report.status == StatusLabel(currentFocusScore)
    {
      report := StatusReport(isRunning, currentFocusScore, StatusLabel(currentFocusScore),
                             totalFocusTime, warningCount);
    }
  }
}
