/**
 * Saving a finished study session: the user check, the limit of two sessions
 * per user per day, the session number, the average over the four previous
 * days, and the upsert of the day's session list.
 *
 * The user collection is a set of names; the session collection maps a
 * (user, day) pair to that day's session list. Days are day numbers, so the
 * day before `d` is `d - 1`.
 */
module SaveSession {

  /** At most this many sessions per user per day. */
  const DailyLimit: nat := 2
  /** The trailing average looks this many days back. */
  const HistoryDays: nat := 4

  /** A stored session. */
  datatype Session = Session(
    sessionNumber: nat,
    durationCompleted: real,
    focusScore: real,
    focusPercentage: real,
    avgFourDays: real)

  /** The fields of a save request. */
  datatype SessionRequest = SessionRequest(
    username: string,
    date: int,
    durationCompleted: real,
    focusScore: real,
    focusPercentage: real)

  /** The answer to a save request. */
  datatype SaveResult = Failure(message: string) | Success(session: Session)

  type Store = map<(string, int), seq<Session>>

  /** The sessions stored for `user` on `day`; a missing entry reads as no sessions. */
  function Existing(data: Store, user: string, day: int): seq<Session>
  {
    if (user, day) in data then data[(user, day)] else []
  }

  /** No (user, day) entry holds more than two sessions. */
  predicate WithinDailyLimit(data: Store)
  {
    forall key :: key in data ==> |data[key]| <= DailyLimit
  }

  /**
   * The duration of the last session of each of the days `today - 1` down to
   * `today - k`, nearest day first; a day without sessions is skipped.
   */
  function PriorDurations(data: Store, user: string, today: int, k: nat): (r: seq<real>)
    ensures |r| <= k
  {
    if k == 0 then []
    else
      PriorDurations(data, user, today, k - 1) + LastDuration(Existing(data, user, today - k))
  }

  /** The duration of the last session of a day, if it has any. */
  function LastDuration(sessions: seq<Session>): seq<real>
  {
    if |sessions| > 0 then [sessions[|sessions| - 1].durationCompleted] else []
  }

  function Sum(xs: seq<real>): real
  {
    if |xs| == 0 then 0.0 else Sum(xs[..|xs| - 1]) + xs[|xs| - 1]
  }

  /** The arithmetic mean, 0 for no values. */
  function Mean(xs: seq<real>): (r: real)
    ensures |xs| == 0 ==> r == 0.0
    ensures |xs| > 0 ==> r * |xs| as real == Sum(xs)
  {
    if |xs| == 0 then 0.0 else Sum(xs) / |xs| as real
  }

  /** Looking one day further back adds that day's last duration, if it has one. */
  lemma PriorDurationsNext(data: Store, user: string, today: int, k: nat)
    requires k > 0
    ensures PriorDurations(data, user, today, k) ==
      PriorDurations(data, user, today, k - 1) + LastDuration(Existing(data, user, today - k))
  {
  }

  /** The history is empty exactly when none of the `k` previous days has a session. */
  lemma {:induction false} PriorDurationsEmpty(data: Store, user: string, today: int, k: nat)
    ensures PriorDurations(data, user, today, k) == [] <==>
      forall d :: today - k <= d < today ==> Existing(data, user, d) == []
  {
    if k > 0 {
      PriorDurationsEmpty(data, user, today, k - 1);
    }
  }

  /**
   * Only the user's own `k` previous days count: rewriting any other entry,
   * today's included, leaves the history unchanged.
   */
  lemma {:induction false} PriorDurationsIgnoreOtherEntries(
    data: Store, user: string, today: int, k: nat, key: (string, int), sessions: seq<Session>)
    requires key.0 != user || key.1 >= today || key.1 < today - k
    ensures PriorDurations(data[key := sessions], user, today, k) == PriorDurations(data, user, today, k)
  {
    if k > 0 {
      PriorDurationsIgnoreOtherEntries(data, user, today, k - 1, key, sessions);
      assert Existing(data[key := sessions], user, today - k) == Existing(data, user, today - k);
    }
  }

  lemma {:induction false} SumBounds(xs: seq<real>, lo: real, hi: real)
    requires forall i :: 0 <= i < |xs| ==> lo <= xs[i] <= hi
    ensures lo * |xs| as real <= Sum(xs) <= hi * |xs| as real
  {
    if |xs| > 0 {
      SumBounds(xs[..|xs| - 1], lo, hi);
    }
  }

  /** The mean of values between `lo` and `hi` lies between them. */
  lemma MeanBounds(xs: seq<real>, lo: real, hi: real)
    requires |xs| > 0
    requires forall i :: 0 <= i < |xs| ==> lo <= xs[i] <= hi
    ensures lo <= Mean(xs) <= hi
  {
    SumBounds(xs, lo, hi);
  }

  /** The collections of users and of daily session lists. */
  class SessionStore {
    var users: set<string>
    var data: Store

    constructor (users: set<string>, data: Store)
      ensures this.users == users && this.data == data
    {
      this.users := users;
      this.data := data;
    }

    /** The loop over days N-1 .. N-4 that collects the last duration of each day. */
    method LastFourDays(user: string, today: int) returns (durations: seq<real>)
      ensures durations == PriorDurations(data, user, today, HistoryDays)
    {
      durations := [];
      for i := 1 to HistoryDays + 1
        invariant durations == PriorDurations(data, user, today, i - 1)
      {
        var targetDate := today - i;
        if (user, targetDate) in data {
          var targetSessions := data[(user, targetDate)];
          if |targetSessions| > 0 {
            durations := durations + [targetSessions[|targetSessions| - 1].durationCompleted];
          }
        }
        assert durations == PriorDurations(data, user, today, i) by {
          PriorDurationsNext(data, user, today, i);
        }
      }
    }

    /**
     * Save a finished session. An unknown user and a full day are refused
     * with the store unchanged; otherwise the session is numbered after the
     * day's existing ones, carries the mean of the previous days' last
     * durations, is appended to the day's list, and is returned.
     */
    method Save(req: SessionRequest) returns (r: SaveResult)
      modifies this`data
      ensures req.username !in users ==> r == Failure("User not found") && data == old(data)
      ensures req.username in users && |Existing(old(data), req.username, req.date)| >= DailyLimit ==>
        r == Failure("Daily session limit (2) reached") && data == old(data)
      ensures r.Success? <==>
        req.username in users && |Existing(old(data), req.username, req.date)| < DailyLimit
      ensures r.Success? ==>
        var existing := Existing(old(data), req.username, req.date);
        && r.session == Session(|existing| + 1, req.durationCompleted, req.focusScore, req.focusPercentage,
                                Mean(PriorDurations(old(data), req.username, req.date, HistoryDays)))
        && 1 <= r.session.sessionNumber <= DailyLimit
        && data == old(data)[(req.username, req.date) := existing + [r.session]]
      ensures WithinDailyLimit(old(data)) ==> WithinDailyLimit(data)
    {
      if req.username !in users {
        return Failure("User not found");
      }
      var existingSessions := if (req.username, req.date) in data then data[(req.username, req.date)] else [];
      if |existingSessions| >= DailyLimit {
        return Failure("Daily session limit (2) reached");
      }
      var sessionNumber := |existingSessions| + 1;
      var last4DaysDurations := LastFourDays(req.username, req.date);
      var avgLast4 := if |last4DaysDurations| > 0 then Mean(last4DaysDurations) else 0.0;
      var newSession := Session(sessionNumber, req.durationCompleted, req.focusScore, req.focusPercentage, avgLast4);
      data := data[(req.username, req.date) := existingSessions + [newSession]];
      r := Success(newSession);
    }
  }

  /**
   * The trailing average of a saved session: 0 when none of the four
   * previous days has a session, and otherwise between the smallest and the
   * largest of those days' last durations.
   */
  lemma TrailingAverage(data: Store, user: string, today: int, lo: real, hi: real)
    requires forall d :: today - HistoryDays <= d < today && |Existing(data, user, d)| > 0 ==>
      lo <= Existing(data, user, d)[|Existing(data, user, d)| - 1].durationCompleted <= hi
    ensures (forall d :: today - HistoryDays <= d < today ==> Existing(data, user, d) == []) ==>
      Mean(PriorDurations(data, user, today, HistoryDays)) == 0.0
    ensures PriorDurations(data, user, today, HistoryDays) != [] ==>
      lo <= Mean(PriorDurations(data, user, today, HistoryDays)) <= hi
  {
    PriorDurationsEmpty(data, user, today, HistoryDays);
    var xs := PriorDurations(data, user, today, HistoryDays);
    if xs != [] {
      PriorDurationsInRange(data, user, today, HistoryDays, lo, hi);
      MeanBounds(xs, lo, hi);
    }
  }

  lemma {:induction false} PriorDurationsInRange(data: Store, user: string, today: int, k: nat, lo: real, hi: real)
    requires forall d :: today - k <= d < today && |Existing(data, user, d)| > 0 ==>
      lo <= Existing(data, user, d)[|Existing(data, user, d)| - 1].durationCompleted <= hi
    ensures forall i :: 0 <= i < |PriorDurations(data, user, today, k)| ==>
      lo <= PriorDurations(data, user, today, k)[i] <= hi
  {
    if k > 0 {
      PriorDurationsInRange(data, user, today, k - 1, lo, hi);
    }
  }
}
