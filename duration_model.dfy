/**
 * The duration recommender's data cleaning and fallbacks. Stored day
 * documents are flattened into training records, skipping every session that
 * cannot be converted; the regressor's raw prediction then becomes a
 * recommended next duration in [15, 30] minutes, with 25 minutes whenever
 * there is too little data or anything fails.
 *
 * Stored values are dynamically typed: `Value` covers the kinds a document
 * can hold, and `ToInt`/`ToFloat` follow Python's int() and float() on them.
 * Calendar parsing and the regressor are parameters of the model.
 */
module DurationModel {
  import opened Wrappers

  /** The answer whenever a prediction cannot be made. */
  const FallbackDuration: real := 25.0
  const MinDuration: real := 15.0
  /** The upper bound, which the recommendation grows towards. */
  const TargetDuration: real := 30.0
  /** Minutes added to the last duration as the least recommendation. */
  const Increment: real := 1.0
  /** Fewer training records than this give the fallback. */
  const MinRecords: nat := 4

  /** A stored scalar. */
  datatype Value = IntValue(i: int) | FloatValue(x: real) | StrValue(s: string) | NullValue

  /** Python truthiness of a stored scalar. */
  predicate Truthy(v: Value)
    ensures Truthy(v) <==> v !in {IntValue(0), FloatValue(0.0), StrValue(""), NullValue}
  {
    match v
    case IntValue(i) => i != 0
    case FloatValue(x) => x != 0.0
    case StrValue(s) => s != ""
    case NullValue => false
  }

  /** A stored session; `None` is a missing key. */
  datatype RawSession = RawSession(sessionNumber: Option<Value>, durationCompleted: Option<Value>)

  /** A stored day document; a missing `sessions` key reads as no sessions. */
  datatype Document = Document(date: Option<Value>, sessions: seq<RawSession>)

  /** A parsed "%Y-%m-%d" date. */
  datatype CalendarDate = CalendarDate(dayOfMonth: int, month: int, weekday: int)

  /** A training record: the parent document's date and the converted fields. */
  datatype Record = Record(date: string, sessionNumber: int, durationCompleted: real, weekday: int)

  // ------------------------------------------------------------ conversions

  /** Python's int() on a float: the integer part, rounding toward zero. */
  function TruncateTowardZero(x: real): (r: int)
    ensures 0.0 <= x ==> r as real <= x < r as real + 1.0
    ensures x < 0.0 ==> r as real - 1.0 < x <= r as real
  {
    if x >= 0.0 then x.Floor else -((-x).Floor)
  }

  predicate IsDigit(c: char)
  {
    '0' <= c <= '9'
  }

  predicate AllDigits(s: string)
  {
    forall i :: 0 <= i < |s| ==> IsDigit(s[i])
  }

  /** The value of a string of decimal digits. */
  function DigitsValue(s: string): nat
    requires AllDigits(s)
  {
    if |s| == 0 then 0
    else
      assert IsDigit(s[|s| - 1]);
      10 * DigitsValue(s[..|s| - 1]) + (s[|s| - 1] as int - '0' as int)
  }

  /** An optionally signed decimal integer, or `None` for any other string. */
  function ParseInteger(s: string): (r: Option<int>)
    ensures r.Some? <==>
      || (|s| > 0 && AllDigits(s))
      || (|s| > 1 && (s[0] == '-' || s[0] == '+') && AllDigits(s[1..]))
    ensures |s| > 0 && AllDigits(s) ==> r == Some(DigitsValue(s))
    ensures |s| > 1 && s[0] == '-' && AllDigits(s[1..]) ==> r == Some(-(DigitsValue(s[1..]) as int))
    ensures |s| > 1 && s[0] == '+' && AllDigits(s[1..]) ==> r == Some(DigitsValue(s[1..]))
  {
    var signed := |s| > 0 && (s[0] == '-' || s[0] == '+');
    var sign := if signed && s[0] == '-' then -1 else 1;
    var digits := if signed then s[1..] else s;
    if |digits| > 0 && AllDigits(digits)
    then Some(sign * DigitsValue(digits))
    else None
  }

  /** Python's int(): `None` where it raises. */
  function ToInt(v: Value): (r: Option<int>)
    ensures v.IntValue? ==> r == Some(v.i)
    ensures v.FloatValue? && 0.0 <= v.x ==> r.Some? && r.value as real <= v.x < r.value as real + 1.0
    ensures v.FloatValue? && v.x < 0.0 ==> r.Some? && r.value as real - 1.0 < v.x <= r.value as real
    ensures v.StrValue? ==> r == ParseInteger(v.s)
    ensures v.NullValue? ==> r.None?
  {
    match v
    case IntValue(i) => Some(i)
    case FloatValue(x) => Some(TruncateTowardZero(x))
    case StrValue(s) => ParseInteger(s)
    case NullValue => None
  }

  /** Python's float(): `None` where it raises. */
  function ToFloat(v: Value): (r: Option<real>)
    ensures ToInt(v).Some? ==> r.Some?
    ensures v.IntValue? ==> r == Some(v.i as real)
    ensures v.FloatValue? ==> r == Some(v.x)
    ensures v.StrValue? ==> (r.Some? <==> ParseInteger(v.s).Some?)
    ensures v.StrValue? && ParseInteger(v.s).Some? ==> r == Some(ParseInteger(v.s).value as real)
    ensures v.NullValue? ==> r.None?
  {
    match v
    case IntValue(i) => Some(i as real)
    case FloatValue(x) => Some(x)
    case StrValue(s) => if ParseInteger(s).Some? then Some(ParseInteger(s).value as real) else None
    case NullValue => None
  }

  lemma ConversionExamples()
    ensures ToInt(FloatValue(2.7)) == Some(2) && ToInt(FloatValue(-2.7)) == Some(-2)
    ensures ToInt(StrValue("-12")) == Some(-12) && ToInt(StrValue("")) == None
    ensures ToInt(StrValue("1x")) == None && ToFloat(NullValue) == None
  {
    assert "-12"[1..] == "12" && "12"[..1] == "1" && "1"[..0] == "";
    assert DigitsValue("12") == 12;
    var bad := "1x";
    assert bad[0] != '-' && bad[0] != '+' && !IsDigit(bad[1]) && !AllDigits(bad);
  }

  /**
   * One session inside the try block: a missing key, an unconvertible number
   * or a date that is not a parseable string raises, and the session is
   * skipped (`None`).
   */
  function ConvertSession(date: Value, s: RawSession, parseDate: string -> Option<CalendarDate>): (r: Option<Record>)
    ensures r.Some? <==>
      && s.sessionNumber.Some? && s.durationCompleted.Some?
      && ToInt(s.sessionNumber.value).Some? && ToFloat(s.durationCompleted.value).Some?
      && date.StrValue? && parseDate(date.s).Some?
    ensures r.Some? ==>
      && date == StrValue(r.value.date)
      && r.value.sessionNumber == ToInt(s.sessionNumber.value).value
      && r.value.durationCompleted == ToFloat(s.durationCompleted.value).value
      && r.value.weekday == parseDate(r.value.date).value.weekday
  {
    if s.sessionNumber.None? || s.durationCompleted.None? then None
    else
      var number := ToInt(s.sessionNumber.value);
      var duration := ToFloat(s.durationCompleted.value);
      if number.None? || duration.None? || !date.StrValue? || parseDate(date.s).None? then None
      else Some(Record(date.s, number.value, duration.value, parseDate(date.s).value.weekday))
  }

  // ------------------------------------------------------------- flattening

  /** The records of one document's sessions, in order, skipping those that fail. */
  function SessionRecords(date: Value, sessions: seq<RawSession>, parseDate: string -> Option<CalendarDate>): (r: seq<Record>)
    ensures |r| <= |sessions|
  {
    if |sessions| == 0 then []
    else
      var converted := ConvertSession(date, sessions[|sessions| - 1], parseDate);
      SessionRecords(date, sessions[..|sessions| - 1], parseDate) + (if converted.Some? then [converted.value] else [])
  }

  /** A document without a truthy date contributes nothing. */
  function DocumentRecords(doc: Document, parseDate: string -> Option<CalendarDate>): (r: seq<Record>)
    ensures |r| <= |doc.sessions|
    ensures doc.date.None? || !Truthy(doc.date.value) ==> r == []
  {
    if doc.date.None? || !Truthy(doc.date.value) then []
    else SessionRecords(doc.date.value, doc.sessions, parseDate)
  }

  /**
   * The records of all documents: document order, then session order; never
   * more records than stored sessions.
   */
  function Flatten(docs: seq<Document>, parseDate: string -> Option<CalendarDate>): (r: seq<Record>)
    ensures |r| <= TotalSessions(docs)
  {
    if |docs| == 0 then []
    else Flatten(docs[..|docs| - 1], parseDate) + DocumentRecords(docs[|docs| - 1], parseDate)
  }

  function TotalSessions(docs: seq<Document>): nat
  {
    if |docs| == 0 then 0 else TotalSessions(docs[..|docs| - 1]) + |docs[|docs| - 1].sessions|
  }

  /** The cleaning loop over documents and their sessions. */
  method Preprocess(docs: seq<Document>, parseDate: string -> Option<CalendarDate>) returns (records: seq<Record>)
    ensures records == Flatten(docs, parseDate)
  {
    records := [];
    for i := 0 to |docs|
      invariant records == Flatten(docs[..i], parseDate)
    {
      FlattenPrefix(docs, i, parseDate);
      var parentDate := docs[i].date;
      if parentDate.None? || !Truthy(parentDate.value) {
        continue;
      }
      var converted := ConvertSessions(parentDate.value, docs[i].sessions, parseDate);
      records := records + converted;
    }
    assert docs[..|docs|] == docs;
  }

  /** The inner loop: the sessions of one document with a truthy date, each in its own try block. */
  method ConvertSessions(date: Value, sessions: seq<RawSession>, parseDate: string -> Option<CalendarDate>)
    returns (records: seq<Record>)
    ensures records == SessionRecords(date, sessions, parseDate)
  {
    records := [];
    for j := 0 to |sessions|
      invariant records == SessionRecords(date, sessions[..j], parseDate)
    {
      SessionRecordsPrefix(date, sessions, j, parseDate);
      var converted := ConvertSession(date, sessions[j], parseDate);
      if converted.None? {
        continue;
      }
      records := records + [converted.value];
    }
    assert sessions[..|sessions|] == sessions;
  }

  lemma FlattenPrefix(docs: seq<Document>, i: nat, parseDate: string -> Option<CalendarDate>)
    requires i < |docs|
    ensures Flatten(docs[..i + 1], parseDate) == Flatten(docs[..i], parseDate) + DocumentRecords(docs[i], parseDate)
  {
    assert docs[..i + 1] == docs[..i] + [docs[i]];
    FlattenSnoc(docs[..i], docs[i], parseDate);
  }

  lemma SessionRecordsPrefix(date: Value, sessions: seq<RawSession>, j: nat, parseDate: string -> Option<CalendarDate>)
    requires j < |sessions|
    ensures var converted := ConvertSession(date, sessions[j], parseDate);
      SessionRecords(date, sessions[..j + 1], parseDate) ==
        SessionRecords(date, sessions[..j], parseDate) + (if converted.Some? then [converted.value] else [])
  {
    assert sessions[..j + 1] == sessions[..j] + [sessions[j]];
    SessionRecordsSnoc(date, sessions[..j], sessions[j], parseDate);
  }

  /** One more session adds its own record, if any, at the end. */
  lemma SessionRecordsSnoc(date: Value, sessions: seq<RawSession>, s: RawSession,
                           parseDate: string -> Option<CalendarDate>)
    ensures var converted := ConvertSession(date, s, parseDate);
      SessionRecords(date, sessions + [s], parseDate) ==
        SessionRecords(date, sessions, parseDate) + (if converted.Some? then [converted.value] else [])
  {
    assert (sessions + [s])[..|sessions|] == sessions;
  }

  lemma {:induction false} SessionRecordsAppend(date: Value, a: seq<RawSession>, b: seq<RawSession>,
                                                 parseDate: string -> Option<CalendarDate>)
    ensures SessionRecords(date, a + b, parseDate) == SessionRecords(date, a, parseDate) + SessionRecords(date, b, parseDate)
    decreases |b|
  {
    if |b| == 0 {
      assert a + b == a;
    } else {
      var init, last := b[..|b| - 1], b[|b| - 1];
      var converted := ConvertSession(date, last, parseDate);
      SessionRecordsAppendLast(date, a, b, parseDate);
      SessionRecordsAppend(date, a, init, parseDate);
      AppendAssociative(SessionRecords(date, a, parseDate), SessionRecords(date, init, parseDate),
                        if converted.Some? then [converted.value] else []);
    }
  }

  /** The last session of `b` contributes the last record, if any, of `a + b`. */
  lemma SessionRecordsAppendLast(date: Value, a: seq<RawSession>, b: seq<RawSession>,
                                 parseDate: string -> Option<CalendarDate>)
    requires |b| > 0
    ensures var converted := ConvertSession(date, b[|b| - 1], parseDate);
      SessionRecords(date, a + b, parseDate) ==
        SessionRecords(date, a + b[..|b| - 1], parseDate) + (if converted.Some? then [converted.value] else [])
  {
    assert a + b == (a + b[..|b| - 1]) + [b[|b| - 1]];
    SessionRecordsSnoc(date, a + b[..|b| - 1], b[|b| - 1], parseDate);
  }

  /**
   * Each session is judged on its own: a session that fails conversion is
   * skipped without disturbing the others, and a valid one yields exactly
   * its own record, in its place.
   */
  lemma SessionSkippedOrKept(date: Value, sessions: seq<RawSession>, k: nat,
                             parseDate: string -> Option<CalendarDate>)
    requires k < |sessions|
    ensures var converted := ConvertSession(date, sessions[k], parseDate);
      SessionRecords(date, sessions, parseDate) ==
        SessionRecords(date, sessions[..k], parseDate)
        + (if converted.Some? then [converted.value] else [])
        + SessionRecords(date, sessions[k + 1..], parseDate)
  {
    assert sessions == sessions[..k] + [sessions[k]] + sessions[k + 1..];
    SessionRecordsAppend(date, sessions[..k] + [sessions[k]], sessions[k + 1..], parseDate);
    SessionRecordsAppend(date, sessions[..k], [sessions[k]], parseDate);
    assert [sessions[k]][..0] == [];
  }

  /** One more document adds its own records at the end. */
  lemma FlattenSnoc(docs: seq<Document>, doc: Document, parseDate: string -> Option<CalendarDate>)
    ensures Flatten(docs + [doc], parseDate) == Flatten(docs, parseDate) + DocumentRecords(doc, parseDate)
  {
    assert (docs + [doc])[..|docs|] == docs;
  }

  lemma AppendAssociative<T>(x: seq<T>, y: seq<T>, z: seq<T>)
    ensures (x + y) + z == x + (y + z)
  {
  }

  /** Flattening keeps document order: the records of `a + b` are those of `a`, then those of `b`. */
  lemma {:induction false} FlattenAppend(a: seq<Document>, b: seq<Document>, parseDate: string -> Option<CalendarDate>)
    ensures Flatten(a + b, parseDate) == Flatten(a, parseDate) + Flatten(b, parseDate)
    decreases |b|
  {
    if |b| == 0 {
      assert a + b == a;
    } else {
      var init, last := b[..|b| - 1], b[|b| - 1];
      FlattenAppendLast(a, b, parseDate);
      FlattenAppend(a, init, parseDate);
      AppendAssociative(Flatten(a, parseDate), Flatten(init, parseDate), DocumentRecords(last, parseDate));
    }
  }

  /** The last document of `b` contributes the last records of `a + b`. */
  lemma FlattenAppendLast(a: seq<Document>, b: seq<Document>, parseDate: string -> Option<CalendarDate>)
    requires |b| > 0
    ensures Flatten(a + b, parseDate) == Flatten(a + b[..|b| - 1], parseDate) + DocumentRecords(b[|b| - 1], parseDate)
  {
    assert a + b == (a + b[..|b| - 1]) + [b[|b| - 1]];
    FlattenSnoc(a + b[..|b| - 1], b[|b| - 1], parseDate);
  }

  /** A document without a truthy date can be dropped without changing the records. */
  lemma UndatedDocumentIgnored(docs: seq<Document>, k: nat, parseDate: string -> Option<CalendarDate>)
    requires k < |docs|
    requires docs[k].date.None? || !Truthy(docs[k].date.value)
    ensures Flatten(docs, parseDate) == Flatten(docs[..k] + docs[k + 1..], parseDate)
  {
    var before, after := docs[..k], docs[k + 1..];
    var upTo := before + [docs[k]];
    assert docs == upTo + after;
    assert upTo[..|upTo| - 1] == before && upTo[|upTo| - 1] == docs[k];
    assert DocumentRecords(docs[k], parseDate) == [];
    assert Flatten(upTo, parseDate) == Flatten(before, parseDate);
    FlattenAppend(upTo, after, parseDate);
    FlattenAppend(before, after, parseDate);
  }

  lemma {:induction false} SessionRecordsDated(date: Value, sessions: seq<RawSession>,
                                               parseDate: string -> Option<CalendarDate>)
    ensures forall r :: r in SessionRecords(date, sessions, parseDate) ==>
      date == StrValue(r.date) && parseDate(r.date).Some? && r.weekday == parseDate(r.date).value.weekday
  {
    if |sessions| > 0 {
      SessionRecordsDated(date, sessions[..|sessions| - 1], parseDate);
    }
  }

  /**
   * Every record carries the date of a document it came from: a non-empty
   * string that parses, with that date's weekday.
   */
  lemma {:induction false} FlattenDated(docs: seq<Document>, parseDate: string -> Option<CalendarDate>)
    ensures forall r :: r in Flatten(docs, parseDate) ==>
      && r.date != ""
      && parseDate(r.date).Some? && r.weekday == parseDate(r.date).value.weekday
      && exists i :: 0 <= i < |docs| && docs[i].date == Some(StrValue(r.date))
  {
    if |docs| > 0 {
      var init := docs[..|docs| - 1];
      var last := docs[|docs| - 1];
      FlattenDated(init, parseDate);
      if last.date.Some? && Truthy(last.date.value) {
        SessionRecordsDated(last.date.value, last.sessions, parseDate);
      }
      forall r | r in Flatten(docs, parseDate)
        ensures exists i :: 0 <= i < |docs| && docs[i].date == Some(StrValue(r.date))
      {
        if r in Flatten(init, parseDate) {
          var i :| 0 <= i < |init| && init[i].date == Some(StrValue(r.date));
          assert docs[i] == init[i];
        } else {
          assert docs[|docs| - 1].date == Some(StrValue(r.date));
        }
      }
    }
  }

  // ------------------------------------------------------------- prediction

  /** What the regressor is asked about: the next session on the target date. */
  datatype Features = Features(sessionNumber: int, dayOfMonth: int, month: int, weekday: int)

  /** The fetch of the user's documents, which may raise. */
  datatype Fetch = FetchFailed | Fetched(documents: seq<Document>)

  /**
   * The nudge and the clamp: at least the last duration plus a minute, at
   * most 30, at least 15.
   */
  function Clamp(raw: real, lastDuration: real): (r: real)
    ensures MinDuration <= r <= TargetDuration
    ensures r >= lastDuration + Increment || r == TargetDuration
    ensures r >= raw || r == TargetDuration
    ensures MinDuration <= raw <= TargetDuration && raw >= lastDuration + Increment ==> r == raw
    ensures MinDuration <= lastDuration + Increment <= TargetDuration && lastDuration + Increment >= raw ==>
      r == lastDuration + Increment
    ensures raw >= TargetDuration || lastDuration + Increment >= TargetDuration ==> r == TargetDuration
    ensures raw <= MinDuration && lastDuration + Increment <= MinDuration ==> r == MinDuration
  {
    var recommended := if raw >= lastDuration + Increment then raw else lastDuration + Increment;
    var capped := if recommended <= TargetDuration then recommended else TargetDuration;
    if capped > MinDuration then capped else MinDuration
  }

  /**
   * The recommended next duration for `targetDate`: 25 when the fetch fails,
   * when there are no documents, when fewer than four records survive
   * cleaning, when the target date does not parse, or when the regressor
   * raises; otherwise the clamped prediction for session number last + 1.
   */
  function TrainAndPredict(fetch: Fetch, targetDate: string,
                           parseDate: string -> Option<CalendarDate>,
                           regress: (seq<Record>, Features) -> Option<real>): (r: real)
    ensures MinDuration <= r <= TargetDuration
    ensures fetch.FetchFailed? || fetch.documents == [] ==> r == FallbackDuration
    ensures fetch.Fetched? && |Flatten(fetch.documents, parseDate)| < MinRecords ==> r == FallbackDuration
    ensures fetch.Fetched? && parseDate(targetDate).None? ==> r == FallbackDuration
    ensures fetch.Fetched? && fetch.documents != [] && |Flatten(fetch.documents, parseDate)| >= MinRecords
            && parseDate(targetDate).Some? ==>
      var records := Flatten(fetch.documents, parseDate);
      var last := records[|records| - 1];
      var cal := parseDate(targetDate).value;
      var raw := regress(records, Features(last.sessionNumber + 1, cal.dayOfMonth, cal.month, cal.weekday));
      && (raw.None? ==> r == FallbackDuration)
      && (raw.Some? ==> r == Clamp(raw.value, last.durationCompleted))
      && (raw.Some? ==> r >= last.durationCompleted + Increment || r == TargetDuration)
  {
    match fetch
    case FetchFailed => FallbackDuration
    case Fetched(docs) =>
      if |docs| == 0 then FallbackDuration
      else
        var records := Flatten(docs, parseDate);
        if |records| < MinRecords then FallbackDuration
        else
          var last := records[|records| - 1];
          match parseDate(targetDate)
          case None => FallbackDuration
          case Some(cal) =>
            match regress(records, Features(last.sessionNumber + 1, cal.dayOfMonth, cal.month, cal.weekday))
            case None => FallbackDuration
            case Some(raw) => Clamp(raw, last.durationCompleted)
  }
}
