/**
 * The activity and rate bookkeeping of the performance tool's metrics reporter: the
 * suffix that the registry's meter names carry, the table of reported meters, the
 * activity check, the once-a-second console report and the closing summary.
 * Clocks and meter counts are parameters; the registries, the executor, the latency
 * timers and all text formatting are not part of this model.
 */
module PerformanceMetrics {
  import opened Wrappers

  // ---------------------------------------------------------------- strings

  /** `s.contains(p)`: p occurs in s at some position. */
  function Contains(s: string, p: string): bool
    decreases |s|
  {
    if |s| < |p| then false
    else s[..|p|] == p || Contains(s[1..], p)
  }

  /** An occurrence of p in s starts at position i. */
  lemma {:induction false} ContainsAt(s: string, p: string, i: nat)
    requires i + |p| <= |s| && s[i..i + |p|] == p
    ensures Contains(s, p)
    decreases i
  {
    if i > 0 {
      assert s[1..][i - 1..i - 1 + |p|] == s[i..i + |p|];
      ContainsAt(s[1..], p, i - 1);
    }
  }

  /**
   * A pattern without '.' occurs in a + b exactly when it occurs in a or in b, when b is
   * empty or starts with '.': no occurrence can straddle the boundary.
   */
  lemma {:induction false} ContainsSplit(a: string, b: string, p: string)
    requires |p| > 0 && '.' !in p
    requires b == [] || b[0] == '.'
    ensures Contains(a + b, p) <==> Contains(a, p) || Contains(b, p)
    decreases |a|
  {
    if a == [] {
      assert a + b == b;
    } else {
      assert (a + b)[1..] == a[1..] + b;
      ContainsSplit(a[1..], b, p);
      if |a| >= |p| {
        assert (a + b)[..|p|] == a[..|p|];
      } else if |a + b| >= |p| {
        assert (a + b)[..|p|][|a|] == '.';
      }
    }
  }

  /** `s.indexOf(c)`: the first position of c in s, or -1 when c does not occur. */
  function IndexOfChar(s: string, c: char): (i: int)
    ensures -1 <= i < |s|
    ensures i == -1 <==> c !in s
    ensures 0 <= i ==> s[i] == c && c !in s[..i]
  {
    if s == [] then -1
    else if s[0] == c then 0
    else
      var j := IndexOfChar(s[1..], c);
      assert s[1..][..if j < 0 then 0 else j] == s[1..1 + (if j < 0 then 0 else j)];
      if j == -1 then -1 else 1 + j
  }

  /**
   * The suffix the registry appends to every meter name (its tags): the key's tail from
   * its first '.', or "" when the key has none. The key is split into a dot-free head and
   * the suffix.
   */
  function MetricsSuffix(key: string): (r: string)
    ensures r == "" <==> '.' !in key
    ensures |r| <= |key| && key == key[..|key| - |r|] + r
    ensures '.' !in key[..|key| - |r|]
    ensures r != "" ==> r[0] == '.'
  {
    var index := IndexOfChar(key, '.');
    if index == -1 then "" else key[index..]
  }

  // ---------------------------------------------------------------- meters

  /** A reported meter: its registry name and the caption it is reported under. */
  datatype Meter = Meter(name: string, caption: string)

  /** The registry name, before its suffix, and the caption of each reported meter, in
      report order; the byte meters come last and only when byte rates are included. */
  function MeterTable(includeByteRates: bool): seq<(string, string)> {
    if includeByteRates then
      [("rabbitmqStreamPublished", "published"),
       ("rabbitmqStreamProducer_confirmed", "confirmed"),
       ("rabbitmqStreamConsumed", "consumed"),
       ("rabbitmqStreamWritten_bytes", "written bytes"),
       ("rabbitmqStreamRead_bytes", "read bytes")]
    else
      [("rabbitmqStreamPublished", "published"),
       ("rabbitmqStreamProducer_confirmed", "confirmed"),
       ("rabbitmqStreamConsumed", "consumed")]
  }

  /** The meters of the console report, in report order, their names carrying the
      registry's suffix. */
  function Meters(suffix: string, includeByteRates: bool): (r: seq<Meter>)
    ensures |r| == if includeByteRates then 5 else 3
    ensures forall k :: 0 <= k < |r| ==>
              r[k].name == MeterTable(includeByteRates)[k].0 + suffix && r[k].caption == MeterTable(includeByteRates)[k].1
    ensures forall j, k :: 0 <= j < k < |r| ==> r[j].caption != r[k].caption
  {
    var table := MeterTable(includeByteRates);
    seq(|table|, k requires 0 <= k < |table| => Meter(table[k].0 + suffix, table[k].1))
  }

  datatype RateFormat = MessageRate | ByteRate

  /** The console report picks a meter's format by its registry name. */
  function IntervalFormat(m: Meter): RateFormat {
    if Contains(m.name, "bytes") then ByteRate else MessageRate
  }

  /** The closing summary picks a meter's format by its caption. */
  function SummaryFormat(m: Meter): RateFormat {
    if Contains(m.caption, "bytes") then ByteRate else MessageRate
  }

  /** Every character of an occurring pattern occurs in the text. */
  lemma {:induction false} ContainsChar(s: string, p: string, c: char)
    requires Contains(s, p) && c in p
    ensures c in s
    decreases |s|
  {
    if s[..|p|] != p {
      ContainsChar(s[1..], p, c);
    }
  }

  /** A text without the letter 'y' cannot contain "bytes". */
  lemma NoBytes(s: string)
    requires 'y' !in s
    ensures !Contains(s, "bytes")
  {
    if Contains(s, "bytes") {
      ContainsChar(s, "bytes", 'y');
    }
  }

  /** A message meter, whose name and caption do not contain "bytes": the summary reports
      a message rate, and so does the console report unless the suffix contains "bytes". */
  lemma MessageMeter(head: string, suffix: string, caption: string)
    requires suffix == [] || suffix[0] == '.'
    requires !Contains(head, "bytes") && !Contains(caption, "bytes")
    ensures SummaryFormat(Meter(head + suffix, caption)) == MessageRate
    ensures IntervalFormat(Meter(head + suffix, caption)) == MessageRate <==> !Contains(suffix, "bytes")
  {
    ContainsSplit(head, suffix, "bytes");
  }

  /** A byte meter, whose name and caption end in "bytes": both reports use a byte rate. */
  lemma ByteMeter(head: string, suffix: string, caption: string)
    requires |head| >= 5 && head[|head| - 5..] == "bytes"
    requires |caption| >= 5 && caption[|caption| - 5..] == "bytes"
    ensures SummaryFormat(Meter(head + suffix, caption)) == ByteRate
    ensures IntervalFormat(Meter(head + suffix, caption)) == ByteRate
  {
    assert (head + suffix)[|head| - 5..|head|] == head[|head| - 5..];
    ContainsAt(head + suffix, "bytes", |head| - 5);
    assert caption[|caption| - 5..|caption|] == caption[|caption| - 5..];
    ContainsAt(caption, "bytes", |caption| - 5);
  }

  /**
   * The byte meters are reported as byte rates and the message meters as message rates in
   * the summary; the console report agrees on every meter exactly when the suffix does not
   * contain "bytes" (a tag that does turns the message meters into byte rates there).
   */
  lemma FormatsAgree(key: string, includeByteRates: bool)
    ensures var ms := Meters(MetricsSuffix(key), includeByteRates);
            (forall k :: 0 <= k < 3 ==> SummaryFormat(ms[k]) == MessageRate) &&
            (forall k :: 3 <= k < |ms| ==> SummaryFormat(ms[k]) == ByteRate && IntervalFormat(ms[k]) == ByteRate) &&
            ((forall k :: 0 <= k < |ms| ==> IntervalFormat(ms[k]) == SummaryFormat(ms[k])) <==>
             !Contains(MetricsSuffix(key), "bytes"))
  {
    var suffix := MetricsSuffix(key);
    FormatsBySuffix(suffix, includeByteRates);
  }

  lemma FormatsBySuffix(suffix: string, includeByteRates: bool)
    requires suffix == [] || suffix[0] == '.'
    ensures var ms := Meters(suffix, includeByteRates);
            (forall k :: 0 <= k < 3 ==> SummaryFormat(ms[k]) == MessageRate) &&
            (forall k :: 3 <= k < |ms| ==> SummaryFormat(ms[k]) == ByteRate && IntervalFormat(ms[k]) == ByteRate) &&
            ((forall k :: 0 <= k < |ms| ==> IntervalFormat(ms[k]) == SummaryFormat(ms[k])) <==>
             !Contains(suffix, "bytes"))
  {
    var ms := Meters(suffix, includeByteRates);
    MessageFormats(suffix, includeByteRates);
    ByteFormats(suffix, includeByteRates);
    if Contains(suffix, "bytes") {
      assert IntervalFormat(ms[0]) != SummaryFormat(ms[0]);
    }
  }

  lemma MessageFormats(suffix: string, includeByteRates: bool)
    requires suffix == [] || suffix[0] == '.'
    ensures var ms := Meters(suffix, includeByteRates);
            forall k :: 0 <= k < 3 ==>
              SummaryFormat(ms[k]) == MessageRate &&
              (IntervalFormat(ms[k]) == MessageRate <==> !Contains(suffix, "bytes"))
  {
    var ms := Meters(suffix, includeByteRates);
    var table := MeterTable(includeByteRates);
    forall k | 0 <= k < 3
      ensures SummaryFormat(ms[k]) == MessageRate
      ensures IntervalFormat(ms[k]) == MessageRate <==> !Contains(suffix, "bytes")
    {
      NoBytes(table[k].0);
      NoBytes(table[k].1);
      MessageMeter(table[k].0, suffix, table[k].1);
    }
  }

  lemma ByteFormats(suffix: string, includeByteRates: bool)
    ensures var ms := Meters(suffix, includeByteRates);
            forall k :: 3 <= k < |ms| ==> SummaryFormat(ms[k]) == ByteRate && IntervalFormat(ms[k]) == ByteRate
  {
    var ms := Meters(suffix, includeByteRates);
    var table := MeterTable(includeByteRates);
    forall k | 3 <= k < |ms|
      ensures SummaryFormat(ms[k]) == ByteRate && IntervalFormat(ms[k]) == ByteRate
    {
      ByteMeter(table[k].0, suffix, table[k].1);
    }
  }

  // ---------------------------------------------------------------- arithmetic

  function Abs(x: int): nat { if x < 0 then -x else x }

  /** Java's `long` division: the quotient truncated toward zero. */
  function Quot(a: int, b: int): int
    requires b != 0
  {
    var q := Abs(a) / Abs(b);
    if (a < 0) == (b < 0) then q else -q
  }

  /** Truncating division by a positive divisor: the floor for a non-negative dividend,
      and odd in the dividend. */
  lemma QuotSpec(a: int, b: int)
    requires b > 0
    ensures a >= 0 ==> 0 <= Quot(a, b) && Quot(a, b) * b <= a < Quot(a, b) * b + b
    ensures Quot(-a, b) == -Quot(a, b)
  {
    var q := Abs(a) / b;
    assert Abs(a) == q * b + Abs(a) % b;
  }

  /** `Duration.toMillis` for a non-negative nanosecond span: the floor of a millionth. */
  function Millis(nanos: int): int {
    nanos / 1_000_000
  }

  /**
   * The messages-per-second rate of one report interval, `1000 * (current - last) /
   * millis`; no rate when the interval is shorter than a millisecond (the division
   * throws).
   */
  function Rate(last: int, current: int, millis: int): (r: Option<int>)
    ensures r.Some? <==> millis != 0
  {
    if millis == 0 then None else Some(Quot(1000 * (current - last), millis))
  }

  /** A growing count over a positive interval gives the rate rounded down, and an
      unchanged count the rate 0. */
  lemma RateBounds(last: int, current: int, millis: int)
    requires millis > 0 && last <= current
    ensures var r := Rate(last, current, millis).value;
            0 <= r && r * millis <= 1000 * (current - last) < r * millis + millis &&
            (current == last ==> r == 0)
  {
    QuotSpec(1000 * (current - last), millis);
  }

  lemma MulMono(x: int, y: int, z: int)
    requires x <= y && 0 <= z
    ensures x * z <= y * z
  {
    assert y * z - x * z == (y - x) * z;
  }

  /** The summary's run length in milliseconds: the elapsed time, or one second when that
      is under a second. */
  function SummaryMillis(elapsedNanos: int): (r: int)
    ensures r >= 1000
    ensures elapsedNanos < 1_000_000_000 ==> r == 1000
    ensures elapsedNanos >= 1_000_000_000 ==> r == Millis(elapsedNanos)
  {
    if elapsedNanos / 1_000_000_000 <= 0 then 1000 else Millis(elapsedNanos)
  }

  /** The summary rate of a meter over the whole run. */
  function SummaryRate(count: int, elapsedNanos: int): int {
    Quot(1000 * count, SummaryMillis(elapsedNanos))
  }

  /** The summary rate is always defined, is the rate rounded down, and never exceeds the
      count itself since the run lasts at least a second. */
  lemma SummaryRateBounds(count: int, elapsedNanos: int)
    requires count >= 0
    ensures var m := SummaryMillis(elapsedNanos);
            var r := SummaryRate(count, elapsedNanos);
            0 <= r <= count && r * m <= 1000 * count < r * m + m
  {
    var m := SummaryMillis(elapsedNanos);
    var r := SummaryRate(count, elapsedNanos);
    QuotSpec(1000 * count, m);
    MulMono(1000, m, r);
  }

  datatype Line = Line(caption: string, format: RateFormat, rate: int)

  /** The rate part of the closing summary, one line per meter. */
  function Summary(meters: seq<Meter>, counts: seq<int>, elapsedNanos: int): (r: seq<Line>)
    requires |counts| == |meters|
    ensures |r| == |meters|
    ensures forall k :: 0 <= k < |r| ==> r[k].caption == meters[k].caption && r[k].format == SummaryFormat(meters[k])
  {
    seq(|meters|, k requires 0 <= k < |meters| =>
      Line(meters[k].caption, SummaryFormat(meters[k]), SummaryRate(counts[k], elapsedNanos)))
  }

  lemma SummaryLines(meters: seq<Meter>, counts: seq<int>, elapsedNanos: int, k: nat)
    requires |counts| == |meters| && k < |meters| && counts[k] >= 0
    ensures var r := Summary(meters, counts, elapsedNanos)[k].rate;
            var m := SummaryMillis(elapsedNanos);
            0 <= r <= counts[k] && r * m <= 1000 * counts[k] < r * m + m
  {
    SummaryRateBounds(counts[k], elapsedNanos);
  }

  // ---------------------------------------------------------------- activity

  datatype Activity = Activity(lastPublished: int, lastConsumed: int)

  /**
   * checkActivity: there is activity when either count moved since the last recorded
   * one; the recorded counts are replaced only then, so they always end up equal to the
   * current counts.
   */
  function ActivityStep(s: Activity, published: int, consumed: int): (r: (bool, Activity))
    ensures r.0 <==> published != s.lastPublished || consumed != s.lastConsumed
    ensures !r.0 ==> r.1 == s
    ensures r.1 == Activity(published, consumed)
  {
    if published != s.lastPublished || consumed != s.lastConsumed
    then (true, Activity(published, consumed))
    else (false, s)
  }

  /** A second check with unchanged counts finds no activity and changes nothing. */
  lemma ActivityIdempotent(s: Activity, published: int, consumed: int)
    ensures var (_, s1) := ActivityStep(s, published, consumed);
            ActivityStep(s1, published, consumed) == (false, s1)
  {
  }

  // ---------------------------------------------------------------- report tick

  datatype TickState = TickState(activity: Activity, lastTick: int, reportCount: nat, lastValues: map<string, int>)

  /** What one run of the reporting task does: a report, nothing (no activity), or an
      aborted report (the interval is too short to divide by). */
  datatype TickOutcome = Reported(lines: seq<Line>) | Quiet | Failed

  /** The last values after recording the current counts of the first n meters. */
  function Record(lastValues: map<string, int>, meters: seq<Meter>, current: seq<int>, n: nat): (r: map<string, int>)
    requires n <= |meters| <= |current|
    ensures lastValues.Keys <= r.Keys
  {
    if n == 0 then lastValues
    else Record(lastValues, meters, current, n - 1)[meters[n - 1].caption := current[n - 1]]
  }

  /** Every meter's caption has a recorded last value. */
  predicate Tracked(meters: seq<Meter>, lastValues: map<string, int>) {
    forall k :: 0 <= k < |meters| ==> meters[k].caption in lastValues
  }

  /** The report line of meter k over an interval of `millis` milliseconds. */
  function ReportLine(meters: seq<Meter>, lastValues: map<string, int>, current: seq<int>, millis: int, k: nat): Line
    requires millis != 0 && k < |meters| <= |current| && Tracked(meters, lastValues)
  {
    Line(meters[k].caption, IntervalFormat(meters[k]), Rate(lastValues[meters[k].caption], current[k], millis).value)
  }

  /** The report lines of all meters, in report order. */
  function ReportLines(meters: seq<Meter>, lastValues: map<string, int>, current: seq<int>, millis: int): (r: seq<Line>)
    requires millis != 0 && |meters| <= |current| && Tracked(meters, lastValues)
    ensures |r| == |meters| && forall k :: 0 <= k < |r| ==> r[k] == ReportLine(meters, lastValues, current, millis, k)
  {
    seq(|meters|, k requires 0 <= k < |meters| => ReportLine(meters, lastValues, current, millis, k))
  }

  /**
   * One run of the reporting task. When the check finds activity the tick time moves to
   * now and every meter is reported against its last value, which then becomes its
   * current count; a sub-millisecond interval makes the first division throw, which
   * aborts the run before any meter value or the report count is updated.
   */
  function TickStep(meters: seq<Meter>, s: TickState, now: int, published: int, consumed: int, current: seq<int>): (r: (TickOutcome, TickState))
    requires meters != [] && |current| == |meters| && Tracked(meters, s.lastValues)
  {
    var (act, a) := ActivityStep(s.activity, published, consumed);
    if !act then (Quiet, s.(activity := a, reportCount := s.reportCount + 1))
    else
      var millis := Millis(now - s.lastTick);
      if millis == 0 then (Failed, s.(activity := a, lastTick := now))
      else
        (Reported(ReportLines(meters, s.lastValues, current, millis)),
         TickState(a, now, s.reportCount + 1, Record(s.lastValues, meters, current, |meters|)))
  }

  /** Recording a later meter leaves the earlier recorded values as they are, when the
      labels are distinct. */
  lemma {:induction false} RecordValue(lastValues: map<string, int>, meters: seq<Meter>, current: seq<int>, n: nat, k: nat)
    requires n <= |meters| <= |current| && k < n
    requires forall i, j :: 0 <= i < j < |meters| ==> meters[i].caption != meters[j].caption
    ensures meters[k].caption in Record(lastValues, meters, current, n)
    ensures Record(lastValues, meters, current, n)[meters[k].caption] == current[k]
  {
    if k < n - 1 {
      RecordValue(lastValues, meters, current, n - 1, k);
    }
  }

  /** Recording the first n meters leaves the value of a later meter's caption as it was,
      when the captions are distinct. */
  lemma {:induction false} RecordUntouched(lastValues: map<string, int>, meters: seq<Meter>, current: seq<int>, n: nat, k: nat)
    requires n <= k < |meters| <= |current| && meters[k].caption in lastValues
    requires forall i, j :: 0 <= i < j < |meters| ==> meters[i].caption != meters[j].caption
    ensures Record(lastValues, meters, current, n)[meters[k].caption] == lastValues[meters[k].caption]
  {
    if n > 0 {
      RecordUntouched(lastValues, meters, current, n - 1, k);
    }
  }

  /**
   * The outcome of a run: a report exactly when a count moved and the interval lasts a
   * millisecond or more, each line carrying the meter's interval rate against its last
   * value, after which every meter's last value is its current count; a quiet run only
   * counts itself; an aborted run records the counts and the tick time but no meter value.
   */
  lemma TickOutcomes(meters: seq<Meter>, s: TickState, now: int, published: int, consumed: int, current: seq<int>)
    requires meters != [] && |current| == |meters| && Tracked(meters, s.lastValues)
    requires forall i, j :: 0 <= i < j < |meters| ==> meters[i].caption != meters[j].caption
    ensures var (out, s1) := TickStep(meters, s, now, published, consumed, current);
            var moved := published != s.activity.lastPublished || consumed != s.activity.lastConsumed;
            var millis := Millis(now - s.lastTick);
            s1.activity == Activity(published, consumed) &&
            (out.Quiet? <==> !moved) &&
            (out.Failed? <==> moved && millis == 0) &&
            (out.Quiet? ==> s1 == s.(activity := s1.activity, reportCount := s.reportCount + 1)) &&
            (out.Failed? ==> s1 == s.(activity := s1.activity, lastTick := now)) &&
            (out.Reported? ==>
               s1.lastTick == now && s1.reportCount == s.reportCount + 1 && |out.lines| == |meters| &&
               Tracked(meters, s1.lastValues) &&
               forall k :: 0 <= k < |meters| ==>
                 out.lines[k].caption == meters[k].caption &&
                 out.lines[k].format == IntervalFormat(meters[k]) &&
                 Some(out.lines[k].rate) == Rate(s.lastValues[meters[k].caption], current[k], millis) &&
                 s1.lastValues[meters[k].caption] == current[k])
  {
    var (out, s1) := TickStep(meters, s, now, published, consumed, current);
    if out.Reported? {
      forall k | 0 <= k < |meters|
        ensures s1.lastValues[meters[k].caption] == current[k]
      {
        RecordValue(s.lastValues, meters, current, |meters|, k);
      }
    }
  }

  /** A run right after a report, with the same counts, reports nothing. */
  lemma QuietAfterReport(meters: seq<Meter>, s: TickState, now: int, later: int, published: int, consumed: int, current: seq<int>)
    requires meters != [] && |current| == |meters| && Tracked(meters, s.lastValues)
    ensures var (_, s1) := TickStep(meters, s, now, published, consumed, current);
            Tracked(meters, s1.lastValues) &&
            TickStep(meters, s1, later, published, consumed, current).0 == Quiet
  {
  }

  // ---------------------------------------------------------------- the reporter

  /** The reporter's mutable state: the activity counts, and the console report's tick
      time, report count and last meter values. */
  class Reporter {
    const meters: seq<Meter>
    var lastPublishedCount: int
    var lastConsumedCount: int
    var lastTick: int
    var reportCount: nat
    var lastMetersValues: map<string, int>

    function State(): TickState
      reads this
    {
      TickState(Activity(lastPublishedCount, lastConsumedCount), lastTick, reportCount, lastMetersValues)
    }

    ghost predicate Valid()
      reads this
    {
      meters != [] && Tracked(meters, lastMetersValues) &&
      forall i, j :: 0 <= i < j < |meters| ==> meters[i].caption != meters[j].caption
    }

    /** Takes the suffix from the first meter key of the registry; both activity counts
        start at 0. `Valid()` is established by `Start`, which, as in the Java class,
        creates the reporting state. */
    constructor (key: string, includeByteRates: bool)
      ensures meters == Meters(MetricsSuffix(key), includeByteRates)
      ensures lastPublishedCount == 0 && lastConsumedCount == 0
    {
      meters := Meters(MetricsSuffix(key), includeByteRates);
      lastPublishedCount := 0;
      lastConsumedCount := 0;
    }

    /** start: the first tick is the start time, the report count is 1, and each meter's
        last value is its count at start. */
    method Start(startTime: int, current: seq<int>)
      requires meters != [] && |current| == |meters|
      requires forall i, j :: 0 <= i < j < |meters| ==> meters[i].caption != meters[j].caption
      modifies this
      ensures Valid()
      ensures State() == TickState(old(State()).activity, startTime, 1, Record(map[], meters, current, |meters|))
    {
      lastTick := startTime;
      reportCount := 1;
      lastMetersValues := map[];
      for k := 0 to |meters|
        invariant lastTick == startTime && reportCount == 1
        invariant lastPublishedCount == old(lastPublishedCount) && lastConsumedCount == old(lastConsumedCount)
        invariant lastMetersValues == Record(map[], meters, current, k)
      {
        lastMetersValues := lastMetersValues[meters[k].caption := current[k]];
      }
      forall k | 0 <= k < |meters| ensures meters[k].caption in lastMetersValues {
        RecordValue(map[], meters, current, |meters|, k);
      }
    }

    method CheckActivity(published: int, consumed: int) returns (activity: bool)
      modifies this
      ensures (activity, State().activity) == ActivityStep(old(State()).activity, published, consumed)
      ensures State() == old(State()).(activity := State().activity)
    {
      activity := lastPublishedCount != published || lastConsumedCount != consumed;
      if activity {
        lastPublishedCount := published;
        lastConsumedCount := consumed;
      }
    }

    /** Reports every meter against its last value over an interval of `millis`
        milliseconds, recording each current count; stops at the first meter when the
        rate cannot be computed. */
    method ReportMeters(millis: int, current: seq<int>) returns (lines: Option<seq<Line>>)
      requires Valid() && |current| == |meters|
      modifies this
      ensures millis == 0 ==> lines.None? && State() == old(State())
      ensures millis != 0 ==>
                lines == Some(ReportLines(meters, old(lastMetersValues), current, millis)) &&
                State() == old(State()).(lastValues := Record(old(lastMetersValues), meters, current, |meters|))
    {
      var acc: seq<Line> := [];
      var k := 0;
      while k < |meters|
        invariant k <= |meters|
        invariant lastTick == old(lastTick) && reportCount == old(reportCount)
        invariant lastPublishedCount == old(lastPublishedCount) && lastConsumedCount == old(lastConsumedCount)
        invariant k > 0 ==> millis != 0
        invariant lastMetersValues == Record(old(lastMetersValues), meters, current, k)
        invariant |acc| == k
        invariant forall j :: 0 <= j < k ==> acc[j] == ReportLine(meters, old(lastMetersValues), current, millis, j)
      {
        var caption := meters[k].caption;
        var rate := Rate(lastMetersValues[caption], current[k], millis);
        if rate.None? {
          return None;
        }
        assert lastMetersValues[caption] == old(lastMetersValues)[caption] by {
          RecordUntouched(old(lastMetersValues), meters, current, k, k);
        }
        acc := acc + [Line(caption, IntervalFormat(meters[k]), rate.value)];
        lastMetersValues := lastMetersValues[caption := current[k]];
        k := k + 1;
      }
      assert acc == ReportLines(meters, old(lastMetersValues), current, millis);
      lines := Some(acc);
    }

    /** One run of the reporting task, at time `now`, with the counts read from the
        registry. */
    method Tick(now: int, published: int, consumed: int, current: seq<int>) returns (out: TickOutcome)
      requires Valid() && |current| == |meters|
      modifies this
      ensures Valid()
      ensures (out, State()) == TickStep(meters, old(State()), now, published, consumed, current)
    {
      var activity := CheckActivity(published, consumed);
      if !activity {
        reportCount := reportCount + 1;
        return Quiet;
      }
      var millis := Millis(now - lastTick);
      lastTick := now;
      var lines := ReportMeters(millis, current);
      if lines.None? {
        return Failed;
      }
      reportCount := reportCount + 1;
      out := Reported(lines.value);
      forall k | 0 <= k < |meters| ensures meters[k].caption in lastMetersValues {
        assert meters[k].caption in old(lastMetersValues);
      }
    }
  }
}
