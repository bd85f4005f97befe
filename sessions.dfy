/**
 * The synthetic identity import_data gives a session the first time it sees
 * the session's key: a start time spread over the chosen number of days with
 * a weighted hour of day, a fresh session UUID, sometimes a fresh visitor UUID
 * and sometimes UTM attribution. All random values arrive in a SessionDraws.
 */
module Sessions {
  import opened Php
  import opened Sampler

  /** WordPress's DAY_IN_SECONDS and HOUR_IN_SECONDS, in milliseconds. */
  const DayMs: int := 86_400_000
  const HourMs: int := 3_600_000

  /** Relative traffic for each hour of the day, as listed in the source. */
  function HourlyTraffic(): seq<int> { [1, 1, 1, 2, 2, 3, 3, 5, 8, 9, 6, 5, 10, 12, 7, 4, 5, 7, 10, 12, 14, 10, 8, 3] }

  /** The weights the hour offset is drawn from: the table reversed, since the offset counts back from midnight. */
  function HourWeights(): seq<int> { ArrayReverse(HourlyTraffic()) }

  /** An associative array of strings, in insertion order. */
  type Assoc = seq<(string, string)>

  function Keys(a: Assoc): seq<string> {
    seq(|a|, i requires 0 <= i < |a| => a[i].0)
  }

  predicate UniqueKeys(a: Assoc) {
    forall i, j :: 0 <= i < j < |a| ==> a[i].0 != a[j].0
  }

  /** $a[$key], or null when the key is missing. */
  function Lookup(a: Assoc, key: string): (v: Option<string>)
    ensures v.None? <==> forall i :: 0 <= i < |a| ==> a[i].0 != key
    decreases |a|
  {
    if a == [] then None
    else if a[0].0 == key then Some(a[0].1)
    else Lookup(a[1..], key)
  }

  lemma {:induction false} LookupUnique(a: Assoc, i: nat)
    requires UniqueKeys(a) && i < |a|
    ensures Lookup(a, a[i].0) == Some(a[i].1)
    decreases |a|
  {
    if i > 0 {
      assert a[0].0 != a[i].0;
      assert a[1..][i - 1] == a[i];
      LookupUnique(a[1..], i - 1);
    }
  }

  function Campaigns(): seq<string> { ["Qrr", "Krr", "q2promo", "q3promo", "wordonthefuture"] }
  function Mediums(): seq<string> { ["social", "search", "newsletter"] }
  function MediumSources(): seq<seq<string>> {
    [["LinkedIn", "Twitter", "Facebook", "Instagram", "Snapchat", "Reddit"],
     ["google", "bing", "duckduckgo"],
     ["issue12", "issue6"]]
  }
  function Terms(): seq<string> { ["[UK]", "[US]", "[JP]"] }
  function Contents(): seq<string> { ["b2b", "b2c", "enterprise", "retail"] }

  function UtmKeys(): seq<string> { ["utm_campaign", "utm_medium", "utm_source", "utm_term", "utm_content"] }

  /** The array_rand picks of one generate_utm_data call. */
  datatype UtmChoice = UtmChoice(campaign: nat, medium: nat, source: nat, term: nat, content: nat)

  predicate ValidChoice(c: UtmChoice) {
    c.campaign < |Campaigns()| && c.medium < |Mediums()| && c.source < |MediumSources()[c.medium]|
    && c.term < |Terms()| && c.content < |Contents()|
  }

  /** The picks array_rand can make: each one a key of the array it picks from. */
  type UtmDraw = c: UtmChoice | ValidChoice(c) witness UtmChoice(0, 0, 0, 0, 0)

  /** generate_utm_data: campaign, medium, a source of that medium, term and content. */
  function GenerateUtmData(c: UtmChoice): (data: Assoc)
    requires ValidChoice(c)
    ensures |data| == 5
  {
    [("utm_campaign", Campaigns()[c.campaign]),
     ("utm_medium", Mediums()[c.medium]),
     ("utm_source", MediumSources()[c.medium][c.source]),
     ("utm_term", Terms()[c.term]),
     ("utm_content", Contents()[c.content])]
  }

  /**
   * Generated UTM data always has the five keys in the same order, no key
   * twice, a source that belongs to the chosen medium, and no empty value.
   */
  lemma {:induction false} GeneratedUtmData(c: UtmChoice)
    requires ValidChoice(c)
    ensures Keys(GenerateUtmData(c)) == UtmKeys()
    ensures UniqueKeys(GenerateUtmData(c))
    ensures GenerateUtmData(c)[2].1 in MediumSources()[c.medium]
    ensures forall i :: 0 <= i < 5 ==> !Empty(GenerateUtmData(c)[i].1)
  {
    var d := GenerateUtmData(c);
    assert Keys(d) == UtmKeys();
    assert forall i :: 0 <= i < |Campaigns()| ==> !Empty(Campaigns()[i]);
    assert forall i :: 0 <= i < |Mediums()| ==> !Empty(Mediums()[i]);
    assert forall m, i :: 0 <= m < |MediumSources()| && 0 <= i < |MediumSources()[m]| ==> !Empty(MediumSources()[m][i]);
    assert forall i :: 0 <= i < |Terms()| ==> !Empty(Terms()[i]);
    assert forall i :: 0 <= i < |Contents()| ==> !Empty(Contents()[i]);
  }

  /** $utm_params: the first-touch data and the data appended to it. */
  datatype UtmParams = UtmParams(original: Assoc, extra: Assoc)

  /** One entry of the $sessions table. */
  datatype Identity = Identity(timeStamp: int, sessionId: string, visitorId: Option<string>, utm: UtmParams)

  /**
   * The random values drawn for a new session, in the order the source
   * draws them: the two mt_rand values, the session UUID, the wp_rand(0, 10)
   * rolls, what the guarded wp_generate_uuid4 call returns and the
   * array_rand picks of the two guarded generate_utm_data calls.
   */
  datatype SessionDraws = SessionDraws(
    dayDraw: int, hourDraw: int, sessionUuid: string,
    visitorRoll: int, visitorUuid: string,
    utmRoll: int, original: UtmDraw, extraRoll: int, extra: UtmDraw)

  /** A draw in [1, sum(weights)] for both weighted picks, as mt_rand guarantees. */
  predicate ValidDraws(timeRange: int, d: SessionDraws) {
    1 <= d.dayDraw <= Sum(Fill(timeRange)) && 1 <= d.hourDraw <= Sum(HourWeights())
  }

  /** The day offset of a new session; PHP's null pick counts as 0. */
  function DayOffset(timeRange: int, d: SessionDraws): int {
    PickIndex(Fill(timeRange), d.dayDraw).GetOr(0)
  }

  function HourOffset(d: SessionDraws): int {
    PickIndex(HourWeights(), d.hourDraw).GetOr(0)
  }

  /** $time_stamp of a new session: midnight today, minus whole days, minus hours. */
  function SessionStart(timeRange: int, maxStart: int, d: SessionDraws): int {
    maxStart - DayOffset(timeRange, d) * DayMs - HourOffset(d) * HourMs
  }

  /** $visitor_id: a fresh UUID when wp_rand(0, 10) < 4, else false. */
  function NewVisitor(d: SessionDraws): Option<string> {
    if d.visitorRoll < 4 then Some(d.visitorUuid) else None
  }

  /** $utm_params: first-touch data when wp_rand(0, 10) < 4, extra data on top when a second roll is < 6. */
  function NewUtm(d: SessionDraws): UtmParams {
    if d.utmRoll < 4 then UtmParams(GenerateUtmData(d.original), if d.extraRoll < 6 then GenerateUtmData(d.extra) else [])
    else UtmParams([], [])
  }

  /** The identity a session key gets on first sight. */
  function NewIdentity(timeRange: int, maxStart: int, d: SessionDraws): Identity {
    Identity(SessionStart(timeRange, maxStart, d), d.sessionUuid, NewVisitor(d), NewUtm(d))
  }

  /**
   * A new session's first-touch data is either absent or generated: the five
   * UTM keys in order, none twice, and the same holds for its extra data.
   */
  lemma {:induction false} NewUtmKeys(d: SessionDraws)
    ensures NewUtm(d).original == [] || Keys(NewUtm(d).original) == UtmKeys()
    ensures NewUtm(d).extra == [] || Keys(NewUtm(d).extra) == UtmKeys()
    ensures UniqueKeys(NewUtm(d).original) && UniqueKeys(NewUtm(d).extra)
    ensures NewUtm(d).original == [] ==> NewUtm(d).extra == []
  {
    GeneratedUtmData(d.original);
    GeneratedUtmData(d.extra);
  }

  /** The new-session branch of import_data, calling get_random_weighted_element twice. */
  method NewSession(timeRange: int, maxStart: int, d: SessionDraws) returns (id: Identity)
    ensures id == NewIdentity(timeRange, maxStart, d)
  {
    var days := Fill(timeRange);
    var dayPick := WeightedPick(days, d.dayDraw);
    WeightedPickIsPickIndex(days, d.dayDraw, dayPick);
    var day := dayPick.GetOr(0);
    assert day == DayOffset(timeRange, d);
    var hours := HourWeights();
    var hourPick := WeightedPick(hours, d.hourDraw);
    WeightedPickIsPickIndex(hours, d.hourDraw, hourPick);
    var hour := hourPick.GetOr(0);
    assert hour == HourOffset(d);
    var stamp := maxStart - day * DayMs - hour * HourMs;
    assert stamp == SessionStart(timeRange, maxStart, d);
    var visitor: Option<string> := None;
    if d.visitorRoll < 4 {
      visitor := Some(d.visitorUuid);
    }
    var utm := UtmParams([], []);
    if d.utmRoll < 4 {
      utm := utm.(original := GenerateUtmData(d.original));
      if d.extraRoll < 6 {
        utm := utm.(extra := GenerateUtmData(d.extra));
      }
    }
    assert visitor == NewVisitor(d) && utm == NewUtm(d);
    id := Identity(stamp, d.sessionUuid, visitor, utm);
  }

  /** Sum(Fill(n)) is n, so a valid day draw lies in [1, time_range]. */
  lemma {:induction false} FillSum(n: int)
    requires n >= 1
    ensures Sum(Fill(n)) == n
  {
    PrefixSumOnes(Fill(n), n);
  }

  /** The day offset is in [0, time_range) and the hour offset in [0, 23]. */
  lemma {:induction false} OffsetBounds(timeRange: int, d: SessionDraws)
    requires timeRange >= 1 && ValidDraws(timeRange, d)
    ensures 0 <= DayOffset(timeRange, d) < timeRange
    ensures 0 <= HourOffset(d) <= 23
  {
    FillSum(timeRange);
    PickUniform(timeRange, d.dayDraw);
    PickPositive(HourWeights(), d.hourDraw);
  }

  /**
   * Every new session starts after min_session_start_time and no later
   * than max_session_start_time (today's midnight).
   */
  lemma {:induction false} SessionStartBounds(timeRange: int, maxStart: int, d: SessionDraws)
    requires timeRange >= 1 && ValidDraws(timeRange, d)
    ensures maxStart - timeRange * DayMs < SessionStart(timeRange, maxStart, d) <= maxStart
  {
    OffsetBounds(timeRange, d);
    var day, hour := DayOffset(timeRange, d), HourOffset(d);
    assert day * DayMs <= (timeRange - 1) * DayMs;
    assert hour * HourMs < DayMs;
  }
}
