/**
 * The substitutions import_data applies to each event line that carries a
 * session key, in the source's order. Every one is a pure function of the
 * line, the session's identity and the install's fixed values.
 */
module Rewriter {
  import opened Php
  import opened Strings
  import opened Patterns
  import opened Sessions

  function IdField(): Pattern { Pattern("\"Id\":\"", LowerAlnumDash, "\"") }
  function SessionField(): Pattern { Pattern("\"session\":\"", LowerAlnumDash, "\"") }
  function TimestampField(): Pattern { Pattern("\"event_timestamp\":", Digits, "") }
  function DateField(): Pattern { Pattern("\"date\":\"", NotQuote, "\"") }
  function AudienceField(): Pattern { Pattern("\"audience\":\"", Digits, "\"") }
  function PostIdField(): Pattern { Pattern("\"postId\":\"", Digits, "\"") }
  function UrlField(): Pattern { Pattern("\"url\":\"", NotQuote, "\"") }

  /** Every pattern of the rewriter is one a greedy scan matches exactly as PCRE does. */
  lemma {:induction false} FieldsWellFormed()
    ensures WellFormed(IdField()) && WellFormed(SessionField()) && WellFormed(TimestampField())
    ensures WellFormed(DateField()) && WellFormed(AudienceField()) && WellFormed(PostIdField())
    ensures WellFormed(UrlField())
  {
  }

  function DateKey(): string { "\"date\":" }
  function AttributesOpen(): string { "\"attributes\":{" }
  function UpperAttributesOpen(): string { "\"Attributes\":{" }
  function PlaceholderOrigin(): string { "https://altis-dev.altis.dev" }
  function PlaceholderBlog(): string { "\"blogId\":\"1\"" }
  function PlaceholderNetwork(): string { "\"networkId\":\"1\"" }
  function ExperienceEvent(): string { "\"event_type\":\"experience" }
  function ConversionEvent(): string { "\"event_type\":\"conversion" }
  function FranceMarker(): string { "\"Country\":\"FR\"" }
  function JapanMarker(): string { "\"Country\":\"JP\"" }
  function PersonalizedClient(): string { "\"clientId\":\"2a7d3480-e525-4fc0-b27d-66d677dd3008\"" }
  function AbTestClient(): string { "\"clientId\":\"f7s8fgs9-e525-4fc0-b27d-66d677dd3008\"" }

  /**
   * The install's values that replace the placeholders. Page IDs are None
   * when the demo page does not exist; a URL of "" stands for a falsy
   * permalink. gmdate(DATE_ISO8601, ...) is taken as an opaque function.
   */
  datatype Context = Context(
    homeUrl: string, blogId: int, networkId: int,
    audiences: seq<int>,
    personalizedPage: Option<int>, personalizedUrl: string,
    abTestPage: Option<int>, abTestUrl: string,
    isoDate: int -> string)

  function DigitChar(d: nat): char
    requires d < 10
  {
    "0123456789"[d]
  }

  /** PHP's decimal rendering of a non-negative integer. */
  function NatToString(n: nat): string
    decreases n
  {
    if n < 10 then [DigitChar(n)] else NatToString(n / 10) + [DigitChar(n % 10)]
  }

  /** PHP's string conversion of an integer. */
  function IntToString(n: int): string {
    if n < 0 then "-" + NatToString(-n) else NatToString(n)
  }

  function DigitValue(c: char): nat
    requires '0' <= c <= '9'
  {
    (c as int - '0' as int) as nat
  }

  /** Reads a run of decimal digits. */
  function ParseNat(s: string): nat
    requires AllIn(s, Digits)
    decreases |s|
  {
    if s == [] then 0 else ParseNat(s[..|s| - 1]) * 10 + DigitValue(s[|s| - 1])
  }

  /** A non-negative timestamp is written as a digit run that reads back as the same number. */
  lemma {:induction false} NatToStringRoundTrip(n: nat)
    ensures NatToString(n) != [] && AllIn(NatToString(n), Digits)
    ensures ParseNat(NatToString(n)) == n
    decreases n
  {
    var s := NatToString(n);
    if n >= 10 {
      NatToStringRoundTrip(n / 10);
      assert s[..|s| - 1] == NatToString(n / 10);
    }
  }

  /** Stage 1: the visitor Id. */
  function ReplaceVisitor(line: string, visitor: Option<string>): string {
    if Truthy(visitor) then ReplaceField(line, IdField(), Fixed(visitor.value)) else line
  }

  /**
   * The visitor Id is replaced only when the session has a truthy visitor
   * id, and then every Id field gets it.
   */
  lemma {:induction false} ReplaceVisitorSpec(line: string, visitor: Option<string>)
    ensures !Truthy(visitor) ==> ReplaceVisitor(line, visitor) == line
    ensures Truthy(visitor) ==> ReplaceVisitor(line, visitor) == Render(Substitute(Scan(line, IdField()), Fixed(visitor.value)), IdField())
  {
    if Truthy(visitor) {
      ReplaceFieldIsSubstitution(line, IdField(), Fixed(visitor.value));
    }
  }

  /** The `"date":"..."` pair inserted after an opening attributes brace. */
  function DatePair(iso: string): string {
    "\"date\":\"" + iso + "\","
  }

  /** Stage 4: the ISO date of the session. */
  function SetDate(line: string, iso: string): string {
    if Contains(line, DateKey()) then ReplaceField(line, DateField(), Fixed(iso))
    else ReplaceAll(line, AttributesOpen(), AttributesOpen() + DatePair(iso))
  }

  /**
   * A line that already has a date key gets every date value overwritten;
   * any other line gets a date pair after every `"attributes":{`, and is
   * left alone when it has none.
   */
  lemma {:induction false} SetDateSpec(line: string, iso: string)
    ensures Contains(line, DateKey()) ==> SetDate(line, iso) == Render(Substitute(Scan(line, DateField()), Fixed(iso)), DateField())
    ensures !Contains(line, DateKey()) ==> SetDate(line, iso) == Implode(AttributesOpen() + DatePair(iso), Explode(line, AttributesOpen()))
    ensures !Contains(line, DateKey()) && !Contains(line, AttributesOpen()) ==> SetDate(line, iso) == line
  {
    if Contains(line, DateKey()) {
      ReplaceFieldIsSubstitution(line, DateField(), Fixed(iso));
    } else {
      ReplaceAllIsImplodeExplode(line, AttributesOpen(), AttributesOpen() + DatePair(iso));
      if !Contains(line, AttributesOpen()) {
        ReplaceAllAbsent(line, AttributesOpen(), AttributesOpen() + DatePair(iso));
      }
    }
  }

  /** Stages 5 and 6: the placeholder origin, blog id and network id become the install's. */
  function ReplaceInstall(line: string, ctx: Context): string {
    var withUrl := ReplaceAll(line, PlaceholderOrigin(), ctx.homeUrl);
    var withBlog := ReplaceAll(withUrl, PlaceholderBlog(), "\"blogId\":\"" + IntToString(ctx.blogId) + "\"");
    ReplaceAll(withBlog, PlaceholderNetwork(), "\"networkId\":\"" + IntToString(ctx.networkId) + "\"")
  }

  /** `$audiences[i]->ID ?? '$1'`. */
  function AudienceValue(ctx: Context, i: nat): Replacement {
    if i < |ctx.audiences| then Fixed(IntToString(ctx.audiences[i])) else Keep
  }

  /** `$page->ID ?? '$1'`. */
  function PageValue(page: Option<int>): Replacement {
    if page.Some? then Fixed(IntToString(page.value)) else Keep
  }

  /** `$url ?: '$1'`. */
  function UrlValue(url: string): Replacement {
    if Empty(url) then Keep else Fixed(url)
  }

  predicate IsExperienceEvent(line: string) {
    Contains(line, ExperienceEvent()) || Contains(line, ConversionEvent())
  }

  /** Point one demo block's events at a real page: its post ID, then its URL. */
  function RetargetPage(line: string, page: Option<int>, url: string): string {
    ReplaceField(ReplaceField(line, PostIdField(), PageValue(page)), UrlField(), UrlValue(url))
  }

  /** The French audience ids become the first demo audience's, then the Japanese ones the second's. */
  function RetargetAudiences(line: string, ctx: Context): string {
    var fr := if Contains(line, FranceMarker()) then ReplaceField(line, AudienceField(), AudienceValue(ctx, 0)) else line;
    if Contains(fr, JapanMarker()) then ReplaceField(fr, AudienceField(), AudienceValue(ctx, 1)) else fr
  }

  /** Events of the personalised block, then of the A/B test block, point at the demo pages. */
  function RetargetPages(line: string, ctx: Context): string {
    var personalized := if Contains(line, PersonalizedClient()) then RetargetPage(line, ctx.personalizedPage, ctx.personalizedUrl) else line;
    if Contains(personalized, AbTestClient()) then RetargetPage(personalized, ctx.abTestPage, ctx.abTestUrl) else personalized
  }

  /** Stage 7: only experience and conversion events are retargeted. */
  function RetargetEvents(line: string, ctx: Context): string {
    if IsExperienceEvent(line) then RetargetPages(RetargetAudiences(line, ctx), ctx) else line
  }

  /** With no demo audiences, no demo pages and no permalinks every captured value is kept. */
  lemma {:induction false} RetargetWithoutDemoContent(line: string, ctx: Context)
    requires ctx.audiences == [] && ctx.personalizedPage.None? && ctx.abTestPage.None?
    requires Empty(ctx.personalizedUrl) && Empty(ctx.abTestUrl)
    ensures RetargetEvents(line, ctx) == line
  {
    ReplaceKeep(line, AudienceField());
    ReplaceKeep(line, PostIdField());
    ReplaceKeep(line, UrlField());
  }

  /** Integers are written with digits and a minus sign only, and never as "". */
  lemma {:induction false} IntToStringNumeric(n: int)
    ensures IntToString(n) != []
    ensures forall i :: 0 <= i < |IntToString(n)| ==> InClass(IntToString(n)[i], Digits) || IntToString(n)[i] == '-'
  {
    if n < 0 {
      NatToStringRoundTrip(-n);
    } else {
      NatToStringRoundTrip(n);
    }
  }

  /** Writing an audience id into a line never makes it look Japanese. */
  lemma {:induction false} AudienceKeepsJapanAbsent(line: string, ctx: Context, i: nat)
    requires !Contains(line, JapanMarker())
    ensures !Contains(ReplaceField(line, AudienceField(), AudienceValue(ctx, i)), JapanMarker())
  {
    if i < |ctx.audiences| {
      var v := IntToString(ctx.audiences[i]);
      IntToStringNumeric(ctx.audiences[i]);
      assert forall k :: 0 <= k < |JapanMarker()| ==> !InClass(JapanMarker()[k], Digits) && JapanMarker()[k] != '-';
      ReplaceKeepsAbsent(line, AudienceField(), v, JapanMarker());
    } else {
      ReplaceKeep(line, AudienceField());
    }
  }

  /**
   * A French visitor's event gets every audience id replaced by the first
   * demo audience's id, and keeps its ids when there is no demo audience.
   */
  lemma {:induction false} FranceGetsFirstAudience(line: string, ctx: Context)
    requires Contains(line, FranceMarker()) && !Contains(line, JapanMarker())
    ensures RetargetAudiences(line, ctx) == ReplaceField(line, AudienceField(), AudienceValue(ctx, 0))
    ensures |ctx.audiences| == 0 ==> RetargetAudiences(line, ctx) == line
  {
    AudienceKeepsJapanAbsent(line, ctx, 0);
    ReplaceKeep(line, AudienceField());
  }

  /**
   * A Japanese visitor's event gets every audience id replaced by the second
   * demo audience's id, and keeps its ids when there is no second audience.
   */
  lemma {:induction false} JapanGetsSecondAudience(line: string, ctx: Context)
    requires !Contains(line, FranceMarker()) && Contains(line, JapanMarker())
    ensures RetargetAudiences(line, ctx) == ReplaceField(line, AudienceField(), AudienceValue(ctx, 1))
    ensures |ctx.audiences| <= 1 ==> RetargetAudiences(line, ctx) == line
  {
    ReplaceKeep(line, AudienceField());
  }

  function InitialEntry(key: string, value: string): string {
    "\"initial_" + key + "\":[\"" + value + "\"],"
  }

  /** `"k":["v"],`, or `"k":["v","e"],` when the extra value e is not empty. */
  function LatestEntry(key: string, value: string, extra: Option<string>): string {
    var joined := if Truthy(extra) then value + "\",\"" + extra.value else value;
    "\"" + key + "\":[\"" + joined + "\"],"
  }

  /** The first array_reduce: one first-touch entry per key, appended to the carry. */
  function ReduceInitial(carry: string, keys: seq<string>, utm: UtmParams): string
    decreases |keys|
  {
    if keys == [] then carry
    else ReduceInitial(carry + InitialEntry(keys[0], Lookup(utm.original, keys[0]).GetOr("")), keys[1..], utm)
  }

  /** The second array_reduce: one latest-touch entry per key. */
  function ReduceLatest(carry: string, keys: seq<string>, utm: UtmParams): string
    decreases |keys|
  {
    if keys == [] then carry
    else
      var entry := LatestEntry(keys[0], Lookup(utm.original, keys[0]).GetOr(""), Lookup(utm.extra, keys[0]));
      ReduceLatest(carry + entry, keys[1..], utm)
  }

  /** $utm_string. */
  function UtmString(utm: UtmParams): string {
    var keys := Keys(utm.original);
    ReduceInitial("", keys, utm) + ReduceLatest("", keys, utm)
  }

  /** The first-touch entries, pair by pair. */
  function FirstTouch(original: Assoc): seq<string> {
    seq(|original|, i requires 0 <= i < |original| => InitialEntry(original[i].0, original[i].1))
  }

  /** The latest-touch entries, pair by pair, each with its extra value looked up by key. */
  function LatestTouch(original: Assoc, extra: Assoc): seq<string> {
    seq(|original|, i requires 0 <= i < |original| => LatestEntry(original[i].0, original[i].1, Lookup(extra, original[i].0)))
  }

  function InitialByKey(keys: seq<string>, utm: UtmParams): seq<string> {
    seq(|keys|, i requires 0 <= i < |keys| => InitialEntry(keys[i], Lookup(utm.original, keys[i]).GetOr("")))
  }

  function LatestByKey(keys: seq<string>, utm: UtmParams): seq<string> {
    seq(|keys|, i requires 0 <= i < |keys| =>
      LatestEntry(keys[i], Lookup(utm.original, keys[i]).GetOr(""), Lookup(utm.extra, keys[i])))
  }

  lemma {:induction false} ReduceInitialIsConcat(carry: string, keys: seq<string>, utm: UtmParams)
    ensures ReduceInitial(carry, keys, utm) == carry + Concat(InitialByKey(keys, utm))
    decreases |keys|
  {
    if keys != [] {
      var e := InitialEntry(keys[0], Lookup(utm.original, keys[0]).GetOr(""));
      ReduceInitialIsConcat(carry + e, keys[1..], utm);
      assert InitialByKey(keys, utm) == [e] + InitialByKey(keys[1..], utm);
      ConcatCons(e, InitialByKey(keys[1..], utm));
    }
  }

  lemma {:induction false} ReduceLatestIsConcat(carry: string, keys: seq<string>, utm: UtmParams)
    ensures ReduceLatest(carry, keys, utm) == carry + Concat(LatestByKey(keys, utm))
    decreases |keys|
  {
    if keys != [] {
      var e := LatestEntry(keys[0], Lookup(utm.original, keys[0]).GetOr(""), Lookup(utm.extra, keys[0]));
      ReduceLatestIsConcat(carry + e, keys[1..], utm);
      assert LatestByKey(keys, utm) == [e] + LatestByKey(keys[1..], utm);
      ConcatCons(e, LatestByKey(keys[1..], utm));
    }
  }

  /**
   * The injected UTM string: for every key in order a first-touch entry
   * `"initial_k":["v"],`, then for every key a latest-touch entry that
   * also carries the extra value when there is a non-empty one.
   */
  lemma {:induction false} UtmStringEntries(utm: UtmParams)
    requires UniqueKeys(utm.original)
    ensures UtmString(utm) == Concat(FirstTouch(utm.original)) + Concat(LatestTouch(utm.original, utm.extra))
  {
    var keys := Keys(utm.original);
    ReduceInitialIsConcat("", keys, utm);
    ReduceLatestIsConcat("", keys, utm);
    InitialByKeyIsFirstTouch(utm);
    LatestByKeyIsLatestTouch(utm);
  }

  lemma {:induction false} InitialByKeyIsFirstTouch(utm: UtmParams)
    requires UniqueKeys(utm.original)
    ensures InitialByKey(Keys(utm.original), utm) == FirstTouch(utm.original)
  {
    var o := utm.original;
    var keys := Keys(o);
    forall i | 0 <= i < |o|
      ensures InitialByKey(keys, utm)[i] == FirstTouch(o)[i]
    {
      LookupUnique(o, i);
    }
  }

  lemma {:induction false} LatestByKeyIsLatestTouch(utm: UtmParams)
    requires UniqueKeys(utm.original)
    ensures LatestByKey(Keys(utm.original), utm) == LatestTouch(utm.original, utm.extra)
  {
    var o := utm.original;
    var keys := Keys(o);
    forall i | 0 <= i < |o|
      ensures LatestByKey(keys, utm)[i] == LatestTouch(o, utm.extra)[i]
    {
      LookupUnique(o, i);
    }
  }

  /** Stage 8: the persistent UTM parameters. */
  function InjectUtm(line: string, utm: UtmParams): string {
    if utm.original != [] then ReplaceAll(line, UpperAttributesOpen(), UpperAttributesOpen() + UtmString(utm)) else line
  }

  /** The UTM entries go after every `"Attributes":{`, only when the session has first-touch data. */
  lemma {:induction false} InjectUtmSpec(line: string, utm: UtmParams)
    ensures utm.original == [] ==> InjectUtm(line, utm) == line
    ensures utm.original != [] ==> InjectUtm(line, utm) == Implode(UpperAttributesOpen() + UtmString(utm), Explode(line, UpperAttributesOpen()))
  {
    if utm.original != [] {
      ReplaceAllIsImplodeExplode(line, UpperAttributesOpen(), UpperAttributesOpen() + UtmString(utm));
    }
  }

  /** The first three stages: the session's visitor, session id and timestamp. */
  function Identified(line: string, id: Identity): string {
    var withVisitor := ReplaceVisitor(line, id.visitorId);
    var withSession := ReplaceField(withVisitor, SessionField(), Fixed(id.sessionId));
    ReplaceField(withSession, TimestampField(), Fixed(IntToString(id.timeStamp)))
  }

  /**
   * The whole rewrite of one event line for the session identity id: the
   * visitor id, session id, timestamp, date, install placeholders,
   * experience targets and UTM entries, one after the other in the order
   * import_data applies them.
   */
  function RewriteLine(line: string, id: Identity, ctx: Context): string {
    var withTime := Identified(line, id);
    var withDate := SetDate(withTime, ctx.isoDate(id.timeStamp));
    var withInstall := ReplaceInstall(withDate, ctx);
    var retargeted := RetargetEvents(withInstall, ctx);
    InjectUtm(retargeted, id.utm)
  }

  /** The line gives the stages after the timestamp nothing to act on. */
  predicate LaterStagesIdle(line: string, id: Identity) {
    && !Contains(line, DateKey()) && !Contains(line, AttributesOpen())
    && !Contains(line, PlaceholderOrigin()) && !Contains(line, PlaceholderBlog()) && !Contains(line, PlaceholderNetwork())
    && !IsExperienceEvent(line)
    && (id.utm.original == [] || !Contains(line, UpperAttributesOpen()))
  }

  lemma {:induction false} DateUntouched(line: string, iso: string)
    requires !Contains(line, DateKey()) && !Contains(line, AttributesOpen())
    ensures SetDate(line, iso) == line
  {
    ReplaceAllAbsent(line, AttributesOpen(), AttributesOpen() + DatePair(iso));
  }

  lemma {:induction false} InstallUntouched(line: string, ctx: Context)
    requires !Contains(line, PlaceholderOrigin()) && !Contains(line, PlaceholderBlog()) && !Contains(line, PlaceholderNetwork())
    ensures ReplaceInstall(line, ctx) == line
  {
    ReplaceAllAbsent(line, PlaceholderOrigin(), ctx.homeUrl);
    ReplaceAllAbsent(line, PlaceholderBlog(), "\"blogId\":\"" + IntToString(ctx.blogId) + "\"");
    ReplaceAllAbsent(line, PlaceholderNetwork(), "\"networkId\":\"" + IntToString(ctx.networkId) + "\"");
  }

  lemma {:induction false} UtmUntouched(line: string, utm: UtmParams)
    requires utm.original == [] || !Contains(line, UpperAttributesOpen())
    ensures InjectUtm(line, utm) == line
  {
    if utm.original != [] {
      ReplaceAllAbsent(line, UpperAttributesOpen(), UpperAttributesOpen() + UtmString(utm));
    }
  }

  /**
   * A session line without a date key, an attributes object, a placeholder
   * of the demo install or an experience event: only its visitor id,
   * session id and timestamp values are rewritten. The condition is on the
   * line after those three stages, since the values they write in could
   * themselves spell a marker.
   */
  lemma {:induction false} OnlyIdentityRewritten(line: string, id: Identity, ctx: Context)
    requires LaterStagesIdle(Identified(line, id), id)
    ensures RewriteLine(line, id, ctx) == Identified(line, id)
  {
    var t := Identified(line, id);
    DateUntouched(t, ctx.isoDate(id.timeStamp));
    InstallUntouched(t, ctx);
    UtmUntouched(t, id.utm);
  }
}
