/**
 * import_data: replays the recorded event log into per-day analytics
 * indexes. The log is the sequence of strings successive fgets calls
 * return, the end of file being reached right after the last one; the
 * random draws, the clock, date formatting and the search server's
 * responses are parameters of the job.
 */
module Importer {
  import opened Php
  import opened Strings
  import opened Patterns
  import opened Sampler
  import opened Sessions
  import opened Rewriter
  import opened Progress
  import opened Batching

  /**
   * One run of the import. `draws(k)` is the randomness of the k-th new
   * session, `maxStart` is today's midnight in milliseconds and `bulk`
   * says how batches are sized, addressed and answered.
   */
  datatype Job = Job(timeRange: int, maxStart: int, ctx: Context, draws: nat -> SessionDraws, bulk: Bulk)

  /** The session key of a line: none for an empty line or one without a session field. */
  function Key(line: string): (k: Option<string>)
    ensures k.Some? ==> !Empty(line) && k == FirstMatch(line, SessionField())
    ensures k.None? ==> Empty(line) || FirstMatch(line, SessionField()).None?
  {
    if Empty(line) then None else FirstMatch(line, SessionField())
  }

  /** $sessions after the first n lines. */
  function SessionsAfter(job: Job, file: seq<string>, n: nat): map<string, Identity>
    requires n <= |file|
    decreases n, 0
  {
    if n == 0 then map[] else SessionsThrough(job, file, n - 1)
  }

  /** $sessions once the line at position i is read: a new key gets the next session's draws. */
  function SessionsThrough(job: Job, file: seq<string>, i: nat): (r: map<string, Identity>)
    requires i < |file|
    ensures Key(file[i]).Some? ==> Key(file[i]).value in r
    decreases i, 1
  {
    var prev := SessionsAfter(job, file, i);
    match Key(file[i])
    case None => prev
    case Some(k) =>
      if k in prev then prev
      else prev[k := NewIdentity(job.timeRange, job.maxStart, job.draws(|prev|))]
  }

  /** The identity the line at position i is rewritten with. */
  function IdentityOf(job: Job, file: seq<string>, i: nat): Identity
    requires i < |file| && Key(file[i]).Some?
  {
    SessionsThrough(job, file, i)[Key(file[i]).value]
  }

  /**
   * What the line at position i comes to: an empty line is blank, a
   * non-empty line without a session field is skipped, and a session line
   * becomes its rewritten document, stamped with its session's start.
   */
  function OutcomeOf(job: Job, file: seq<string>, i: nat): (r: Outcome)
    requires i < |file|
    ensures r.Blank? <==> Empty(file[i])
    ensures r.Skipped? <==> !Empty(file[i]) && FirstMatch(file[i], SessionField()).None?
    ensures r.Event? <==> Key(file[i]).Some?
  {
    match Key(file[i])
    case None => if Empty(file[i]) then Blank else Skipped
    case Some(_) =>
      var id := IdentityOf(job, file, i);
      Event(RewriteLine(file[i], id, job.ctx), id.timeStamp)
  }

  /** What the first n lines of the log come to, in order. */
  function OutcomesUpTo(job: Job, file: seq<string>, n: nat): (outs: seq<Outcome>)
    requires n <= |file|
    ensures |outs| == n
    decreases n, 0
  {
    if n == 0 then [] else OutcomesThrough(job, file, n - 1)
  }

  /** What the lines up to and including position i come to. */
  function OutcomesThrough(job: Job, file: seq<string>, i: nat): (outs: seq<Outcome>)
    requires i < |file|
    ensures |outs| == i + 1
    decreases i, 2
  {
    OutcomesAppend(job, file, i)
  }

  /** The outcomes before position i, followed by that of the line at position i. */
  function OutcomesAppend(job: Job, file: seq<string>, i: nat): (outs: seq<Outcome>)
    requires i < |file|
    ensures |outs| == i + 1
    decreases i, 1
  {
    OutcomesUpTo(job, file, i) + [OutcomeOf(job, file, i)]
  }

  /** What every line of the log comes to. */
  function Outcomes(job: Job, file: seq<string>): (outs: seq<Outcome>)
    ensures |outs| == |file|
  {
    OutcomesUpTo(job, file, |file|)
  }

  lemma {:induction false} OutcomesUpToAt(job: Job, file: seq<string>, n: nat, i: nat)
    requires i < n <= |file|
    ensures OutcomesUpTo(job, file, n)[i] == OutcomeOf(job, file, i)
    decreases n
  {
    assert OutcomesUpTo(job, file, n) == OutcomesUpTo(job, file, n - 1) + [OutcomeOf(job, file, n - 1)]
      by {
        assert OutcomesUpTo(job, file, n) == OutcomesThrough(job, file, n - 1);
        assert OutcomesThrough(job, file, n - 1) == OutcomesAppend(job, file, n - 1);
      }
    if i < n - 1 {
      OutcomesUpToAt(job, file, n - 1, i);
    }
  }

  /** The outcome at position i is that of the line at position i. */
  lemma {:induction false} OutcomesAt(job: Job, file: seq<string>, i: nat)
    requires i < |file|
    ensures Outcomes(job, file)[i] == OutcomeOf(job, file, i)
  {
    OutcomesUpToAt(job, file, |file|, i);
  }

  /** Reading the line at position n touches only the entry of its own key, and only when it is new. */
  lemma {:induction false} SessionEntry(job: Job, file: seq<string>, n: nat, k: string)
    requires n < |file|
    ensures var prev := SessionsAfter(job, file, n);
      k in SessionsAfter(job, file, n + 1) <==> k in prev || Key(file[n]) == Some(k)
    ensures var prev := SessionsAfter(job, file, n);
      k in prev ==> SessionsAfter(job, file, n + 1)[k] == prev[k]
    ensures var prev := SessionsAfter(job, file, n);
      k !in prev && Key(file[n]) == Some(k) ==>
        SessionsAfter(job, file, n + 1)[k] == NewIdentity(job.timeRange, job.maxStart, job.draws(|prev|))
  {
    assert SessionsAfter(job, file, n + 1) == SessionsThrough(job, file, n);
  }

  /** The reading loop over the whole log. */
  function Replay(job: Job, file: seq<string>): Batch {
    Run(job.bulk, Outcomes(job, file), |file|)
  }


  /** A session key is in the table exactly when some line read so far carries it. */
  lemma {:induction false} SessionKeys(job: Job, file: seq<string>, n: nat, k: string)
    requires n <= |file|
    ensures k in SessionsAfter(job, file, n) <==> exists i :: 0 <= i < n && Key(file[i]) == Some(k)
    decreases n
  {
    if n > 0 {
      SessionKeys(job, file, n - 1, k);
      SessionEntry(job, file, n - 1, k);
      if k in SessionsAfter(job, file, n - 1) {
        var i :| 0 <= i < n - 1 && Key(file[i]) == Some(k);
        assert 0 <= i < n && Key(file[i]) == Some(k);
      } else if Key(file[n - 1]) == Some(k) {
        assert 0 <= n - 1 < n && Key(file[n - 1]) == Some(k);
      }
    }
  }

  /** Entries are never changed once made, only new ones added. */
  lemma {:induction false} SessionsGrow(job: Job, file: seq<string>, m: nat, n: nat, k: string)
    requires m <= n <= |file| && k in SessionsAfter(job, file, m)
    ensures k in SessionsAfter(job, file, n)
    ensures SessionsAfter(job, file, n)[k] == SessionsAfter(job, file, m)[k]
    decreases n - m
  {
    if m < n {
      SessionsGrow(job, file, m, n - 1, k);
      SessionEntry(job, file, n - 1, k);
    }
  }

  /**
   * The first line with a new key adds exactly one entry, made from the
   * next session's draws; a line with a known key adds nothing.
   */
  lemma {:induction false} SessionStep(job: Job, file: seq<string>, n: nat)
    requires n < |file| && Key(file[n]).Some?
    ensures var prev := SessionsAfter(job, file, n);
      Key(file[n]).value !in prev ==>
        |SessionsAfter(job, file, n + 1)| == |prev| + 1
        && IdentityOf(job, file, n) == NewIdentity(job.timeRange, job.maxStart, job.draws(|prev|))
    ensures var prev := SessionsAfter(job, file, n);
      Key(file[n]).value in prev ==> SessionsAfter(job, file, n + 1) == prev
  {
    assert SessionsAfter(job, file, n + 1) == SessionsThrough(job, file, n);
  }

  /** Two lines of the same session are rewritten with the same identity. */
  lemma {:induction false} SameSessionSameIdentity(job: Job, file: seq<string>, i: nat, j: nat)
    requires i <= j < |file| && Key(file[i]).Some? && Key(file[i]) == Key(file[j])
    ensures IdentityOf(job, file, i) == IdentityOf(job, file, j)
  {
    SessionsGrow(job, file, i + 1, j + 1, Key(file[i]).value);
  }

  /** The random source behaves as get_random_weighted_element's callers rely on. */
  ghost predicate ValidRandomness(job: Job) {
    forall k: nat :: ValidDraws(job.timeRange, job.draws(k))
  }

  /** Every session starts within the requested range before today's midnight. */
  lemma {:induction false} SessionTimesInRange(job: Job, file: seq<string>, n: nat, k: string)
    requires n <= |file| && job.timeRange >= 1 && ValidRandomness(job)
    requires k in SessionsAfter(job, file, n)
    ensures job.maxStart - job.timeRange * DayMs < SessionsAfter(job, file, n)[k].timeStamp <= job.maxStart
    decreases n
  {
    var prev := SessionsAfter(job, file, n - 1);
    SessionEntry(job, file, n - 1, k);
    if k in prev {
      SessionTimesInRange(job, file, n - 1, k);
    } else {
      SessionStartBounds(job.timeRange, job.maxStart, job.draws(|prev|));
    }
  }

  /** Every stored session's UTM data is absent or made by generate_utm_data, so no key occurs twice. */
  lemma {:induction false} SessionUtmGenerated(job: Job, file: seq<string>, n: nat, k: string)
    requires n <= |file| && k in SessionsAfter(job, file, n)
    ensures UniqueKeys(SessionsAfter(job, file, n)[k].utm.original)
    ensures SessionsAfter(job, file, n)[k].utm.original == [] || Keys(SessionsAfter(job, file, n)[k].utm.original) == UtmKeys()
    decreases n
  {
    var prev := SessionsAfter(job, file, n - 1);
    SessionEntry(job, file, n - 1, k);
    if k in prev {
      SessionUtmGenerated(job, file, n - 1, k);
    } else {
      NewUtmKeys(job.draws(|prev|));
    }
  }

  /**
   * The UTM string written into any session line of the log is all its
   * first-touch entries followed by all its latest-touch entries.
   */
  lemma {:induction false} SessionLineUtm(job: Job, file: seq<string>, i: nat)
    requires i < |file| && Key(file[i]).Some?
    ensures var utm := IdentityOf(job, file, i).utm;
      UtmString(utm) == Concat(FirstTouch(utm.original)) + Concat(LatestTouch(utm.original, utm.extra))
  {
    assert SessionsAfter(job, file, i + 1) == SessionsThrough(job, file, i);
    SessionUtmGenerated(job, file, i + 1, Key(file[i]).value);
    UtmStringEntries(IdentityOf(job, file, i).utm);
  }

  /** The midnights of the days whose indexes are created, newest first. */
  function IndexDays(job: Job): (days: seq<int>)
    ensures |days| == if job.timeRange <= 0 then 0 else job.timeRange
  {
    var n := if job.timeRange <= 0 then 0 else job.timeRange;
    seq(n, k requires 0 <= k < n => job.maxStart - k * DayMs)
  }

  /** One index per day, from today's midnight back while still after the range's start. */
  method CreateIndexes(job: Job) returns (names: seq<string>)
    ensures |names| == |IndexDays(job)|
    ensures forall k :: 0 <= k < |names| ==> names[k] == job.bulk.formatDay(IndexDays(job)[k])
  {
    var minStart := job.maxStart - job.timeRange * DayMs;
    var indexDate := job.maxStart;
    var count := if job.timeRange <= 0 then 0 else job.timeRange;
    names := [];
    while indexDate > minStart
      invariant 0 <= |names| <= count
      invariant indexDate == job.maxStart - |names| * DayMs
      invariant forall k :: 0 <= k < |names| ==> names[k] == job.bulk.formatDay(job.maxStart - k * DayMs)
      decreases indexDate - minStart
    {
      names := names + [job.bulk.formatDay(indexDate)];
      indexDate := indexDate - DayMs;
    }
  }

  /** The midnight starting the day that contains t, counted from maxStart. */
  function DayOf(maxStart: int, t: int): int {
    maxStart + ((t - maxStart) / DayMs) * DayMs
  }

  /**
   * A session drawn on the oldest day of the range at any hour but
   * midnight falls on the day before the oldest index that is created, so
   * its documents go to an index nothing created in advance.
   */
  lemma {:induction false} OldestDayHasNoIndex(job: Job, d: SessionDraws)
    requires job.timeRange >= 1 && ValidDraws(job.timeRange, d)
    requires DayOffset(job.timeRange, d) == job.timeRange - 1 && HourOffset(d) >= 1
    ensures DayOf(job.maxStart, SessionStart(job.timeRange, job.maxStart, d)) == job.maxStart - job.timeRange * DayMs
    ensures DayOf(job.maxStart, SessionStart(job.timeRange, job.maxStart, d)) !in IndexDays(job)
  {
    OffsetBounds(job.timeRange, d);
    var t := SessionStart(job.timeRange, job.maxStart, d);
    var r := DayMs - HourOffset(d) * HourMs;
    assert t == job.maxStart + (-job.timeRange) * DayMs + r;
    DayOfWithin(job.maxStart, t, -job.timeRange, r);
    BeforeIndexDays(job);
  }

  /** A time r into the day q days from maxStart belongs to that day. */
  lemma {:induction false} DayOfWithin(maxStart: int, t: int, q: int, r: int)
    requires 0 <= r < DayMs && t == maxStart + q * DayMs + r
    ensures DayOf(maxStart, t) == maxStart + q * DayMs
  {
    assert (q * DayMs + r) / DayMs == q;
  }

  /** The day time_range days before maxStart is not among the created indexes. */
  lemma {:induction false} BeforeIndexDays(job: Job)
    requires job.timeRange >= 1
    ensures job.maxStart - job.timeRange * DayMs !in IndexDays(job)
  {
    var days := IndexDays(job);
    forall k | 0 <= k < |days|
      ensures days[k] != job.maxStart - job.timeRange * DayMs
    {
      assert days[k] == job.maxStart - k * DayMs;
    }
  }

  /** The options import_data leaves behind for a log (None when the file cannot be opened). */
  function Finish(status: ImportStatus, job: Job, file: Option<seq<string>>): (r: ImportStatus)
    ensures !r.running
    ensures file.None? ==> r == status.(running := false)
    ensures file.Some? ==> r.total == |file.value|
    ensures file.Some? ==> r.failed == (if Replay(job, file.value).failure.Some? then Replay(job, file.value).failure else status.failed)
    ensures file.Some? ==> r.success == (Replay(job, file.value).failure.None? || status.success)
    ensures file.Some? ==> r.progress == StoredProgress(Replay(job, file.value), status.progress)
  {
    match file
    case None => status.(running := false)
    case Some(f) =>
      var b := Replay(job, f);
      var counted := status.(total := |f|, progress := StoredProgress(b, status.progress));
      match b.failure
      case Some(message) => counted.(failed := Some(message), running := false)
      case None => counted.(success := true, running := false)
  }

  /**
   * import_data as written when the log cannot be opened: the
   * E_USER_ERROR raised first is fatal, so the running flag is never
   * cleared again.
   */
  function FinishAsWritten(status: ImportStatus, job: Job, file: Option<seq<string>>): (r: ImportStatus)
    ensures file.None? ==> r == status.(running := true)
    ensures file.Some? ==> r == Finish(status, job, file)
  {
    if file.None? then status.(running := true) else Finish(status, job, file)
  }

  /**
   * As written, a missing log wedges the import: the options stay at
   * running with 100 lines and no progress, no form can start another
   * import, and the poll keeps reporting 0 of 100 without ever clearing
   * the running flag.
   */
  lemma {:induction false} MissingFileWedges(job: Job, form: Form, nonceOk: bool)
    ensures var s := FinishAsWritten(Started, job, None);
      s.running && s.total == InitialTotal && s.progress == 0 && !s.success && s.failed.None?
    ensures var s := FinishAsWritten(Started, job, None);
      Start(s, form, nonceOk) == (s, None)
    ensures var s := FinishAsWritten(Started, job, None);
      Poll(s, true) == (s, Report(InitialTotal, 0))
  {
  }

  /**
   * With the running flag cleared as the code after trigger_error
   * intends, the next form with a range and a valid nonce starts a new
   * import.
   */
  lemma {:induction false} MissingFileReleases(job: Job, form: Form)
    requires RequestedRange(form).Some?
    ensures !Finish(Started, job, None).running
    ensures Start(Finish(Started, job, None), form, true).1.Some?
  {
  }

  /**
   * From the form to the poll: an import started by the form that reads
   * the whole log without failure, ending on an empty or session line, is
   * reported successful by the next poll, every document delivered.
   */
  lemma {:induction false} ImportThenPollSucceeds(job: Job, f: seq<string>)
    requires f != [] && Replay(job, f).failure.None?
    requires Empty(f[|f| - 1]) || Key(f[|f| - 1]).Some?
    ensures Finish(Started, job, Some(f)).progress == Finish(Started, job, Some(f)).total
    ensures Flatten(Replay(job, f).posted) == Documents(Outcomes(job, f), |f|)
    ensures Poll(Finish(Started, job, Some(f)), true).0.success
    ensures Poll(Finish(Started, job, Some(f)), true).1 == Report(|f|, |f|)
  {
    LastNotSkipped(job, f);
    CompletedRun(job.bulk, Outcomes(job, f), |f|);
    FinishWithoutFailure(Started, job, f);
  }

  /**
   * A log whose last line is neither empty nor a session line: the final
   * batch is never sent, so although the import is flagged successful the
   * stored progress stays below the total the poll reports.
   */
  lemma {:induction false} ImportEndingOnSkippedLine(job: Job, f: seq<string>)
    requires f != [] && Run(job.bulk, Outcomes(job, f), |f| - 1).failure.None?
    requires !Empty(f[|f| - 1]) && FirstMatch(f[|f| - 1], SessionField()).None?
    ensures Replay(job, f).failure.None? && Finish(Started, job, Some(f)).success
    ensures Finish(Started, job, Some(f)).progress < Finish(Started, job, Some(f)).total
    ensures Poll(Finish(Started, job, Some(f)), true).1 == Report(|f|, Finish(Started, job, Some(f)).progress)
  {
    LastSkipped(job, f);
    TrailingSkippedStored(job.bulk, Outcomes(job, f), |f|);
    FinishWithoutFailure(Started, job, f);
  }

  /** A log whose last line is neither empty nor a session line ends on a skipped outcome. */
  lemma {:induction false} LastSkipped(job: Job, f: seq<string>)
    requires f != [] && !Empty(f[|f| - 1]) && FirstMatch(f[|f| - 1], SessionField()).None?
    ensures Outcomes(job, f)[|f| - 1].Skipped?
  {
    OutcomesAt(job, f, |f| - 1);
  }

  /** A log whose last line is empty or a session line does not end on a skipped outcome. */
  lemma {:induction false} LastNotSkipped(job: Job, f: seq<string>)
    requires f != [] && (Empty(f[|f| - 1]) || Key(f[|f| - 1]).Some?)
    ensures !Outcomes(job, f)[|f| - 1].Skipped?
  {
    OutcomesAt(job, f, |f| - 1);
  }

  /** An import that reads the whole log without failure leaves these options behind. */
  lemma {:induction false} FinishWithoutFailure(status: ImportStatus, job: Job, f: seq<string>)
    requires Replay(job, f).failure.None?
    ensures Finish(status, job, Some(f)) ==
      status.(total := |f|, progress := StoredProgress(Replay(job, f), status.progress), success := true, running := false)
  {
  }

  /**
   * An import stopped by a refused request: the stored progress counts
   * only the lines whose documents went out in the accepted requests,
   * which are all the requests before the refused last one.
   */
  lemma {:induction false} FailedImportProgress(job: Job, f: seq<string>)
    requires Replay(job, f).failure.Some?
    ensures var b := Replay(job, f);
      b.posted != [] && !Accepted(job.bulk.respond(|b.posted| - 1))
      && forall k :: 0 <= k < |b.posted| - 1 ==> Accepted(job.bulk.respond(k))
    ensures var b := Replay(job, f); var p := Finish(Started, job, Some(f)).progress;
      0 <= p <= |f| && Flatten(b.posted[..|b.posted| - 1]) == Documents(Outcomes(job, f), p)
  {
    RunFailures(job.bulk, Outcomes(job, f), |f|);
    RunAccounts(job.bulk, Outcomes(job, f), |f|);
  }

  /** A failure with a message is what the next poll reports, and it stops the running flag. */
  lemma {:induction false} ImportThenPollFails(job: Job, f: seq<string>)
    requires Replay(job, f).failure.Some? && Truthy(Replay(job, f).failure)
    ensures Poll(Finish(Started, job, Some(f)), true).1 == ImportFailed(Replay(job, f).failure.value)
    ensures !Poll(Finish(Started, job, Some(f)), true).0.running
    ensures !Poll(Finish(Started, job, Some(f)), true).0.success
  {
  }

  /**
   * A failure whose message is "" or "0" is stored but falsy, so the poll
   * does not report it: it reports the counts, and ends the import as a
   * success when the stored progress has reached the total.
   */
  lemma {:induction false} ImportThenPollFalsyFailure(job: Job, f: seq<string>)
    requires Replay(job, f).failure.Some? && !Truthy(Replay(job, f).failure)
    ensures Finish(Started, job, Some(f)).failed == Replay(job, f).failure
    ensures Poll(Finish(Started, job, Some(f)), true).1 == Report(|f|, Finish(Started, job, Some(f)).progress)
    ensures Finish(Started, job, Some(f)).progress >= |f| ==> Poll(Finish(Started, job, Some(f)), true).0.success
  {
  }

  /** Look the line's session up in $sessions, or start a new one from the next draws. */
  method SessionOf(job: Job, f: seq<string>, i: nat, key: string, sessions: map<string, Identity>)
    returns (id: Identity, sessions': map<string, Identity>)
    requires i < |f| && Key(f[i]) == Some(key) && sessions == SessionsAfter(job, f, i)
    ensures id == IdentityOf(job, f, i)
    ensures sessions' == SessionsAfter(job, f, i + 1)
  {
    assert SessionsAfter(job, f, i + 1) == SessionsThrough(job, f, i);
    if key in sessions {
      id, sessions' := sessions[key], sessions;
    } else {
      id := NewSession(job.timeRange, job.maxStart, job.draws(|sessions|));
      sessions' := sessions[key := id];
    }
  }

  /**
   * The first half of one iteration: skip a line without a session key,
   * otherwise look its session up in $sessions (or start a new one from
   * the next draws) and rewrite it.
   */
  method ReadLine(job: Job, f: seq<string>, i: nat, sessions: map<string, Identity>)
    returns (out: Outcome, sessions': map<string, Identity>)
    requires i < |f| && sessions == SessionsAfter(job, f, i)
    ensures out == Outcomes(job, f)[i]
    ensures sessions' == SessionsAfter(job, f, i + 1)
  {
    OutcomesAt(job, f, i);
    var line := f[i];
    sessions' := sessions;
    if Empty(line) {
      return Blank, sessions';
    }
    var key := FirstMatch(line, SessionField());
    if key.None? {
      return Skipped, sessions';
    }
    var id;
    id, sessions' := SessionOf(job, f, i, key.value, sessions);
    out := Event(RewriteLine(line, id, job.ctx), id.timeStamp);
  }

  /** Post the batch; when the server accepts it, store the progress and empty the batch. */
  method SendBatch(store: OptionStore, bulk: Bulk, ghost outs: seq<Outcome>, ghost b: Batch,
                   progress: nat, stamp: Option<int>, lines: seq<string>, posts: seq<Request>)
    returns (posts': seq<Request>, lines': seq<string>, failure: Option<string>)
    requires b.read == progress <= |outs| && b.failure.None? && b.pending == lines && b.posted == posts
    requires stamp == LastStamp(outs, b.read)
    modifies store
    ensures posts' == Flush(bulk, outs, b).posted && lines' == Flush(bulk, outs, b).pending
    ensures failure == Flush(bulk, outs, b).failure
    ensures failure.None? ==> store.progress == progress
    ensures failure.Some? ==> store.progress == old(store.progress)
    ensures bulk.respond(|posts|).TransportError? ==> failure == Some(bulk.respond(|posts|).message)
    ensures bulk.respond(|posts|).Http? && bulk.respond(|posts|).code > 299 ==> failure == Some(bulk.respond(|posts|).body)
    ensures failure.None? <==> Accepted(bulk.respond(|posts|))
    ensures store.total == old(store.total) && store.running == old(store.running)
    ensures store.failed == old(store.failed) && store.success == old(store.success)
  {
    posts' := posts + [Request(bulk.formatDay(stamp.GetOr(0)), lines)];
    lines' := lines;
    var response := bulk.respond(|posts|);
    match response
    case TransportError(message) =>
      failure := Some(message);
    case Http(code, body) =>
      if code > 299 {
        failure := Some(body);
      } else {
        failure := None;
        store.progress := progress;
        lines' := [];
      }
  }

  /**
   * The rest of one iteration once a line is read: a skipped line goes
   * straight to the next read, a session line joins the batch and sets
   * $time_stamp, and the batch is sent once it is full or the file ends.
   */
  method TakeOutcome(store: OptionStore, bulk: Bulk, ghost outs: seq<Outcome>, ghost previous: int, progress: nat,
                     out: Outcome, more: bool, stamp: Option<int>, lines: seq<string>, posts: seq<Request>)
    returns (stamp': Option<int>, lines': seq<string>, posts': seq<Request>, failure: Option<string>)
    requires 0 < progress <= |outs| && out == outs[progress - 1] && (more <==> progress < |outs|)
    requires Run(bulk, outs, progress - 1).failure.None? && stamp == LastStamp(outs, progress - 1)
    requires Run(bulk, outs, progress - 1).pending == lines && Run(bulk, outs, progress - 1).posted == posts
    requires store.progress == StoredProgress(Run(bulk, outs, progress - 1), previous)
    modifies store
    ensures stamp' == LastStamp(outs, progress) && failure == Run(bulk, outs, progress).failure
    ensures lines' == Run(bulk, outs, progress).pending && posts' == Run(bulk, outs, progress).posted
    ensures store.progress == StoredProgress(Run(bulk, outs, progress), previous)
    ensures store.total == old(store.total) && store.running == old(store.running)
    ensures store.failed == old(store.failed) && store.success == old(store.success)
  {
    ghost var before := Run(bulk, outs, progress - 1);
    RunNext(bulk, outs, progress - 1);
    stamp', lines', posts', failure := stamp, lines, posts, None;
    match out {
      case Skipped =>
        return;
      case Blank =>
      case Event(doc, time) =>
        stamp' := Some(time);
        lines' := lines + [doc];
    }
    if |lines'| < bulk.perPage && more {
      return;
    }
    ghost var batch := before.(read := progress, pending := lines');
    assert Run(bulk, outs, progress) == Flush(bulk, outs, batch);
    posts', lines', failure := SendBatch(store, bulk, outs, batch, progress, stamp', lines', posts);
  }

  /**
   * The reading loop: rewrite and collect the session events, send a
   * batch when it is full or the file ends, store the progress after
   * every accepted batch, and stop at the first failure.
   */
  method ReadEvents(store: OptionStore, job: Job, f: seq<string>) returns (posts: seq<Request>, failure: Option<string>)
    modifies store
    ensures posts == Replay(job, f).posted && failure == Replay(job, f).failure
    ensures store.progress == StoredProgress(Replay(job, f), old(store.progress))
    ensures store.total == old(store.total) && store.running == old(store.running)
    ensures store.failed == old(store.failed) && store.success == old(store.success)
  {
    ghost var outs := Outcomes(job, f);
    var progress := 0;
    var sessions: map<string, Identity> := map[];
    var stamp: Option<int> := None;
    var lines: seq<string> := [];
    posts := [];
    failure := None;
    while progress < |f|
      invariant progress <= |f| && failure.None?
      invariant sessions == SessionsAfter(job, f, progress)
      invariant stamp == LastStamp(outs, progress)
      invariant Run(job.bulk, outs, progress).failure.None?
      invariant Run(job.bulk, outs, progress).pending == lines && Run(job.bulk, outs, progress).posted == posts
      invariant store.progress == StoredProgress(Run(job.bulk, outs, progress), old(store.progress))
      invariant store.total == old(store.total) && store.running == old(store.running)
      invariant store.failed == old(store.failed) && store.success == old(store.success)
    {
      var out;
      out, sessions := ReadLine(job, f, progress, sessions);
      progress := progress + 1;
      stamp, lines, posts, failure := TakeOutcome(store, job.bulk, outs, old(store.progress), progress, out, progress < |f|, stamp, lines, posts);
      if failure.Some? {
        RunStops(job.bulk, outs, progress, |f|);
        return;
      }
    }
  }

  /** import_data itself: count the lines, create the indexes, then rewrite and send the events. */
  method ImportData(store: OptionStore, job: Job, file: Option<seq<string>>) returns (indexes: seq<string>, posts: seq<Request>)
    modifies store
    ensures store.Status() == Finish(old(store.Status()), job, file)
    ensures file.None? ==> indexes == [] && posts == []
    ensures file.Some? ==> |indexes| == |IndexDays(job)| && posts == Replay(job, file.value).posted
    ensures file.Some? ==> forall k :: 0 <= k < |indexes| ==> indexes[k] == job.bulk.formatDay(IndexDays(job)[k])
  {
    store.running := true;
    if file.None? {
      store.running := false;
      return [], [];
    }
    var f := file.value;

    var cursor := 0;
    var lineCount := 0;
    while cursor < |f|
      invariant cursor <= |f| && lineCount == cursor
    {
      cursor := cursor + 1;
      lineCount := lineCount + 1;
    }
    store.total := lineCount;

    indexes := CreateIndexes(job);

    var failure;
    posts, failure := ReadEvents(store, job, f);
    if failure.Some? {
      store.failed := failure;
    } else {
      store.success := true;
    }
    store.running := false;
  }
}
