# Altis Analytics demo data importer, in Dafny

This project models the core of `inc/namespace.php` from the Altis Analytics
demo tools. That code replays a recorded log of analytics events into
per-day Elasticsearch indexes. Each event is rewritten so it looks recent
and belongs to the current install. The model covers:

- **The weighted pick** `get_random_weighted_element` (module `Sampler`). The
  `mt_rand` draw is a parameter. The loop is a method proved against a
  prefix-sum function `PickIndex`, and lemmas give its range, positivity and exact
  distribution.
- **The session table** of `import_data` (modules `Sessions` and `Importer`).
  A new session key gets a start time, a session UUID, sometimes a visitor
  UUID and sometimes UTM data, all drawn from a `SessionDraws` value. Later
  lines with the same key reuse that identity.
- **The line rewrite** (modules `Patterns`, `Strings` and `Rewriter`).
  - Every `preg_replace`/`preg_match` pattern of the importer is a
    prefix, a run of a character class and a terminator. It is matched the
    way PCRE does, left to right without overlap.
  - `/"attributes":{/` has no character class, so it is a literal
    replace-all of `"attributes":{`.
  - `str_replace` is a literal replace-all.
  - The UTM string is the two `array_reduce` folds.
- **The reading and batching loop** (modules `Batching` and `Importer`). The log
  is the sequence of lines successive `fgets` calls return. The bulk
  requests are answered by a `respond` parameter. The loop is a method whose
  state (`$progress`, `$lines`, the requests made, the stored progress) is
  proved equal to the function `Run` over the line outcomes.
- **The progress options** (module `Progress`). They are a class whose fields
  `handle_request`, `ajax_get_progress` and `import_data` update in place, each
  proved against a function on the option values.

Two behaviours of the code are kept as written:

- A non-empty line without a session key `continue`s past the flush check.
  When such a line is the last of the log, the final batch is never sent,
  yet the import is flagged successful (`Importer.ImportEndingOnSkippedLine`).
- A bulk request goes to the index of the last session line read, whatever
  sessions its other documents belong to (`Batching.LastStampIsLast`).

The index loop creates an index for today and for each of the `time_range - 1`
days before it. A session drawn on the oldest day at any hour but midnight
lands one day earlier, a day with no index created in advance
(`Importer.OldestDayHasNoIndex`).

The documentation comment of `import_data` says visitor ids are regenerated
40% of the time. The code's test `wp_rand( 0, 10 ) < 4` succeeds for 4 of 11
values. The model follows the code: the roll is a parameter compared with 4.

## Model

| member | source | states |
|---|---|---|
| Sampler.WeightedPick | inc/namespace.php:480-490 | The loop returns the least index whose running weight total reaches the draw, or null when no total does. |
| Sampler.PickIndex | inc/namespace.php:480-490 | The pick as a function: the least covering index, or none when no running total reaches the draw. |
| Sampler.WeightedPickIsPickIndex | inc/namespace.php:484-489 | Any result meeting the loop's contract is the function's pick, so the two agree. |
| Sampler.PickPositive | inc/namespace.php:482-489 | For a draw in [1, sum], a pick exists and it has a positive weight, so a zero weight is never chosen. |
| Sampler.PickUniform | inc/namespace.php:301 | With `array_fill(0, n, 1)` the draw r picks day r - 1. |
| Sampler.PickDistribution | inc/namespace.php:472-490 | Exactly weight[i] of the sum equally likely draws pick index i. |
| Sampler.Fill | inc/namespace.php:301 | For n >= 0, `array_fill(0, n, 1)` has n ones. |
| Sessions.GenerateUtmData | inc/namespace.php:146-198 | The generated UTM data has five entries. |
| Sessions.SessionStart | inc/namespace.php:301-303 | Definition: today's midnight minus the picked days and hours; see `Sessions.SessionStartBounds`. |
| Sessions.NewVisitor | inc/namespace.php:308-312 | Definition: a fresh UUID when the roll is below 4, else false; see `Sessions.NewSession`. |
| Sessions.NewUtm | inc/namespace.php:314-324 | Definition: generated first-touch data when the roll is below 4, with extra data when a second roll is below 6; see `Sessions.NewUtmKeys`. |
| Sessions.NewIdentity | inc/namespace.php:299-333 | Definition: the identity a new session key is stored with; see `Sessions.NewSession` and `Importer.SessionStep`. |
| Sessions.NewUtmKeys | inc/namespace.php:315-325 | A new session's first-touch and latest-touch data are each empty or a generate_utm_data result with the five UTM keys once each, and latest-touch data only comes with first-touch data. |
| Sessions.GeneratedUtmData | inc/namespace.php:191-197 | The keys are the five UTM keys in order, with no duplicate; the source belongs to the chosen medium; no value is empty. |
| Sessions.Lookup | inc/namespace.php:384 | `$a[$key]` is null exactly when no entry has the key. |
| Sessions.LookupUnique | inc/namespace.php:384-389 | With unique keys, looking up an entry's key gives that entry's value. |
| Sessions.NewSession | inc/namespace.php:299-332 | The new-session branch, with both weighted picks as loops, builds the identity `NewIdentity` gives. |
| Sessions.FillSum | inc/namespace.php:301 | The day weights sum to time_range, so a valid day draw lies in [1, time_range]. |
| Sessions.OffsetBounds | inc/namespace.php:301-302 | The day offset is in [0, time_range) and the hour offset in [0, 23]. |
| Sessions.SessionStartBounds | inc/namespace.php:253-303 | A new session starts after min_session_start_time and no later than today's midnight. |
| Importer.Key | inc/namespace.php:287-292 | A line has a session key exactly when it is non-empty and the session pattern matches it. |
| Importer.SessionsAfter | inc/namespace.php:283-333 | Definition: `$sessions` after the first n lines; see `Importer.SessionKeys` and `Importer.SessionsGrow`. |
| Importer.SessionsThrough | inc/namespace.php:294-332 | After a session line is read, its key is in `$sessions`. |
| Importer.SessionEntry | inc/namespace.php:294-332 | Reading a line adds only its own key, and only when it is new; existing entries stay as they are. |
| Importer.SessionKeys | inc/namespace.php:294-332 | A key is in `$sessions` exactly when some line read so far carries it. |
| Importer.SessionsGrow | inc/namespace.php:294-298 | Entries are never changed or removed by later lines. |
| Importer.SessionStep | inc/namespace.php:299-332 | The first line with a key adds exactly one entry, built from the next session's draws; a known key adds nothing. |
| Importer.SameSessionSameIdentity | inc/namespace.php:294-298 | Two lines of the same session are rewritten with the same timestamp, session id, visitor id and UTM data. |
| Importer.SessionTimesInRange | inc/namespace.php:253-303 | Every stored session starts within the requested range before today's midnight. |
| Importer.OutcomeOf | inc/namespace.php:283-400 | An empty line is blank, a non-empty line without a session match is skipped, and exactly the lines with a session key become events. |
| Importer.Outcomes | inc/namespace.php:283-400 | One outcome per line of the log; see `Importer.OutcomesAt`. |
| Importer.Replay | inc/namespace.php:283-445 | Definition: the reading loop over the whole log; see `Importer.ReadEvents` and `Batching.RunAccounts`. |
| Importer.OutcomesAt | inc/namespace.php:283-400 | The outcome at each position is that of the line at that position. |
| Importer.SessionUtmGenerated | inc/namespace.php:294-333 | Every stored session's first-touch UTM data is empty or has the five UTM keys, each exactly once. |
| Importer.SessionLineUtm | inc/namespace.php:383-394 | The UTM string written into any session line is all its first-touch entries followed by all its latest-touch entries. |
| Importer.SessionOf | inc/namespace.php:294-333 | A known key gets its stored identity; a new one gets the next session's identity and is stored, as `SessionsAfter` says. |
| Importer.ReadLine | inc/namespace.php:283-333 | One read classifies the line and updates `$sessions` as `Outcomes` and `SessionsAfter` say. |
| Importer.SendBatch | inc/namespace.php:416-444 | The batch is posted and gets the next response. A WP_Error fails with its message, a status code above 299 fails with the body, and only any other response stores the progress and empties the batch. A failure stores nothing. |
| Importer.TakeOutcome | inc/namespace.php:396-445 | The rest of one iteration takes the loop's state, `$time_stamp` and the stored progress one step along `Run`. |
| Importer.ReadEvents | inc/namespace.php:283-445 | The whole loop makes exactly the requests `Replay` gives, stops with its failure, and stores its progress; no other option changes. |
| Importer.CreateIndexes | inc/namespace.php:261-275 | One index per day, newest first, time_range of them (none when time_range is not positive). |
| Importer.IndexDays | inc/namespace.php:261-275 | The days indexed number time_range, and none when time_range is not positive. |
| Importer.OldestDayHasNoIndex | inc/namespace.php:261-303 | A session on the oldest day at any hour but midnight falls on the day before the oldest index created. |
| Importer.ImportData | inc/namespace.php:213-462 | import_data leaves the options `Finish` gives, creates the indexes and makes the requests of the loop. |
| Importer.Finish | inc/namespace.php:213-462 | Running is false on every path, the missing-file path included (as the code after its fatal `trigger_error` intends; see Findings). A missing file changes nothing else. Otherwise total is the line count, progress is the last progress stored, a failure records its message, and success is set only when the loop ends without failure. |
| Importer.FinishAsWritten | inc/namespace.php:222-227 | As written, a missing file leaves running set, because the `E_USER_ERROR` ends the request before the option is cleared. |
| Importer.MissingFileWedges | inc/namespace.php:85-87 | After a missing file, as written, the options stay at running with 100/0: no form starts another import, and the poll reports 0 of 100 without clearing running. |
| Importer.MissingFileReleases | inc/namespace.php:225-227 | With running cleared after a missing file, the next form with a range and a valid nonce schedules an import. |
| Importer.FinishWithoutFailure | inc/namespace.php:447-462 | A loop that ends without failure records the line count, the stored progress and success, and clears running. |
| Importer.ImportThenPollSucceeds | inc/namespace.php:66-462 | After a start and an import without failure whose log ends on an empty or session line, the stored progress equals the total, every document was delivered in order, and the next poll reports success. |
| Importer.ImportEndingOnSkippedLine | inc/namespace.php:398-406 | A log ending on a non-empty line without a session is flagged successful, yet its stored progress stays below the total that the poll reports. |
| Importer.LastSkipped | inc/namespace.php:287-400 | A last line that is non-empty and has no session match is skipped. |
| Importer.LastNotSkipped | inc/namespace.php:287-400 | A last line that is empty or has a session key is not skipped. |
| Importer.ImportThenPollFails | inc/namespace.php:429-462 | A refused or failed request whose message is truthy (not "" or "0") is what the next poll reports, and the poll clears running and leaves success unset. |
| Importer.ImportThenPollFalsyFailure | inc/namespace.php:124-133 | A failure whose message is "" or "0" is stored but not reported: the poll reports the counts, and flags success once progress has reached the total. |
| Importer.FailedImportProgress | inc/namespace.php:429-459 | An import stopped by a refused request stored only the progress of the accepted requests, which are all the earlier ones: their documents are exactly those of the lines up to the stored progress. |
| Batching.BulkBody | inc/namespace.php:412-423 | Definition: the ND-JSON body of a bulk request; see `Batching.BulkBodyShape`. |
| Batching.BulkBodyShape | inc/namespace.php:411-423 | The bulk body puts an action line before every document and ends with a newline. |
| Batching.LastStampIsLast | inc/namespace.php:409 | The index date comes from the last session line read so far, and it is undefined before any. |
| Batching.Flush | inc/namespace.php:410-444 | A post appends one request to the last session's day index. A WP_Error fails with its message and a status code above 299 with the body. Any other response stores the lines read and empties the batch; a failure keeps both. |
| Batching.Refusal | inc/namespace.php:429-435 | A response raises an exception exactly when it is a WP_Error or has a status code above 299. |
| Batching.RunFailures | inc/namespace.php:429-455 | The loop fails exactly when some request is refused. The refused request is then the last one made, every earlier one was accepted, and the failure is its message. |
| Batching.FlushCheck | inc/namespace.php:403-406 | Definition: a batch is sent once it holds per_page documents or the file has ended; see `Batching.BatchSizes`. |
| Batching.Step | inc/namespace.php:283-406 | Every iteration reads exactly one line. |
| Batching.Run | inc/namespace.php:283-445 | The loop has read all n lines unless it stopped on a failure. |
| Batching.RunStops | inc/namespace.php:429-435 | Once a request fails, nothing changes any more. |
| Batching.StoredMonotone | inc/namespace.php:404-444 | The stored progress never decreases as lines are read, and once stored it stays stored. |
| Batching.RunAccounts | inc/namespace.php:396-444 | No document is lost, duplicated or reordered: sent plus pending documents are the documents read, and the sent ones are those up to the stored progress. After a failure, the requests before the refused one hold the documents up to the stored progress. |
| Batching.BatchSizes | inc/namespace.php:403-406 | Every request holds per_page documents, except one sent when the file ends, which holds at most that many. |
| Batching.CompletedRun | inc/namespace.php:403-445 | A run that reads every line without failure and does not end on a skipped line stores the line count, leaves no batch, and sent every document. |
| Batching.TrailingSkippedLine | inc/namespace.php:398-400 | A skipped last line only advances the read count, so the stored progress stays below the line count. |
| Batching.TrailingSkippedStored | inc/namespace.php:398-406 | The same, as the loop's result: no failure and a stored progress short of the line count. |
| Strings.ReplaceAll | inc/namespace.php:354-358 | Definition: `str_replace`; see `Strings.ReplaceAllIsImplodeExplode` and `Strings.ReplaceAllAbsent`. |
| Strings.ReplaceAllIsImplodeExplode | inc/namespace.php:354-358 | `str_replace` equals imploding the pieces between the searched string with the replacement. |
| Strings.ReplaceAllAbsent | inc/namespace.php:354-358 | `str_replace` leaves a subject without the searched string unchanged. |
| Patterns.ReplaceField | inc/namespace.php:337-348 | Definition: `preg_replace` with a field pattern; see `Patterns.ReplaceFieldIsSubstitution`. |
| Patterns.FirstMatch | inc/namespace.php:291-292 | Definition: `preg_match` with its first capture; see `Patterns.FirstMatchIsFirstField`. |
| Patterns.RunLengthMaximal | inc/namespace.php:291 | The captured run is the longest run of class characters. |
| Patterns.MatchRunComplete | inc/namespace.php:291 | A greedy match finds every match a backtracking matcher would, and with a terminator it captures the only possible run. |
| Patterns.MatchSplit | inc/namespace.php:291 | A match splits the subject into prefix, captured run, terminator and the rest. |
| Patterns.RenderScan | inc/namespace.php:291-377 | Scanning loses nothing: gluing the pieces back gives the subject. |
| Patterns.ScanFields | inc/namespace.php:291-377 | Every captured field is a non-empty run of class characters. |
| Patterns.SubstituteAt | inc/namespace.php:337-377 | A replacement keeps the text and the place of every field and sets each field's value. |
| Patterns.ReplaceFieldIsSubstitution | inc/namespace.php:337-377 | `preg_replace` keeps the text between matches and gives every captured run the new value. |
| Patterns.ReplaceKeep | inc/namespace.php:364-377 | Replacing each match by its own capture (`'$1'`) leaves the line unchanged. |
| Patterns.FirstMatchIsFirstField | inc/namespace.php:291-292 | `preg_match` captures the first field of the same scan. |
| Patterns.NoMatchUnchanged | inc/namespace.php:336-344 | A line the pattern does not match is left unchanged by its replacement. |
| Patterns.ReplaceKeepsAbsent | inc/namespace.php:363-367 | Writing a value that shares no character with t never creates an occurrence of t. |
| Rewriter.FieldsWellFormed | inc/namespace.php:291-377 | Every pattern of the importer has a terminator outside its class, so the greedy scan matches as PCRE does. |
| Rewriter.NatToStringRoundTrip | inc/namespace.php:344 | A non-negative timestamp is written as a digit run that reads back as the same number. |
| Rewriter.IntToStringNumeric | inc/namespace.php:357-364 | An integer is written with digits and a minus sign only, never as the empty string. |
| Rewriter.ReplaceVisitor | inc/namespace.php:336-338 | Definition: the Id values become the visitor id when it is truthy; see `Rewriter.ReplaceVisitorSpec`. |
| Rewriter.SetDate | inc/namespace.php:347-351 | Definition: overwrite the date, or insert one after every attributes brace; see `Rewriter.SetDateSpec`. |
| Rewriter.ReplaceInstall | inc/namespace.php:353-358 | Definition: the demo install's URL, blog id and network id become this install's; see `Rewriter.InstallUntouched`. |
| Rewriter.RetargetAudiences | inc/namespace.php:362-368 | Definition: French and Japanese events get the demo audiences' ids; see `Rewriter.FranceGetsFirstAudience` and `Rewriter.JapanGetsSecondAudience`. |
| Rewriter.RetargetPages | inc/namespace.php:369-378 | Definition: personalized and A/B test events get the demo pages' ids and URLs; see `Rewriter.RetargetWithoutDemoContent`. |
| Rewriter.RetargetEvents | inc/namespace.php:360-379 | Definition: only experience and conversion events are retargeted; see `Rewriter.RetargetWithoutDemoContent`. |
| Rewriter.ReplaceVisitorSpec | inc/namespace.php:336-338 | The Id values are replaced only when the visitor id is truthy, and then all of them. |
| Rewriter.SetDateSpec | inc/namespace.php:347-351 | A line with a date key has every date overwritten; otherwise a date pair goes after every `"attributes":{`; a line with neither is unchanged. |
| Rewriter.RetargetWithoutDemoContent | inc/namespace.php:361-379 | With no demo audiences, pages or permalinks, experience events keep every captured value. |
| Rewriter.AudienceKeepsJapanAbsent | inc/namespace.php:363-367 | Writing the French audience id never makes a line look Japanese. |
| Rewriter.FranceGetsFirstAudience | inc/namespace.php:363-368 | A French event gets every audience id set to the first demo audience's id, or keeps them when there is none. |
| Rewriter.JapanGetsSecondAudience | inc/namespace.php:366-368 | A Japanese event gets every audience id set to the second demo audience's id, or keeps them when there is none. |
| Rewriter.ReduceInitial | inc/namespace.php:383-385 | Definition: the first `array_reduce`; see `Rewriter.ReduceInitialIsConcat`. |
| Rewriter.ReduceInitialIsConcat | inc/namespace.php:383-385 | The first fold appends one first-touch entry per key to its carry, in key order. |
| Rewriter.ReduceLatest | inc/namespace.php:386-392 | Definition: the second `array_reduce`; see `Rewriter.ReduceLatestIsConcat`. |
| Rewriter.ReduceLatestIsConcat | inc/namespace.php:386-392 | The second fold appends one latest-touch entry per key to its carry, in key order. |
| Rewriter.UtmString | inc/namespace.php:382-392 | Definition: the two folds one after the other; see `Rewriter.UtmStringEntries`. |
| Rewriter.InitialByKeyIsFirstTouch | inc/namespace.php:383-385 | The first fold's entries, looked up by key, are one `"initial_k":["v"],` per pair in order. |
| Rewriter.LatestByKeyIsLatestTouch | inc/namespace.php:386-392 | The second fold's entries are one `"k":["v"],` per pair, with `","e` added when the extra value is non-empty. |
| Rewriter.UtmStringEntries | inc/namespace.php:383-392 | The UTM string is all first-touch entries followed by all latest-touch entries, in key order. |
| Rewriter.InjectUtm | inc/namespace.php:381-394 | Definition: the UTM string after every `"Attributes":{` when there is first-touch data; see `Rewriter.InjectUtmSpec`. |
| Rewriter.InjectUtmSpec | inc/namespace.php:382-394 | UTM entries go after every `"Attributes":{`, and only when the session has first-touch data. |
| Rewriter.DateUntouched | inc/namespace.php:347-351 | The date step leaves a line with neither a date key nor an attributes object unchanged. |
| Rewriter.InstallUntouched | inc/namespace.php:353-358 | The install step leaves a line without placeholders unchanged. |
| Rewriter.UtmUntouched | inc/namespace.php:382-394 | The UTM step leaves a line unchanged when there is nothing to add or nowhere to add it. |
| Rewriter.Identified | inc/namespace.php:335-344 | Definition: the visitor, session and timestamp stages; see `Rewriter.OnlyIdentityRewritten`. |
| Rewriter.RewriteLine | inc/namespace.php:335-394 | Definition: the whole rewrite of a session line, stage by stage; see `Rewriter.OnlyIdentityRewritten` and `Importer.SessionLineUtm`. |
| Rewriter.OnlyIdentityRewritten | inc/namespace.php:335-394 | A session line that, once its visitor, session and timestamp values are written, has no date key, attributes object, install placeholder or experience event comes out with only those three values rewritten. |
| Progress.OptionStore.constructor | inc/namespace.php:120-122 | Unwritten options read as total 100, progress 0, not running, not failed, not successful. |
| Progress.RequestedRange | inc/namespace.php:67-79 | A range is requested exactly when the week or fortnight field is posted; fortnight (14) overrides week (7). |
| Progress.Start | inc/namespace.php:66-109 | An import is scheduled exactly when a range is requested, the nonce passes and no import runs. Then the scheduled range is the one the form asked for (14 for fortnight, which wins over week, else 7), the options are reset to 100/0/running/not failed/not successful, and per_page and sleep default to 400 and 5. Otherwise nothing changes. |
| Progress.HandleRequest | inc/namespace.php:66-109 | The handler updates the option fields and schedules exactly as `Start` says. |
| Progress.StartWhileRunning | inc/namespace.php:85-87 | A submission while an import runs is ignored. |
| Progress.Poll | inc/namespace.php:114-139 | A bad nonce changes nothing. A truthy failure (not "" or "0") clears running and is reported. Otherwise progress is reported; when it has reached the total, running and failed are cleared and success set; otherwise nothing changes. |
| Progress.AjaxGetProgress | inc/namespace.php:114-139 | The endpoint updates the option fields and replies exactly as `Poll` says. |
| Progress.PollIdempotent | inc/namespace.php:124-133 | Polling twice leaves the options as polling once does. |
| Progress.PollSuccess | inc/namespace.php:129-133 | A poll never clears success, and sets it only when no truthy failure is recorded and progress has reached the total. A failure of "" or "0" does not stop it. |

## Left out

- File access (`fopen`, `fgets`, `feof`, `rewind`, `fclose`) is not modelled. The log is a sequence of strings, with the end of file right after the last one. A trailing empty read is an empty line, and a missing file is `None`.
- The search server is not modelled. `wp_remote_post` to `_bulk` is answered by the `respond` parameter. The index-creation `PUT` requests are kept only as the index names, because the code ignores their answers. The Elasticsearch version check, the mapping file choice and the `record/` path are not part of this model.
- Randomness is not modelled. `mt_rand`, `wp_rand`, `wp_generate_uuid4` and `array_rand` are drawn values passed in as `SessionDraws`. The two `array_rand` picks of `generate_utm_data` are `UtmDraw` values inside them.
- Clocks and dates are not modelled. `strtotime( 'today midnight' )` is the `maxStart` parameter. `date( 'Y-m-d', ... )` and `gmdate( DATE_ISO8601, ... )` are opaque functions of the millisecond timestamp (`formatDay`, `isoDate`).
- `sleep`, `wp_cache_flush`, `wp_cache_delete_group`, `do_action` and the `E_USER_WARNING` notice have no effect on the modelled state and are left out.
- A missing file is modelled twice (see Findings). `Importer.FinishAsWritten` stops at the fatal `trigger_error( ..., E_USER_ERROR )`. `Importer.Finish` and `Importer.ImportData` run the two lines after it, so running is cleared. A custom error handler that lets the request go on is not modelled.
- A poll is modelled only before or after an import as a whole: `Importer.ImportData` is one step, and the options it writes along the way are not interleaved with `ajax_get_progress`. A poll during an import is not modelled, for example one that sees progress == total after the last batch is stored and clears running before line 462 runs.
- `preg_replace` reads `$n`, `${n}` and `\n` in a replacement string as back-references. The model's `Fixed` replacements (session UUID, timestamp, ISO date, visitor id, demo ids and permalinks) are inserted literally. This differs only for a value containing `$` or `\`, which can happen only in a permalink.
- Sampler.Fill: returns no weights for a negative n, where PHP 8's `array_fill` throws a `ValueError`. The time range passed is always 7 or 14.
- Demo content is not modelled: `maybe_create_*`, `get_demo_audiences`, the demo pages and their permalinks. Their results are fields of `Context` (audience ids, page ids, URLs, home URL, blog and network ids).
- The WordPress request layer is not modelled. Nonce checks are booleans. The posted numbers are already read by `intval`. `wp_schedule_single_event` is the returned `Scheduled` value, without its time. `wp_send_json_error` ending the request is the early return after the failure reply.
- The admin page, the hooks (`setup`, `admin_menu`, `tools_page`) and the view `inc/views/tools-page.php` are not part of this model.
- PHP integers are 64-bit. The model's integers are unbounded, because the timestamps involved are far from the limit.
- Rewriter.FranceGetsFirstAudience: covers only lines without the Japanese marker. A line with both markers ends up with the second audience's id, as `Rewriter.RetargetAudiences` computes, but no lemma states it.
- Rewriter.JapanGetsSecondAudience: covers only lines without the French marker, for the same reason.
- Rewriter.RetargetWithoutDemoContent: the demo-page retargeting (`RetargetPages`) is described by its definition and by this lemma only. It has no lemma for installs that have the demo pages.

## Findings

| source | as written | input that shows it | evidently intended | confidence | as-written member | corrected member |
|---|---|---|---|---|---|---|
| inc/namespace.php:224-227 | When the log cannot be opened, `trigger_error( ..., E_USER_ERROR )` ends the request, so the two lines after it never run and `altis_analytics_demo_import_running` stays true. | The log file missing when the scheduled import runs. The options stay at running, 100/0. `handle_request` then returns at lines 85-87, and no poll ever clears running (`Importer.MissingFileWedges`). | Clear the running flag and return, as lines 226-227 do, so the next form can start an import (`Importer.MissingFileReleases`). | high for PHP's default error handler; not executed | Importer.FinishAsWritten | Importer.Finish |
