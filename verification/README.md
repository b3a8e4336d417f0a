# Zoom session attendance runner — a Dafny model

This project models the core of the Zoom session-attendance runner
(`Python/fall_meeting_2021/zoom_session_attendance_runner.py`). It has three parts:

- **Record normaliser** (`participant_converter`). One participant of a meeting,
  together with the session-catalog row of that meeting, becomes one row of the
  attendance table.
- **Cursor-following meeting loop** (the first half of `run`). Each catalog row
  gets one request. An error payload (a `code` key) is logged and the meeting is
  skipped. Otherwise every participant of the page is converted, and the request
  is repeated with `next_page_token` until that token is empty.
- **Partitioned, gated loader** (the end of `run`). Rows are grouped by entrance
  date. The destination table is emptied when `delete_data` is set outside a dry
  run. Outside a dry run, every group is appended in batches of at most 500 rows.

Modules:

| file | module | models |
|---|---|---|
| `decimal.dfy` | `Decimal` | Python's `str()` on an int, and a parser that reads it back |
| `normalizer.dfy` | `Normalizer` | catalog rows, participants, attendance rows, `participant_converter` |
| `fetcher.dfy` | `Fetcher`, `FetcherFacts` | provider responses, the meeting loop (`FetchAll`, `DrainMeeting`, `FollowPages`) and its specification, and lemmas about it |
| `loader.dfy` | `Loader` | the destination table (`Table`), grouping, batching, the delete gate (`Load`) |
| `loader_facts.dfy` | `LoaderFacts` | lemmas about the loader, and the loader as written for an empty import |
| `runner.dfy` | `Runner` | `run` as a whole, and re-run idempotency |
| `wrappers.dfy`, `seqs.dfy` | `Wrappers`, `Seqs` | `Option`; associativity of sequence concatenation |

How the source's outside world appears here:

- **Provider.** The HTTP API is a total function `Provider` from (meeting id,
  cursor) to a `Response`. A response is either `Error(message)` (a payload
  with a `code` key) or `Page(participants, nextToken)`. The cursor `""`
  stands for the first request, which sends no `next_page_token`.
- **Finite cursor chains.** The source loops for ever if the cursor chain never
  ends. So every catalog meeting must reach an empty token or an error within a
  ghost `bound` of requests (`Fetcher.Drains`). `FetcherFacts.FollowBoundIrrelevant`
  proves that the outcome does not depend on which sufficient bound is chosen.
- **Observable effects.** The requests sent and the logged error messages are
  returned as sequences.
- **Destination table.** It is a `Loader.Table` object. It holds its rows and the
  statements it has received, in order. `Loader.Execute` gives what each
  statement means.
- **Time zones.** Conversion is a function parameter `TzConvert`. Timestamps are
  wall-clock values at second resolution.

Where the model departs from the code text:

- **Delete condition.** Line 207 reads `if parameters.delete_data and:`, which
  does not parse. The model uses the evident condition, `delete_data` alone.
- **Entrance date.** Line 55 reads
  `pd.Timestamp(participant['join_time']).date().to_datetime64()`. `Timestamp.date()`
  returns a `datetime.date`, which has no `to_datetime64`, so as written every call
  to `participant_converter` raises AttributeError. `Normalizer.ParticipantConverter`
  models the evident intent: the calendar date of the raw join time. The code as
  written is `Normalizer.ParticipantConverterAsWritten` (see Findings).
- **Error payload on a later page.** Lines 181-182 read `participants` from every
  later response without checking for `code`. An error payload there raises a
  missing-key error, and the run ends before anything is written. The model
  follows the code: the outcome is `Broken`, and `Runner.Run` writes nothing.
- **Group order.** pandas' `groupby` sorts its keys by default, so the groups
  are written in ascending entrance-date order. The model writes them in that order.
- **Meeting order.** The loop follows catalog order, and so does the model.

## Model

| member | source | states |
|---|---|---|
| `Decimal.IntToString` | Python/fall_meeting_2021/zoom_session_attendance_runner.py:57 | `str(meeting_id)`: a non-empty text that starts with a minus sign exactly when the id is negative. The partner `Decimal.IntToStringRoundTrip` reads it back |
| `Decimal.IntToStringCanonical` | Python/fall_meeting_2021/zoom_session_attendance_runner.py:57 | after the optional minus sign, `str(meeting_id)` is all decimal digits, with no leading zero; the text is "0" exactly for 0 |
| `Decimal.IntToStringRoundTrip` | Python/fall_meeting_2021/zoom_session_attendance_runner.py:57 | `str(meeting_id)` reads back as `meeting_id`: parsing the decimal text gives the integer again |
| `Decimal.IntToStringInjective` | Python/fall_meeting_2021/zoom_session_attendance_runner.py:57 | two meeting ids with the same decimal text are the same id |
| `Normalizer.UniqueId` | Python/fall_meeting_2021/zoom_session_attendance_runner.py:57 | `unique_id` is exactly the user id followed by `str(meeting_id)`, so the text after the user id parses back to the meeting id |
| `Normalizer.ParticipantConverter` | Python/fall_meeting_2021/zoom_session_attendance_runner.py:29-66 | the row carries the meeting id, the user id and the catalog's session id. Its unique id is exactly the user id followed by `str(meeting_id)`. Entrance and exit times are target-zone conversions of join and leave time. The entrance date is the unconverted join date. The session start and end are the catalog date at the catalog times of day, unconverted, and the session date is the catalog date. Title, duration, type and location are copied unchanged |
| `Normalizer.ConvertedIdSplits` | Python/fall_meeting_2021/zoom_session_attendance_runner.py:57 | a row's unique id splits back: it starts with the row's user id, and the rest parses to the row's meeting id |
| `Normalizer.ConvertAll` | Python/fall_meeting_2021/zoom_session_attendance_runner.py:162-164 | the `for` loop's rows: one per participant of the page. The partner `Normalizer.ConvertAllAt` ties row i to participant i, and `Normalizer.ConvertAllAppend` shows that converting two pages is converting each in turn |
| `Normalizer.ConvertAllAt` | Python/fall_meeting_2021/zoom_session_attendance_runner.py:162-164 | converting a page gives one row per participant, in page order: row i is participant i's |
| `Normalizer.OnlyAttendanceTimesAreConverted` | Python/fall_meeting_2021/zoom_session_attendance_runner.py:48-55 | changing the zones or the conversion changes only `entrance_time` and `exit_time`. The session times, the session date and the entrance date are never converted |
| `Normalizer.EntranceDateMatchesEntranceTimeIff` | Python/fall_meeting_2021/zoom_session_attendance_runner.py:48-55 | `entrance_date` equals the calendar date of `entrance_time` exactly when the conversion keeps the join time's calendar day |
| `Normalizer.EntranceDateCrossesMidnight` | Python/fall_meeting_2021/zoom_session_attendance_runner.py:48-55 | a join at 02:30 UTC on 2021-10-01, shown in US/Eastern, gives entrance time on 2021-09-30 but entrance date 2021-10-01 |
| `Normalizer.ConvertAllAsWrittenFails` | Python/fall_meeting_2021/zoom_session_attendance_runner.py:162-164 | as written, the `for` loop over a page's participants gets through exactly an empty page, and then agrees with the modelled loop |
| `Normalizer.ConverterAsWrittenAlwaysFails` | Python/fall_meeting_2021/zoom_session_attendance_runner.py:55 | as written, converting any participant raises (`.date()` has no `to_datetime64`). The modelled converter instead gives the join time's calendar date as the entrance date |
| `Normalizer.UniqueIdCollides` | Python/fall_meeting_2021/zoom_session_attendance_runner.py:57 | the concatenated id is not unique: user "1" in meeting 23 and user "12" in meeting 3 get the same id |
| `Fetcher.Follow` | Python/fall_meeting_2021/zoom_session_attendance_runner.py:169-188 | the inner `while` loop ends by reading every page to an empty token, or by failing at an error payload. It never skips a meeting |
| `Fetcher.FetchMeeting` | Python/fall_meeting_2021/zoom_session_attendance_runner.py:147-191 | a meeting is skipped exactly when its first response is an error payload. It is then skipped with that payload's message after one request |
| `Fetcher.AppendConverted` | Python/fall_meeting_2021/zoom_session_attendance_runner.py:162-164 | the `for` loop appends exactly the page's converted participants, in order, after what `import_list` held |
| `Fetcher.FollowPages` | Python/fall_meeting_2021/zoom_session_attendance_runner.py:169-188 | the inner `while` loop adds exactly what the cursor chain from the first page's token yields: one request per non-empty token, and every page's converted participants. It stops at once on an error payload and marks the run failed. `total_participants` stays equal to the length of `import_list` |
| `Fetcher.DrainMeeting` | Python/fall_meeting_2021/zoom_session_attendance_runner.py:141-191 | one iteration of the meeting loop adds exactly that meeting's outcome (rows, message, requests, failure) to what was accumulated. `total_participants` stays equal to the length of `import_list` |
| `Fetcher.FetchAll` | Python/fall_meeting_2021/zoom_session_attendance_runner.py:136-191 | the meeting loop yields exactly the specified rows, log, requests and failure. At the end `total_participants == len(import_list)` |
| `FetcherFacts.FollowBoundIrrelevant` | Python/fall_meeting_2021/zoom_session_attendance_runner.py:172-188 | the inner loop's outcome does not depend on the termination bound |
| `FetcherFacts.FetchMeetingBoundIrrelevant` | Python/fall_meeting_2021/zoom_session_attendance_runner.py:147-188 | a meeting's outcome does not depend on the termination bound |
| `FetcherFacts.FollowChain` | Python/fall_meeting_2021/zoom_session_attendance_runner.py:169-188 | from a non-empty token, one request goes out per non-empty token of the chain, in order. The loop stops at the first page with an empty token, or at an error payload. The participants are those of the requested pages, in request order |
| `FetcherFacts.MeetingRequestsFollowChain` | Python/fall_meeting_2021/zoom_session_attendance_runner.py:147-188 | the first request carries no cursor, and each later one carries the previous page's non-empty token. A meeting read to the end stops at the first empty token, and its participants are every requested page's, page after page. A skipped meeting costs one request. A broken one ends at an error payload on a later page |
| `FetcherFacts.SinglePageMeeting` | Python/fall_meeting_2021/zoom_session_attendance_runner.py:158-172 | a first page with an empty token means exactly one request and exactly that page's participants |
| `FetcherFacts.ContributionOfMeeting` | Python/fall_meeting_2021/zoom_session_attendance_runner.py:158-191 | a skipped meeting adds its message, one request and no row. Any other meeting adds one row per participant of every requested page, so the row count is the sum of the pages' sizes. It adds one request per cursor |
| `FetcherFacts.SkippedMeetingContinues` | Python/fall_meeting_2021/zoom_session_attendance_runner.py:158-191 | after an error payload on a first request, the loop goes on with the next catalog row, having added only the message and the request |
| `FetcherFacts.FetchCatalogConcatenatesMeetings` | Python/fall_meeting_2021/zoom_session_attendance_runner.py:140-191 | the run fails exactly when some meeting has an error payload on a later page. Otherwise `import_list`, the log and the requests are every meeting's own share, concatenated in catalog order |
| `Loader.Table.DeleteAll` | Python/fall_meeting_2021/zoom_session_attendance_runner.py:220-227 | the `DELETE FROM` statement empties the table and is recorded |
| `Loader.Table.Insert` | Python/fall_meeting_2021/zoom_session_attendance_runner.py:234-241 | an append batch adds its rows after the existing ones and is recorded |
| `Loader.InsertKey` | Python/fall_meeting_2021/zoom_session_attendance_runner.py:204 | adding a date keeps the key list ascending and without repeats, and adds exactly that date |
| `Loader.Keys` | Python/fall_meeting_2021/zoom_session_attendance_runner.py:204-205 | the group keys are every entrance date of the rows, once each, in ascending order |
| `Loader.GroupsFor` | Python/fall_meeting_2021/zoom_session_attendance_runner.py:204-205 | there is one group per key, and group i is the rows with key i's date |
| `Loader.ToSql` | Python/fall_meeting_2021/zoom_session_attendance_runner.py:234-241 | `to_sql` with `chunksize=500` sends the group's batches in order and appends exactly the group's rows |
| `Loader.AppendGroups` | Python/fall_meeting_2021/zoom_session_attendance_runner.py:229-241 | outside a dry run and with rows present, every group is written in order and counted. Otherwise nothing is written |
| `Loader.Load` | Python/fall_meeting_2021/zoom_session_attendance_runner.py:204-241 | the table receives exactly the loader's statements: the gated delete, then every group's batches. Its rows are what those statements make of the old rows |
| `Loader.LoadEffect` | Python/fall_meeting_2021/zoom_session_attendance_runner.py:204-241 | after a load the table is unchanged in a dry run. Otherwise it is emptied when `delete_data` is set, and then followed by every group's rows |
| `Loader.Chunks` | Python/fall_meeting_2021/zoom_session_attendance_runner.py:239 | the batches of `chunksize=500`: none exactly for an empty frame. The partner `LoaderFacts.ChunksAreBoundedSlices` bounds every batch, counts them and puts them back together |
| `Loader.Partition` | Python/fall_meeting_2021/zoom_session_attendance_runner.py:204-205 | `[group for _, group in import_df.groupby('entrance_date')]`: one group per key, and no group at all exactly when there is no row. The partner `LoaderFacts.PartitionGroupsByEntranceDate` shows that the groups partition the rows by date |
| `Loader.FlattenChunks` | Python/fall_meeting_2021/zoom_session_attendance_runner.py:239 | the batches of a frame, put back together, are the frame |
| `LoaderFacts.PartitionGroupsByEntranceDate` | Python/fall_meeting_2021/zoom_session_attendance_runner.py:204-205 | grouping partitions the rows. There is one non-empty group per distinct date, in ascending date order. A row is in its date's group and in no other. Counting repeats, the groups together hold exactly the rows |
| `LoaderFacts.ChunksAreBoundedSlices` | Python/fall_meeting_2021/zoom_session_attendance_runner.py:239 | n rows go out in ceil(n/500) batches of 1 to 500 rows each. All but the last are full, and together they are the frame |
| `LoaderFacts.SevenHundredRowsTwoBatches` | Python/fall_meeting_2021/zoom_session_attendance_runner.py:239 | a 700-row group is written as 500 rows, then 200 |
| `LoaderFacts.WritesAreBoundedInserts` | Python/fall_meeting_2021/zoom_session_attendance_runner.py:229-241 | writing the groups sends only inserts of 1 to 500 rows |
| `LoaderFacts.LoadStatementsShape` | Python/fall_meeting_2021/zoom_session_attendance_runner.py:207-241 | a dry run sends nothing. The delete is sent exactly when `delete_data` is set outside a dry run, and then first, before any insert. Every insert has 1 to 500 rows |
| `LoaderFacts.DeleteThenAppendHoldsRunRows` | Python/fall_meeting_2021/zoom_session_attendance_runner.py:207-241 | with the delete, the table afterwards holds exactly this run's rows, each once, whatever it held before |
| `LoaderFacts.AppendOnlyAddsRunRows` | Python/fall_meeting_2021/zoom_session_attendance_runner.py:229-241 | without the delete, a load adds exactly this run's rows to the old ones |
| `LoaderFacts.DryRunLeavesTable` | Python/fall_meeting_2021/zoom_session_attendance_runner.py:216-231 | a dry run leaves the table as it was, whatever `delete_data` says |
| `LoaderFacts.RerunIsIdempotentWithDelete` | Python/fall_meeting_2021/zoom_session_attendance_runner.py:207-241 | loading the same rows twice with the delete leaves the table as one load does. Without the delete the rows pile up (old + 2 × run) |
| `LoaderFacts.GroupByAsWritten` | Python/fall_meeting_2021/zoom_session_attendance_runner.py:193-205 | as written, grouping fails exactly when the import list is empty |
| `LoaderFacts.EmptyImportAsWrittenSkipsDelete` | Python/fall_meeting_2021/zoom_session_attendance_runner.py:193-231 | with no fetched row, the loader as written fails before its delete. The modelled loader sends the delete alone and leaves the table empty |
| `LoaderFacts.AsWrittenAgreesWhenRowsExist` | Python/fall_meeting_2021/zoom_session_attendance_runner.py:204-231 | when there is a row, the loader as written and the modelled one send the same statements |
| `Runner.Run` | Python/fall_meeting_2021/zoom_session_attendance_runner.py:136-241 | `run` returns the meeting loop's requests and log. A failed loop writes nothing. Otherwise the table receives exactly the loader's statements for the fetched rows |
| `Runner.FetchAsWrittenRaises` | Python/fall_meeting_2021/zoom_session_attendance_runner.py:140-191 | the meeting loop as written, built from the as-written converter, raises exactly when the modelled loop fails or converts a participant; when it does not raise, it ends in the same state as the modelled loop |
| `Runner.RunAsWrittenNeverWrites` | Python/fall_meeting_2021/zoom_session_attendance_runner.py:140-207 | as written, no run reaches the delete or an insert, whatever the catalog, the provider and the flags. Derived from `Runner.FetchAsWrittenRaises`: the as-written loop either raises or ends with an empty import list, which raises at `groupby`. The modelled run sends the delete first whenever it does not fail and `delete_data` is set outside a dry run |
| `Runner.RunIsIdempotent` | Python/fall_meeting_2021/zoom_session_attendance_runner.py:140-241 | running twice with `delete_data` outside a dry run, against the same provider data, leaves the table exactly as one run does |
| `Runner.RunWithDeleteHoldsEveryMeetingsRows` | Python/fall_meeting_2021/zoom_session_attendance_runner.py:140-241 | a successful run with the delete leaves in the table exactly the rows of every meeting's pages, each once |

## Findings

| source | as written | input that shows it | evidently intended | confidence | as-written member | corrected member |
|---|---|---|---|---|---|---|
| Python/fall_meeting_2021/zoom_session_attendance_runner.py:193-207 | `pd.DataFrame([])` has no `entrance_date` column, so `groupby('entrance_date')` raises a KeyError whenever no row was fetched. This happens before the delete, so with `delete_data` the old rows stay. The later `import_df.size > 0` test can then never be false | an empty catalog, or a catalog whose every meeting answers its first request with an error payload, with `delete_data` set and `dry_run` off | no fetched row means no insert. The delete still follows its flags, as the size test implies | medium (not executed) | `LoaderFacts.LoadStatementsAsWritten`, shown by `LoaderFacts.EmptyImportAsWrittenSkipsDelete` | `Loader.Load` (grouping an empty list gives no group), shown by `LoaderFacts.EmptyImportAsWrittenSkipsDelete` and `LoaderFacts.DeleteThenAppendHoldsRunRows` |
| Python/fall_meeting_2021/zoom_session_attendance_runner.py:55 | `pd.Timestamp(join_time).date()` is a `datetime.date`, which has no `to_datetime64`, so every call to `participant_converter` raises AttributeError and `run` stops at its first participant. Together with the empty-import KeyError above, `run` as written can never reach its delete or any insert | any catalog meeting whose first page lists at least one participant | `entrance_date` is the calendar date of the raw join time, as a `datetime64` | high (not executed) | `Normalizer.ParticipantConverterAsWritten`, shown by `Normalizer.ConverterAsWrittenAlwaysFails`, `Runner.FetchAsWrittenRaises` and `Runner.RunAsWrittenNeverWrites` | `Normalizer.ParticipantConverter` (its `entranceDate` clause), shown by `Normalizer.ConverterAsWrittenAlwaysFails` and `Runner.RunWithDeleteHoldsEveryMeetingsRows` |

## Left out

- **HTTP and JSON.** `requests.get`, `response.json()` and the 0.25 s `time.sleep`
  after each call are left out: network I/O and a blocking delay. The provider is
  the `Provider` function parameter, and its decoded answer is a `Response`.
- **Transport failures.** A failed HTTP call, or a failed insert in the middle of
  `to_sql`, is fatal in the source. The model has no transport failures.
- **Database setup.** SQLAlchemy engines and connections, and the catalog query
  `read_sql`, are left out: SQL I/O. The catalog is the `catalog` parameter, and
  `int(series['Meeting_ID'])` is already applied to it.
- **`to_sql` internals.** Table creation, transactions and type mapping are left
  out. `to_sql` keeps only its append-in-batches behaviour.
- **Credentials.** The JWT credential (`jwt_tokenizer.generate_token`, with
  `time.time()`) and the `secure_package` lookups are external code.
  `Python/fall_meeting_2021/librum/jwt_tokenizer.py` is not part of this model.
- **Console output.** `print` logging and the start and end wall-clock times are
  left out. The per-meeting error messages are kept as the returned `messages`.
- **Timestamp parsing.** Parsing the provider's ISO-8601 strings is left out: a
  participant's join and leave times arrive parsed, as source-zone wall-clock
  values. Sub-second precision and `datetime64` encodings are not modelled.
- **Time-zone rules.** pytz, and pandas' `tz_convert` and `tz_localize`, are
  left out, because the tz database is not part of the model. Conversion is the
  `TzConvert` parameter.
- **Frame size.** `import_df.size` is rows × columns. The frame has columns
  whenever it has a row, so the model tests the number of rows instead.
- **Non-terminating cursors.** A cursor chain that never ends makes the source
  loop for ever. The model excludes it with the `AllDrain` precondition, which
  asks it of every catalog meeting. That includes the meetings after one that
  breaks, which the source never requests because it has already stopped with
  a KeyError at line 182; runs whose unrequested meetings have endless chains
  are therefore not covered.
- **Catalog columns.** The catalog read supplies two columns whose names differ
  only in case. `Meeting_ID` (line 141) is the Zoom meeting id the provider is
  asked about. `Meeting_Id` (line 34) is the organisation's own session id, which
  the comment at lines 103-106 calls `session_id`. The model keeps them as two
  fields, `Series.meetingId` and `Series.sessionId`. If the catalog held only one
  of these columns, the other read would raise KeyError; that case is not
  modelled.
- **`user_id` type.** `str(user_id)` is modelled on a `user_id` that is already a
  string, as the provider sends it.
- **Configuration.** `Python/run_zoom_session_attendance.py` and
  `Python/fall_meeting_2021/librum/_types.py` are not part of this model: they
  hold only configuration defaults and type declarations.
