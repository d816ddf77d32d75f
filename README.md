# A verified model of the explain-source Rust backend core

The backend runs external code-analysis command-line agents (Gemini CLI, Claude Code, Cursor Agent)
for QA tickets. It turns every line they print into a typed log entry, keeps the most recent
entries of each ticket in a bounded in-memory buffer, and records tickets, logs and analysis
sessions in a database. Its HTTP handlers paginate a ticket's logs, stop a running analysis,
create tickets and projects, register users and count plan approvals.

This Dafny project models that core, one module per source file:

| module | source file | what it holds |
|---|---|---|
| `LogNormalizer` | `log_normalizer.rs` | JSON-line typing, the plain-text classifier, content cleaning, metadata extraction, `normalize` |
| `Patterns` | `log_normalizer.rs` | each regular expression as a hand-written leftmost-first matcher |
| `MessageStore` | `message_store.rs` | the `LogMessageType` codec, entry/record conversion, the per-ticket ring buffer (`MsgStore` class) |
| `Database` | `database.rs` | the tables as maps and a sequence inside a `Database` class, with pagination and the session lifecycle |
| `ApiHandlers` | `api_handlers.rs` | handler decisions over the database, the store, `running_tasks`, the broadcast log and the users table (`AppState` class) |
| `AgentCommon` | `gemini_agent.rs`, `claude_agent.rs`, `cursor_agent.rs` | what the three adapters share: settings from the environment, error texts, one attempt's result, the retry loop, the prompt, the `analyze_code` bookkeeping |
| `AgentStreams` | the same three files | the stdout and stderr reading loops |
| `GeminiAgent`, `ClaudeAgent`, `CursorAgent` | one file each | each adapter's settings, command line, mode rewriting (Claude), delta merging (Gemini) and `analyze_code` |
| `AgentFactory` | `agent_factory.rs` | agent-type parsing and selection |
| `Jwt` | `jwt.rs` | bearer-token extraction, the default settings and the claim times |
| `CodeAgent` | `code_agent.rs` | request and response records only |
| `Wrappers`, `Text`, `Json` | — | `Option`/`Outcome`, string helpers (Unicode `White_Space`, ASCII lowercasing, trimming, whitespace collapsing, number text) and parsed JSON values |

The model works on values that the running program obtains from elsewhere, all passed in as
parameters:
- the parsed JSON of a line (`Option<Json>`);
- generated ids;
- clock readings, which become integers;
- environment variables (a map);
- the outcome of each subprocess attempt: how it ended, plus its stdout and stderr lines.

A subprocess attempt is a `Host` value. It answers two questions: can the metadata of a path
be read (the check used both for the working directory and for an executable given as a path),
and does `which` find the executable. It also gives the k-th run of a command: how it ended and
the stdout and stderr lines its reader tasks read.

Stateful parts are classes whose methods carry `modifies` clauses:
- `Database.Database`;
- `MessageStore.MsgStore`;
- `ApiHandlers.AppState`.

Each method is specified against the old state. Lemmas then prove what the source promises about
the specification functions.

## Model

| member | source | states |
|---|---|---|
| `MessageStore.AsStr` | rust-backend/src/message_store.rs:19-26 | every type's name is one of the five names the log table's CHECK accepts |
| `MessageStore.FromStrAsWritten` | rust-backend/src/message_store.rs:28-35 | the parse as written never yields Result |
| `MessageStore.AsWrittenLosesResult` | rust-backend/src/message_store.rs:19-35 | as written, the name "result" parses back as System |
| `MessageStore.FromStr` | rust-backend/src/message_store.rs:28-35 | the corrected parse, with a "result" arm the code lacks: an unknown name gives System; a known name gives the type with that name |
| `MessageStore.FromStrAgreesAsWritten` | rust-backend/src/message_store.rs:28-35 | on every name but "result" the corrected parse and the parse as written agree |
| `MessageStore.NameRoundTrip` | rust-backend/src/message_store.rs:19-35 | `from_str(as_str(t)) == t` for all five types (the corrected parse) |
| `MessageStore.NamesDistinct` | rust-backend/src/message_store.rs:19-26 | different types have different names |
| `MessageStore.ToRecord` | rust-backend/src/message_store.rs:50-64 | metadata is None exactly when the map is empty; the type becomes its name; id, ticket, content, raw line and time are copied |
| `MessageStore.FromRecord` | rust-backend/src/message_store.rs:66-84 | missing metadata becomes the empty map; the type is parsed from its name with the corrected parse; the other fields are copied |
| `MessageStore.RecordRoundTrip` | rust-backend/src/message_store.rs:50-84 | `from_record(to_record(e)) == e` with the corrected parse |
| `MessageStore.FromRecordAgreesAsWritten` | rust-backend/src/message_store.rs:66-84 | a stored row whose type is not "result" reads back with the type `from_record` as written gives it |
| `MessageStore.RecordRoundTripAsWritten` | rust-backend/src/message_store.rs:50-84 | with the parse as written, the stored type reads back for every type but Result, and a Result entry reads back as System |
| `MessageStore.FromRecords` | rust-backend/src/message_store.rs:156-160 | converts every record, one to one and in order |
| `MessageStore.PushCappedBounded` | rust-backend/src/message_store.rs:124-129 | pushing onto a deque of at most 1000 keeps it at most 1000 long, keeps the newest 1000 and puts the entry last |
| `MessageStore.PushCapped` | rust-backend/src/message_store.rs:124-129 | no contract of its own: `MessageStore.PushCappedBounded` states its bound, its order and the eviction of the oldest entry |
| `MessageStore.PushAllKeepsNewest` | rust-backend/src/message_store.rs:118-129 | pushing a sequence one entry at a time leaves exactly its newest 1000 entries after the old ones |
| `MessageStore.LastNAppend` | rust-backend/src/message_store.rs:124-129 | capping before more pushes gives the same result as capping once at the end |
| `MessageStore.PushAllStep` | rust-backend/src/message_store.rs:124-129 | pushing one more entry is one more capped push |
| `MessageStore.MsgStore.Push` | rust-backend/src/message_store.rs:116-143 | appends the entry to its own ticket's deque, dropping the oldest beyond 1000; leaves other tickets unchanged; queues the record for saving; broadcasts the entry |
| `MessageStore.MsgStore.RunPendingWrite` | rust-backend/src/message_store.rs:133-139 | one queued background save runs: the record is inserted if the table accepts it, and the save is dropped either way |
| `MessageStore.MsgStore.GetLogs` | rust-backend/src/message_store.rs:146-166 | a buffered ticket gives its deque in insertion order; otherwise the first 100 stored logs, oldest first, converted back to entries with the corrected parse |
| `MessageStore.MsgStore.ClearLogs` | rust-backend/src/message_store.rs:168-179 | removes only that ticket's buffer key and only that ticket's stored logs |
| `MessageStore.MsgStore.BufferStats` | rust-backend/src/message_store.rs:181-187 | one key per buffered ticket, mapped to its deque length, which is at most 1000 |
| `MessageStore.MsgStore.WarmCache` | rust-backend/src/message_store.rs:190-208 | replaces the ticket's deque with the stored logs, converted in stored order with the corrected parse |
| `MessageStore.Refill` | rust-backend/src/message_store.rs:197-205 | the record loop leaves the last at most 1000 entries, in order |
| `Database.EffectiveLimit` | rust-backend/src/database.rs:465 | the limit is clamped to [1, 1000], with 100 when unset (0 becomes 1) |
| `Database.EffectiveOffset` | rust-backend/src/database.rs:466-485 | the offset is 0 when unset; a u64 too large for SQLite's i64 wraps negative and reads as 0 |
| `Database.TicketLogs` | rust-backend/src/database.rs:447-486 | only logs of the ticket, never more than stored |
| `Database.SortByTime` | rust-backend/src/database.rs:475-479 | `ORDER BY timestamp ASC`: sorted by time and a permutation of its input |
| `Database.InsertKeepsOrder` | rust-backend/src/database.rs:475-479 | inserting into a time-ordered sequence keeps it ordered |
| `Database.InsertKeepsRows` | rust-backend/src/database.rs:475-479 | inserting adds exactly that row to the multiset |
| `Database.Page` | rust-backend/src/database.rs:480-485 | `LIMIT`/`OFFSET`: the slice [offset, offset+limit) cut at the end, empty past the end |
| `Database.LogQuery` | rust-backend/src/database.rs:475-486 | returns as many rows as the effective limit allows past the effective offset: none at or past the end, at most the limit, else all the rest; `Database.LogQueryShape` and `Database.QueryOrderForced` state which rows and in what order |
| `Database.LogQueryShape` | rust-backend/src/database.rs:458-486 | at most the effective limit; time-ordered; only that ticket's stored logs |
| `Database.SortKeepsRows` | rust-backend/src/database.rs:482-483 | `ORDER BY` keeps every row and their number |
| `Database.PageOfRows` | rust-backend/src/database.rs:484-485 | a `LIMIT`/`OFFSET` window is a run of the rows: within the rows past the offset, each a row, sorted when they are |
| `Database.PageSplit` | rust-backend/src/database.rs:482-486 | over any rows, `LIMIT n OFFSET 0` followed by `LIMIT n OFFSET n` is `LIMIT 2n OFFSET 0` |
| `Database.PagesConcatenate` | rust-backend/src/database.rs:458-486 | the windows (limit n, offset 0) and (limit n, offset n) concatenate to (limit 2n, offset 0) for 1 ≤ n, 2n ≤ 1000 |
| `Database.SortedUnique` | rust-backend/src/database.rs:475-479 | rows with distinct timestamps have one sorted arrangement only |
| `Database.SameFirst` | rust-backend/src/database.rs:475-479 | two sorted arrangements of rows with distinct timestamps start with the same row |
| `Database.SameRest` | rust-backend/src/database.rs:475-479 | after that row, the rest of both arrangements hold the same rows, still sorted and distinct |
| `Database.QueryOrderForced` | rust-backend/src/database.rs:458-486 | with distinct timestamps, a page cut from any order the database may return is the page `LogQuery` gives |
| `Database.BatchInsertableIff` | rust-backend/src/database.rs:416-445 | the batch succeeds exactly when its ids are distinct and each row is insertable on its own |
| `Database.Database.GetProject` | rust-backend/src/database.rs:202-211 | Some exactly for a stored id, with the stored row |
| `Database.Database.GetTicket` | rust-backend/src/database.rs:354-363 | Some exactly for a stored id, with the stored row |
| `Database.Database.CreateProject` | rust-backend/src/database.rs:183-200 | inserts unless the id exists (primary key) |
| `Database.Database.UpdateProject` | rust-backend/src/database.rs:223-240 | overwrites name, description, directory and update time of an existing row; id and creation time stay |
| `Database.Database.CreateTicket` | rust-backend/src/database.rs:252-273 | inserts when the id is new, the status passes its CHECK and the project exists |
| `Database.Database.UpdateTicketAnalyzing` | rust-backend/src/database.rs:317-333 | changes only the flag and the update time |
| `Database.Database.UpdateTicketResult` | rust-backend/src/database.rs:335-352 | sets the result, clears the flag and sets the update time |
| `Database.Database.DeleteTicket` | rust-backend/src/database.rs:386-394 | removes the ticket and, by cascade, its logs and sessions; projects stay |
| `Database.Database.SaveLog` | rust-backend/src/database.rs:396-414 | appends the row exactly when it is insertable (new id, known ticket, valid type) |
| `Database.Database.SaveLogsBatch` | rust-backend/src/database.rs:416-445 | an empty batch succeeds and changes nothing; otherwise all rows are appended or none |
| `Database.Database.CountLogsForTicket` | rust-backend/src/database.rs:447-456 | the number of stored logs of the ticket |
| `Database.CountAfterSave` | rust-backend/src/database.rs:396-456 | saving a log raises the count of its own ticket by one and no other |
| `Database.Database.GetLogsForTicket` | rust-backend/src/database.rs:458-501 | returns the time-ordered page of the ticket's logs, at most the effective limit |
| `Database.CopyRows` | rust-backend/src/database.rs:488-499 | the loop copying each fetched row into a record returns the rows unchanged and in order |
| `Database.Database.ClearLogsForTicket` | rust-backend/src/database.rs:504-511 | removes exactly that ticket's logs |
| `Database.WithoutKeeps` | rust-backend/src/database.rs:504-511 | after clearing, other tickets' logs are unchanged and this ticket has none |
| `Database.WithoutOthers` | rust-backend/src/database.rs:504-511 | clearing one ticket leaves each other ticket's log sequence as it was |
| `Database.Database.CreateSession` | rust-backend/src/database.rs:514-531 | adds a running row with no completion time and no error, for a known ticket and new id |
| `Database.Database.CompleteSession` | rust-backend/src/database.rs:533-549 | sets completed and the completion time on that row only, whatever its status was |
| `Database.Database.FailSession` | rust-backend/src/database.rs:551-568 | sets failed, the completion time and the error on that row only, unguarded |
| `Database.Database.CancelSession` | rust-backend/src/database.rs:570-587 | sets cancelled, the completion time and the reason on that row only, unguarded |
| `Database.Database.GetActiveSessionByTicket` | rust-backend/src/database.rs:589-600 | none exactly when the ticket has no running session; otherwise a stored running session of the ticket with the latest start |
| `ApiHandlers.NewTicketDefaults` | rust-backend/src/api_handlers.rs:185-200 | mode defaults to "ask" and required approvals to 2; not analyzing, no result, no plan; fields taken from the request |
| `ApiHandlers.UpdateStoresReturned` | rust-backend/src/api_handlers.rs:133-140 | the updated project keeps id and creation time, and is exactly what the table update writes |
| `ApiHandlers.AppState.CreateTicketHandler` | rust-backend/src/api_handlers.rs:180-209 | returns the new ticket when the insert succeeds, otherwise 500 with the table unchanged |
| `ApiHandlers.AppState.UpdateProjectHandler` | rust-backend/src/api_handlers.rs:118-149 | 404 for a missing project; otherwise the stored row becomes the returned one |
| `ApiHandlers.HasMore` | rust-backend/src/api_handlers.rs:276-278 | where the `u64` sum does not overflow, `has_more` is exactly offset + returned < total, so false at or past the total |
| `ApiHandlers.HasMoreUnwrapped` | rust-backend/src/api_handlers.rs:277-278 | when the sum does not overflow, `has_more` is offset + returned < total |
| `ApiHandlers.NoMorePastEnd` | rust-backend/src/api_handlers.rs:277-278 | an offset at or past the total gives no more |
| `ApiHandlers.HasMoreWrapsAtTop` | rust-backend/src/api_handlers.rs:277-278 | the u64 sum wraps: offset 2^64−1 with one returned log out of one gives `has_more` |
| `ApiHandlers.PageWithinTotal` | rust-backend/src/api_handlers.rs:253-278 | a page never holds more logs than the total, nor reaches past it |
| `ApiHandlers.AppState.GetTicketLogs` | rust-backend/src/api_handlers.rs:227-285 | the page, the ticket's count and `has_more` computed from them |
| `ApiHandlers.AppState.StopAnalysis` | rust-backend/src/api_handlers.rs:288-362 | 404 for a missing ticket; not analyzing means success false with nothing changed; otherwise drops the running handle, clears the flag, cancels the latest running session, pushes one stop log, broadcasts and succeeds |
| `ApiHandlers.AppState.StopRunning` | rust-backend/src/api_handlers.rs:317-355 | the running handle is dropped, the flag cleared, the active session cancelled, the normalized stop entry pushed and one "analysis-stopped" event broadcast; nothing else changes |
| `ApiHandlers.AppState.ClearAnalysis` | rust-backend/src/api_handlers.rs:322-344 | clears the flag and cancels the ticket's active session |
| `ApiHandlers.AppState.CancelActiveSession` | rust-backend/src/api_handlers.rs:328-341 | the latest running session of the ticket, if any, becomes cancelled with "Cancelled by user"; nothing else changes |
| `ApiHandlers.AppState.Register` | rust-backend/src/api_handlers.rs:389-466 | an existing username gives 409 and creates nothing; otherwise the user is added |
| `ApiHandlers.ApprovalEvents` | rust-backend/src/api_handlers.rs:636-663 | one or two broadcasts, the last always "plan-approved" |
| `ApiHandlers.AutoImplementIffQuorum` | rust-backend/src/api_handlers.rs:636-651 | "auto-implement-started" is broadcast exactly when the status is "approved", the ticket is found and the count reaches its required approvals |
| `ApiHandlers.AppState.ApprovePlan` | rust-backend/src/api_handlers.rs:618-666 | a failed save gives 500 and no broadcast; a successful one gives the approval events |
| `LogNormalizer.Member` | rust-backend/src/log_normalizer.rs:60-61 | a field's string value, or "" when it is missing or not a string |
| `LogNormalizer.JsonMessageType` | rust-backend/src/log_normalizer.rs:60-73 | Assistant exactly for ("message", "assistant"); ToolUse exactly for "tool_use"; Error only under the error guard; never Result |
| `LogNormalizer.JsonGuardDecides` | rust-backend/src/log_normalizer.rs:64-73 | outside the listed pairs, Error exactly when there is an `error` key or `status` "error", else System (so `type:"error"` alone is System) |
| `LogNormalizer.JsonSystemRows` | rust-backend/src/log_normalizer.rs:64-73 | user messages, tool results and init lines are System |
| `LogNormalizer.JsonMetadata` | rust-backend/src/log_normalizer.rs:76-90 | only the five whitelisted keys, each present exactly when its field is a string |
| `LogNormalizer.NormalizeJsonLog` | rust-backend/src/log_normalizer.rs:56-97 | the JSON type, the raw line as content, the whitelisted metadata |
| `LogNormalizer.Classify` | rust-backend/src/log_normalizer.rs:99-133 | never Result |
| `LogNormalizer.ErrorLines` | rust-backend/src/log_normalizer.rs:99-108 | Error exactly when the error pattern matches or the lowercased line contains "error", "failed" or "exception" |
| `LogNormalizer.ClassifyPriority` | rust-backend/src/log_normalizer.rs:99-133 | ToolUse, Assistant and System each exactly when every earlier signal is absent and its own is present (or, for System, absent) |
| `LogNormalizer.ErrorWordAnywhere` | rust-backend/src/log_normalizer.rs:104-107 | a line containing "error", "failed" or "exception" is Error |
| `LogNormalizer.ToolWordAnywhere` | rust-backend/src/log_normalizer.rs:110-118 | a tool keyword without an error signal makes the line ToolUse |
| `LogNormalizer.Flattened` | rust-backend/src/log_normalizer.rs:135-142 | after trimming, removing ANSI codes and collapsing, no whitespace run remains |
| `LogNormalizer.CollapsedEnds` | rust-backend/src/log_normalizer.rs:136-142 | text with whitespace collapsed neither starts nor ends with whitespace |
| `LogNormalizer.CleanContent` | rust-backend/src/log_normalizer.rs:135-165 | the content is trimmed; for System and Assistant it has no whitespace run |
| `LogNormalizer.CleanRemovesEscapes` | rust-backend/src/log_normalizer.rs:135-172 | no ESC remains when every ESC in the trimmed line opens a code |
| `LogNormalizer.CleanKeepsText` | rust-backend/src/log_normalizer.rs:135-165 | for System and Assistant lines without ESC, cleaning changes only whitespace |
| `LogNormalizer.CollapseKeepsText` | rust-backend/src/log_normalizer.rs:141-142 | collapsing whitespace keeps every other character in order |
| `LogNormalizer.TrimKeepsText` | rust-backend/src/log_normalizer.rs:138 | trimming keeps every non-whitespace character in order |
| `LogNormalizer.FirstContained` | rust-backend/src/log_normalizer.rs:239-244 | the first word of the list that the text contains, or none |
| `LogNormalizer.FindAnalysisType` | rust-backend/src/log_normalizer.rs:229-246 | the `for … break` loop records the first analysis type in the line, if any |
| `LogNormalizer.AnalysisTypeOfLine` | rust-backend/src/log_normalizer.rs:229-245 | no analysis type exactly when the lowercased line contains none; otherwise the first one of the fixed list that it contains |
| `LogNormalizer.FilePath` | rust-backend/src/log_normalizer.rs:180-182 | no contract of its own: the capture of the corrected file pattern; `Patterns.CaptureFileAgrees` states that it equals the capture as written on every line without a "<keyword> file:" form |
| `LogNormalizer.ToolFields` | rust-backend/src/log_normalizer.rs:178-204 | the ToolUse metadata: path and extension (with the corrected file pattern), line number and tool name |
| `LogNormalizer.PathFields` | rust-backend/src/log_normalizer.rs:180-189 | `file_path` is the path the corrected file pattern captures and `file_extension` its last dot-separated segment |
| `LogNormalizer.FileExtensionOfPath` | rust-backend/src/log_normalizer.rs:178-189 | the extension is present exactly with the path, is the path's last segment, and is one to four letters (of the corrected pattern's path) |
| `LogNormalizer.ErrorFields` | rust-backend/src/log_normalizer.rs:206-227 | the Error metadata: severity, message and error code |
| `LogNormalizer.SeverityFields` | rust-backend/src/log_normalizer.rs:208-218 | severity and message from the error pattern's captures |
| `LogNormalizer.SeverityOfLine` | rust-backend/src/log_normalizer.rs:206-218 | a severity exactly when the line contains an uppercase severity word; it is that word lowercased |
| `LogNormalizer.ProgressFields` | rust-backend/src/log_normalizer.rs:247-283 | System and Result metadata: progress, status and duration |
| `LogNormalizer.ExtractMetadata` | rust-backend/src/log_normalizer.rs:174-293 | the per-type metadata plus the first timestamp of the line; a ToolUse path comes from the corrected file pattern |
| `LogNormalizer.MetadataKeysByType` | rust-backend/src/log_normalizer.rs:174-293 | each type only produces its own keys, plus `log_timestamp` |
| `LogNormalizer.Normalize` | rust-backend/src/log_normalizer.rs:32-54 | the entry: JSON lines through the JSON path, other lines through classify, clean and extract (with the corrected file pattern) |
| `LogNormalizer.NormalizedKeepsLine` | rust-backend/src/log_normalizer.rs:32-54 | the raw line and ticket are copied; a JSON line's content is the raw line; a plain line's content is trimmed; never Result |
| `LogNormalizer.JsonMetadataWhitelist` | rust-backend/src/log_normalizer.rs:76-96 | a JSON line's metadata keys are exactly the whitelisted string fields |
| `Patterns.Scan` | rust-backend/src/log_normalizer.rs:180 | leftmost match: the first start position where the pattern matches, and none before it |
| `Patterns.ErrorAt` | rust-backend/src/log_normalizer.rs:22 | matches at a severity word, and never reads it as WARNING because WARN comes first |
| `Patterns.WarningReadsAsWarn` | rust-backend/src/log_normalizer.rs:22 | a "WARNING" line matches with the word WARN |
| `Patterns.ErrorPatternIff` | rust-backend/src/log_normalizer.rs:22 | the error pattern matches somewhere exactly when the line contains ERROR, WARN, CRITICAL or FATAL |
| `Patterns.ToolAt` | rust-backend/src/log_normalizer.rs:25 | the captured tool name is a non-empty run of word characters |
| `Patterns.PathInShape` | rust-backend/src/log_normalizer.rs:19 | a captured path is a prefix of its token ending in a dot and one to four letters |
| `Patterns.FileAtAsWritten` | rust-backend/src/log_normalizer.rs:19 | no contract of its own: the file-path pattern as written, at one position; `Patterns.FileAtAsWrittenMissesFileWord` and `Patterns.LoginLineAsWrittenMisses` show what it misses |
| `Patterns.FileAt` | rust-backend/src/log_normalizer.rs:19 | no contract of its own: the corrected pattern; `Patterns.FileAtAgreesAsWritten` states it equals the pattern as written away from the "file:" form, `Patterns.FileAtReadsPastFileWord` what it captures on that form |
| `Patterns.FileAtAsWrittenMissesFileWord` | rust-backend/src/log_normalizer.rs:19 | as written, "<keyword> file: <path>" never matches at its keyword |
| `Patterns.LoginLineAsWrittenMisses` | rust-backend/src/log_normalizer.rs:19 | as written, the pattern finds no path in "Reading file: src/auth/login.js" |
| `Patterns.FileAtReadsPastFileWord` | rust-backend/src/log_normalizer.rs:19 | the corrected pattern captures the path after "file:" |
| `Patterns.LoginLineFilePath` | rust-backend/src/log_normalizer.rs:318-326 | the corrected pattern captures "src/auth/login.js" from that line |
| `Patterns.FileAtAgreesAsWritten` | rust-backend/src/log_normalizer.rs:19 | where no "<keyword> file:" form starts, the corrected pattern matches exactly what the pattern as written matches |
| `Patterns.ScanAgrees` | rust-backend/src/log_normalizer.rs:180 | two patterns that agree at every position find the same leftmost match |
| `Patterns.CaptureFileAgrees` | rust-backend/src/log_normalizer.rs:180 | on a line with no "<keyword> file:" form, both patterns give the same `file_path` |
| `Patterns.PathExtension` | rust-backend/src/log_normalizer.rs:185-187 | the last segment of a captured path is one to four letters |
| `Patterns.LineAt` | rust-backend/src/log_normalizer.rs:28 | the captured line number is a non-empty digit run |
| `Patterns.CodeAt` | rust-backend/src/log_normalizer.rs:221 | an error code starts with E and is at least four characters |
| `Patterns.PercentAt` | rust-backend/src/log_normalizer.rs:250 | the captured progress is digits followed by "%" |
| `Patterns.DurationAt` | rust-backend/src/log_normalizer.rs:259 | a duration starts with a digit and carries a unit |
| `Patterns.TimestampAt` | rust-backend/src/log_normalizer.rs:285 | a timestamp match is 19 characters long |
| `Patterns.StripAnsi` | rust-backend/src/log_normalizer.rs:168-172 | removing codes never lengthens the text |
| `Patterns.StripAnsiRemovesEscapes` | rust-backend/src/log_normalizer.rs:168-172 | when every ESC opens a code, none remains |
| `Patterns.StripAnsiNoEscape` | rust-backend/src/log_normalizer.rs:168-172 | a text without ESC is unchanged |
| `Patterns.StripAnsiSinglePass` | rust-backend/src/log_normalizer.rs:168-172 | one pass: removing a code can join a new one, which stays |
| `AgentCommon.FormatFromEnv` | rust-backend/src/gemini_agent.rs:63-72 | anything other than StreamJson comes from exactly its name; everything else is StreamJson |
| `AgentCommon.FormatNameRoundTrip` | rust-backend/src/gemini_agent.rs:63-72 | each format's name reads back as that format |
| `AgentCommon.FormatFallback` | rust-backend/src/gemini_agent.rs:63-72 | an unset or unknown value gives StreamJson |
| `AgentCommon.FlagsRoundTrip` | rust-backend/src/claude_agent.rs:357-371 | the format flags name the format again; Text adds none |
| `AgentCommon.DefaultConfig` | rust-backend/src/gemini_agent.rs:48-59 | 300 seconds, 2 attempts, the given executable and key |
| `AgentCommon.ConfigFromEnv` | rust-backend/src/gemini_agent.rs:61-91 | the timeout fits u64 and the attempt count fits u32 |
| `AgentCommon.EnvDefaults` | rust-backend/src/gemini_agent.rs:61-91 | with no variables set, the settings are the defaults |
| `AgentCommon.NumbersFallBack` | rust-backend/src/gemini_agent.rs:73-80 | an unset or unparsable timeout or retry count falls back to 300 or 2 |
| `AgentCommon.PrintedNumbersRead` | rust-backend/src/gemini_agent.rs:73-80 | a printed number in range is read back |
| `AgentCommon.ErrorTextNamesVariant` | rust-backend/src/gemini_agent.rs:15-28 | each error's display text tells which variant it is |
| `AgentCommon.AuthDetectedIff` | rust-backend/src/gemini_agent.rs:374-391 | a login problem is detected exactly when some stderr line contains one of the three phrases |
| `AgentCommon.AttemptResult` | rust-backend/src/gemini_agent.rs:401-456 | an attempt succeeds exactly when the process exits successfully |
| `AgentCommon.FailureMapping` | rust-backend/src/gemini_agent.rs:418-456 | timeout gives Timeout(seconds); a failed wait gives SpawnFailed; a failed exit gives AuthenticationRequired exactly when detected, else ProcessFailed(code or −1) |
| `AgentCommon.SuccessOutput` | rust-backend/src/gemini_agent.rs:428-433 | no stdout gives the fixed text; otherwise splitting the output at "\n" gives back the lines |
| `AgentCommon.SplitJoin` | rust-backend/src/gemini_agent.rs:433 | lines without line feeds joined with "\n" split back into themselves |
| `AgentCommon.RetrySucceedsIff` | rust-backend/src/gemini_agent.rs:160-187 | the loop succeeds exactly when some attempt among the first `max_retries` succeeds |
| `AgentCommon.RetryStopsAtFirstSuccess` | rust-backend/src/gemini_agent.rs:160-176 | the result is the first successful attempt |
| `AgentCommon.RetryReturnsLastError` | rust-backend/src/gemini_agent.rs:176-187 | when all fail, the last attempt's error; with zero attempts, the exhausted-retries error |
| `AgentCommon.RetryLoop` | rust-backend/src/gemini_agent.rs:158-187 | at most `max_retries` attempts, as many as `AttemptsFrom` counts; all before the last failed; a success is the last attempt; one wait between attempts, so attempts−1 waits |
| `AgentCommon.AttemptsFromCount` | rust-backend/src/gemini_agent.rs:160-187 | the loop stops at the attempt whose success it returns, or after the last attempt when all fail |
| `AgentCommon.Preflight` | rust-backend/src/gemini_agent.rs:111-157 | passes exactly when the directory's metadata can be read (a plain file of that name passes too) and the executable is found (a path's metadata must be readable, a bare name must not be refused by `which`); the directory is checked first |
| `AgentCommon.CommandFor` | rust-backend/src/gemini_agent.rs:203-226 | the configured program, the given arguments, the analysis directory, and the key variable only when a key is set |
| `AgentCommon.AnalysisDir` | rust-backend/src/gemini_agent.rs:111 | the project's directory, else the configured one |
| `AgentCommon.ExecutedSucceedsIff` | rust-backend/src/gemini_agent.rs:102-188 | an analysis run succeeds exactly when preflight passes and some attempt succeeds |
| `AgentCommon.Execute` | rust-backend/src/gemini_agent.rs:102-188 | the run's result and the number of attempts made (`AttemptsMade`): at most `max_retries`, none after a failed preflight, all before the last failed, a success being the last |
| `AgentCommon.AttemptsLoggedTagged` | rust-backend/src/gemini_agent.rs:158-187 | a reader that files every entry under the ticket makes attempts whose entries all are |
| `AgentCommon.RunEntriesOfAttempts` | rust-backend/src/gemini_agent.rs:102-188 | the reader tasks push nothing after a failed preflight, the entries of every attempt (failed ones too) when all fail, and those of the attempts up to the successful one otherwise; all under the ticket |
| `AgentCommon.RunEntries` | rust-backend/src/gemini_agent.rs:102-188 | no contract of its own: the reader entries of the attempts `AgentCommon.AttemptsMade` counts; `AgentCommon.RunEntriesOfAttempts` states its three cases |
| `AgentCommon.AnalysisPrompt` | rust-backend/src/gemini_agent.rs:459-471 | the template head followed by the question |
| `AgentCommon.PromptTemplate` | rust-backend/src/cursor_agent.rs:455-469 | the English template exactly when the context is non-empty, embedding it; the prompt ends with the question and determines it |
| `AgentCommon.AutoTicket` | rust-backend/src/gemini_agent.rs:484-510 | the ticket created when missing: the request's id and project, analyzing, no result, 2 approvals |
| `AgentCommon.WorkingDirectory` | rust-backend/src/gemini_agent.rs:490-505 | the project's directory exactly when the project id is non-empty and known |
| `AgentCommon.Records` | rust-backend/src/message_store.rs:133-139 | each pushed entry's record, in order |
| `AgentCommon.Pushed` | rust-backend/src/message_store.rs:116-143 | pushes append to the broadcast log and leave tickets, sessions and projects alone |
| `AgentCommon.PushedTwice` | rust-backend/src/message_store.rs:116-143 | two rounds of pushes are one round of their concatenation |
| `AgentCommon.PushEntries` | rust-backend/src/message_store.rs:116-143 | pushing a sequence one by one is `Pushed` of the sequence |
| `AgentCommon.Begun` | rust-backend/src/gemini_agent.rs:512-528 | when the session opens, the ticket exists and the start entry is broadcast |
| `AgentCommon.FinalEntry` | rust-backend/src/cursor_agent.rs:168-198 | the closing entry is Result-typed exactly on success, with the completion or error text |
| `AgentCommon.ResultText` | rust-backend/src/gemini_agent.rs:586-591 | the output on success, otherwise the failure text |
| `AgentCommon.Finished` | rust-backend/src/gemini_agent.rs:548-582 | the given entries of the reader tasks and then the closing entry are broadcast; the ticket and session are concluded |
| `AgentCommon.AnalysisStarts` | rust-backend/src/gemini_agent.rs:486-528 | the analysis responds exactly when the ticket can be prepared and the session id is new; otherwise no session and no log |
| `AgentCommon.AnalysisTicket` | rust-backend/src/gemini_agent.rs:548-582 | afterwards the ticket is not analyzing; success stores the output as its result; failure keeps the old result; other tickets unchanged |
| `AgentCommon.AnalysisSessionClosed` | rust-backend/src/gemini_agent.rs:512-582 | a new session for the ticket, completed on success, failed with the error text otherwise; other sessions unchanged |
| `AgentCommon.AnalysisResponse` | rust-backend/src/gemini_agent.rs:584-591 | the response always reports success, with the start and final logs and the output or failure text |
| `AgentCommon.AnalysisLogs` | rust-backend/src/gemini_agent.rs:524-582 | the start entry, the reader tasks' entries and the closing entry are broadcast in that order (the adapters pass `RunEntries` of the attempts made) |
| `AgentCommon.BeginAnalysis` | rust-backend/src/gemini_agent.rs:486-528 | the opening steps as `Begun` says |
| `AgentCommon.FinishAnalysis` | rust-backend/src/gemini_agent.rs:548-582 | the closing steps as `Finished` says, after the given reader-task entries |
| `AgentCommon.RunAnalysis` | rust-backend/src/gemini_agent.rs:476-592 | responds exactly when `Analysis` does, with its response, and leaves its state, the reader tasks' entries being `RunEntries` of the attempts `execute_*_agent` makes |
| `AgentStreams.LineEntriesAt` | rust-backend/src/claude_agent.rs:425-432 | the k-th entry is the k-th line normalized with the k-th id and the k-th clock reading |
| `AgentStreams.ReadStdout` | rust-backend/src/claude_agent.rs:420-436 | returns the stdout lines unchanged and pushes each one normalized, in order |
| `AgentStreams.StderrLineAt` | rust-backend/src/gemini_agent.rs:385 | the k-th pushed stderr line is "ERROR: " + the line |
| `AgentStreams.ReadStderr` | rust-backend/src/gemini_agent.rs:368-392 | reports a login problem exactly when a line contains a phrase; pushes each line prefixed |
| `AgentStreams.StderrStep` | rust-backend/src/gemini_agent.rs:374-387 | one more stderr line adds one prefixed line and sets the login flag exactly when that line has a login phrase |
| `AgentStreams.PrefixedIsError` | rust-backend/src/gemini_agent.rs:385-386 | an "ERROR: "-prefixed line is typed Error by the text cascade, whatever follows the prefix |
| `AgentStreams.StderrEntriesAreErrors` | rust-backend/src/gemini_agent.rs:385-387 | a non-JSON stderr line becomes an Error entry |
| `AgentStreams.LineEntriesTagged` | rust-backend/src/claude_agent.rs:425-432 | every entry a reader task pushes is filed under its ticket |
| `AgentStreams.TaskEntries` | rust-backend/src/claude_agent.rs:419-456 | one entry per stdout line pushed and per stderr line |
| `AgentStreams.TaskEntriesTagged` | rust-backend/src/claude_agent.rs:419-456 | the entries of both reader tasks are filed under the ticket |
| `AgentStreams.TaskEntriesStdoutAt` | rust-backend/src/claude_agent.rs:425-432 | the i-th entry of an attempt is its i-th stdout line normalized with the stdout task's i-th id and i-th clock reading |
| `AgentStreams.TaskEntriesStderrAt` | rust-backend/src/claude_agent.rs:448-453 | after the stdout entries, the i-th is the i-th stderr line prefixed with "ERROR: " and normalized with the stderr task's i-th id and clock reading |
| `AgentStreams.StderrEntryAt` | rust-backend/src/claude_agent.rs:448-453 | the i-th stderr entry is the i-th line prefixed and normalized |
| `AgentStreams.LineReader` | rust-backend/src/claude_agent.rs:419-456 | no contract of its own: `AgentStreams.LineReaderFiles`, `AgentStreams.TaskEntriesStdoutAt` and `AgentStreams.TaskEntriesStderrAt` state what it pushes, line by line |
| `AgentStreams.LineReaderFiles` | rust-backend/src/claude_agent.rs:419-456 | the Claude and Cursor reader tasks file every entry under the ticket; a spawned attempt pushes one entry per stdout and per stderr line, one that did not spawn none |
| `AgentStreams.ReadAttempt` | rust-backend/src/claude_agent.rs:419-471 | running both reader tasks to the end returns the stdout lines and the login flag and pushes exactly what `LineReader` gives for that attempt |
| `GeminiAgent.GeminiConfig` | rust-backend/src/gemini_agent.rs:61-91 | the GEMINI_AGENT_ variables, with "gemini" and StreamJson as defaults |
| `GeminiAgent.GeminiDefaults` | rust-backend/src/gemini_agent.rs:48-59 | no variables set gives the defaults |
| `GeminiAgent.GeminiArgs` | rust-backend/src/gemini_agent.rs:211 | exactly `-p <prompt>`, with no format flag |
| `GeminiAgent.GeminiCommandLine` | rust-backend/src/gemini_agent.rs:203-226 | the command ignores the configured format |
| `GeminiAgent.AssistantOf` | rust-backend/src/gemini_agent.rs:270-281 | recognises exactly ("message", "assistant") lines and reads their delta flag |
| `GeminiAgent.Flush` | rust-backend/src/gemini_agent.rs:343-354 | flushes one merged entry exactly when the buffer is non-empty |
| `GeminiAgent.MergeKeepsText` | rust-backend/src/gemini_agent.rs:281-354 | the assistant text pushed equals the assistant text read, in order |
| `GeminiAgent.MergePassesOthers` | rust-backend/src/gemini_agent.rs:322-340 | non-assistant lines are pushed unchanged and in order |
| `GeminiAgent.MergeNeverForwardsDeltas` | rust-backend/src/gemini_agent.rs:281-293 | no delta line is pushed on its own |
| `GeminiAgent.PlainScan` | rust-backend/src/gemini_agent.rs:322-340 | without assistant lines the scan buffers nothing and forwards every line in order |
| `GeminiAgent.PlainStreamPassesThrough` | rust-backend/src/gemini_agent.rs:322-340 | with no assistant lines, every line is pushed as read |
| `GeminiAgent.Step` | rust-backend/src/gemini_agent.rs:266-340 | one stdout line pushes at most one entry; `GeminiAgent.DeltasThenFinal` and `GeminiAgent.MergeNeverForwardsDeltas` state which |
| `GeminiAgent.Merge` | rust-backend/src/gemini_agent.rs:252-356 | no contract of its own: `GeminiAgent.MergeKeepsText`, `GeminiAgent.MergePassesOthers` and `GeminiAgent.DeltasFlushed` state what the stdout task pushes |
| `GeminiAgent.DeltasThenFinal` | rust-backend/src/gemini_agent.rs:300-321 | deltas then a final message give one merged entry of buffer ++ content |
| `GeminiAgent.DeltasFlushed` | rust-backend/src/gemini_agent.rs:343-354 | deltas at the end of the stream are flushed as one merged entry, or nothing if empty |
| `GeminiAgent.MergeLine` | rust-backend/src/gemini_agent.rs:268-340 | one iteration of the stdout loop is one `Step` of the merge |
| `GeminiAgent.ReadGeminiStdout` | rust-backend/src/gemini_agent.rs:256-356 | returns the stdout lines and pushes the merged stream, normalized, in order |
| `GeminiAgent.GeminiReaderFiles` | rust-backend/src/gemini_agent.rs:252-392 | the Gemini reader tasks file every entry under the ticket |
| `GeminiAgent.GeminiReader` | rust-backend/src/gemini_agent.rs:252-392 | no contract of its own: `GeminiAgent.GeminiReaderFiles` and `GeminiAgent.ReadGeminiAttempt` state what the Gemini reader tasks push |
| `GeminiAgent.ReadGeminiAttempt` | rust-backend/src/gemini_agent.rs:252-416 | after an exit, both reader tasks joined return the stdout lines and the login flag and push exactly what `GeminiReader` gives: the merged stdout with its flush, then the prefixed stderr lines |
| `GeminiAgent.AnalyzeCode` | rust-backend/src/gemini_agent.rs:476-592 | `Analysis` with the Gemini start text and launch, the reader tasks pushing `RunEntries` of `GeminiReader` |
| `GeminiAgent.GeminiLoginFailure` | rust-backend/src/gemini_agent.rs:418-426 | a failed exit with a login phrase gives AuthenticationRequired, otherwise ProcessFailed(code or −1) |
| `ClaudeAgent.ClaudeConfig` | rust-backend/src/claude_agent.rs:58-88 | the CLAUDE_AGENT_ variables, with "claude" and StreamJson as defaults |
| `ClaudeAgent.ClaudeDefaults` | rust-backend/src/claude_agent.rs:45-56 | no variables set gives the defaults |
| `ClaudeAgent.ModeSuffix` | rust-backend/src/claude_agent.rs:226-256 | every suffix starts with the mode header |
| `ClaudeAgent.PrepareRequestByMode` | rust-backend/src/claude_agent.rs:224-259 | copies everything but the question, which is extended by a suffix |
| `ClaudeAgent.ModeNamed` | rust-backend/src/claude_agent.rs:226-256 | the suffix names PLAN exactly for "plan", EDIT exactly for "edit", ASK for every other mode |
| `ClaudeAgent.RewriteInjective` | rust-backend/src/claude_agent.rs:224-259 | different requests stay different after rewriting |
| `ClaudeAgent.BuildClaudeArgs` | rust-backend/src/claude_agent.rs:354-389 | the successive `arg` calls build `ClaudeArgs` |
| `ClaudeAgent.ClaudeArgsRead` | rust-backend/src/claude_agent.rs:354-389 | starts with "-p" and ends with the prompt; the flags name the format; `--verbose` exactly for the streaming formats; Text adds nothing |
| `ClaudeAgent.ClaudeArgsInjective` | rust-backend/src/claude_agent.rs:354-389 | the argument list determines format and prompt |
| `ClaudeAgent.ClaudePrompt` | rust-backend/src/claude_agent.rs:509-523 | the prompt is built from the rewritten question |
| `ClaudeAgent.AnalyzeCode` | rust-backend/src/claude_agent.rs:99-222 | `Analysis` with the Claude start text and launch, the reader tasks pushing `RunEntries` of `LineReader` |
| `ClaudeAgent.ClaudeExitFailure` | rust-backend/src/claude_agent.rs:473-476 | a failed exit is ProcessFailed(code or −1), whatever stderr said |
| `CursorAgent.CursorConfig` | rust-backend/src/cursor_agent.rs:58-88 | the CURSOR_AGENT_ variables, with "cursor-agent" and StreamJson as defaults |
| `CursorAgent.CursorDefaults` | rust-backend/src/cursor_agent.rs:45-56 | no variables set gives the defaults |
| `CursorAgent.BuildCursorArgs` | rust-backend/src/cursor_agent.rs:309-335 | the successive `arg` calls build `CursorArgs` |
| `CursorAgent.CursorArgsRead` | rust-backend/src/cursor_agent.rs:309-335 | starts with "-p" and ends with the prompt; the flags name the format; never `--verbose` |
| `CursorAgent.CursorArgsInjective` | rust-backend/src/cursor_agent.rs:309-335 | the argument list determines format and prompt |
| `CursorAgent.CursorCommand` | rust-backend/src/cursor_agent.rs:297-345 | the configured program in the analysis directory with the request's prompt last and the key only when set |
| `CursorAgent.AnalyzeCode` | rust-backend/src/cursor_agent.rs:99-215 | `Analysis` with the Cursor start text and launch, the reader tasks pushing `RunEntries` of `LineReader` |
| `CursorAgent.CursorExitFailure` | rust-backend/src/cursor_agent.rs:419-422 | a failed exit is ProcessFailed(code or −1) |
| `AgentFactory.Name` | rust-backend/src/agent_factory.rs:25-30 | "Gemini CLI" and "Cursor Agent" |
| `AgentFactory.NameReadsBack` | rust-backend/src/agent_factory.rs:16-30 | the first word of a name parses back to its type |
| `AgentFactory.LowerIsWord` | rust-backend/src/agent_factory.rs:17 | lowercasing gives a lowercase word exactly when the text spells it in any case |
| `AgentFactory.FromStr` | rust-backend/src/agent_factory.rs:16-22 | no contract of its own: `AgentFactory.FromStrSpelling` and `AgentFactory.FromStrIgnoresCase` state which spellings it accepts |
| `AgentFactory.FromStrIgnoresCase` | rust-backend/src/agent_factory.rs:16-22 | `from_str(s) == from_str(lowercase(s))` |
| `AgentFactory.FromStrSpelling` | rust-backend/src/agent_factory.rs:16-22 | Gemini exactly for "gemini", Cursor exactly for "cursor", in any case; None otherwise |
| `AgentFactory.SelectedType` | rust-backend/src/agent_factory.rs:67-71 | Cursor exactly when AGENT_TYPE spells "cursor" |
| `AgentFactory.CreateAgent` | rust-backend/src/agent_factory.rs:34-61 | each type with its own settings from the environment |
| `AgentFactory.CreateAgentFromEnv` | rust-backend/src/agent_factory.rs:67-76 | the selected type |
| `AgentFactory.UnsetOrInvalidSelectsGemini` | rust-backend/src/agent_factory.rs:67-71 | an unset or unknown AGENT_TYPE gives Gemini with its settings |
| `Jwt.DefaultConfig` | rust-backend/src/jwt.rs:19-27 | 168 hours, and the variable's secret or the fixed one |
| `Jwt.AsUsize` | rust-backend/src/jwt.rs:31-32 | the cast wraps into [0, 2^64) and keeps values already in range |
| `Jwt.TokenClaims` | rust-backend/src/jwt.rs:29-38 | the subject and username are the given ones |
| `Jwt.ValidForConfiguredHours` | rust-backend/src/jwt.rs:29-38 | `iat` is now and `exp − iat` is the configured hours in seconds |
| `Jwt.DefaultValidForAWeek` | rust-backend/src/jwt.rs:19-38 | a default token is valid for 604800 seconds |
| `Jwt.ExtractTokenFromHeader` | rust-backend/src/jwt.rs:61-66 | Some exactly for headers starting with "Bearer ", and header == "Bearer " + token |
| `Jwt.BearerRoundTrip` | rust-backend/src/jwt.rs:61-64 | `extract("Bearer " + t) == Some(t)` |
| `Jwt.SchemeIsCaseSensitive` | rust-backend/src/jwt.rs:62-66 | "bearer ", "BEARER " and a bare "Bearer" give nothing |

## Left out

- Subprocess execution: spawning, pipes, `which`, file metadata, waiting and killing are answers of a `Host` value, not system calls.
- The real timeout and the two-second sleep between attempts: an attempt's end is a tag (`TimedOut`), and `RetryLoop` counts the waits.
- Interleaving of the stdout and stderr reader tasks: within each attempt the model pushes the stdout entries before the stderr entries, and it pushes the entries of all attempts once the attempts are over, before the final line. Nothing else changes the run's ticket or session in between, so the state afterwards is the same.
- An attempt that timed out or whose wait failed aborts its reader tasks: its `stdout` and `stderr` stand for the lines read before the abort, and the Gemini merge's final flush is not pushed then (`GeminiPushed`). Which lines a task reads before it is aborted is a race the model does not decide.
- Reader task failures (`JoinError`) are not modelled.
- SQL itself: `init_schema`, `run_migrations`, `clear_all_tickets` and storage errors (a database that cannot be reached). Tables are maps and a sequence, with primary-key, CHECK and foreign-key rules as preconditions of success.
- Listing and lookup handlers without decision logic (`list_projects`, `get_project`, `delete_project`, `list_tickets`, `update_ticket_status`, `login`, `get_me`, `update_plan`, `get_plan_history`, `get_plan_approvals`): they forward to the database.
- The plan-approval storage functions (`approve_plan`, `count_plan_approvals`, `get_user_by_username`, `create_user`) are not part of this model. Their results are parameters (`saved`, `count`) or an in-memory users map.
- The fire-and-forget save in `MsgStore::push`: it becomes a queue of pending records that `RunPendingWrite` runs one at a time, in any order. The broadcast does not wait for the save.
- The tokio broadcast channel, the websocket handler and `main.rs`: broadcasts are an appended sequence.
- `JoinHandle::abort` in `stop_analysis`: only the removal from `running_tasks` is kept.
- bcrypt, jsonwebtoken signing and verifying (`verify_token`), and the axum extractors.
- serde_json parsing and printing (except the merged Gemini line, printed by a small renderer with sorted keys), UUIDs, clocks, environment reads and the regex engine: these are parameters or hand-written matchers.
- Timestamps are integers, standing for RFC 3339 text whose order they share.
- `TicketRecord` carries `mode`, `plan_content`, `plan_created_at` and `required_approvals`, which the handlers and agents use but the struct at database.rs:16-28 lacks.
- `LogMessageType` has five variants, as the log table's CHECK lists, although the enum at message_store.rs:11-16 has four.
- Lowercasing is ASCII only. No keyword the code compares against can be reached from a non-ASCII letter by lowercasing.
- `\d` and `\w` in the patterns are ASCII; `\s` and `trim` use the Unicode White_Space set.
- `MsgStore::get_logs` calls `get_logs_for_ticket` with one argument, whereas the signature at database.rs:458-463 takes three. The model passes no limit and no offset, so a cold read gives the first 100 logs. `warm_cache` likewise refills from the first 100.
- The `main.rs` variant of `CodeAnalysisRequest` is not modelled.
- The tracing and logging calls are not modelled.
- MessageStore.FromStr: reads "result" as Result (see Findings), whereas `from_str` at message_store.rs:28-35 reads it as System. Every other name reads the same under both (`MessageStore.FromStrAgreesAsWritten`).
- MessageStore.FromRecord: a stored row typed "result" reads back as Result, where the code gives System (`MessageStore.FromRecordAgreesAsWritten` covers every other row).
- MessageStore.RecordRoundTrip: holds for Result entries only with the corrected parse. In the code a Result entry comes back as System (`MessageStore.RecordRoundTripAsWritten`).
- MessageStore.MsgStore.GetLogs: on the cold path (ticket not buffered) stored Result logs come back as Result, where the code returns them as System.
- MessageStore.MsgStore.WarmCache: stored Result logs are buffered as Result, where the code buffers them as System.
- AgentStreams.TaskEntries: every entry that `LineReader` and `GeminiReader` push has its own clock reading (`outClock`, `errClock`), as `normalize` reads the clock once per line. The readings are parameters and nothing requires them to increase, so the model does not promise that ordering an attempt's stored logs by timestamp gives push order; the code gets push order only as far as the clock does.
- GeminiAgent.Merge: the fallback timestamp text of a merged message (`clockText`) is one reading per attempt, where the code reads the clock at each merge. It appears only inside the merged line's JSON text.
- LogNormalizer.FilePath: uses the corrected file pattern (`Patterns.FileAt`, see Findings), not the pattern as written, so on lines of the form "<keyword> file: <path>" it captures the path where the code captures none. On every other line both agree (`Patterns.CaptureFileAgrees`).
- LogNormalizer.ToolFields: the path and extension come from `LogNormalizer.FilePath`, so they differ from the code as written in the same way.
- LogNormalizer.PathFields: as for `LogNormalizer.ToolFields`.
- LogNormalizer.FileExtensionOfPath: states the extension of the corrected pattern's path.
- LogNormalizer.ExtractMetadata: a ToolUse line's path and extension follow the corrected file pattern.
- LogNormalizer.Normalize: a plain ToolUse line's metadata follows the corrected file pattern.
- Database.PagesConcatenate: holds for the model's one order of rows with equal timestamps. SQLite does not fix that order, so two queries can break ties differently. With distinct timestamps the order is forced (`Database.QueryOrderForced`).
- ApiHandlers.HasMore: the u64 sum `offset + logs.len()` wraps, as in a release build. A debug build panics on that overflow instead.
- AgentCommon.AutoTicket: one auto-created ticket for all three adapters. cursor_agent.rs:113-124 writes the record without `mode`, the plan fields and `required_approvals`, a literal that does not match the record the other adapters fill. The model gives the Cursor ticket the request's mode and two approvals, like the others.
- LogNormalizer.CleanContent: promises "no whitespace run" only for System and Assistant lines. For Error and ToolUse lines, removing "ERROR:" or "Tool:" after collapsing can leave two spaces next to each other.
- LogNormalizer.CleanRemovesEscapes: requires every ESC in the trimmed line opens a code. The removal is a single pass, so a code hidden inside another survives (`Patterns.StripAnsiSinglePass`).

## Findings

| source | as written | input that shows it | evidently intended | confidence | as-written member | corrected member |
|---|---|---|---|---|---|---|
| rust-backend/src/message_store.rs:28-35 | `from_str` has no arm for "result", so that name parses as System. The log table's CHECK at database.rs:120 allows "result", and the model's `as_str` gives it to `Result`; `as_str` at message_store.rs:19-26 has no such arm | `from_str("result")`, i.e. `from_str(as_str(Result))` | `from_str(as_str(t)) == t` for every type | not executed | `MessageStore.AsWrittenLosesResult` | `MessageStore.NameRoundTrip` |
| rust-backend/src/log_normalizer.rs:19 | after the keyword and its whitespace, `[^\s]+\.[a-zA-Z]{1,4}` must start at "file:", which has no dot, so the pattern finds no path | "Reading file: src/auth/login.js" (the module's own test at lines 318-326 expects file_path "src/auth/login.js"; the test at 339-348 has the same form) | the path after "file:" is captured | not executed | `Patterns.LoginLineAsWrittenMisses` | `Patterns.LoginLineFilePath` |
