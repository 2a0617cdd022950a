# cslog-cpp core, modelled in Dafny

cslog-cpp is a small asynchronous logger that writes JSON-lines records.
Producers render each record as one line of text and push it onto a bounded
queue. A single consumer thread takes records from the queue, appends them
to a size-capped log file and flushes that file on byte, time and severity
triggers.

This project models the sequential rules underneath that machinery:

- `Levels` (`levels.dfy`): the severity enum and its ranks, the printed
  names, the `lvl > level` threshold test, and the level chosen from the
  configured string.
- `Config` (`config.dfy`): the configuration record and its defaults.
- `Decimal` (`decimal.dfy`): decimal and zero-padded integer text, and a
  reader for that text.
- `JsonString` (`json_string.dfy`): `jsonEscape`, as a specification
  function plus the looping method. Its partner is a decoder for the string
  grammar of section 7 of RFC 8259, and the two are joined by a round-trip
  proof.
- `Record` (`record.dfy`): the `LogLine` destructor. It covers the
  threshold test, stripping of trailing line terminators, and the record
  layout with and without a call site. A reader for that layout gives the
  round-trip proof.
- `TaskQueue` (`queue.dfy`): `Logger::push` as a decision and a new queue,
  with the `drop`, `warn` and `block` policies.
- `Retention` (`retention.dfy`): the pattern of log file names,
  `cleanupOldLogFiles` over a snapshot of the directory, and the names
  `createNewLogFile` generates.
- `Engine` (`engine.dfy`): the `Logger` object as a class. Its methods are
  `Push`, the record hand-off, `cleanupOldLogFiles`, `createNewLogFile`,
  `openFileOnce`, `rotate`, one pass of `workerThread` and `stop`. Each
  method is specified by a transition function on the logger's `State`,
  and the lemmas about those functions state the byte accounting, rotation,
  flush and exit rules.

Inputs from the environment become parameters:

- the wall clock, as broken-down local time (`DateTime`);
- the steady clock, as an integer number of milliseconds (`now`, one
  reading per pass);
- the directory contents, as a sequence of entries with name, size,
  modification time and a regular-file flag;
- the outcome of opening a file (success and the file's existing size), as
  an `OpenEnv` for the open and another for a rotation within the same pass.

Files are abstract: the model keeps the number of bytes that reached the
disk (`flushed`) and the number still in the stream buffer (`buffered`).

The model keeps these details of the code, which are easy to misread:

- the `\u00xx` escape uses lower-case hex digits;
- at capacity, a queue policy other than `drop`, `warn` or `block` still
  appends;
- the immediate flush after a record applies to every level whose rank is at
  most ERROR's, which includes OFF;
- the final flush after the loop does not reset `bytesSinceFlush`;
- no filesystem call is guarded: `fs::exists`, `directory_iterator`,
  `file_size`, `last_write_time` (inside the sort's comparison),
  `fs::remove` and `create_directories` throw `filesystem_error` on failure,
  nothing on the worker thread catches it, and the process then terminates.
  The model takes every one of these calls to succeed.

## Model

| member | source | states |
|---|---|---|
| Levels.LogLevel.Rank | cslog/include/cslog/csLog.h:22-28 | ranks lie in -1..3, and rank -1 is exactly OFF |
| Levels.RanksOrdered | cslog/include/cslog/csLog.h:22-28 | OFF < ERROR < WARN < INFO < DEBUG, and the rank determines the level |
| Levels.LevelName | cslog/include/cslog/csLog.h:30-38 | any value other than the four record levels prints as "OFF" |
| Levels.NamesDistinct | cslog/include/cslog/csLog.h:30-38 | names are equal iff the levels are equal, and no record level prints as "OFF" |
| Levels.AdmitsByRank | cslog/src/csLog.cpp:213 | a record passes iff its rank ≤ the threshold's rank, and passing is monotone in the threshold |
| Levels.ThresholdExtremes | cslog/src/csLog.cpp:335 | threshold DEBUG admits every level; threshold OFF admits none of the four record levels |
| Levels.ErrorThreshold | cslog/src/csLog.cpp:335 | threshold ERROR admits exactly ERROR among the record levels; every level admits itself |
| Levels.ParseLevel | cslog/src/csLog.cpp:75-84 | the parsed level is never OFF |
| Levels.ParseLevelFirstLetter | cslog/src/csLog.cpp:77-78 | two strings whose first characters upper-case alike parse to the same level |
| Levels.ParseLevelTable | cslog/src/csLog.cpp:78-84 | E/W/D in either case give ERROR/WARN/DEBUG; any other first character, or an empty string, gives INFO |
| Levels.ParseLevelName | cslog/src/csLog.cpp:75-84 | every printed record-level name parses back to its level, in upper or lower case |
| Levels.LoadLevel | cslog/src/csLog.cpp:75 | an absent `level` key keeps the current level; a present one yields a record level |
| Config.Defaults | cslog/include/cslog/csLog.h:52-68 | enable, toConsole and toFile are true; level DEBUG; 5 MiB per file; 50 MiB in total; 20000 queued tasks; policy "block" |
| Config.DefaultsConsistent | cslog/include/cslog/csLog.h:57-66 | the defaults admit every level; 0 < per-file cap ≤ total cap (exactly a tenth of it); the queue bound is positive |
| JsonString.JsonEscape | cslog/src/csLog.cpp:13-37 | the loop's output equals `Escaped(s)`, the concatenation of the per-character images |
| JsonString.Escaped | cslog/src/csLog.cpp:17-36 | the output is between 1 and 6 times as long as the input |
| JsonString.EscapedAppend | cslog/src/csLog.cpp:17-36 | escaping distributes over concatenation |
| JsonString.EscapeCharShape | cslog/src/csLog.cpp:18-33 | the seven named characters get a two-character escape that decodes back to them; other characters below 0x20 get a 6-character `\u00xx` whose hex value is the code; everything else is copied |
| JsonString.EscapedHasNoControl | cslog/src/csLog.cpp:17-36 | the output holds no raw character below 0x20 |
| JsonString.ScanEscaped | cslog/src/csLog.cpp:13-37 | decoding the output by the RFC 8259 string grammar up to the closing quote gives back exactly the input, and stops at that quote |
| JsonString.DecodeEscaped | cslog/src/csLog.cpp:13-37 | the quoted output is a JSON string literal whose value is the input |
| JsonString.PlainEscaped | cslog/src/csLog.cpp:31-32 | text with no quote, backslash or control character is its own escape |
| Decimal.IntTextRoundTrip | cslog/src/csLog.cpp:364 | the decimal text written for the line number reads back as that number, whatever non-digit follows |
| Decimal.PaddedExact | cslog/src/csLog.cpp:161-165 | zero-padding a value below 10^w gives exactly w digits that read back as the value |
| Decimal.PaddedInjective | cslog/src/csLog.cpp:161-165 | equal padded texts come from equal values |
| Record.StripTrailingSpec | cslog/src/csLog.cpp:340-342 | the stripped message is a prefix, does not end in `\n` or `\r`, and everything removed was `\n` or `\r` |
| Record.StripTrailingUnique | cslog/src/csLog.cpp:340-342 | those three facts determine the stripped message |
| Record.StripKeepsInterior | cslog/src/csLog.cpp:340-342 | interior terminators are kept; exactly the trailing run of CR/LF characters, whatever it is, is removed |
| Record.Emitted | cslog/src/csLog.cpp:335-336 | nothing is produced iff logging is disabled or the level fails the threshold |
| Record.FinishLine | cslog/src/csLog.cpp:333-372 | the destructor's strip loop and text building produce exactly `Emitted(...)` |
| Record.ParseRenderLine | cslog/src/csLog.cpp:357-369 | reading a rendered record back gives the time text, the level name, the call site exactly when one was supplied (a null function reads as ""), and the stripped message; members come in the order time, level, [file, line, func,] msg, followed by `}` and a newline |
| Record.ParseLayout | cslog/src/csLog.cpp:358-369 | the record layout reads back for any plain time and level text and any message |
| Record.MacroSites | cslog/include/cslog/csLog.h:113-141 | records from the plain macros read back without file/line/func; records from the `_F` macros read back with exactly the captured file, line and function |
| Record.LayoutShape | cslog/src/csLog.cpp:357-369 | the layout starts with `{"time":"` and ends with `}` and a newline, with no control character before that newline |
| Record.RenderLineShape | cslog/src/csLog.cpp:333-369 | every rendered record starts with `{"time":"` and is exactly one line ending in `}\n` |
| Record.SiteFieldsNoControl | cslog/src/csLog.cpp:362-366 | the call-site members contain no control character |
| TaskQueue.PushFiltered | cslog/src/csLog.cpp:213-214 | a disabled logger or a level above the threshold leaves the queue unchanged, whatever its size and policy |
| TaskQueue.PushWithRoom | cslog/src/csLog.cpp:218-232 | below capacity an admitted task is appended at the back |
| TaskQueue.PushAtCapacity | cslog/src/csLog.cpp:218-232 | at capacity "drop" and "warn" discard the task, "block" waits without appending, and any other policy string appends |
| TaskQueue.BlockAppendsIffRoom | cslog/src/csLog.cpp:227-232 | under "block" an admitted task is appended iff the queue is below capacity, and otherwise the queue is unchanged |
| TaskQueue.PushShape | cslog/src/csLog.cpp:212-234 | a push leaves the queue as it was or appends the task at the back (the latter iff the outcome is Enqueued); the three named policies keep the bound |
| TaskQueue.PushAllFifo | cslog/src/csLog.cpp:212-234 | a producer's successive pushes keep the earlier queue as a prefix and append a subsequence of its tasks in their order |
| TaskQueue.PushAllWithRoom | cslog/src/csLog.cpp:212-234 | with room for all of them, every admitted task is queued in order |
| Retention.CollectMatching | cslog/src/csLog.cpp:100-113 | the directory scan keeps exactly the regular entries whose names pass the filter, in directory order (`Matching`) |
| Retention.SumSizes | cslog/src/csLog.cpp:117-120 | the running sum equals `TotalSize` of the matching files |
| Retention.DeleteOldest | cslog/src/csLog.cpp:131-145 | the deletion loop deletes exactly `OldestFirstUntil(...)`: the oldest files, stopping once the total is within budget, subtracting sizes down to zero |
| Retention.Cleanup | cslog/src/csLog.cpp:89-146 | the filter, sum and delete loops delete exactly `CleanupSelection(...)` |
| Retention.MatchingSpec | cslog/src/csLog.cpp:100-113 | the candidates are exactly the regular entries of the directory whose names match |
| Retention.MatchingNameForm | cslog/src/csLog.cpp:97-108 | a matching name is `base + "_" + mid + ".log"` with a non-empty `mid` |
| Retention.NameFormMatches | cslog/src/csLog.cpp:97-108 | every such name with a non-empty `mid` matches |
| Retention.GeneratedNameMatches | cslog/src/csLog.cpp:161-167 | every name built from the base name and the time stamp passes the cleanup filter, with the stamp as its middle |
| Retention.GeneratedPathInDirectory | cslog/src/csLog.cpp:161-167 | when logPath ends with `/` and the base name has none, the new path is logPath followed by a separator-free name that passes the filter, so the cleanup of logPath sees the file |
| Retention.FileNameInjective | cslog/src/csLog.cpp:161-167 | different in-range times give different file names |
| Retention.StampFieldWidths | cslog/src/csLog.cpp:161-165 | for an in-range time the stamp fields are 4, 2, 2, 2, 2 and 2 digits wide, 19 characters in all |
| Retention.SortSpec | cslog/src/csLog.cpp:125-129 | the sort yields a permutation in ascending modification time with the same total size |
| Retention.TotalSizeAppend | cslog/src/csLog.cpp:117-120 | the total size of a concatenation is the sum of the totals |
| Retention.CleanupNothing | cslog/src/csLog.cpp:93-123 | nothing is deleted when the budget is 0 or the matching files fit in it |
| Retention.NoMatchNoCleanup | cslog/src/csLog.cpp:115 | nothing is deleted when no regular file matches |
| Retention.CleanupOldestFirst | cslog/src/csLog.cpp:122-145 | over budget, the deleted files are a non-empty prefix of the candidates sorted oldest first; deletion stops at the first point where the rest fits; afterwards the rest fits or every candidate is gone |
| Retention.OldestFirstSpec | cslog/src/csLog.cpp:131-145 | started from the exact total, the loop deletes a prefix, stops as early as possible, ends with the exact remaining size, and its saturating branch is never taken |
| Retention.OldestFirstNoUnderflow | cslog/src/csLog.cpp:140-144 | the running total never goes below zero |
| Retention.CleanupDeletesOnlyLogs | cslog/src/csLog.cpp:100-145 | only regular files of the directory with matching names are deleted |
| Engine.LogSpecShape | cslog/src/csLog.cpp:333-372 | a record going out of scope adds at most one task, its rendered text, at the back; none when filtered; exactly it when admitted and there is room |
| Engine.AnnounceRecord | cslog/src/csLog.cpp:167-169 | starting a file queues one INFO record without call site whose message names the new file path |
| Engine.CreateSpecFacts | cslog/src/csLog.cpp:148-185 | the new path is logPath plus a name that passes the cleanup filter; a successful open starts from the existing size with nothing buffered; a failed one leaves the file closed with size 0; at most the announcement is queued; the invariant holds |
| Engine.RotateSpecFacts | cslog/src/csLog.cpp:197-210 | below the cap rotate changes nothing; at or above it the old file is closed, the cleanup's deletions are recorded and a new file is started |
| Engine.WriteAccounting | cslog/src/csLog.cpp:277-281 | a write adds exactly the record's byte length to the size, to the unflushed count and to the file; below the cap the file is kept; a file opened below the cap is closed, fully accounted, below cap plus the last record |
| Engine.HandleTaskFacts | cslog/src/csLog.cpp:267-290 | the invariant is kept; at most two announcements are queued; a failed open writes nothing and leaves size 0; an ERROR (or lower) record leaves nothing unflushed and resets the timer |
| Engine.IterationFacts | cslog/src/csLog.cpp:245-319 | the loop ends iff stop was requested and the queue is empty, then only the final flush happens; otherwise the front task is taken, the invariant is kept, and an open file ends the pass with fewer than 32768 unflushed bytes and its last flush less than 1000 ms ago |
| Engine.FlushKeepsInv | cslog/src/csLog.cpp:292-309 | an explicit flush and the periodic check keep the invariant; a flush of an open file leaves nothing unflushed and everything written on disk |
| Engine.CleanupSpecFacts | cslog/src/csLog.cpp:89-146 | cleanup only records deletions of matching names and changes nothing else; a budget of 0 changes nothing |
| Engine.Logger.constructor | cslog/include/cslog/csLog.h:92-101 | the logger starts in `Initial(start)`: empty queue, no stop requested, no file open, every counter 0, no deletions, last flush at the worker's start (csLog.cpp:243); `Valid()` holds |
| Engine.Logger.Push | cslog/src/csLog.cpp:212-234 | the outcome is `PushDecision` and the queue becomes `AfterPush`; nothing else changes |
| Engine.Logger.Log | cslog/src/csLog.cpp:333-372 | the queue becomes `LogSpec(...)`; nothing else changes |
| Engine.Logger.CleanupOldLogFiles | cslog/src/csLog.cpp:89-146 | the names `Retention.Cleanup` deletes are appended to `removed`, in deletion order; nothing else changes |
| Engine.Logger.CreateNewLogFile | cslog/src/csLog.cpp:148-185 | the state becomes `CreateSpec` of the old one: the path is named after the clock, the announcement is queued, and a successful open starts the counters from the file's existing size (a failed one leaves it closed with size 0); `CreateSpecFacts` proves these of `CreateSpec`; the new state satisfies `Inv` whatever the old one was |
| Engine.Logger.OpenFileOnce | cslog/src/csLog.cpp:187-195 | the state becomes `OpenOnceSpec` of the old one: an open file is kept; otherwise the cleanup runs and then a new file is started |
| Engine.Logger.Rotate | cslog/src/csLog.cpp:197-210 | the state becomes `RotateSpec` of the old one: nothing happens below the cap; otherwise the file is flushed and closed, the cleanup runs and a new file is started (`RotateSpecFacts`) |
| Engine.Logger.Write | cslog/src/csLog.cpp:278-280 | the state becomes `WriteSpec` of the old one: size, unflushed count and buffer each grow by the record's UTF-8 byte length, and nothing else changes |
| Engine.Logger.Flush | cslog/src/csLog.cpp:284-286 | the state becomes `FlushSpec` of the old one: an open file's buffer goes to disk, both flush triggers reset (as also at csLog.cpp:305-307), and nothing else changes |
| Engine.Logger.HandleTask | cslog/src/csLog.cpp:275-289 | the state becomes `HandleTaskSpec` of the old one: open if needed, write and count the record only if the file is open, rotate, then flush at once after an ERROR record (`HandleTaskFacts`); the invariant `Inv` is kept |
| Engine.Logger.PeriodicFlush | cslog/src/csLog.cpp:292-309 | the state becomes `PeriodicSpec` of the old one: a flush, which resets both triggers, happens iff file output is on, the file is open, and at least 32768 bytes or 1000 ms have accumulated; the invariant `Inv` is kept |
| Engine.Logger.WorkerIteration | cslog/src/csLog.cpp:245-319 | the new state and the exit flag are `IterationSpec` of the old state (its exit, queue and flush rules are `IterationFacts`), and the invariant `Inv` is kept |
| Engine.Logger.RequestStop | cslog/src/csLog.cpp:322-328 | sets the exit flag and nothing else |
| Engine.Logger.CloseFile | cslog/src/csLog.cpp:330 | closing flushes the buffer and marks the file closed |

## Left out

- Threads, the mutex, the condition variable's waits and notifications, the worker's start and `join`, and the singleton's construction and destruction. Producer and consumer are sequential operations on one state, and waiting under "block" is the outcome `Waits`, which leaves the queue unchanged.
- Retention.GeneratedNameMatches: the name passes the filter, but the path is `logPath + name` with no separator added. The new file is in the directory the cleanup lists only when logPath ends with a separator and the base name contains none (`Retention.GeneratedPathInDirectory`); with logPath `./logs` the file is `./logsserver_….log`, which the cleanup of `./logs` never sees. The model does not track which directory a path lies in.
- Out-of-range levels. A C++ `LogLevel` can hold a value outside its enumerators (a cast of -2, say); such a value prints as "OFF", passes every threshold and triggers the ERROR flush. The `LogLevel` datatype has only the five enumerators and cannot represent it.
- Engine.Logger.Push: waiting under "block" is an outcome and not a wait, so the call that later finds room is a separate call.
- Engine.AnnounceRecord: the announcement is pushed from the consumer itself. Under "block" with a full queue the consumer would wait for itself forever; the model only returns `Waits`.
- Console output, the stderr warning of the "warn" policy, and the ANSI colours (`levelColor`). They are output side effects with no state.
- YAML loading. Only the level-letter mapping is modelled (`Levels.ParseLevel`); the other keys simply replace fields of `LogConfig`.
- `maxFileCount` is a configuration field that no operation reads.
- Clocks. `localtime_r`, `strftime` and `snprintf` become a `DateTime` input and padded decimal text. Their buffer sizes (64 and 32 bytes) are never reached for in-range times and are not modelled.
- The announcement record's time stamp is taken from the same clock reading as the file name. The source reads the clock again in the record's destructor.
- The existing size of a file being opened is an input and is not tied to its path. Two files started within the same second get the same name (`Retention.FileNameInjective` is the converse), so the second open appends to the first file. The model does not track that.
- The steady clock is read once per pass (`now`). The source reads it separately for the ERROR flush and for the periodic check.
- The filesystem and streams. `create_directories`, `directory_iterator`, `fs::remove`, `ofstream` open/write/flush/close, `pubsetbuf` and `tellp` become a directory snapshot, an open outcome, an existing size and two byte counters. Every filesystem call is taken to succeed; in the source a failing one throws `filesystem_error`, uncaught, and the process terminates. The deletions are recorded as names; the model keeps no live directory.
- The stream's own buffer draining on its own when full is not modelled. `buffered` counts the bytes written since the last explicit flush.
- Retention.SortByMtime: `std::sort` leaves the order of entries with equal modification time unspecified. The model uses one particular (stable) order. The cleanup properties proved (sorted, permutation, prefix, budget) do not depend on that choice.
- Integer widths. `size_t` and `uintmax_t` counters are unbounded `nat`, so their overflow is not modelled. Line numbers are unbounded `int`.
- Text is a sequence of Unicode characters. Escaping per character agrees with escaping per UTF-8 byte, because every byte of a multi-byte character is at least 0x80 and is copied. Invalid UTF-8 has no representation. Byte counts use the UTF-8 length of the text (`Engine.ByteLength`).
- JsonString.ScanString: `\u` escapes of UTF-16 surrogates are rejected rather than combined into pairs. The escaper never produces them.
- The usage demo `main.cpp`, which only logs and sleeps, is not part of this model.
