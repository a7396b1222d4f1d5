# Archive and export pipeline, live feed and tenant bookkeeping: a verified model

The service takes sensor readings from MQTT, keeps the latest reading of each device, pushes readings to
dashboards over WebSockets, and archives every accepted reading as rows of CSV objects keyed by organization,
device and UTC hour. Export jobs later pick archive objects by key and merge their rows into one file.

This project models that pipeline in Dafny and proves what it promises, from the characters of an object key
up to runs in which any number of handlers, flushes and export workers interleave.

## How the model is laid out

| file | what it models |
|---|---|
| `Text.dfy`, `Calendar.dfy`, `Telemetry.dfy` | splitting, numerals, white space and byte order; dates and RFC 3339 instants; records and the texts they are made of |
| `Keys.dfy`, `Paths.dfy`, `Storage.dfy` | archive and export keys and their parser; `normalizeKey`; where things are stored, and the in-memory store |
| `Csv.dfy`, `Reader.dfy`, `Merge.dfy`, `Exports.dfy` | row codec and CSV text; what the CSV reader takes besides what the writer writes; `ListMatching` and `MergeCSV`; what an export contains |
| `Layout.dfy` | keys, rows, timestamps and files written out, and which texts are read as them |
| `Buffer.dfy`, `Writer.dfy` | the archive writer as a class, one operation at a time |
| `Archive.dfy`, `ArchivePlaces.dfy`, `ArchiveOrder.dfy`, `Refinement.dfy` | the archive writer as a machine with one step per lock section and per Put; the class is shown to be one way to run it |
| `Service.dfy`, `Snapshot.dfy`, `Pipe.dfy`, `ExportJobs.dfy`, `QueueRefinement.dfy` | writer, job table and export workers interleaved; the pipe inside one job; one worker running the whole queue as a class, shown to be one way to run the machine |
| `StateStore.dfy`, `Hub.dfy`, `Ingest.dfy`, `LiveFeed.dfy`, `LiveRuns.dfy`, `LiveAuth.dfy`, `LiveView.dfy`, `LiveFilter.dfy` | latest readings, hub and ingest as classes; set-then-broadcast racing with register-then-snapshot, whole handlers as runs of it, greetings, filters, and what a dashboard shows |
| `Overview.dfy` | the operator's overview |
| `Users.dfy`, `UserSteps.dfy` | user limit and last administrator: requests one at a time as a class, and interleaved with one step per database statement |

Code that updates state in place is written as classes and methods with loops; each is specified by a function
of the old state, and the laws are proved about those functions. Protocols are machines whose runs are
sequences of enabled steps, and their theorems quantify over every run.

## What is assumed

- Store operations and single database statements are atomic, as in `Memory`; a failing Put may or may not have stored its object. A user request is several statements, and others may come between any two of them.
- What a FinishExportJob call reports is true: one that errs was not applied. A dying export worker is an event; the archive writer's process does not die, since its buffers are memory.
- An organization's user limit does not change while requests about its users are under way.
- `newID` never repeats. The concurrent machine only starts a flush with an unused id.
- A UUID is its canonical text and a finite float the text `FormatFloat(f, 'f', -1, 64)` prints, so that printing and parsing are exact inverses.
- Device identifiers are in the alphabet of `internal/api/json.go:13`.
- An instant is a number of nanoseconds since the start of year 0. The CSV reader takes timestamps in the form the writer prints, in UTC with `Z`.
- No device changes its organization. In the interleaved live feed no device is deleted, no lookup fails and no write fails; the hub and ingest classes cover failing writes and lookups.

## What turned out otherwise than expected

- Rows of a device named `.` or with `..` in its name, and rows whose UTC year is outside 0000 to 9999, are never found by an export. `Storage.FileKeyParses` says this is exactly the set that is lost.
- `normalizeKey` is not idempotent; `Paths.NormalizeIdempotent` gives the exact condition, `Paths.NormalizeNotIdempotent` a family of keys that break it.
- An export prefix with `..` or a backslash is accepted at configuration. Put then refuses the key without reading, the merge waits for a reader that never comes, and every job that would have succeeded hangs (`Pipe.JobHangs`).
- Not every running job ends: a job is left running without a worker exactly when its worker died or the call that should record its failure was not applied (`Service.OrphanExactly`), and then for good (`Service.OrphanForever`).
- Two failing flushes of one partition can swap rows (`ArchiveOrder.ConcurrentFlushesSwap`). Rows keep their order exactly while flushes land oldest first and come back newest first (`ArchiveOrder.OrderKept`). A requeue can leave a buffer larger than maxRows (`ArchivePlaces.RequeueOverfills`).
- `auth_ok` precedes every reading a client is sent exactly when no broadcast reached it between its registration and its greeting (`LiveAuth.AuthOkFirst`); answers to pings and to messages that are no JSON may come before it in any case.
- A client's view can lag for good when two handlers of one device overtake each other, when a reading is stored after a snapshot was read, and when it is of a device created after the client's device list, even if the snapshot is then read and written in one step (`LiveView.TwoHandlers`, `LiveView.StaleSnapshot`, `LiveView.LateDevice`). Excluding just these three makes view and store agree (`LiveView.ViewIsStore`).
- Two administrators who demote each other at the same time leave their organization without one (`UserSteps.LastAdminsRace`). So can one delete, if its target was read as an ordinary user and has since been promoted, even though no two removals are between their count and their writes (`UserSteps.StaleTarget`). With at most one removal under way from the read of its target to its last statement, whatever else interleaves, the last administrator stays (`UserSteps.AdminKept`).
- A carriage return before a line feed inside a CSV field reads back as a line feed (`Csv.FileRoundTrip`); no field of an export can hold that pair (`Exports.ExportFixedPoint`).

## Model

| member | source | states |
|---|---|---|
| Calendar.CalendarBijection | internal/archive/keys.go:23-27 | Every day number is the number of exactly one valid date, leap years included: the text of a day in a key names one day |
| Calendar.MonthRule | internal/archive/keys.go:23-27 | The months start where the rule of 153 days for five months from March says, with February of 29 days in leap years |
| Calendar.DayNumberFormula | internal/archive/keys.go:23-27 | The number of every valid date in closed form, counted from March |
| Calendar.EpochTexts | internal/archive/keys.go:23-27 | Day 0 prints as 0000-01-01 and day 719528 as 1970-01-01 |
| Calendar.DatePrinted | internal/archive/keys.go:23-27 | A four-digit date prints as the figures of its year, month and day with hyphens between |
| Text.DigitFigure | internal/archive/keys.go:23-27 | The ten figures are 0 to 9 in this order |
| Calendar.FourDigitDays | internal/archive/keys.go:53-57 | The days of four-digit years are the numbers from 0 to 3652424 |
| Calendar.DayNumberOrder | internal/archive/keys.go:23-27 | Day numbers are ordered as dates are, year first, then month, then day |
| Calendar.DateRoundTrip | internal/archive/keys.go:53-57 | A printed date parses back to its day exactly when the year has four digits, and not at all otherwise |
| Calendar.DateTextOrder | internal/archive/merge.go:52-53 | For four-digit years the byte order of printed dates is the order of the days |
| Calendar.InstantRoundTrip | internal/archive/csv.go:101-112 | parseTS reads the printed timestamp back to the nanosecond, exactly for the years 0000 to 9999 |
| Calendar.FractionForm | internal/archive/csv.go:21-30 | A whole second prints no fraction; any other instant a point and up to nine digits of which the last is not zero, worth its nanoseconds |
| Calendar.FractionScaled | internal/archive/csv.go:101-112 | A fraction that is read counts by its digits, of which only the first nine matter |
| Layout.InstantWritten | internal/archive/csv.go:21-30 | A timestamp is its date, T, two figures each of hour, minute and second of the UTC day with colons between, the fraction, and Z |
| Layout.InstantRead | internal/archive/csv.go:101-112 | A text with Z reads as an instant of a four-digit year if and only if it is the instant's date and clock and any spelling of its fraction |
| Layout.PartitionText | internal/archive/keys.go:23-27 | A partition is org/, the organization, /device/, the device, /date=, the UTC date, /hour= and two figures of the UTC hour |
| Layout.ArchiveFileKey | internal/archive/writer.go:155-156 | The file of an exportable record is stored under its partition, a slash, its id and .csv |
| Layout.KeyExact | internal/archive/keys.go:48-62 | A key is read as organization, device and hour if and only if it is their partition with a file name behind it, the hour in years 0000 to 9999 |
| Layout.MatchExact | internal/archive/keys.go:64-83 | A key matches a query if and only if it parses to the query's organization, to an hour that the range touches, and to a device asked for, where an empty list and a list of empty strings ask for all |
| Keys.MatchKeyUnique | internal/archive/keys.go:13-13 | A key matches the key expression in at most one way, whatever newline-free text the greedy device group holds, slashes included; MatchKey finds that way and no other |
| Keys.KeyRoundTrip | internal/archive/keys.go:48-62 | Parsing the key of a partition and file returns its organization, device and hour exactly when the hour's year has four digits, and fails otherwise |
| Keys.PartitionDetermines | internal/archive/keys.go:23-27 | Two records have the same partition text only when organization, device and UTC hour agree, for every year and every device text |
| Paths.NormalizeForm | internal/storage/key.go:8-28 | normalizeKey refuses empty, backslashed and double-dotted keys and otherwise drops exactly the empty and `.` segments |
| Paths.KeptConcat | internal/storage/key.go:17-26 | What is kept of a key is kept segment by segment, in order |
| Paths.CleanParent | internal/storage/key.go:17-17 | Cleaning a path, a parent reference takes back the segment before it, and nothing at the root |
| Paths.DotDotExact | internal/storage/key.go:14-16 | A key has double dots exactly when two neighbouring characters are dots |
| Text.TrimSpacePadded | internal/storage/key.go:9-9 | Trimming takes exactly the white space around a text |
| Paths.NormalizedIsPlain | internal/storage/key.go:16-27 | An accepted key has no empty, `.` or `..` segment and is not empty |
| Paths.NormalizeIdempotent | internal/storage/key.go:8-28 | Normalising twice equals normalising once if and only if the kept segments neither begin nor end with white space |
| Paths.NormalizeNotIdempotent | internal/storage/key.go:8-16 | For every plain segment s, `/ s` normalises to ` s` and that to `s` |
| Storage.ArchiveKeyNormal | internal/storage/key.go:8-28 | On the archive key of an accepted device normalizeKey is the identity exactly when the device is not `.` and has no `..`; it refuses the latter and moves the former |
| Storage.FileKeyParses | internal/archive/writer.go:155-156 | An archive file's stored key parses back to its rows' organization, device and hour if and only if the record is exportable; otherwise no stored key parses |
| Storage.ExportableExact | internal/archive/keys.go:48-62 | A record is exportable if and only if its device is an accepted identifier, not a single dot and without double dots, and its instant lies in years 0000 to 9999 |
| Storage.FileKeyInjective | internal/archive/writer.go:155-156 | Stored keys of archive files with different ids differ, also across partitions, so no archive file overwrites another |
| Storage.ExportKeyRefused | internal/archive/keys.go:33-40 | The store refuses an export key exactly when the configured prefix has `..` or a backslash |
| Storage.ExportKeyApart | internal/archive/keys.go:33-40 | For every prefix a stored export key neither parses as an archive key nor equals any archive file's key |
| Storage.ExportKeyInjective | internal/archive/keys.go:33-40 | Exports of different jobs are stored under different keys |
| Layout.ExportKeyText | internal/archive/keys.go:33-40 | With the slashes around the configured prefix gone, an export's key is the prefix, or exports when nothing is left, then organization and job, and .csv |
| Layout.ExportKeyStored | internal/archive/keys.go:33-40 | For a prefix of one plain segment that text is also the key it is stored under |
| Storage.Memory.Put | internal/storage/memory.go:22-37 | Stores the body under the normalised key and changes nothing else; a refused key changes nothing |
| Storage.Memory.Get | internal/storage/memory.go:39-53 | Answers what is stored under the normalised key, or says which error it is |
| Storage.PutThenGet | internal/storage/memory.go:22-53 | What was put is got under every spelling of its key and under no other key; before any Put a legal key is not found |
| Storage.Memory.List | internal/storage/memory.go:55-67 | The stored keys with the trimmed prefix, each once, in byte order |
| Text.LessExact | internal/storage/memory.go:65-66 | The order of the keys: a proper beginning first, else the lower character where they first differ |
| Csv.RowRoundTrip | internal/archive/csv.go:21-68 | Decoding an encoded record gives back the record without its device id exactly for years 0000 to 9999, and nothing otherwise |
| Csv.DataIsNotHeader | internal/archive/csv.go:70-81 | No data row is taken for a header |
| Layout.DecodeExact | internal/archive/csv.go:32-68 | A row reads as a record if and only if its six columns hold the record's values, white space around organization, device and timestamp aside |
| Layout.PaddedRow | internal/archive/csv.go:32-68 | So white space around those three columns is ignored |
| Layout.AcceptedLine | internal/archive/csv.go:21-30 | The line of an accepted record is its organization, device, temperature, pressure, humidity and timestamp with commas between, nothing quoted |
| Layout.HeaderLine | internal/archive/csv.go:17-19 | The header line names the columns in that order |
| Layout.FileWritten | internal/archive/csv.go:83-95 | A file is the header line and then the lines of its records |
| Csv.WriteCsv | internal/archive/csv.go:83-95 | Writes the header once and then every row, in order |
| Csv.FileRoundTrip | internal/archive/csv.go:83-95 | Reading a written file back gives the header and the rows, with quoting and quotes inside fields (RFC 4180 section 2), but with a line feed for each carriage return and line feed inside a field; so the rows are the same if and only if no field holds that pair |
| Csv.RecordsRoundTrip | internal/archive/csv.go:21-95 | The same rows for every file of records whose device texts are trimmed and have no line feed, as all accepted ones are |
| Reader.ReadsLines | internal/archive/merge.go:84-94 | Blank lines, carriage returns at line ends and a missing last line feed do not change what is read |
| Reader.UnevenFails | internal/archive/merge.go:84-94 | A row of another width, wherever it comes, makes the whole object unreadable |
| Reader.BareQuote | internal/archive/merge.go:84-94 | A quote inside an unquoted cell is an error |
| Reader.QuotedErrors | internal/archive/merge.go:84-94 | So is a quoted cell that is not closed or goes on behind its closing quote |
| Reader.ErrorFails | internal/archive/merge.go:84-94 | An error in one cell of any line makes the whole object unreadable |
| Merge.DeviceSet | internal/archive/merge.go:23-35 | No set for an empty list; else the non-empty ids, so a list of empty strings gives an empty set |
| Merge.ListMatching | internal/archive/merge.go:37-54 | Answers every stored key that matches the query, each once, in byte order, though it only lists one prefix |
| Merge.AppendObject | internal/archive/merge.go:78-124 | Appends the rows of the object that decode and pass the filter, in order, dropping a header only when it comes first; fails when the object is missing or is not CSV |
| Merge.MergeCsv | internal/archive/merge.go:58-76 | One header and then what the objects contribute, in key order; fails exactly when one of them is missing or is not CSV |
| Exports.MergeExact | internal/archive/merge.go:58-124 | For any objects of any store: a merge fails if and only if one of them is missing or cannot be read, and else gives the rows of all their decodable records that the query asks for, in order |
| Exports.ChosenCount | internal/archive/merge.go:104-112 | The row filter keeps every copy of a record of the organization, within the times, of a device asked for (any, when there is no list), and no copy of another |
| Exports.HeaderHoldsNothing | internal/archive/merge.go:95-99 | Whether a first row is dropped as the header changes no export |
| Exports.MatchingAreArchive | internal/archive/keys.go:64-83 | The keys a query matches are the matching archive files, whatever else is in the store |
| Exports.PruningAgrees | internal/archive/merge.go:37-76 | In every store whose archive objects are readable under their own keys and hold no decodable row of another partition, with or without headers, quoted fields or undecodable rows, and for every query, from > to and lists of empty strings included: merging only the matching objects gives what merging every archive object gives, the same rows in the same order |
| Exports.HeldArePartitioned | internal/archive/writer.go:139-161 | The stores that runs leave are such stores |
| Exports.PruningLosesNothing | internal/archive/merge.go:37-76 | In the stores that runs leave, an export is the wanted records of every archive object in key order, and never fails |
| Exports.PartitionedScan | internal/archive/merge.go:37-124 | In every store whose archive objects are readable and hold no decodable row of another partition, an export never fails and is the rows of a full scan of the decoded records in key order: each record of the organization, the times and the devices asked for as often as the store has it, and no other |
| Exports.ExportOrder | internal/archive/merge.go:52-73 | In an export of every such store whose device texts have no slash, each device's rows form one block in which the hours never decrease |
| Exports.HourOrder | internal/archive/keys.go:23-27 | Among keys of one device the byte order follows the hours |
| Exports.ExportFixedPoint | internal/archive/merge.go:58-124 | Merging an export file of any such store with the query that made it reproduces the file, with one header, whatever quotes, commas and carriage returns its device texts hold |
| Writer.Writer.HandleRecord | internal/archive/writer.go:71-94 | The new buffers and store are those of append, trim to the newest maxRows, and flush at flushRows; it errs exactly when that flush does; without a store nothing happens |
| Writer.RecordExact | internal/archive/writer.go:71-94 | Case by case what a record leaves behind: its rows cut to the newest maxRows stay below flushRows, and from flushRows on go into one new file and leave the buffer, unless the key is refused or the Put fails |
| Writer.WithDefaults | internal/archive/writer.go:42-62 | Configured sizes of at least 1 are used as they are, others become 100 and 10000 |
| Writer.Writer.Append | internal/archive/writer.go:75-90 | The lock section: append, then keep the newest maxRows rows |
| Writer.Writer.FlushPartition | internal/archive/writer.go:139-161 | A flush stores the buffered rows as one new file and empties the buffer, or errs and leaves the buffer as it was |
| Writer.FlushExact | internal/archive/writer.go:139-161 | The same for a flush: stored and gone, stored and kept, or nothing changed |
| Writer.Writer.Requeue | internal/archive/writer.go:163-172 | Failed rows go in front of what is buffered |
| Writer.Writer.Flush | internal/archive/writer.go:120-137 | Every partition buffered at the start is flushed exactly once, in some order, and an error is reported exactly when one of them fails |
| Writer.FlushesExact | internal/archive/writer.go:120-137 | A timed flush empties exactly the partitions whose Put works, each into one file with all its rows, and leaves every other as it was |
| Writer.SlidingWindow | internal/archive/writer.go:82-94 | Run one operation at a time, a partition's buffer is exactly the last min(n, maxRows) of its n arrivals since its last successful flush, through any number of failed flushes |
| Writer.NothingDropped | internal/archive/writer.go:82-94 | When every Put works and flushRows is at most maxRows, a partition's files and buffer are all its arrivals in order, and every file has 1 to flushRows rows |
| Archive.StepConserves | internal/archive/writer.go:76-172 | Every step of every interleaving keeps: accepted plus stored-by-a-failing-Put equals buffered plus in flight plus stored plus dropped, as multisets |
| Archive.RunInv | internal/archive/writer.go:71-172 | In every reachable state each buffered, in-flight or stored row is an accepted record under its own partition, every stored object is in the store with exactly its rows, no stored key was used twice, and each readable object's key names its rows' organization, device and hour |
| Archive.ObjectsStay | internal/archive/writer.go:139-172 | In every run, for every device text and year, each object ever stored is still in the store with exactly its rows, and no two were stored under one key |
| Archive.StepInv | internal/archive/writer.go:71-172 | Every single step keeps that invariant |
| Archive.EndToEnd | internal/archive/writer.go:71-172 | Once nothing is buffered or in flight, an export is exactly the accepted records it asks for, plus the counted duplicates, minus the counted drops; per record: as often as it was accepted and stored twice, less the times it was dropped, if it can be archived and is of the organization, times and devices asked for, and else never |
| Archive.ExactExport | internal/archive/merge.go:37-124 | Without drops, duplicates and unexportable records each accepted record of the organization, within the times, of a device asked for (any, when there is no list) is in it as often as it was accepted, and no other |
| Archive.ExactlyOnce | internal/archive/writer.go:139-172 | At every moment each accepted row is in exactly one place, when no failing Put stores |
| ArchivePlaces.PartitionConserves | internal/archive/writer.go:76-172 | The conservation law holds for every partition by itself |
| ArchivePlaces.OnlyRequeueOverfills | internal/archive/writer.go:84-88 | After an append the buffer is within maxRows, and a step takes a buffer above it exactly when it requeues rows of that partition that do not fit |
| ArchivePlaces.NeverOverfull | internal/archive/writer.go:84-88 | In runs without requeues no buffer ever exceeds maxRows |
| ArchivePlaces.RequeueOverfills | internal/archive/writer.go:163-172 | For every maxRows there is a run in which a requeue leaves maxRows + 1 rows buffered |
| ArchiveOrder.OrderKept | internal/archive/writer.go:83-172 | In every state of a run a partition's acknowledged objects in Put order, its flushes under way in the order they began and its buffer are, in this order, its arrivals without the dropped ones, if and only if every Put that succeeded was of its oldest flush then under way and every requeue of its newest; Puts that stored and then failed included |
| ArchiveOrder.SerialInTurn | internal/archive/writer.go:96-137 | A run that never has two flushes of the partition under way is such a run |
| ArchiveOrder.ConcurrentFlushesSwap | internal/archive/writer.go:163-172 | With two flushes under way two rows end up swapped |
| Refinement.FlushRefines | internal/archive/writer.go:139-161 | One call of flushPartition is Take followed by PutOk, or by PutErr and Requeue, of the concurrent machine |
| Refinement.WriterRefines | internal/archive/writer.go:71-172 | Every sequential run of the writer is a run of the concurrent machine with the same buffers, store and arrivals |
| Service.ProtocolStep | internal/exportjob/worker.go:62-111 | Every step keeps: a busy worker holds a running job it claimed, queued jobs were never claimed and all others exactly once |
| Service.JobLife | internal/repository/postgres.go:524-562 | In every run a job moves from queued to running to one terminal status and no further, is claimed once, and is finished only by its claimer |
| Service.OneHolder | internal/repository/postgres.go:524-540 | No two workers ever hold one job |
| Service.OrphanForever | internal/exportjob/worker.go:75-78 | A running job without a worker stays so whatever happens |
| Service.OrphanExactly | internal/exportjob/worker.go:75-78 | In every run a job is running without a worker exactly when, while a worker held it, that worker died or its ignored FinishExportJob(failed) was not applied |
| Service.OrphanReachable | internal/exportjob/worker.go:75-78 | There is such a run for every job |
| Snapshot.ConsistentRun | internal/exportjob/worker.go:83-110 | In every reachable state each merge under way has the rows of the objects read so far of those its listing saw, and each finished export is whole |
| Snapshot.ExportIsSnapshot | internal/exportjob/worker.go:83-110 | The object of a succeeded job is, from then on, the full scan of the archive as it stood at the job's own list step, however the writer and other workers interleave; its rows are exactly the records stored by then that it asks for and that can be exported, each as often as the objects then held it |
| Pipe.Handshake | internal/exportjob/worker.go:94-110 | When Put reads to EOF or an error, every interleaving is finite, never stops before both sides have returned, and success means the whole merged file is stored |
| Pipe.SuccessIsWhole | internal/exportjob/worker.go:104-110 | Success is recorded only for the whole file, also with a Put that gives up early |
| Pipe.RefusedPut | internal/storage/memory.go:22-26 | When Put refuses its key the job is stuck from the start if the merge has anything to write, and returns otherwise |
| Pipe.GaveUp | internal/exportjob/worker.go:94-103 | A Put that stops reading leaves a stuck job exactly when it has not read everything |
| Pipe.JobHangs | internal/exportjob/worker.go:94-103 | A job whose merge would succeed ends in every interleaving when the export prefix is safe, and in none when it is not |
| ExportJobs.Repository.CreateExportJob | internal/repository/postgres.go:504-514 | Adds one queued job |
| ExportJobs.Repository.ClaimNextExportJob | internal/repository/postgres.go:524-540 | Marks running a queued job that no queued job was created before, or says there is none |
| ExportJobs.Repository.FinishExportJob | internal/repository/postgres.go:542-562 | Sets status and key of the job, and errs for an unknown one |
| ExportJobs.OutcomeKept | internal/archive/merge.go:37-76 | Storing under a key that is no archive key changes the outcome of no export |
| ExportJobs.OutcomeIsScan | internal/archive/merge.go:37-76 | Over a well-formed archive no export fails, and each is the full scan |
| ExportJobs.FilePutKeepsPlain | internal/archive/writer.go:155-156 | The archive writer's Puts keep archive keys stored under themselves |
| ExportJobs.Worker.Process | internal/exportjob/worker.go:83-111 | Stores the export and marks the job, or errs and changes nothing, or never returns, which happens exactly when Put refuses the key and the merge has something to write |
| ExportJobs.Worker.ProcessQueued | internal/exportjob/worker.go:62-81 | Claims the queued jobs once each, oldest first, up to the first that hangs, returns the number finished, and leaves each finished with the outcome it has over the objects of the start, unaffected by the other exports; when it returns it has claimed exactly the queued jobs |
| ExportJobs.SafePrefix | internal/exportjob/worker.go:62-81 | With an export prefix the store accepts it always returns, the count is the queued count, and every queued job has its own outcome |
| QueueRefinement.JobRuns | internal/exportjob/worker.go:83-111 | A whole job is a run of the interleaved machine: claim, list, reads, Put and Finish, or the failing path |
| QueueRefinement.QueueRefines | internal/exportjob/worker.go:62-81 | Whatever ProcessQueued does to its table and store, some run of the machine with that one worker does |
| StateStore.Store.Snapshot | internal/state/store.go:38-48 | The readings of those ids that have one, in the order of the ids |
| StateStore.ReadingsExact | internal/state/store.go:38-48 | One reading for each listed id that has one, in order, and no other |
| StateStore.Store.Set | internal/state/store.go:19-23 | Replaces the reading of one device |
| LiveFeed.NoGapStep | internal/ws/hub.go:85-99 | Every step keeps: each unfiltered client has been sent each of its devices' current reading, or a handler or its own snapshot still owes it |
| LiveFeed.NothingMissed | internal/ws/hub.go:181-206 | In every interleaving, when no handler is at work every live unfiltered client has been sent the store's reading of every device of its organization |
| LiveView.ViewIsStore | web/src/pages/Dashboard.tsx:45-51 | If no two handlers are at work on one device, and none sets the store while a client of its organization has an unwritten snapshot or is about to read one without the device, a live unfiltered client's view equals the store restricted to its organization whenever no handler is at work |
| LiveAuth.AuthOkFirst | internal/ws/hub.go:111-192 | In every run, every reading a greeted client is sent comes after `auth_ok` if and only if no broadcast wrote to it between its registration and the greeting; before `auth_ok` it is sent only updates and answers to its own messages, and `auth_ok` once |
| LiveView.ReadingBeforeAuthOk | internal/ws/hub.go:181-188 | A client can be sent a reading before `auth_ok` |
| LiveView.TwoHandlers | internal/telemetry/ingest.go:95-99 | Two handlers of one device can leave a live client with the older reading for good |
| LiveRuns.HandlerRuns | internal/telemetry/ingest.go:95-99 | A whole handler, with others waiting, is a run whose effect on store and clients is the one Ingest.Ingestor.HandleMqtt promises |
| LiveRuns.AuthenticateRuns | internal/ws/hub.go:181-206 | A whole authentication, with its snapshot, is a run whose effect on the client is the one Hub.Hub.Authenticate promises |
| LiveRuns.SnapshotRuns | internal/ws/hub.go:194-206 | So is the snapshot alone, for a client already greeted |
| LiveView.StaleSnapshot | internal/ws/hub.go:194-206 | A client can be left for good with an older reading than the store's |
| LiveView.LateDevice | internal/ws/hub.go:194-206 | A device created after ListDevices is missing from the view even if the snapshot is read and written in one step |
| LiveFilter.OnlyAsked | internal/ws/hub.go:85-99 | In every run, from the step that sets a client's filter to the next that changes it, every update it is sent is of a device the filter asks for |
| LiveFilter.AllAsked | internal/ws/hub.go:85-99 | And each turn of a broadcast for the client writes its reading if and only if it is of the client's organization and of a device the filter asks for |
| Hub.Hub.Broadcast | internal/ws/hub.go:85-99 | Every registered client of the organization whose filter admits the device gets the reading exactly once, and no one else anything |
| Hub.Hub.Authenticate | internal/ws/hub.go:181-192 | Registers the client, then writes `auth_ok` and the snapshot; when the write of `auth_ok` fails it errs, leaves the client registered and sends nothing |
| Hub.Hub.SetFilter | internal/ws/hub.go:208-232 | An empty request clears the filter, a failed lookup keeps it, else it becomes the requested ids that parse and belong to the organization |
| Hub.Hub.Receive | internal/ws/hub.go:111-160 | One turn of the read loop: which messages close the connection, which authenticate it, what is written in answer, and that nothing else changes login or filter |
| Ingest.Ingestor.HandleMqtt | internal/telemetry/ingest.go:64-118 | A refused message, or one whose lookup fails, changes nothing; an accepted one puts the payload's four values and the time into the store under the device, writes that reading to each client of the organization whose filter admits the device, and archives one record of the device's organization and identifier with the same four values, which its row reads back as |
| Ingest.Judge | internal/telemetry/ingest.go:64-92 | Which messages are taken, and which check refuses each of the others |
| Ingest.TopicExact | internal/telemetry/ingest.go:189-198 | A topic names a device if and only if it is org/o/device/d/telemetry with one non-empty segment each for o and d |
| Ingest.TopicOrgIgnored | internal/telemetry/ingest.go:100-109 | The organization in the topic has no influence |
| Overview.CountDevices | internal/api/internal.go:74-84 | After one pass each map holds, for every id, the size of that id's own group |
| Overview.OrganizationOverviewList | internal/api/internal.go:55-147 | Every organization's entry shows its name, status and limit, the number of its users and each of their rows once in table order, its places by name, and the counts of its own groups |
| Overview.LocsPicked | internal/api/internal.go:66-73 | The locations grouped for an organization are its rows of the table, each once, in order |
| Overview.SubsPicked | internal/api/internal.go:66-73 | So are the sub-locations grouped for a location |
| Overview.LocationCount | internal/api/internal.go:104-119 | A location's count is the number of devices in any of its sub-locations |
| Overview.OrganizationCount | internal/api/internal.go:86-145 | An organization's count is its unassigned devices plus the counts of its locations |
| Overview.EveryDeviceCounted | internal/api/internal.go:74-145 | The organizations' counts add up to the number of devices |
| Users.Directory.CreateUser | internal/api/users.go:43-74 | Refuses at the limit or for a taken email, else adds one active user |
| Users.CreateExact | internal/api/users.go:43-74 | Which answer a create gets, and the user it adds, column by column |
| Users.Directory.PatchUser | internal/api/users.go:95-137 | The last-administrator guard, then the rules about oneself, then the update, in this order |
| Users.PatchExact | internal/api/users.go:95-137 | Which answer a patch gets, and that each column asked for gets its value while every other column and user stays |
| Users.Directory.UpdateUser | internal/repository/postgres.go:184-204 | Changes exactly the columns asked for, one statement each |
| Users.Directory.DeleteUser | internal/api/users.go:140-167 | Deletes the user unless the guard or the rule about oneself forbids it |
| Users.DeleteExact | internal/api/users.go:140-167 | Which answer a delete gets, and that only that user goes |
| Users.OneAtATime | internal/api/users.go:49-178 | However requests follow one another, an organization within its limit stays within it, and one with an active administrator keeps one |
| Users.BetweenStatements | internal/repository/postgres.go:188-202 | Also between the statements of one update there is an active administrator |
| Users.GuardExact | internal/api/users.go:113-120 | A patch or delete is refused as taking the last administrator exactly when it would take the organization from some active administrator to none |
| Users.LimitExact | internal/api/users.go:49-65 | A create is refused for the limit exactly when one more user would be over it |
| Users.SelfKept | internal/api/users.go:121-130 | No request about oneself disables, demotes or removes oneself |
| Users.OtherTenants | internal/api/users.go:43-167 | No request changes a user of another organization |
| UserSteps.SoloRuns | internal/api/users.go:43-167 | A request whose statements run without others between them does what the request as a whole does |
| UserSteps.OvershootBound | internal/api/users.go:49-65 | With at most k creates between count and insert at once among requests of all kinds, the users never exceed the limit by k or more |
| UserSteps.OvershootReached | internal/api/users.go:49-65 | k creates that count together do exceed it by k - 1 |
| UserSteps.AdminKept | internal/api/users.go:95-178 | Requests of all kinds interleave statement by statement and may fail half way, but of those that demote, disable or delete in an organization at most one is under way from the read of its target to its last statement: an organization with an active administrator keeps one |
| UserSteps.LastAdminsRace | internal/api/users.go:113-136 | Two administrators demoting each other at once leave none, so one is the most that is safe |
| UserSteps.StaleTarget | internal/api/users.go:140-178 | Counting from the check instead is not enough: a delete whose target was read as an ordinary user and then promoted takes the last administrator while no two removals are between count and write |

## Left out

- S3, the filesystem store, PostgreSQL, MQTT, WebSocket transport, HTTP routing, JSON, JWT and configuration: each call is one atomic step or a parameter.
- Clocks, tickers, deadlines, contexts and retry timing: any step may come next.
- Float and UUID parsing: modelled as exact inverses on canonical texts, so other spellings in a CSV file, such as exponents, needless zeros or upper-case digits, are refused where the program accepts them; a decimal with more digits than a float holds is kept where the program rounds it.
- Numeric zone offsets and one-digit hours in timestamps that the program would read but never prints.
- Record buffers shared between CSV reads (`ReuseRecord`) and slices shared between buffers: rows are values here.
- The bytes a failing merge has already written: MergeCsv answers none.
- Storage.Memory.List: says nothing about the store changing during the call, since it holds the lock.
- Ingest.Ingestor.HandleMqtt: has one sink, the archive writer, which is all the program wires; payload parsing is a parameter.
- ExportJobs.Worker.ProcessQueued: archive keys are stored under themselves, as ExportJobs.FilePutKeepsPlain keeps them; the job table's statements succeed there, and Service covers the runs where they fail. A worker that hangs is a method that returns hung.
- ExportJobs.Worker.Process: runs merge and Put one after the other; Pipe.Handshake covers their interleaving. Whether a failing merge had filled its output buffer before it failed is a parameter.
- Overview.OrganizationOverviewList: leaves the order of equal names open, as the sort does, and shows no creation time.
- LiveFeed.NothingMissed: speaks of clients that stay connected and never set a filter, since a filter is allowed to suppress readings.
- Users.Commit: deletes the user also where the database refuses, because an export job still names the user as its requester (`migrations/0003_export_jobs.up.sql:4`).
- Job error messages, requesters and update times, and GetExportJob.
- Device, location and sub-location CRUD, role checks and name checks: each is settled by one branch.
