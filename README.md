# cDock in Dafny

cDock is a terminal dashboard for Docker. A daemon client polls the Docker daemon for its
container listing. It keeps one stats streamer per running or paused container and derives
CPU, memory, network and disk figures from each streamer's latest raw stats sample. A formatter
and two generations of terminal screens turn those views into table rows. Byte counts and
durations are shown in human units. A small key-driven state machine moves the selected row and
sends start/stop/... actions back to the client.

This project models that core in Dafny, one module per source file:

| module | source file | form |
|---|---|---|
| `Wrappers` | — | `Option`, `Result`, `Outcome` and the Python exceptions the code raises or catches |
| `DockerApi` | the daemon's data | a raw stats sample and a listed container, with every JSON key optional; the 19-character timestamp cut |
| `StatStreamer` | `cDock/docker_client/container_stat_streamer.py` | pure readers of the sample, plus a class whose getters overwrite the stored readings |
| `LegacyStatStreamer` | `cDock/container_stat_streamer.py` | the same for the earlier streamer |
| `DaemonClient` | `cDock/docker_client/docker_daemon_client.py` | a class over three maps (containers, streamers, pending actions), with loops over the listing |
| `LegacyDaemonClient` | `cDock/docker_daemon_client.py` | a class over the id → streamer map |
| `LogsStreamer` | `cDock/docker_client/logs_streamer.py` | a class holding the byte buffer |
| `HumanUnits` | shared by the three renderers | powers of 1024, the scaled rendering, the days/hours/minutes/seconds split |
| `Formatter` | `cDock/formatter.py` | pure functions: unit picker, header row, container row, status style |
| `RichScreen` | `cDock/user_interface/rich_screen.py` | pure unit picker and "time ago" text, cell style, and a class for the cursor |
| `LegacyRichScreen` | `cDock/rich_screen.py` | the memory-formatting loop as a method, the two-unit "time ago" text, and a class for the bounded cursor |
| `RichStdout` | `cDock/outputs/rich_stdout.py` | a class for the standalone app's selection, refresh and key handling |

Everything the code gets from outside is a parameter: the SDK's answers (version, listing,
stats samples, the attributes of a container object), the success of creating the SDK client,
and `datetime.fromisoformat`, which is a function `string -> Option<int>` of whole seconds where
`None` is its `ValueError`. Python exceptions that escape a function are modelled as the
`Err`/`Fail` case of its result, and exceptions that are caught as the value the code falls back
to.

## Model

| member | source | states |
|---|---|---|
| DockerApi.Prefix | cDock/formatter.py:39 | `s[:n]` has length `min(|s|, n)` and is a prefix of `s` |
| DockerApi.ReadIsoTimestamp | cDock/docker_client/container_stat_streamer.py:13-22 | only the first 19 characters are parsed; a failed parse is ValueError |
| DockerApi.TimestampIgnoresTail | cDock/docker_client/container_stat_streamer.py:20-22 | timestamps that agree on their first 19 characters read the same, whatever follows |
| DockerApi.Upper | cDock/docker_client/container_stat_streamer.py:137-138 | upper-casing keeps the length and maps every character |
| DockerApi.Command | cDock/docker_client/docker_daemon_client.py:109-113 | the command is Entrypoint followed by Cmd, each missing one counting as empty |
| DockerApi.CoreCount | cDock/docker_client/container_stat_streamer.py:59-61 | `online_cpus` when reported, else the length of `percpu_usage` (0 for null, KeyError when absent) |
| DockerApi.FirstWithOp | cDock/docker_client/container_stat_streamer.py:137-138 | the position of the first blkio entry whose op upper-cases to the one asked for, or none when no entry matches |
| DockerApi.FirstOpValue | cDock/docker_client/container_stat_streamer.py:137-138 | an entry without an op gives KeyError, no matching entry IndexError, a matching entry's value otherwise |
| StatStreamer.CpuStatsOf | cDock/docker_client/container_stat_streamer.py:41-73 | None exactly when a counter is missing; ZeroDivisionError exactly on a zero system delta; otherwise usage × system delta = cpu delta × cores × 100, both deltas taken in one sample |
| StatStreamer.CpuExample | cDock/docker_client/container_stat_streamer.py:66-69 | 200 over 500 on four cores is 160 percent |
| StatStreamer.MemoryStatsAsWritten | cDock/docker_client/container_stat_streamer.py:75-98 | None only when nothing was read, a partial record without `limit`, and never `cache` or `max_usage` (line 90 tests its own output) |
| StatStreamer.MemoryStatsOf | cDock/docker_client/container_stat_streamer.py:75-98 | the corrected reader: `cache` and `max_usage` come from `memory_stats['stats']` whenever it exists and `limit` was read |
| StatStreamer.CacheDroppedAsWritten | cDock/docker_client/container_stat_streamer.py:90-92 | a sample with a cache: the reader as written drops it, the corrected one keeps it |
| StatStreamer.NetworkIo | cDock/docker_client/container_stat_streamer.py:100-125 | no eth0 or no `rx_bytes` gives None; without `tx_bytes` the record holds `total_rx` alone, without `read` both totals alone, each keeping the stored reading; ValueError exactly on a bad timestamp; a full reading is stored, and rx/tx/duration are raw differences from the previous one |
| StatStreamer.NetworkIoTwiceIsZero | cDock/docker_client/container_stat_streamer.py:115-122 | the delta is per call: asking twice about one sample reports rx = tx = duration = 0 |
| StatStreamer.DiskIo | cDock/docker_client/container_stat_streamer.py:127-152 | an absent or null list, or an entry without an op, gives None; a WRITE KeyError leaves `total_ior` alone and a missing `read` both totals alone, each keeping the stored reading; the error is exactly IndexError for no READ (or, after READ, no WRITE) entry or ValueError for a bad timestamp; deltas as for the network |
| StatStreamer.ContainerStatStreamer.constructor | cDock/docker_client/container_stat_streamer.py:27-33 | keeps the container record it was made for, with an empty sample, no stored readings and no task yet |
| StatStreamer.ContainerStatStreamer.StreamHandler | cDock/docker_client/container_stat_streamer.py:38-39 | the new sample replaces the stored one wholesale |
| StatStreamer.ContainerStatStreamer.StartStream | cDock/docker_client/info_streamer.py:99-110 | refused with "Already streaming!" while running, otherwise schedules the task |
| StatStreamer.ContainerStatStreamer.StopStream | cDock/docker_client/info_streamer.py:112-122 | refused with "Streaming was never started!" before any start, otherwise cancels |
| StatStreamer.ContainerStatStreamer.GetNetworkIo | cDock/docker_client/container_stat_streamer.py:100-125 | returns what `NetworkIo` gives and stores its reading; a raise stores nothing |
| StatStreamer.ContainerStatStreamer.GetDiskIo | cDock/docker_client/container_stat_streamer.py:127-152 | returns what `DiskIo` gives and stores its reading; a raise stores nothing |
| LegacyStatStreamer.CpuUsage | cDock/container_stat_streamer.py:85-113 | 0.0 when a counter is missing; ZeroDivisionError exactly on a zero system delta; otherwise the same formula |
| LegacyStatStreamer.MemoryUsage | cDock/container_stat_streamer.py:115-138 | always a record; `cache` and `max_usage` from `memory_stats['stats']` when it exists and `limit` was read |
| LegacyStatStreamer.NetworkIo | cDock/container_stat_streamer.py:140-165 | the timestamp is read first, so without it the record is empty; without the `eth0` counters the record holds `read_time` alone, or `read_time` and `total_rx` when only the transmit counter is missing; a full reading is stored and the deltas are taken from the previous one |
| LegacyStatStreamer.DiskIo | cDock/container_stat_streamer.py:167-192 | only KeyError is caught: no list or no `read` gives an empty record; the error is exactly ValueError for a bad timestamp, TypeError for a null list, IndexError for no READ (or, after READ, no WRITE) entry; a KeyError from an entry leaves `read_time` (and `total_ior`) alone; deltas as for the network |
| LegacyStatStreamer.CpuUsageAgreesWithLater | cDock/container_stat_streamer.py:108-111 | where the later streamer reports a CPU figure, the earlier one reports the same usage |
| LegacyStatStreamer.MemoryUsageAgreesWithCorrected | cDock/container_stat_streamer.py:123-138 | where the corrected later reader yields a record, the earlier one yields the same four fields |
| LegacyStatStreamer.ContainerStatStreamer.constructor | cDock/container_stat_streamer.py:36-46 | keeps the container, empty sample, no readings, streaming from the start |
| LegacyStatStreamer.ContainerStatStreamer.StopStream | cDock/container_stat_streamer.py:48-49 | the stream is cancelled |
| LegacyStatStreamer.ContainerStatStreamer.UpdateContainer | cDock/container_stat_streamer.py:54-55 | the container record is replaced |
| LegacyStatStreamer.ContainerStatStreamer.GetNetworkIo | cDock/container_stat_streamer.py:140-165 | returns what `NetworkIo` gives and stores its reading |
| LegacyStatStreamer.ContainerStatStreamer.GetDiskIo | cDock/container_stat_streamer.py:167-192 | returns what `DiskIo` gives and stores its reading |
| DaemonClient.ActionGuard | cDock/docker_client/docker_daemon_client.py:42-55 | the three refusals, each with both directions, and `Pass` exactly when the container is known, has the action and has no such action pending |
| DaemonClient.ActionKeysDistinct | cDock/docker_client/docker_daemon_client.py:48 | different actions on one container get different `name/action` keys |
| DaemonClient.SecondIdenticalActionRejected | cDock/docker_client/docker_daemon_client.py:48-53 | once an action is recorded, the same request is refused as in progress |
| DaemonClient.OtherActionAccepted | cDock/docker_client/docker_daemon_client.py:48-55 | a pending action does not block a different action on the same container |
| DaemonClient.CompletedActionCanRepeat | cDock/docker_client/docker_daemon_client.py:34-40 | after the executor drops the key, the same request is accepted again |
| DaemonClient.NamesListed | cDock/docker_client/docker_daemon_client.py:194 | the recursive name set is the set of listed names |
| DaemonClient.StreamingNamesListed | cDock/docker_client/docker_daemon_client.py:191-194 | every name that keeps a streamer after the upserts is a listed name |
| DaemonClient.StreamingNamesOfUniqueListing | cDock/docker_client/docker_daemon_client.py:191-196 | with unique names, the names that keep a streamer are exactly the listed ones whose status is running or paused |
| DaemonClient.StoredUniqueListing | cDock/docker_client/docker_daemon_client.py:191-192 | with unique names, every listed record is stored under its name, and unlisted entries are untouched |
| DaemonClient.ActiveStatsOf | cDock/docker_client/docker_daemon_client.py:96-124 | no start time gives no stats; no config gives an empty command; no streamer gives only the start time and command; a failing CPU getter stops there; otherwise CPU and memory come from the sample, the network fields and stored reading are those of the network getter when it succeeds (and nothing later is set when it fails), likewise the disk getter, and the ports come last; the sample is never changed |
| DaemonClient.DockerDaemonClient.constructor | cDock/docker_client/docker_daemon_client.py:22-29 | no client and three empty maps |
| DaemonClient.DockerDaemonClient.Connect | cDock/docker_client/docker_daemon_client.py:146-165 | refused once a client exists; otherwise reports whether the client could be created |
| DaemonClient.DockerDaemonClient.StartedStreamer | cDock/docker_client/docker_daemon_client.py:74-75 | a new streamer for the record, already running, with no sample and no stored reading |
| DaemonClient.DockerDaemonClient.Track | cDock/docker_client/docker_daemon_client.py:70-75 | an untracked streaming record is stored and gets a new running streamer under its name, with no sample yet; no other streamer changes |
| DaemonClient.DockerDaemonClient.Untrack | cDock/docker_client/docker_daemon_client.py:70-79 | the entry is replaced and the name's streamer is popped and cancelled; no other streamer changes |
| DaemonClient.DockerDaemonClient.Upsert | cDock/docker_client/docker_daemon_client.py:57-79 | the record replaces the entry; a streamer is created and started only if absent with a streaming status (and then holds no sample yet), and popped and stopped only if present without one; every streamer kept under its name is the same object with unchanged fields |
| DaemonClient.DockerDaemonClient.Remove | cDock/docker_client/docker_daemon_client.py:81-94 | a known entry is overwritten by its key, not deleted; a streamer is popped and stopped; every other streamer is the same object with unchanged fields |
| DaemonClient.DockerDaemonClient.ActiveContainerStats | cDock/docker_client/docker_daemon_client.py:96-124 | the stats and stored readings follow `ActiveStatsOf` |
| DaemonClient.DockerDaemonClient.GenerateContainerView | cDock/docker_client/docker_daemon_client.py:126-144 | the view describes the container; for running or paused its active fields and the streamer's new snapshot are those of ActiveStatsOf, otherwise nothing changes; no other name's snapshot changes |
| DaemonClient.DockerDaemonClient.UpsertAll | cDock/docker_client/docker_daemon_client.py:191-192 | the container map is the fold of upserts; the streamer keys are those of the fold; every dropped streamer is cancelled; a name whose every record in the listing is streaming keeps the very streamer it had, with unchanged fields; every other streamer is new and holds no sample yet |
| DaemonClient.DockerDaemonClient.UpsertNext | cDock/docker_client/docker_daemon_client.py:191-192 | one more record of the listing folded in: the container map and streamer keys move from the fold of the prefix to that of the next prefix, and only kept streamers stay running; a stored name streaming in every record so far keeps its streamer object, unchanged; a streamer created by the step holds no sample yet |
| DaemonClient.DockerDaemonClient.RemoveNext | cDock/docker_client/docker_daemon_client.py:194-196 | one more missing name tombstoned and its streamer dropped; the other streamers are the ones held before the loop, with unchanged fields |
| DaemonClient.DockerDaemonClient.RemoveAll | cDock/docker_client/docker_daemon_client.py:194-196 | every given key is tombstoned and loses its streamer; other streamers are the same objects with unchanged fields |
| DaemonClient.DockerDaemonClient.Reconcile | cDock/docker_client/docker_daemon_client.py:191-196 | after upserting every listed record and removing every unlisted name, the streamer keys are exactly the listed names whose fold ends streaming; names that had a streamer and are not listed are tombstoned; every dropped streamer is cancelled and every new one is fresh with no sample yet; a kept name streaming in every listed record keeps the same streamer object, unchanged |
| DaemonClient.DockerDaemonClient.ViewsOf | cDock/docker_client/docker_daemon_client.py:199 | one view per listed container, in listing order; with unique names each streaming view's active fields, and its streamer's new snapshot, are ActiveStatsOf on the snapshot held before |
| DaemonClient.DockerDaemonClient.RefreshViews | cDock/docker_client/docker_daemon_client.py:191-201 | the two loops then the views: streamer keys are the streaming names, unlisted names tombstoned, kept streamers keep their sample, and with unique names each streaming view is ActiveStatsOf on the name's earlier snapshot or an empty one |
| DaemonClient.DockerDaemonClient.NewStreamerUnread | cDock/docker_client/docker_daemon_client.py:70-75 | a name that had no streamer before the loops holds a new one with no sample yet |
| DaemonClient.DockerDaemonClient.ReconciledSnapshots | cDock/docker_client/docker_daemon_client.py:191-196 | with unique names, after the loops each streaming record's name holds its earlier snapshot, or an empty one if it had no streamer |
| DaemonClient.DockerDaemonClient.GetVersionAndContainerViews | cDock/docker_client/docker_daemon_client.py:172-201 | no client raises; a version or listing failure touches no map; otherwise the streamer keys are the streaming names of the listing, missing names are tombstoned, and one view per record is returned; a kept name streaming throughout the listing keeps the same streamer object and the same sample; with unique names each streaming view's active fields are ActiveStatsOf on the snapshot the name held before, or on an empty one for a new streamer; a failure path changes no streamer |
| DaemonClient.DockerDaemonClient.ContainerAction | cDock/docker_client/docker_daemon_client.py:41-55 | the outcome is `ActionGuard`; on `Pass` the action is recorded under its key, otherwise nothing changes |
| DaemonClient.DockerDaemonClient.ActionExecutor | cDock/docker_client/docker_daemon_client.py:34-40 | the key is dropped whether the action succeeded or raised; a missing key is KeyError |
| DaemonClient.DockerDaemonClient.Disconnect | cDock/docker_client/docker_daemon_client.py:167-170 | without a client AttributeError; otherwise every entry is tombstoned and every streamer stopped |
| LegacyDaemonClient.IdsListed | cDock/docker_daemon_client.py:73 | the recursive id set is the set of listed ids |
| LegacyDaemonClient.View | cDock/docker_daemon_client.py:78-100 | every view starts with an empty command; started-at, ports and Entrypoint ++ Cmd only for running or paused; a missing StartedAt or Config is KeyError |
| LegacyDaemonClient.InsertAsWritten | cDock/docker_daemon_client.py:68-71 | as written, the first untracked id raises TypeError at the two-argument streamer construction |
| LegacyDaemonClient.ViewAsWritten | cDock/docker_daemon_client.py:88-91 | as written, every running or paused container raises: KeyError without StartedAt, else AttributeError at `get_cpu_stats` |
| LegacyDaemonClient.RunningContainerNeverShownAsWritten | cDock/docker_daemon_client.py:68-100 | a running container the intended view shows makes the code as written raise, at the constructor for a new id and at the view for a tracked one |
| LegacyDaemonClient.DockerDaemonClient.constructor | cDock/docker_daemon_client.py:14-22 | no client, no streamers |
| LegacyDaemonClient.DockerDaemonClient.Connect | cDock/docker_daemon_client.py:36-46 | refused once a client exists; otherwise the client is kept if it could be created |
| LegacyDaemonClient.DockerDaemonClient.Remove | cDock/docker_daemon_client.py:32-34 | a tracked id's streamer is popped and stopped; an untracked id changes nothing |
| LegacyDaemonClient.DockerDaemonClient.Track | cDock/docker_daemon_client.py:68-71 | an untracked id gets a new streamer holding the record; a tracked id changes nothing |
| LegacyDaemonClient.DockerDaemonClient.InsertAll | cDock/docker_daemon_client.py:68-71 | new streamers exactly for untracked ids, each holding a listed record; existing streamers kept |
| LegacyDaemonClient.DockerDaemonClient.RemoveAll | cDock/docker_daemon_client.py:73-75 | every given id's streamer is popped and stopped; the others kept |
| LegacyDaemonClient.DockerDaemonClient.Reconcile | cDock/docker_daemon_client.py:68-75 | afterwards the tracked ids are exactly the listed ids, whatever their status; a new streamer holds a listed record |
| LegacyDaemonClient.DockerDaemonClient.Update | cDock/docker_daemon_client.py:48-102 | no client raises; a version or listing failure returns None and keeps the map; otherwise the ids are reconciled, every new streamer holding a listed record, and one view per record is returned, or the first KeyError |
| LegacyDaemonClient.DockerDaemonClient.Views | cDock/docker_daemon_client.py:78-100 | one view per record in listing order, or KeyError exactly when some record's view raises |
| LegacyDaemonClient.DockerDaemonClient.ActionTarget | cDock/docker_daemon_client.py:104-122 | an untracked id raises 'unknown container'; otherwise the action goes to the record held by that id's streamer |
| LogsStreamer.FlattenKeepsChunks | cDock/docker_client/logs_streamer.py:16-17 | every chunk appears in the joined stream at the offset of those before it |
| LogsStreamer.FlattenAppend | cDock/docker_client/logs_streamer.py:16-17 | appending a chunk appends its bytes to the joined stream |
| LogsStreamer.LogsStreamer.constructor | cDock/docker_client/logs_streamer.py:8-11 | the buffer is empty and the update time is the construction time |
| LogsStreamer.LogsStreamer.StreamHandler | cDock/docker_client/logs_streamer.py:16-17 | the chunk goes at the end; nothing buffered is dropped |
| LogsStreamer.LogsStreamer.GetStreamedLogs | cDock/docker_client/logs_streamer.py:19-22 | returns the chunks since the last drain, joined in arrival order, and leaves the buffer empty |
| HumanUnits.ScaledByUnique | cDock/formatter.py:63-76 | a number has one largest power of 1024 strictly below it, so one scaled rendering |
| HumanUnits.ScaledValueInRange | cDock/formatter.py:74-76 | a scaled value is above 1, and at most 1024 below the largest prefix |
| HumanUnits.BasePrecision | cDock/formatter.py:77-81 | two decimals exactly below 10, none exactly from 100 on, one in between |
| HumanUnits.DurationList | cDock/user_interface/rich_screen.py:91-103 | four parts, the first being the delta's days, which recompose its whole seconds, with hours below 24 and minutes and seconds below 60 |
| HumanUnits.DivMod | cDock/user_interface/rich_screen.py:96-99 | `divmod` by a positive divisor: quotient × divisor + remainder = the number, remainder in range |
| HumanUnits.FirstNonZeroValue | cDock/user_interface/rich_screen.py:105 | `next(filter(...))`: none exactly when every part is zero, otherwise the first non-zero value |
| HumanUnits.IndexOf | cDock/user_interface/rich_screen.py:105 | `list.index`: none exactly when the value is absent, otherwise its first position |
| HumanUnits.NonZeroIndex | cDock/user_interface/rich_screen.py:105 | StopIteration exactly when every part is zero, otherwise the position of the first non-zero part |
| Formatter.UnitTableIsPowers | cDock/formatter.py:63-72 | the unit table lists 1024^8 down to 1024 with their symbols |
| Formatter.FirstAbove | cDock/formatter.py:74-76 | the first table entry the number is more than one of, scanning from the largest |
| Formatter.AboveEveryUnit | cDock/formatter.py:75-76 | `number / unit > 1` is `number > unit` for every entry |
| Formatter.AutoUnit | cDock/formatter.py:59-86 | '-' exactly for None; the number itself exactly when not above 1024; otherwise the largest power of 1024 strictly below it, with 2/1/0 decimals by 10 and 100, and 0 for 'K' |
| Formatter.GibibyteStaysInMebibytes | cDock/formatter.py:74-76 | exactly 1073741824 renders as 1024 'M', not 1 'G' |
| Formatter.HeaderRow | cDock/formatter.py:33-34 | only known attributes get a title, in priority order; with all known, title i is the map's title of attribute i |
| Formatter.HeaderRowAppend | cDock/formatter.py:34 | the filter keeps order: the titles of a concatenation concatenate |
| Formatter.UnknownAttributeHasNoTitle | cDock/formatter.py:34 | an attribute missing from the header map adds no title |
| Formatter.CellOf | cDock/formatter.py:37-53 | a cell exactly for a header-map key; id cut to its first 12 characters; '-' for missing stats; ports joined by ", "; the first command word or '' |
| Formatter.ContainerRow | cDock/formatter.py:36-54 | KeyError exactly when an attribute is unknown; otherwise one cell per attribute, in order |
| Formatter.RowMatchesHeader | cDock/formatter.py:33-54 | with known attributes the row has one cell per header title |
| Formatter.StatusStyle | cDock/formatter.py:88-97 | every one of the six known statuses gets the created style, anything else '' |
| RichScreen.PrefixIsPower | cDock/user_interface/rich_screen.py:57-66 | the prefix of symbol e is 1024^(e+1) |
| RichScreen.MinIndex | cDock/user_interface/rich_screen.py:54-56 | a known `min_symbol` trims the list to it and larger symbols; anything else keeps the full list |
| RichScreen.IndexOfSymbol | cDock/user_interface/rich_screen.py:56 | `symbols.index`: a position holding the symbol |
| RichScreen.SearchDown | cDock/user_interface/rich_screen.py:68-70 | the first allowed symbol, from the largest down, whose prefix the number is more than one of |
| RichScreen.AutoUnit | cDock/user_interface/rich_screen.py:40-85 | the number itself exactly when not above the smallest allowed prefix; otherwise the largest allowed prefix strictly below it; 2/1/0 decimals, 0 for 'K'; with low precision `min(1, p)` of the usual decimals `p`, and 0 for 'M'/'K' |
| RichScreen.AgreesWithFormatter | cDock/user_interface/rich_screen.py:40-85 | with default arguments it renders every number as the formatter's `_auto_unit` does |
| RichScreen.ScaledAt | cDock/user_interface/rich_screen.py:68-70 | a number between two consecutive prefixes is scaled by the lower one |
| RichScreen.DocExampleMebibytes | cDock/user_interface/rich_screen.py:43 | 613421788 is 585.x 'M' with no decimals |
| RichScreen.DocExampleStrict | cDock/user_interface/rich_screen.py:48 | 1073741824 is 1024 'M' |
| RichScreen.DocExampleLowPrecision | cDock/user_interface/rich_screen.py:44 | 5307033647 is 'G' with two decimals, one with low precision |
| RichScreen.DocExampleNoDecimal | cDock/user_interface/rich_screen.py:46 | 838471403472 is 'G' with no decimal in low precision ("781G") |
| RichScreen.GetFormattedDatetime | cDock/user_interface/rich_screen.py:88-110 | StopIteration exactly for a duration with no whole second; otherwise the first non-zero part with its unit |
| RichScreen.DatetimeExamples | cDock/user_interface/rich_screen.py:105-110 | one day and more reads "1 days"; 59.5 seconds "59 seconds"; 7200 seconds "2 hours" |
| RichScreen.CellStyle | cDock/user_interface/rich_screen.py:219-233 | the selected style at the cursor, otherwise the style of the exact status string, '' for any other value |
| RichScreen.StatusStylesDistinguish | cDock/user_interface/rich_screen.py:219-230 | distinct configured styles tell the six statuses apart |
| RichScreen.RichScreen.constructor | cDock/user_interface/rich_screen.py:113-121 | cursor at 0,0, layout refresh asked, single-container view off |
| RichScreen.RichScreen.InputStep | cDock/user_interface/rich_screen.py:253-265 | the character is recorded; 'w'/'a' move back unless at 0, 's'/'d' move on without bound, 'l' toggles the view and asks for a layout; row and column stay non-negative |
| LegacyRichScreen.GetFormattedMemory | cDock/rich_screen.py:46-57 | IndexError exactly above 1024^5; otherwise the value divided by the number of powers of 1024 it is strictly above, with the matching suffix |
| LegacyRichScreen.ScaledTimesUnique | cDock/rich_screen.py:50-56 | one scaling fits an amount, so the result is determined by it |
| LegacyRichScreen.ExactMebibyteStaysInKilobytes | cDock/rich_screen.py:51 | exactly 1024² reads 1024 "KB" |
| LegacyRichScreen.GetFormattedDatetime | cDock/rich_screen.py:60-82 | StopIteration exactly for no whole second; the seconds alone when they are the first non-zero part; otherwise that part and the next, with their units |
| LegacyRichScreen.DatetimeExamples | cDock/rich_screen.py:77-82 | "1 days, 1 hours", "2 hours, 0 minutes", "42 seconds" |
| LegacyRichScreen.RichScreen.constructor | cDock/rich_screen.py:86-93 | cursor at 0,0, layout refresh asked, single-container view on, no details yet |
| LegacyRichScreen.RichScreen.UpdateContainerDetails | cDock/rich_screen.py:150-160 | ten entries of five keys each |
| LegacyRichScreen.RichScreen.InputStep | cDock/rich_screen.py:243-255 | the character is recorded; 's' stops at the last row and 'd' at the last key of the first entry; AttributeError before the details exist, IndexError for 'd' on an empty table; a cursor on the table stays on it |
| RichStdout.AtLeastOne | cDock/outputs/rich_stdout.py:120 | `max(n, 1)` is at least 1 and at least n |
| RichStdout.ActionNamed | cDock/outputs/rich_stdout.py:125-128 | an action exactly for the six allowed names, with that name |
| RichStdout.RowKey | cDock/outputs/rich_stdout.py:70-71 | '' for an empty table, otherwise the selected view's id |
| RichStdout.ActionRequestAsWritten | cDock/outputs/rich_stdout.py:123-131 | a call exactly when a key is selected and the name is allowed, with the selected view's id |
| RichStdout.ActionRequest | cDock/outputs/rich_stdout.py:123-131 | the corrected request: the same guards, the selected container named by its name |
| RichStdout.ActionByIdRejected | cDock/outputs/rich_stdout.py:124-129 | as written, pressing '1' on a startable container "web" with id "f00" is refused as an unknown container |
| RichStdout.CorrectedActionReachesClient | cDock/outputs/rich_stdout.py:123-131 | the corrected request passes the client's guards for a selected row describing a held container that has the action and none pending |
| RichStdout.App.constructor | cDock/outputs/rich_stdout.py:23-29 | row 0, changed, no views, running |
| RichStdout.App.GetRowKey | cDock/outputs/rich_stdout.py:70-71 | '' for an empty table, otherwise the selected view's id |
| RichStdout.App.UpdateRowIndex | cDock/outputs/rich_stdout.py:117-121 | the index (the current one by default) mod max(len, 1), and the screen marked changed |
| RichStdout.App.UpdateStats | cDock/outputs/rich_stdout.py:55-68 | a missing `container_views` is KeyError with nothing changed; otherwise the views are replaced and the selection moves to the first row with the old id, or to 0 |
| RichStdout.App.Shutdown | cDock/outputs/rich_stdout.py:133-137 | only the first call stops the screen and the client |
| RichStdout.App.HandleKeyStroke | cDock/outputs/rich_stdout.py:97-115 | 'w'/'s' move by −1/+1 with wrap-around; 'q' shuts down; '1'..'6' request start, stop, restart, kill, pause, resume; any other key does nothing |
| RichStdout.UpWrapsToLastRow | cDock/outputs/rich_stdout.py:99-120 | 'w' on the top row of a non-empty table selects the last row |
| RichStdout.DownWrapsToTopRow | cDock/outputs/rich_stdout.py:101-120 | 's' on the last row selects the top row |

## Left out

- Threads, asyncio and the stream tasks of `cDock/docker_client/info_streamer.py`: a task is a three-state field, and an action's thread is the separate `ActionExecutor` call.
- The Docker SDK: the version, listing, stats samples and container attributes are inputs; what `start`, `stop` and the other SDK methods do to a container is not modelled.
- `datetime.fromisoformat` is a parameter that yields whole seconds; only the 19-character cut is modelled. `decode('utf-8')` of the log buffer is left out, so the drain returns bytes.
- Digit rendering (`'.2f'`, `'{:.{decimal}f}'`, `str(number)`): `Rendered`, `Memory` and `Cell` values stand for those texts, holding the value, the number of decimals and the suffix.
- Floating point: numbers are exact reals, so rounding of `float(number) / unit` is not modelled.
- HumanUnits.DurationList: the divmods are taken on whole seconds, because `total_seconds()` is a float whose microseconds never reach the whole hours, minutes or seconds; the fraction is not modelled.
- `datetime.now()` in the screens, `time.time()` and the refresh window of `cDock/outputs/rich_stdout.py`.
- Terminal I/O and rendering: the termios/fcntl loops (one character is one `InputStep` or `HandleKeyStroke` call), rich layouts and tables, `render`, `update_layout`, `generate_table`, and `print(e)` in `container_action`.
- LegacyRichScreen.RichScreen.UpdateContainerDetails: the random demo values are left out; only the shape of the table, ten entries of five keys, is modelled, because that is all the cursor reads.
- DaemonClient: `logs` returns a `ContainerLogsStreamer` that is not part of this model.
- DaemonClient.DockerDaemonClient.Disconnect: closing the SDK client does not reset `connected`, as in the source, where the client object stays set.
- LegacyDaemonClient.View: the metric fields are not modelled, because the earlier streamer has no `get_cpu_stats`/`get_memory_stats` (see Findings). The `ContainerView(**view)` construction at `cDock/docker_daemon_client.py:100` is not modelled at all: the `ContainerView` declaration of `cDock/models.py:30-42` makes `cpu_percent`, `memory_stats`, `net_io_stats` and `disk_io_stats` required fields and `command` a string, and no view built here supplies them (an exited container has none of them, a running one has `cpu_stats` rather than `cpu_percent` and a list as `command`), so that declaration would reject every view; the model returns the dictionary the loop builds.
- Formatter.CellOf: the row builder's records are those of the later streamer (`StatStreamer`), and `published_ports` is taken as a list of strings.
- Formatter.HeaderRow: `priority_attributes.split(",")` is taken as an already split list.
- DockerApi.Upper: upper-casing is modelled for ASCII letters only.
- JSON `null` is modelled only for `percpu_usage` and `io_service_bytes_recursive`; everywhere else a value is present or absent. A `null` elsewhere, such as an entry whose `op` is `null` (AttributeError at `.upper()`, which `get_disk_io` does not catch) or a `null` counter in the CPU or network arithmetic (TypeError), is not modelled.
- DaemonClient.ActiveStatsOf: models the corrected program of the first Findings row; memory is read by `StatStreamer.MemoryStatsOf`, so `cache` and `max_usage` are reported where the code as written never sets them.
- DaemonClient.DockerDaemonClient.ActiveContainerStats: built on `ActiveStatsOf`, so it models the corrected memory reader of the first Findings row.
- DaemonClient.DockerDaemonClient.GenerateContainerView: its active stats come from `ActiveContainerStats`, so it models the corrected memory reader of the first Findings row.
- DaemonClient.DockerDaemonClient.GetVersionAndContainerViews: its views come from `GenerateContainerView`, so it models the corrected memory reader of the first Findings row.
- DaemonClient.DockerDaemonClient.ViewsOf: ties each streaming view's active fields to `ActiveStatsOf` only when the listing's names are unique, as Docker's container names are; with a repeated name a later view reads the snapshot the earlier one left, which is not stated.
- DaemonClient.DockerDaemonClient.RefreshViews: the same unique-names condition on its views, through `ViewsOf`.
- DaemonClient.DockerDaemonClient.GetVersionAndContainerViews: the same unique-names condition on its views, through `RefreshViews`.
- RichStdout.App.HandleKeyStroke: models the corrected program of the second Findings row; keys '1' to '6' send the selected container's name, where the code as written sends its id (`RichStdout.ActionRequestAsWritten`).
- LegacyDaemonClient.View: models the corrected program of the third Findings row; the code as written raises AttributeError for every running or paused container (`LegacyDaemonClient.ViewAsWritten`).
- LegacyDaemonClient.DockerDaemonClient.Track: models the corrected program of the third Findings row; the code as written raises TypeError at the streamer construction (`LegacyDaemonClient.InsertAsWritten`).
- LegacyDaemonClient.DockerDaemonClient.InsertAll: models the corrected program of the third Findings row, through `Track`.
- LegacyDaemonClient.DockerDaemonClient.Reconcile: models the corrected program of the third Findings row, through `InsertAll`.
- LegacyDaemonClient.DockerDaemonClient.Views: models the corrected program of the third Findings row, through `View`.
- LegacyDaemonClient.DockerDaemonClient.Update: models the corrected program of the third Findings row, through `Reconcile` and `Views`.
- The network and disk "rates" are raw differences with a duration, as in the source; nothing divides them by time.
- `cDock/config.py`, `cDock/outputs/screen.py`, `cDock/blessed_screen.py`, `cDock/container_info_streamer.py`, `tests/test_config.py` and `test.py` are not part of this model.

## Findings

| source | as written | input that shows it | evidently intended | confidence | as-written member | corrected member |
|---|---|---|---|---|---|---|
| cDock/docker_client/container_stat_streamer.py:90 | tests `'stats'` in the record being built, which only ever holds `usage` and `limit` | a sample with `memory_stats = {usage: 100, limit: 1000, stats: {cache: 7, max_usage: 90}}` gives no cache | test the daemon's `memory_stats` dict, as the earlier streamer does | high (not executed) | StatStreamer.MemoryStatsAsWritten, StatStreamer.CacheDroppedAsWritten | StatStreamer.MemoryStatsOf, LegacyStatStreamer.MemoryUsageAgreesWithCorrected |
| cDock/outputs/rich_stdout.py:124-129 | sends the selected view's id to the client, whose actions are keyed by container name (cDock/docker_client/docker_daemon_client.py:31-32, 43-44) | a running container named "web" with id "f00" and a `start` method; key '1' is refused with 'Unknown container!' | send the container's name | high (not executed) | RichStdout.ActionRequestAsWritten, RichStdout.ActionByIdRejected | RichStdout.ActionRequest, RichStdout.CorrectedActionReachesClient |
| cDock/docker_daemon_client.py:70, 90-91 | builds the streamer with two arguments where its constructor takes one, and calls `get_cpu_stats`/`get_memory_stats`, which the earlier streamer does not define (it has `get_cpu_usage`/`get_memory_usage`) | a first listing holding one running container raises TypeError; once tracked, its view raises AttributeError | one streamer per untracked id, and a view for every record | high (not executed) | LegacyDaemonClient.InsertAsWritten, LegacyDaemonClient.ViewAsWritten, LegacyDaemonClient.RunningContainerNeverShownAsWritten | LegacyDaemonClient.DockerDaemonClient.InsertAll, LegacyDaemonClient.View |
