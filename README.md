# File-activity monitor: event capture and report flush

A model of the core of a Windows tray application, `monitoramento.py`. It
watches a directory tree. Every file creation, modification and deletion
becomes a six-column record in an in-memory list (`event_list`). Every five
minutes a background loop appends that list to an Excel report at a
user-chosen path and clears the list. The model is a state machine over
that state, held in the class `Monitor.Session`:

- `buffer`: the pending records (`event_list`);
- `reports`: the report files on disk, by path, as sequences of rows; the
  current report is `Report()`, the file at `reportName` if it exists;
- `reportName` and `monitoredDir`: the settings `REPORT_NAME` and
  `MONITORED_DIR`;
- `reporter`: the report thread, which is not started, running, or ended
  by an exception.

Modules:

- `Wrappers`: `Option`.
- `Paths`: `os.path.basename` under Windows (`ntpath`) rules. Both `\` and
  `/` are separators, and a `X:` drive prefix is split off before the search
  for the last separator.
- `Events`: the record (`Event`), the event kinds and their labels
  (`Criado`, `Modificado`, `Deletado`), the sentinel owner `Desconhecido`,
  and `Normalize`. `Normalize` is the pure description of what one handler
  appends.
- `Reports`: the flush on values. `Merge` gives the existing rows followed
  by the batch. `Flushed` is one flush step. `FlushAll` is a series of
  flush steps.
- `Monitor`: the `Session` class. It has one method per handler, one for a
  pass of the report loop, one for each menu selection, and `Start` for
  the end of `main`, which starts the report thread. Its invariant
  `Valid()` says that once the thread is started both settings are chosen.
- `Scenarios`: sessions driven from start-up through handlers and flushes.

External calls are parameters:

- The clock reading is an opaque `now: string`.
- `os.path.getsize` is `sizeLookup: Option<nat>`.
- `get_file_owner` is `ownerLookup: Option<string>`.
- Whether `pd.read_excel` and `to_excel` succeed are `readable: bool` and
  `writable: bool` of `FlushStep`.

In each lookup, `None` means that the call raised.

## Behaviour of the code worth knowing

- A failed owner lookup does not fall back to the sentinel owner. It
  raises inside the handler's `try`, so the event is dropped.
- `schedule_report` has no exception handler. A failed read or write ends
  the report loop for good: the pass is `Raised`, the thread is `Ended`,
  and every later pass is `NotRunning`.
- The report thread starts only after both settings are chosen, and a
  selection can only replace a setting with a non-empty one. So the
  report-location half of the guard at line 101 never fails, and a missing
  report location is never the reason for the `else` branch at lines
  117-118: an idle pass always has an empty buffer (`FlushStep`'s last
  clause).
- There is no lock around `event_list`, and exiting does not perform a
  final flush.
- The timestamp pattern is `%Y-%m-%d %H:%M:%S`, year first.
- The size is Python's `round(bytes / 1024, 2)` on a float.

## Model

| member | source | states |
|---|---|---|
| `Paths.TailStart` | monitoramento.py:38 | The component start found by the backward scan in `ntpath.split` lies between the lower bound and the scan origin. It is at the lower bound or right after a separator, and no separator follows it before the origin. |
| `Paths.Basename` | monitoramento.py:38 | The file name (used the same way at lines 60 and 82) holds no `\` or `/`. The path ends with it. It reaches back to the end of the drive prefix or to a separator. |
| `Paths.DriveLength` | monitoramento.py:38 | The drive prefix that `ntpath.splitdrive` removes before the search is two characters long exactly when the second character is a colon, and nothing otherwise. |
| `Paths.BasenameUnique` | monitoramento.py:38 | Those properties determine the file name: any separator-free suffix that starts at the drive end or right after a separator is the basename. |
| `Events.Label` | monitoramento.py:47-88 | The 'Evento' cell is `Criado` exactly for a creation, `Modificado` exactly for a modification and `Deletado` exactly for a deletion (lines 47, 69 and 88). |
| `Events.Normalize` | monitoramento.py:34-95 | A directory notification yields nothing. A deleted file always yields a record with owner `Desconhecido` and size `N/A`, whatever the lookups return. A created or modified file yields a record exactly when both the size and the owner lookups succeed, and the record carries the looked-up owner and byte count. Every record carries its handler's kind, the clock reading, `src_path` as path and its basename as file name. |
| `Monitor.Session.constructor` | monitoramento.py:18-23 | At start-up the buffer is empty, no directory or report location is chosen, the report thread is not started, and the report files are whatever is on disk. |
| `Monitor.Session.Start` | monitoramento.py:180-192 | Without both a folder and a report location chosen, `main` returns and the report thread stays unstarted. Otherwise the thread is running. The buffer, reports and settings are unchanged. |
| `Monitor.Session.OnCreated` | monitoramento.py:34-54 | The buffer gains exactly the record `Normalize` gives for `Criado` at its end, or nothing. Earlier entries and all other state are unchanged. |
| `Monitor.Session.OnModified` | monitoramento.py:56-76 | The same as `OnCreated`, with the kind `Modificado`. |
| `Monitor.Session.OnDeleted` | monitoramento.py:78-95 | A file notification appends exactly one `Deletado` record, with no lookup. A directory notification changes nothing. |
| `Monitor.Session.FlushStep` | monitoramento.py:98-118 | With a non-empty buffer and a chosen report, a pass that succeeds writes the existing rows followed by the buffer (or the buffer alone when no report exists) and then clears the buffer. If reading or writing raises, the buffer and reports are unchanged and the loop ends. Otherwise nothing changes. A loop that is not running makes no pass. In every case the report followed by the buffer is the same sequence before and after, so each record is either still buffered or written, exactly once. An idle pass always has an empty buffer. |
| `Monitor.Session.SelectMonitoredDir` | monitoramento.py:127-141 | A non-empty selection replaces `MONITORED_DIR`. An empty one leaves it. The buffer and reports are untouched. |
| `Monitor.Session.SelectReportLocation` | monitoramento.py:143-153 | A non-empty selection replaces `REPORT_NAME`. An empty one leaves it. |
| `Reports.Merge` | monitoramento.py:103-112 | The rows written are the existing rows, unchanged and in place, with the batch right after them in order. When no report exists they are the batch alone. |
| `Reports.Flushed` | monitoramento.py:101-116 | After one flush the report's rows are the old rows followed by the batch. The report is absent only when it was absent and the batch was empty. |
| `Reports.FlushAll` | monitoramento.py:98-118 | Over any series of flushes an existing report stays present, and its old rows stay a prefix of the rows. |
| `Reports.TwoFlushes` | monitoramento.py:101-116 | Flushing batches B1 and then B2 into an absent report leaves exactly B1 ++ B2. The report stays absent only when both batches are empty. |
| `Reports.FlushAllAppends` | monitoramento.py:98-118 | After any series of successful flush steps, the report holds its old rows followed by every flushed event in arrival order, with none lost or repeated. It stays absent only if it was absent and nothing was flushed. |
| `Scenarios.CreateThenDelete` | monitoramento.py:34-116 | A 10-byte file created by alice, flushed, then deleted and flushed again leaves a report of two rows: the creation row, unchanged, and then the deletion row with owner `Desconhecido` and size `N/A`. |
| `Scenarios.WriteFailureKeepsBuffer` | monitoramento.py:99-116 | A write that raises keeps the record in the buffer and ends the loop. The next pass does nothing and no report file appears. |
| `Scenarios.NothingToFlush` | monitoramento.py:35-118 | Once the report thread runs, directory notifications and a file whose owner lookup raises add nothing, so the next pass is idle. |
| `Scenarios.CancelledStartup` | monitoramento.py:178-182 | A report selection cancelled at start-up makes `main` return without starting the report thread, even though a folder was chosen. |

## Left out

- The watchdog `Observer`: scheduling, start, stop, join and the restart in `select_monitored_dir`. These are thread lifecycle and I/O. `SelectMonitoredDir` models only the setting. At start-up the program runs two observers on the same folder: one started by `select_monitored_dir` at line 178 and one at lines 184-187, which drops the only reference to the first. A file change can therefore reach a handler twice. In the model, one handler call stands for one delivery, not for one file change.
- `get_file_owner` and `os.path.getsize`: these are foreign calls. They are modelled only as lookups that succeed or raise.
- `datetime.now().strftime`: the clock. It is an opaque string parameter.
- The Excel codec (`pd.read_excel`, `DataFrame`, `concat`, `to_excel`): a report is a sequence of rows, and whether reading or writing raises is a parameter.
- The disk behind `reports`: two different path strings are taken to be two different files, and only `FlushStep` changes a report. Windows ignores case and treats `/` and `\` alike, so `C:/rel/r.xlsx` and `c:\rel\R.xlsx` are one file in the source (`os.path.exists` at line 103 is true for both) but two in the model. A user may also delete or edit the report between passes, which changes what lines 103-105 read. The "stays present" clause of `Reports.FlushAll`, the exactly-once clause of `Monitor.Session.FlushStep` and the existing rows it merges hold only under these assumptions.
- Reading a report back is assumed to give exactly the rows last written. It does not: `pd.read_excel` reads `N/A`, `NA`, `null`, `None` and `nan` cells as missing values by default. So a `Deletado` row's size `N/A`, or the name of a file called `NA`, becomes an empty cell at the next merge. "Kept unchanged" in `Reports.Merge`, `Reports.FlushAll`, `Reports.FlushAllAppends` and `Scenarios.CreateThenDelete` holds only under that assumption.
- `FlushStep`: a write that raises is taken to leave the file as it was. A partial or corrupting write is not modelled.
- `time.sleep(300)`, the infinite loop and the daemon thread: one pass of the loop body is modelled. The thread's start and end are the `reporter` state.
- Concurrency is not modelled: handlers and the report loop touch `event_list` without a lock, and interleavings are not modelled. One cost of the missing lock: a record appended while `to_excel` runs is removed by `event_list.clear()` at line 116 without ever being written. The exactly-once clause of `Monitor.Session.FlushStep` holds only because a pass is modelled as atomic.
- The size arithmetic `round(file_size_bytes / 1024, 2)`: this is float division and rounding. A record keeps the byte count that the kilobyte figure is computed from.
- `Paths.Basename`: UNC drive prefixes (`\\server\share`) are not split off. Only the `X:` drive form of `ntpath.splitdrive` is modelled.
- The error `print` calls: they are console output only.
- The tkinter dialogs, the pystray icon and menu, `create_image`, `on_exit` and `setup_tray_icon`: these are UI and process plumbing. In `main`, the two start-up dialog calls (lines 178-179) are left out, and a dialog's result is the `selection` parameter. The observer set-up (lines 184-187) and the tray set-up and shutdown (lines 195-199) are left out as well; the settings check at lines 180-182 and the thread start at lines 190-192 are `Monitor.Session.Start`.
