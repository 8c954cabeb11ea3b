# File-integrity monitor: the change classifier, in Dafny

This project models `MonitorHandler` in `fim.py`. The watchdog observer calls
its handlers for every created, deleted or modified path under the watched
directory. The handler does three things:

- It keeps a table from path to SHA-256 digest (`self.hashes`). A path whose
  file vanished before it could be hashed maps to `None`.
- It appends entries `{timestamp, event, file, hash?}` to a JSON audit log.
  It re-reads the log and rewrites it whole on every append.
- It rewrites the JSON hash file after every logged change to the table.

Notifications for directories are ignored, and so are notifications for the
monitor's own two files (`IGNORE_FILES`).

The project has three files:

- `fim_state.dfy` (module `FimState`) holds the values: digests, notifications,
  log entries, the outcome of `json.load` (`Parsed` or `Malformed`), and the
  pure helpers. The helpers are `should_ignore`, the entry built by
  `log_event`, the two loads with their empty fallback, and `dict.get`.
- `fim_spec.dfy` (module `FimSpec`) gives each handler as a pure transition on
  a `State`. The state is the table, the log file as the next `json.load` reads
  it, and the ordered trace of file rewrites. The module also has the dispatch
  by kind, a run over a sequence of notifications, and the lemmas.
- `fim_handler.dfy` (module `FimHandler`) has the class `MonitorHandler`. Its
  `hashes`, `logFile` and `effects` fields are updated in place. Each handler
  method is proved to leave the object in the state that the `FimSpec`
  transition of the same name gives.

`hash_file` is an oracle. Each handler takes `observed: Option<Digest>`, the
value `hash_file` returned for the path; `None` means the file was not found.
The source tests digests by Python truthiness (`if file_hash:`,
`if new_hash`). The model keeps that test as `Truthy` (present and not empty).
`WellFormedTruthiness` shows that for a real 64-digit hex digest, `Truthy` is
the same as "present". Timestamps are opaque strings passed in by the caller.

Persistence is an effect trace. `HashesSaved(table)` is a full rewrite of the
hash file. `LogWritten(entries)` is a full rewrite of the log file. The order of
effects is the order of the writes: `on_created` logs and then saves, and
`on_deleted` saves (only if the path was tracked) and then logs.

Two behaviours of the code shape what the model claims:

- Timestamps come from `datetime.now()`, so nothing is claimed about their
  order.
- `__init__` catches only `json.JSONDecodeError` (fim.py:45-48), so a missing
  hash file raises. Only the unparsable-content fallback is modelled;
  `ensure_files` creates the file beforehand.

## Model

| member | source | states |
|---|---|---|
| FimState.ShouldIgnore | fim.py:74-75 | a path is ignored exactly when it is the log file or the hash file (`IGNORE_FILES`, fim.py:19); that such paths never change the state is proved in `FimSpec.IgnoredRunChangesNothing` and `FimSpec.RunNeverTracksOwnFiles` |
| FimState.MakeEntry | fim.py:55-61 | the entry has the given timestamp, kind and path; it has a hash exactly when the digest is truthy, and that hash is the digest |
| FimState.AppendEntry | fim.py:63-68 | the list written back ends with the new entry; everything before it is the parsed old log; if the old log does not parse, the result is just the new entry |
| FimState.Get | fim.py:94 | `dict.get`: the stored value for a tracked path, `None` for an untracked one; what follows from it (an untracked path counts as changed) is proved in `FimSpec.OnModified` and `FimSpec.ModifiedIsIdempotent` |
| FimState.LoadHashes | fim.py:44-48 | the table `__init__` loads: the parsed hash file, or the empty table when it does not parse |
| FimState.LoadLog | fim.py:64-67 | the list `log_event` loads: the parsed log, or the empty list when it does not parse |
| FimState.WellFormedTruthiness | fim.py:30-39 | for every value `hash_file` can return (`None` or 64 hex digits), the truthiness test is true exactly when a digest was returned |
| FimSpec.Ignored | fim.py:78 | the guard shared by the three handlers (also fim.py:85 and fim.py:92): true exactly for a directory, the log file or the hash file |
| FimSpec.SaveHashes | fim.py:50-52 | saving changes neither the table nor the log; it adds exactly one rewrite of the hash file, with the whole current table, after the earlier writes |
| FimSpec.LogEvent | fim.py:54-70 | the table is unchanged; the log afterwards parses, is one longer than what was loaded, starts with what was loaded (nothing, if it did not parse) and ends with the new entry; that list is written once |
| FimSpec.OnCreated | fim.py:77-82 | ignored events change nothing. Otherwise the path maps to the oracle's result (even `None`) and no other key changes. Exactly one CREATED entry for the path is appended. The log is written before the table is saved |
| FimSpec.OnDeleted | fim.py:84-89 | ignored events change nothing. Otherwise the path is untracked afterwards and no other key changes. Exactly one DELETED entry with no hash is appended, tracked or not. The table is saved before the log is written, and only if the path was tracked; an untracked path leaves the table and the hash file alone |
| FimSpec.OnModified | fim.py:91-98 | ignored events, a falsy digest, or a digest equal to `get(path)` change nothing. Otherwise the path maps to the new digest and no other key changes. Exactly one MODIFIED entry carrying that digest is appended. The log is written, then the table is saved. An untracked path counts as changed |
| FimSpec.Dispatch | fim.py:77-98 | for every kind: ignored notifications change nothing, only the notified path's entry can change, a parsed log only grows, and the write trace only grows |
| FimSpec.ModifiedIsIdempotent | fim.py:93-95 | a second modification with the same digest, after the first, changes nothing, whatever its timestamp |
| FimSpec.CreatedEntryCarriesDigest | fim.py:77-81 | for an oracle result `hash_file` can produce, the CREATED entry is exactly `{now, CREATED, path, observed}`: it has a hash precisely when the file was read |
| FimSpec.IgnoredRunChangesNothing | fim.py:74-92 | any sequence of directory or self-file notifications leaves table, log and write trace exactly as they were |
| FimSpec.RunChangesOnlyNotifiedPaths | fim.py:77-98 | over any run, a path named by no notification keeps its entry or its absence |
| FimSpec.RunNeverTracksOwnFiles | fim.py:19 | if the table does not track the log file or the hash file, no run makes it track them |
| FimSpec.RunLogIsAppendOnly | fim.py:63-70 | over any run the write trace only grows, and a log that parses only grows by appends |
| FimSpec.StepKeepsLogWellShaped | fim.py:54-98 | one notification keeps every log entry well shaped: DELETED has no hash, MODIFIED has one, and no hash is empty |
| FimSpec.RunKeepsLogWellShaped | fim.py:54-98 | the same shape holds of the whole log after any run |
| FimSpec.CreatedKeepsLogExplainsTable | fim.py:77-82 | a handled creation keeps "replaying the log rebuilds the table" true |
| FimSpec.DeletedKeepsLogExplainsTable | fim.py:84-89 | a handled deletion, of a tracked or an untracked path, keeps it true |
| FimSpec.ModifiedKeepsLogExplainsTable | fim.py:91-98 | a logged modification keeps it true |
| FimSpec.StepKeepsLogExplainsTable | fim.py:77-98 | every notification keeps it true |
| FimSpec.RunKeepsLogExplainsTable | fim.py:77-98 | any run keeps it true: reading the log from the start (CREATED/MODIFIED set the path, DELETED removes it) gives the tracked paths and their digests, with falsy digests as `None` |
| FimSpec.BootstrapRunLogExplainsTable | fim.py:21-28 | starting from the bootstrapped files (`{}` and `[]`), after any run the audit log accounts for the hash table exactly |
| FimHandler.MonitorHandler.constructor | fim.py:42-48 | the table is the parsed hash file, or empty if it does not parse; nothing has been written yet |
| FimHandler.MonitorHandler.SaveHashes | fim.py:50-52 | one rewrite of the hash file with the current table is added to the trace; the in-place form of `FimSpec.SaveHashes` |
| FimHandler.MonitorHandler.LogEvent | fim.py:54-70 | the log becomes the old parsed log plus the new entry, or the new entry alone if the old log does not parse; that list is written once; the in-place form of `FimSpec.LogEvent` |
| FimHandler.MonitorHandler.OnCreated | fim.py:77-82 | updates the object in place to exactly the state `FimSpec.OnCreated` gives |
| FimHandler.MonitorHandler.OnDeleted | fim.py:84-89 | updates the object in place to exactly the state `FimSpec.OnDeleted` gives |
| FimHandler.MonitorHandler.OnModified | fim.py:91-98 | updates the object in place to exactly the state `FimSpec.OnModified` gives |

## Left out

- The watchdog `Observer`, its scheduling and thread, the `__main__` sleep loop and the `KeyboardInterrupt` shutdown (fim.py:100-115). These are process lifecycle, not classification. The model handles notifications one at a time in delivery order, as `Run`.
- `ensure_files` and the creation of the watched directory (fim.py:21-28, fim.py:101). These are bootstrap file I/O; `Bootstrap` is the state they leave behind.
- SHA-256 and the chunked read in `hash_file` (fim.py:32-37). This is a library call, so its result is a parameter.
- The bytes of the JSON files. The model does not cover serialisation, file modes, or `seek`. The log is rewritten in `r+` mode without truncation, so a shorter rewrite can leave stale bytes behind. The model treats each rewrite as producing exactly the new list.
- JSON content of other shapes. The model represents only a hash file that decodes to an object of strings and nulls, and a log that decodes to a list of entry objects. Some other shapes raise in the source: a log that is not a list fails at the append, and a table that is not a dict fails in `on_created` and `on_modified`. Others are carried along silently: a table value such as `1` is compared and overwritten by `on_modified`, a log of arbitrary values is appended to, and `on_deleted` on a list-shaped table finds no path and still logs.
- Exceptions other than the two fallbacks. `hash_file` catches only `FileNotFoundError` (fim.py:38), so `PermissionError`, or `IsADirectoryError` for a path replaced by a directory, propagates out of `on_created` and `on_modified`. A file that is not valid UTF-8 makes `json.load` raise `UnicodeDecodeError`, which the `JSONDecodeError` handlers (fim.py:47, fim.py:66) do not catch; in `on_created` that leaves the table updated in memory (fim.py:80) but not saved (fim.py:82). The oracle `Option<Digest>` and the `Parsed`/`Malformed` outcome have no raise path, so the model does not capture any of these.
- A missing hash file at start-up, and write failures. Both raise in the source and stop the handler; the model has no error path for them.
- `datetime.now().isoformat()` (fim.py:56). This is a clock; the timestamp is a parameter, and no ordering of timestamps is claimed.
- `print(log_entry)` (fim.py:72). This is a console side channel.
- Moved (renamed) paths. `MonitorHandler` does not override `on_moved`, so a rename produces no entry and leaves the old path tracked. The model has no Moved kind.
