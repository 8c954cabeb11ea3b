/** Values the file-integrity monitor works with: digests, watchdog notifications,
    audit-log entries, the outcome of reading its two JSON files, and the pure
    helpers of MonitorHandler (entry construction, the ignore test, the loads
    with their empty fallback). */
module FimState {

  datatype Option<+T> = None | Some(value: T)

  /** Outcome of `json.load` on one of the two durable files: the decoded value,
      or a JSONDecodeError. */
  datatype Parsed<+T> = Parsed(value: T) | Malformed

  type Path = string

  /** What `hash_file` returns for a readable file: the SHA-256 hex digest. */
  type Digest = string

  /** `datetime.now().isoformat()`, taken as opaque text. */
  type Timestamp = string

  /** `self.hashes`: path to digest, `None` where the file vanished before it
      could be hashed (stored as JSON null). */
  type HashTable = map<Path, Option<Digest>>

  datatype EventKind = Created | Deleted | Modified

  /** A watchdog notification as the handlers read it. */
  datatype Event = Event(kind: EventKind, srcPath: Path, isDirectory: bool)

  /** One object of the audit log; `hash` is None when the object has no
      "hash" key. The kinds are written as "CREATED", "DELETED", "MODIFIED". */
  datatype LogEntry = LogEntry(timestamp: Timestamp, event: EventKind, file: Path, hash: Option<Digest>)

  /** A full rewrite of one durable file, with the content written. */
  datatype Effect = HashesSaved(table: HashTable) | LogWritten(entries: seq<LogEntry>)

  /** The two durable files, LOG_FILE and HASH_FILE; together they are IGNORE_FILES. */
  datatype Config = Config(logFile: Path, hashFile: Path)

  /** Python truthiness of a `hash_file` result: None and "" are false. */
  predicate Truthy(h: Option<Digest>)
  {
    h.Some? && h.value != ""
  }

  /** The shape of a `hexdigest()` of SHA-256: 64 lower-case hex digits. */
  predicate IsHexDigest(d: Digest)
  {
    |d| == 64 && forall i :: 0 <= i < |d| ==> d[i] in "0123456789abcdef"
  }

  /** A result `hash_file` can actually produce. */
  predicate WellFormedObservation(h: Option<Digest>)
  {
    h.None? || IsHexDigest(h.value)
  }

  /** For results `hash_file` can produce, the truthiness tests of the source
      (`if file_hash:`, `if new_hash`) are exactly "the file was hashed". */
  lemma WellFormedTruthiness(h: Option<Digest>)
    requires WellFormedObservation(h)
    ensures Truthy(h) <==> h.Some?
  {
  }

  /** `dict.get`: None both for a missing key and for a stored null. */
  function Get(m: HashTable, p: Path): (r: Option<Digest>)
    ensures p !in m ==> r == None
    ensures p in m ==> r == m[p]
  {
    if p in m then m[p] else None
  }

  /** `should_ignore`: the path is one of the monitor's own two files. */
  function ShouldIgnore(cfg: Config, path: Path): (r: bool)
    ensures r <==> path == cfg.logFile || path == cfg.hashFile
  {
    path in {cfg.logFile, cfg.hashFile}
  }

  /** The dictionary `log_event` builds: the "hash" key is present exactly
      when the digest is truthy, and then holds that digest. */
  function MakeEntry(now: Timestamp, kind: EventKind, path: Path, fileHash: Option<Digest>): (e: LogEntry)
    ensures e.timestamp == now && e.event == kind && e.file == path
    ensures e.hash.Some? <==> Truthy(fileHash)
    ensures e.hash.Some? ==> e.hash == fileHash
  {
    LogEntry(now, kind, path, if Truthy(fileHash) then fileHash else None)
  }

  /** The hash table loaded at start-up; an unparsable file gives `{}`. */
  function LoadHashes(stored: Parsed<HashTable>): (m: HashTable)
    ensures stored.Parsed? ==> m == stored.value
    ensures stored.Malformed? ==> m == map[]
  {
    match stored
    case Parsed(table) => table
    case Malformed => map[]
  }

  /** The list `log_event` reads before appending; an unparsable file gives `[]`. */
  function LoadLog(stored: Parsed<seq<LogEntry>>): (log: seq<LogEntry>)
    ensures stored.Parsed? ==> log == stored.value
    ensures stored.Malformed? ==> log == []
  {
    match stored
    case Parsed(entries) => entries
    case Malformed => []
  }

  /** The list `log_event` writes back: what it loaded, then the new entry.
      An unparsable log is replaced by the new entry alone. */
  function AppendEntry(stored: Parsed<seq<LogEntry>>, entry: LogEntry): (r: seq<LogEntry>)
    ensures |r| >= 1 && r[|r| - 1] == entry
    ensures stored.Parsed? ==> r[..|r| - 1] == stored.value
    ensures stored.Malformed? ==> r == [entry]
  {
    LoadLog(stored) + [entry]
  }
}
