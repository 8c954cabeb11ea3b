/** MonitorHandler as the object the watchdog observer calls: it owns the hash
    table, updates it in place, and rewrites the two durable files. Each
    method leaves the object in the state the matching FimSpec transition
    gives, so every property proved there holds of the object. */
module FimHandler {
  import opened FimState
  import FimSpec

  class MonitorHandler {
    /** LOG_FILE and HASH_FILE. */
    const cfg: Config
    /** `self.hashes`. */
    var hashes: HashTable
    /** The content of the log file, as the next `json.load` reads it. */
    var logFile: Parsed<seq<LogEntry>>
    /** Rewrites of the two durable files made so far, in order. */
    var effects: seq<Effect>

    function Snapshot(): FimSpec.State
      reads this
    {
      FimSpec.State(hashes, logFile, effects)
    }

    /** `__init__`: load the hash table, falling back to `{}` when the hash
        file does not parse. The log file is not read here. */
    constructor (cfg: Config, storedHashes: Parsed<HashTable>, storedLog: Parsed<seq<LogEntry>>)
      ensures this.cfg == cfg
      ensures storedHashes.Parsed? ==> hashes == storedHashes.value
      ensures storedHashes.Malformed? ==> hashes == map[]
      ensures logFile == storedLog && effects == []
    {
      this.cfg := cfg;
      hashes := LoadHashes(storedHashes);
      logFile := storedLog;
      effects := [];
    }

    /** `save_hashes`: rewrite the hash file with the whole table. */
    method SaveHashes()
      modifies this`effects
      ensures effects == old(effects) + [HashesSaved(hashes)]
    {
      effects := effects + [HashesSaved(hashes)];
    }

    /** `log_event`: load the log (`[]` if it does not parse), append the new
        entry, write the list back. */
    method LogEvent(eventType: EventKind, filePath: Path, fileHash: Option<Digest>, now: Timestamp)
      modifies this`logFile, this`effects
      ensures logFile.Parsed?
      ensures old(logFile).Parsed? ==> logFile.value == old(logFile).value + [MakeEntry(now, eventType, filePath, fileHash)]
      ensures old(logFile).Malformed? ==> logFile.value == [MakeEntry(now, eventType, filePath, fileHash)]
      ensures effects == old(effects) + [LogWritten(logFile.value)]
    {
      var logEntry := MakeEntry(now, eventType, filePath, fileHash);
      var data: seq<LogEntry>;
      match logFile {
        case Parsed(entries) => data := entries;
        case Malformed => data := [];
      }
      data := data + [logEntry];
      logFile := Parsed(data);
      effects := effects + [LogWritten(data)];
    }

    /** `on_created`; `observed` is what `hash_file` returned for the path. */
    method OnCreated(event: Event, observed: Option<Digest>, now: Timestamp)
      modifies this
      ensures Snapshot() == FimSpec.OnCreated(cfg, old(Snapshot()), event, observed, now)
    {
      if !event.isDirectory && !ShouldIgnore(cfg, event.srcPath) {
        var fileHash := observed;
        hashes := hashes[event.srcPath := fileHash];
        ghost var stored := Snapshot();
        LogEvent(Created, event.srcPath, fileHash, now);
        ghost var logged := Snapshot();
        assert logged == FimSpec.LogEvent(stored, Created, event.srcPath, fileHash, now);
        SaveHashes();
        assert Snapshot() == FimSpec.SaveHashes(logged);
      }
    }

    /** `on_deleted`. */
    method OnDeleted(event: Event, now: Timestamp)
      modifies this
      ensures Snapshot() == FimSpec.OnDeleted(cfg, old(Snapshot()), event, now)
    {
      if !event.isDirectory && !ShouldIgnore(cfg, event.srcPath) {
        if event.srcPath in hashes {
          hashes := hashes - {event.srcPath};
          ghost var removed := Snapshot();
          SaveHashes();
          assert Snapshot() == FimSpec.SaveHashes(removed);
        }
        ghost var saved := Snapshot();
        LogEvent(Deleted, event.srcPath, None, now);
        assert Snapshot() == FimSpec.LogEvent(saved, Deleted, event.srcPath, None, now);
      }
    }

    /** `on_modified`; `observed` is what `hash_file` returned for the path. */
    method OnModified(event: Event, observed: Option<Digest>, now: Timestamp)
      modifies this
      ensures Snapshot() == FimSpec.OnModified(cfg, old(Snapshot()), event, observed, now)
    {
      if !event.isDirectory && !ShouldIgnore(cfg, event.srcPath) {
        var newHash := observed;
        var oldHash := Get(hashes, event.srcPath);
        if Truthy(newHash) && newHash != oldHash {
          hashes := hashes[event.srcPath := newHash];
          ghost var stored := Snapshot();
          LogEvent(Modified, event.srcPath, newHash, now);
          ghost var logged := Snapshot();
          assert logged == FimSpec.LogEvent(stored, Modified, event.srcPath, newHash, now);
          SaveHashes();
          assert Snapshot() == FimSpec.SaveHashes(logged);
        }
      }
    }
  }
}
