/** The file-backed engine of plugin/engine_stub.go: it caches the rows of its file and
    rewrites the whole file on every durable write, flush and close. */
module StubEngines {
  import opened Lifecycle
  import opened Whitespace

  datatype Retention = Natural | Durable | Boundary | Ephemeral

  datatype Result = Processed | EngineClosed

  lemma SuffixApart(a: string, b: string, suffix: string)
    requires a + suffix == b + suffix
    ensures a == b
  {
    assert a == (a + suffix)[..|a|] && b == (b + suffix)[..|b|];
  }

  /** Two databases never share a file, and only a blank or in-memory one has none. */
  lemma PathsApart(a: string, b: string)
    ensures PersistPath(a) == "" <==> TrimSpace(a) == "" || a == ":memory:"
    ensures PersistPath(a) == PersistPath(b) != "" ==> a == b
  {
    if PersistPath(a) == PersistPath(b) != "" { SuffixApart(a, b, ".stub.json"); }
  }

  /** The files of the data directory, by path. */
  class Disk {
    var files: map<string, seq<string>>

    constructor ()
      ensures files == map[]
    {
      files := map[];
    }
  }

  function PersistPath(dbPath: string): string {
    if TrimSpace(dbPath) == "" || dbPath == ":memory:" then "" else dbPath + ".stub.json"
  }

  /** The newest row. */
  predicate EndsIn(rows: seq<string>, row: string) { rows != [] && rows[|rows| - 1] == row }

  class StubEngine {
    const disk: Disk
    const path: string
    var rows: seq<string>
    var closed: bool
    var consolidations: nat

    /** openStubEngine: the rows of the file, if there is one. */
    constructor (disk: Disk, dbPath: string)
      ensures this.disk == disk && path == PersistPath(dbPath) && !closed && consolidations == 0
      ensures rows == if path != "" && path in disk.files then disk.files[path] else []
    {
      this.disk, path := disk, PersistPath(dbPath);
      closed, consolidations := false, 0;
      var persist := PersistPath(dbPath);
      rows := if persist != "" && persist in disk.files then disk.files[persist] else [];
    }

    /** The file as it is when this engine has just written it. */
    function Saved(files: map<string, seq<string>>): map<string, seq<string>>
      reads this
    {
      if path == "" then files else files[path := rows]
    }

    method PersistLocked()
      modifies disk
      ensures disk.files == Saved(old(disk.files))
    {
      if path == "" { return; }
      disk.files := disk.files[path := rows];
    }

    /** A closed engine refuses; a durable text becomes the newest of at most 256 rows, and
        the file is what the engine holds. */
    method ProcessText(text: string, retention: Retention) returns (r: Result)
      modifies `rows, disk
      ensures r == if TrimSpace(text) != "" && closed then EngineClosed else Processed
      ensures TrimSpace(text) == "" || closed || retention == Ephemeral ==>
        rows == old(rows) && disk.files == old(disk.files)
      ensures TrimSpace(text) != "" && !closed && retention != Ephemeral ==>
        rows == LastRows(old(rows) + [TrimSpace(text)]) && disk.files == Saved(old(disk.files))
      ensures TrimSpace(text) != "" && !closed && retention != Ephemeral ==>
        && rows == old(rows)[if |old(rows)| >= 256 then |old(rows)| - 255 else 0..] + [TrimSpace(text)]
        && (path != "" ==> path in disk.files && EndsIn(disk.files[path], TrimSpace(text)))
    {
      var row := TrimSpace(text);
      if row == "" { return Processed; }
      if closed { return EngineClosed; }
      if retention == Durable || retention == Natural || retention == Boundary {
        rows := rows + [row];
        if |rows| > MAX_ROWS { rows := rows[|rows| - MAX_ROWS..]; }
        PersistLocked();
      }
      r := Processed;
    }

    method Consolidate()
      modifies `consolidations
      ensures consolidations == old(consolidations) + if closed then 0 else 1
    {
      if closed { return; }
      consolidations := consolidations + 1;
    }

    method Flush()
      modifies disk
      ensures disk.files == Saved(old(disk.files))
    {
      PersistLocked();
    }

    method Close()
      modifies `closed, disk
      ensures closed && disk.files == Saved(old(disk.files))
    {
      PersistLocked();
      closed := true;
    }
  }
}
