// SQL storage: the three database constructors, the sqlite data-folder
// construction, and the accessors of the resulting handle.

module Storage {
  import opened Wrappers
  import opened Contexts

  datatype Driver = Sqlite3Driver | LibsqlDriver | PostgresDriver
  datatype Dialect = SqliteDialect | PgDialect

  /** The permission bits the data folder is created with (octal 0755). */
  const DataFolderMode := 0x1ED
  const DatabaseFile := "main.db"

  /** The folder segments initStorage passes to NewSqlite. */
  const SqliteFolder: seq<string> := ["draken", "data"]

  /** The messages log.Fatal stops the process with. */
  const NoHomeMessage := "Failed to get user home directory"
  const MkdirMessage := "Failed to create data directory"

  /** A bundebug query hook. */
  datatype QueryHook = QueryHook(enabled: bool, verbose: bool)

  // ---- Paths ---------------------------------------------------------

  /** path.Join of two elements; empty elements are dropped. */
  function Join(a: string, b: string): (r: string)
    ensures a == "" ==> r == b
    ensures b == "" ==> r == a
    ensures a != "" && b != "" ==> r == a + "/" + b
  {
    if a == "" then b else if b == "" then a else a + "/" + b
  }

  /** Each segment joined on in argument order. */
  function JoinAll(home: string, segs: seq<string>): string
    decreases |segs|
  {
    if segs == [] then home else Join(JoinAll(home, segs[..|segs| - 1]), segs[|segs| - 1])
  }

  /** "/a/b/c" for ["a", "b", "c"]. */
  function Slashed(segs: seq<string>): string
    decreases |segs|
  {
    if segs == [] then "" else Slashed(segs[..|segs| - 1]) + "/" + segs[|segs| - 1]
  }

  /** Under a home directory, non-empty segments each add "/" and the segment. */
  lemma {:induction false} JoinAllSlashed(home: string, segs: seq<string>)
    requires home != ""
    requires forall i | 0 <= i < |segs| :: segs[i] != ""
    ensures JoinAll(home, segs) == home + Slashed(segs)
    decreases |segs|
  {
    if segs != [] {
      var init := segs[..|segs| - 1];
      JoinAllSlashed(home, init);
      assert JoinAll(home, init) != "";
      assert home + Slashed(segs) == (home + Slashed(init)) + "/" + segs[|segs| - 1];
    }
  }

  /** The folder NewSqlite builds, one path.Join per segment. */
  method DataFolder(home: string, segs: seq<string>) returns (folder: string)
    ensures folder == JoinAll(home, segs)
  {
    folder := home;
    for i := 0 to |segs|
      invariant folder == JoinAll(home, segs[..i])
    {
      assert segs[..i + 1][..i] == segs[..i];
      folder := Join(folder, segs[i]);
    }
    assert segs[..|segs|] == segs;
  }

  /** The database file of the application's sqlite store, under home directory h. */
  lemma SqlitePath(h: string)
    requires h != ""
    ensures Join(JoinAll(h, SqliteFolder), DatabaseFile) == h + "/draken/data/main.db"
  {
    JoinAllSlashed(h, SqliteFolder);
    assert Slashed(SqliteFolder) == "/draken/data" by {
      assert SqliteFolder[..1] == ["draken"];
      assert Slashed(["draken"]) == "/draken" by { assert ["draken"][..0] == []; }
    }
  }

  // ---- File system and database handles ------------------------------

  /** The directories and plain files that exist, with the mode each directory was made with. */
  class FileSystem {
    var dirs: map<string, int>
    var files: set<string>

    constructor (dirs: map<string, int>, files: set<string>)
      ensures this.dirs == dirs && this.files == files
    {
      this.dirs := dirs;
      this.files := files;
    }

    /** os.MkdirAll: nothing to do for an existing directory, an error when the path is a file. */
    method MkdirAll(p: string, mode: int) returns (err: bool)
      modifies this`dirs
      ensures err <==> p in files && p !in old(dirs)
      ensures err || p in old(dirs) ==> dirs == old(dirs)
      ensures !err && p !in old(dirs) ==> dirs == old(dirs)[p := mode]
    {
      if p in dirs {
        return false;
      }
      if p in files {
        return true;
      }
      dirs := dirs[p := mode];
      err := false;
    }
  }

  /** A database/sql pool opened with a driver and a data source. */
  class Conn {
    const driver: Driver
    const source: string

    constructor (driver: Driver, source: string)
      ensures this.driver == driver && this.source == source
    {
      this.driver := driver;
      this.source := source;
    }
  }

  /** A bun.DB over a pool, with its dialect and query hooks. */
  class BunDB {
    const conn: Conn
    const dialect: Dialect
    var hooks: seq<QueryHook>
    var closed: bool

    constructor (conn: Conn, dialect: Dialect)
      ensures this.conn == conn && this.dialect == dialect && hooks == [] && !closed
    {
      this.conn := conn;
      this.dialect := dialect;
      hooks := [];
      closed := false;
    }
  }

  class SqlDatabase {
    var db: Conn?
    var client: BunDB?
    var context: Context?
    var cancel: Context?

    /** A connected database: pool, bun client over it, a fresh context and its cancel function. */
    constructor Open(driver: Driver, source: string, dialect: Dialect)
      ensures db != null && fresh(db) && db.driver == driver && db.source == source
      ensures client != null && fresh(client) && client.conn == db && client.dialect == dialect
      ensures client.hooks == [] && !client.closed
      ensures context != null && fresh(context) && !context.cancelled && cancel == context
    {
      var conn := new Conn(driver, source);
      db := conn;
      client := new BunDB(conn, dialect);
      var ctx := new Context();
      context := ctx;
      cancel := ctx;
    }

    /** Init adds one query hook, enabled and verbose exactly when debug is on; earlier hooks stay. */
    method Init(debug: bool)
      requires client != null
      modifies client`hooks
      ensures client.hooks == old(client.hooks) + [QueryHook(debug, debug)]
    {
      client.hooks := client.hooks + [QueryHook(debug, debug)];
    }

    /** Stop closes the bun client; the context is not cancelled. */
    method Stop()
      requires client != null
      modifies client`closed
      ensures client.closed
    {
      client.closed := true;
    }

    function Bun(): (b: BunDB?)
      reads this
      ensures b == client
    {
      client
    }

    function Ctx(): (c: Context?)
      reads this
      ensures c == context
    {
      context
    }
  }

  /**
   * NewSqlite: the home directory with each segment joined on, created
   * with mode 0755, and main.db inside it opened with the sqlite3 driver.
   * Err(message) is the log.Fatal that stops the process.
   */
  method NewSqlite(home: string, fs: FileSystem, segs: seq<string>) returns (r: Result<SqlDatabase, string>)
    modifies fs`dirs
    ensures home == "" ==> r == Err(NoHomeMessage) && fs.dirs == old(fs.dirs)
    ensures home != "" ==> var folder := JoinAll(home, segs);
              && (folder in fs.files && folder !in old(fs.dirs) ==> r == Err(MkdirMessage) && fs.dirs == old(fs.dirs))
              && (!(folder in fs.files && folder !in old(fs.dirs)) ==>
                    && r.Ok? && fresh(r.value) && fresh(r.value.db)
                    && r.value.db != null && r.value.db.driver == Sqlite3Driver
                    && r.value.db.source == Join(folder, DatabaseFile)
                    && r.value.client != null && r.value.client.dialect == SqliteDialect
                    && r.value.client.hooks == []
                    && folder in fs.dirs
                    && fs.dirs == (if folder in old(fs.dirs) then old(fs.dirs) else old(fs.dirs)[folder := DataFolderMode]))
  {
    if home == "" {
      return Err(NoHomeMessage);
    }
    var folder := DataFolder(home, segs);
    var err := fs.MkdirAll(folder, DataFolderMode);
    if err {
      return Err(MkdirMessage);
    }
    var d := new SqlDatabase.Open(Sqlite3Driver, Join(folder, DatabaseFile), SqliteDialect);
    r := Ok(d);
  }

  /** NewLibsql: the DSN opened with the libsql driver, sqlite dialect. */
  method NewLibsql(dsn: string) returns (d: SqlDatabase)
    ensures fresh(d) && d.db != null && fresh(d.db) && d.db.driver == LibsqlDriver && d.db.source == dsn
    ensures d.client != null && d.client.dialect == SqliteDialect && d.client.hooks == []
  {
    d := new SqlDatabase.Open(LibsqlDriver, dsn, SqliteDialect);
  }

  /** NewPostgres: the DSN given to the pg driver, postgres dialect. */
  method NewPostgres(dsn: string) returns (d: SqlDatabase)
    ensures fresh(d) && d.db != null && fresh(d.db) && d.db.driver == PostgresDriver && d.db.source == dsn
    ensures d.client != null && d.client.dialect == PgDialect && d.client.hooks == []
  {
    d := new SqlDatabase.Open(PostgresDriver, dsn, PgDialect);
  }
}
