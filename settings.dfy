/**
 * The SQLite tuning applied at the end of `agora/settings.py`: every
 * configured database whose engine is SQLite gets the shared default
 * OPTIONS, with its own OPTIONS laid over them.
 */
module Settings {
  import opened Wrappers
  import opened PyStr

  /** A value in an OPTIONS dict. */
  datatype OptionValue = Text(s: string) | Number(n: int) | Flag(b: bool)

  /** One entry of `DATABASES`: the engine, its OPTIONS if given, and every other key. */
  datatype DatabaseConfig = DatabaseConfig(engine: string, options: Option<map<string, OptionValue>>,
                                           rest: map<string, string>)

  /** The `init_command` run on every new SQLite connection. */
  const InitCommand: string :=
    "PRAGMA foreign_keys = ON;"
    + "PRAGMA journal_mode = WAL;"
    + "PRAGMA synchronous = NORMAL;"
    + "PRAGMA busy_timeout = 500;"
    + "PRAGMA temp_store = MEMORY;"
    + "PRAGMA auto_vacuum = INCREMENTAL;"
    + "PRAGMA page_size = " + IntToStr(8 * 1024) + ";"
    + "PRAGMA mmap_size = " + IntToStr(128 * 1024 * 1024) + ";"
    + "PRAGMA journal_size_limit = " + IntToStr(64 * 1024 * 1024) + ";"
    + "PRAGMA cache_size = -" + IntToStr(20 * 1024 * 1024) + ";"

  /** `SQLITE_OPTIONS`. */
  const SqliteOptions: map<string, OptionValue> :=
    map["init_command" := Text(InitCommand), "transaction_mode" := Text("IMMEDIATE")]

  /** `"sqlite3" in db["ENGINE"]`. */
  predicate IsSqlite(db: DatabaseConfig) {
    Contains(db.engine, "sqlite3")
  }

  /** `db.get("OPTIONS", {})`. */
  function UserOptions(db: DatabaseConfig): map<string, OptionValue> {
    if db.options.Some? then db.options.value else map[]
  }

  /**
   * One database after the loop body: SQLite engines get the defaults with
   * their own options on top, others are left alone.
   */
  function WithSqliteOptions(db: DatabaseConfig, defaults: map<string, OptionValue>): (r: DatabaseConfig)
    ensures !IsSqlite(db) ==> r == db
    ensures r.engine == db.engine && r.rest == db.rest
    ensures IsSqlite(db) ==>
      && r.options.Some?
      && r.options.value.Keys == defaults.Keys + UserOptions(db).Keys
      && (forall k :: k in UserOptions(db) ==> r.options.value[k] == UserOptions(db)[k])
      && (forall k :: k in defaults && k !in UserOptions(db) ==> r.options.value[k] == defaults[k])
  {
    if IsSqlite(db) then db.(options := Some(defaults + UserOptions(db))) else db
  }

  /** Applying the defaults again changes nothing. */
  lemma WithSqliteOptionsIdempotent(db: DatabaseConfig, defaults: map<string, OptionValue>)
    ensures WithSqliteOptions(WithSqliteOptions(db, defaults), defaults) == WithSqliteOptions(db, defaults)
  {
    if IsSqlite(db) {
      var once := WithSqliteOptions(db, defaults);
      assert UserOptions(once) == defaults + UserOptions(db);
      assert defaults + (defaults + UserOptions(db)) == defaults + UserOptions(db);
    }
  }

  /** A SQLite database that sets none of the two keys gets exactly the defaults for them. */
  lemma SqliteDefaultsReachEveryConnection(db: DatabaseConfig)
    requires IsSqlite(db) && "init_command" !in UserOptions(db) && "transaction_mode" !in UserOptions(db)
    ensures var r := WithSqliteOptions(db, SqliteOptions);
      r.options.value["init_command"] == Text(InitCommand)
      && r.options.value["transaction_mode"] == Text("IMMEDIATE")
  {
  }

  /** The settings module's `DATABASES` and its `SQLITE_OPTIONS`. */
  class DatabaseSettings {
    var databases: map<string, DatabaseConfig>
    var sqliteOptions: map<string, OptionValue>

    constructor (databases: map<string, DatabaseConfig>)
      ensures this.databases == databases && sqliteOptions == SqliteOptions
    {
      this.databases := databases;
      sqliteOptions := SqliteOptions;
    }

    /**
     * The loop over `DATABASES.values()`: each SQLite entry's OPTIONS is
     * replaced by a copy of the defaults updated with its own; the defaults
     * themselves are not changed.
     */
    method ApplySqliteOptions()
      modifies this
      ensures sqliteOptions == old(sqliteOptions)
      ensures databases.Keys == old(databases).Keys
      ensures forall alias :: alias in databases ==>
        databases[alias] == WithSqliteOptions(old(databases)[alias], sqliteOptions)
    {
      ghost var original := databases;
      var pending := databases.Keys;
      while pending != {}
        invariant pending <= original.Keys
        invariant sqliteOptions == old(sqliteOptions)
        invariant databases.Keys == original.Keys
        invariant forall alias :: alias in databases ==>
          databases[alias] == if alias in pending then original[alias] else WithSqliteOptions(original[alias], sqliteOptions)
        decreases pending
      {
        var alias :| alias in pending;
        var db := databases[alias];
        if IsSqlite(db) {
          var options := sqliteOptions;
          options := options + UserOptions(db);
          databases := databases[alias := db.(options := Some(options))];
        }
        pending := pending - {alias};
      }
    }
  }
}
