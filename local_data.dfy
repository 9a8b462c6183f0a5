/** The LocalData base class: the identity fixed at construction and the
    guard field that hands the in-progress handle to code running inside a
    lifecycle hook. */
module Data {
  import opened Wrappers
  import opened Naming

  /** Stand-in for an SQLiteDatabase handle; handles are compared by identity. */
  class Database { }

  /** The four helper callbacks the constructor registers. */
  datatype LifecycleEvent =
    | Configuring
    | Creating
    | Upgrading(oldVersion: int, newVersion: int)
    | Opening

  /** How a subclass hook ends: it returns, or an exception leaves it. */
  datatype HookExit = Returned | Threw

  /** One run of a subclass hook as far as the guard can observe it: the hook
      calls getDb() once per entry of poolAnswers, where an entry is the
      handle the helper's getWritableDatabase() would give at that call, and
      then it returns or throws. */
  datatype HookScript = HookScript(poolAnswers: seq<Database>, exit: HookExit)

  /** A subclass: what each of onDbConfigure, onDbCreate, onDbUpgrade and
      onDbOpen does when handed a given handle. */
  type Hooks = (LifecycleEvent, Database) -> HookScript

  /** All handles a hook saw were the one it was handed. */
  predicate SawOnly(seen: seq<Database>, db: Database, script: HookScript)
  {
    |seen| == |script.poolAnswers| && forall i :: 0 <= i < |seen| ==> seen[i] == db
  }

  class LocalData {
    const prefix: string
    const version: int
    const name: string
    const dataName: string
    /** The file name given to the open helper. */
    const dbFileName: string
    const context: Context
    const hooks: Hooks

    /** The handle being initialised while a hook runs, null otherwise. */
    var tmpDbOnInitializing: Database?

    /** The four-argument constructor after its checks have passed. */
    constructor (context: Context, prefix: Option<string>, name: string, version: int, hooks: Hooks)
      requires |name| > 0 && version >= 0
      ensures this.name == name && this.version == version
      ensures this.prefix == EffectivePrefix(prefix)
      ensures dataName == DataName(this.prefix, name)
      ensures dbFileName == DbFileName(dataName)
      ensures this.context == context && this.hooks == hooks
      ensures tmpDbOnInitializing == null
    {
      this.name := name;
      this.version := version;
      this.context := context;
      this.prefix := EffectivePrefix(prefix);
      this.dataName := DataName(EffectivePrefix(prefix), name);
      this.dbFileName := DbFileName(DataName(EffectivePrefix(prefix), name));
      this.hooks := hooks;
      tmpDbOnInitializing := null;
    }

    /** new LocalData(context, prefix, name, version): checks name, version
        and context in that order, throwing on the first that fails. */
    static method CreateWithPrefix(context: Context?, prefix: Option<string>, name: Option<string>,
                                   version: int, hooks: Hooks)
      returns (r: Result<LocalData, ArgError>)
      ensures r.Err? <==> CheckArguments(context, name, version).Fail?
      ensures r.Err? ==> CheckArguments(context, name, version) == Fail(r.error)
      ensures r.Ok? ==> fresh(r.value) && r.value.tmpDbOnInitializing == null
      ensures r.Ok? ==> (r.value.name == name.value && r.value.version == version &&
                         r.value.context == context && r.value.hooks == hooks)
      ensures r.Ok? ==> (r.value.prefix == EffectivePrefix(prefix) &&
                         r.value.dataName == DataName(r.value.prefix, r.value.name) &&
                         r.value.dbFileName == StorageFileName(prefix, name.value))
    {
      var check := CheckArguments(context, name, version);
      if check.Fail? {
        return Err(check.error);
      }
      var d := new LocalData(context, prefix, name.value, version, hooks);
      r := Ok(d);
    }

    /** new LocalData(context, name, version): no prefix, so "supra". */
    static method Create(context: Context?, name: Option<string>, version: int, hooks: Hooks)
      returns (r: Result<LocalData, ArgError>)
      ensures r.Err? <==> CheckArguments(context, name, version).Fail?
      ensures r.Err? ==> CheckArguments(context, name, version) == Fail(r.error)
      ensures r.Ok? ==> fresh(r.value) && r.value.tmpDbOnInitializing == null
      ensures r.Ok? ==> (r.value.name == name.value && r.value.version == version &&
                         r.value.context == context && r.value.hooks == hooks)
      ensures r.Ok? ==> (r.value.prefix == DEFAULT_PREFIX &&
                         r.value.dataName == DataName(DEFAULT_PREFIX, r.value.name) &&
                         r.value.dbFileName == StorageFileName(None, name.value))
    {
      r := CreateWithPrefix(context, None, name, version, hooks);
    }

    /** getDb(): the in-progress handle if there is one, otherwise what the
        helper's getWritableDatabase() gives (passed in as pooled). */
    method GetDb(pooled: Database) returns (db: Database)
      ensures tmpDbOnInitializing != null ==> db == tmpDbOnInitializing
      ensures tmpDbOnInitializing == null ==> db == pooled
    {
      db := if tmpDbOnInitializing == null then pooled else tmpDbOnInitializing;
    }

    /** The subclass hook for event, handed db: it calls getDb() as its
        script says and ends as its script says. It cannot touch the
        private guard field. */
    method RunHook(event: LifecycleEvent, db: Database) returns (seen: seq<Database>, exit: HookExit)
      ensures exit == hooks(event, db).exit
      ensures |seen| == |hooks(event, db).poolAnswers|
      ensures tmpDbOnInitializing != null ==> forall i :: 0 <= i < |seen| ==> seen[i] == tmpDbOnInitializing
      ensures tmpDbOnInitializing == null ==> seen == hooks(event, db).poolAnswers
    {
      var script := hooks(event, db);
      seen := [];
      var i := 0;
      while i < |script.poolAnswers|
        invariant 0 <= i <= |script.poolAnswers|
        invariant |seen| == i
        invariant tmpDbOnInitializing != null ==> forall k :: 0 <= k < i ==> seen[k] == tmpDbOnInitializing
        invariant tmpDbOnInitializing == null ==> seen == script.poolAnswers[..i]
      {
        var h := GetDb(script.poolAnswers[i]);
        seen := seen + [h];
        i := i + 1;
      }
      exit := script.exit;
    }

    /** The helper's onConfigure: the base class's own onConfigure has no
        effect and is not modelled. */
    method OnConfigure(db: Database) returns (seen: seq<Database>, exit: HookExit)
      modifies this`tmpDbOnInitializing
      ensures exit == hooks(Configuring, db).exit
      ensures SawOnly(seen, db, hooks(Configuring, db))
      ensures tmpDbOnInitializing == (if exit == Returned then null else db)
    {
      tmpDbOnInitializing := db;
      seen, exit := RunHook(Configuring, db);
      if exit == Returned {
        tmpDbOnInitializing := null;
      }
    }

    method OnCreate(db: Database) returns (seen: seq<Database>, exit: HookExit)
      modifies this`tmpDbOnInitializing
      ensures exit == hooks(Creating, db).exit
      ensures SawOnly(seen, db, hooks(Creating, db))
      ensures tmpDbOnInitializing == (if exit == Returned then null else db)
    {
      tmpDbOnInitializing := db;
      seen, exit := RunHook(Creating, db);
      if exit == Returned {
        tmpDbOnInitializing := null;
      }
    }

    method OnUpgrade(db: Database, oldVersion: int, newVersion: int) returns (seen: seq<Database>, exit: HookExit)
      modifies this`tmpDbOnInitializing
      ensures exit == hooks(Upgrading(oldVersion, newVersion), db).exit
      ensures SawOnly(seen, db, hooks(Upgrading(oldVersion, newVersion), db))
      ensures tmpDbOnInitializing == (if exit == Returned then null else db)
    {
      tmpDbOnInitializing := db;
      seen, exit := RunHook(Upgrading(oldVersion, newVersion), db);
      if exit == Returned {
        tmpDbOnInitializing := null;
      }
    }

    /** The helper's onOpen: the base class's own onOpen has no effect and is
        not modelled. */
    method OnOpen(db: Database) returns (seen: seq<Database>, exit: HookExit)
      modifies this`tmpDbOnInitializing
      ensures exit == hooks(Opening, db).exit
      ensures SawOnly(seen, db, hooks(Opening, db))
      ensures tmpDbOnInitializing == (if exit == Returned then null else db)
    {
      tmpDbOnInitializing := db;
      seen, exit := RunHook(Opening, db);
      if exit == Returned {
        tmpDbOnInitializing := null;
      }
    }
  }
}
