# LocalData: argument checks, storage naming and the initialisation guard

`LocalData` is the abstract base class of the supower library's local
databases on Android. Its constructor checks its arguments, derives the
database's storage name from a prefix and a logical name, and registers
four callbacks with an `SQLiteOpenHelper`: configure, create, upgrade and
open. Each callback forwards to a hook that the subclass implements. While
a hook runs, the field `mTmpDbOnInitializing` holds the handle being
initialised. `getDb()` returns that handle instead of asking the helper
again. Asking the helper again from inside its own initialisation would
re-enter that initialisation, which fails.

`PRE_FIX` falls back to "supra" when the prefix is null or empty
(`TextUtils.isEmpty`).

This project models that logic in Dafny:

- `wrappers.dfy` holds `Option`, which stands for a nullable Java
  reference, and `Result`, which stands for "returns or throws".
- `naming.dfy` (module `Naming`) holds the pure part:
  - the three argument checks and the order they run in;
  - the prefix default;
  - `DATA_NAME` and the `.db` file-name rule;
  - lemmas about that rule.
- `local_data.dfy` (module `Data`) holds class `LocalData`:
  - its fixed identity, kept in `const` fields;
  - the mutable guard field;
  - the four callback wrappers and `getDb()`.

A subclass is the value `hooks`. For each event and handle it gives a
`HookScript`: how many times the hook calls `getDb()` and how the hook ends
(it returns or it throws). Each script entry is the handle that the
helper's `getWritableDatabase()` would return at that call. The guard
decides whether that handle is used. The wrappers prove that the hook
never sees any entry: every `getDb()` call inside a hook returns the very
handle the hook was given. The wrappers have no `try/finally`, so a hook
that throws leaves the field set. The wrappers' contracts say so.

## Model

| member | source | states |
|---|---|---|
| Naming.CheckName | supower/src/main/java/tw/supra/lib/supower/data/LocalData.java:86-90 | fails, with the empty-name error, exactly when the name is null or of length zero; any other name passes, even one made only of spaces |
| Naming.CheckVersion | supower/src/main/java/tw/supra/lib/supower/data/LocalData.java:92-96 | fails exactly when the version is negative; 0 passes |
| Naming.CheckContext | supower/src/main/java/tw/supra/lib/supower/data/LocalData.java:98-102 | fails exactly when the context is null |
| Naming.Message | supower/src/main/java/tw/supra/lib/supower/data/LocalData.java:86-102 | every exception message is non-empty |
| Naming.MessagesDistinct | supower/src/main/java/tw/supra/lib/supower/data/LocalData.java:86-102 | the three error cases carry three different messages |
| Naming.CheckArguments | supower/src/main/java/tw/supra/lib/supower/data/LocalData.java:35-38 | the checks run in the order name, version, context. It passes exactly when all three hold. An empty name is reported whatever the version and context are. A negative version is reported only for a non-empty name. A null context is reported only when name and version are both valid |
| Naming.EffectivePrefix | supower/src/main/java/tw/supra/lib/supower/data/LocalData.java:42 | the prefix is never empty. It is "supra" when the given prefix is null or empty, and otherwise the given prefix unchanged |
| Naming.DataName | supower/src/main/java/tw/supra/lib/supower/data/LocalData.java:43 | DATA_NAME begins with the prefix, then "_", and ends with the name; its length is the sum of the three |
| Naming.DbFileName | supower/src/main/java/tw/supra/lib/supower/data/LocalData.java:44 | the file name always ends in ".db"; it equals DATA_NAME when DATA_NAME already ends in ".db", and is DATA_NAME + ".db" otherwise |
| Naming.StorageFileName | supower/src/main/java/tw/supra/lib/supower/data/LocalData.java:42-44 | the file name for a prefix as given and a name ends in ".db" and starts with the effective prefix followed by "_" |
| Naming.DbFileNameIdempotent | supower/src/main/java/tw/supra/lib/supower/data/LocalData.java:44 | applying the suffix rule twice gives the same name as applying it once |
| Naming.NoDoubleSuffix | supower/src/main/java/tw/supra/lib/supower/data/LocalData.java:44 | the file name ends in ".db.db" if and only if DATA_NAME already did: the rule never adds a second suffix |
| Naming.DbFileNameStem | supower/src/main/java/tw/supra/lib/supower/data/LocalData.java:44 | the file name is DATA_NAME followed by either nothing or three characters |
| Naming.DataNameInjective | supower/src/main/java/tw/supra/lib/supower/data/LocalData.java:43 | for a fixed prefix, two names with the same DATA_NAME are equal |
| Naming.SuffixedNameSharesFile | supower/src/main/java/tw/supra/lib/supower/data/LocalData.java:43-44 | a name N and the name N + ".db" map to the same database file whenever DATA_NAME of N does not end in ".db", while their DATA_NAMEs differ (`getPreferences` at line 126 is keyed by DATA_NAME) |
| Naming.DefaultPrefixExample | supower/src/main/java/tw/supra/lib/supower/data/LocalData.java:42-44 | an empty or null prefix with the name "contacts" gives "supra_contacts.db" |
| Naming.ExistingSuffixExample | supower/src/main/java/tw/supra/lib/supower/data/LocalData.java:43-44 | prefix "app" with the name "contacts.db" gives "app_contacts.db", with no second suffix |
| Naming.BlankNameExample | supower/src/main/java/tw/supra/lib/supower/data/LocalData.java:86-96 | a name made only of a blank passes the name check, and version 0 passes the version check |
| Data.LocalData.constructor | supower/src/main/java/tw/supra/lib/supower/data/LocalData.java:39-45 | once the checks have passed, NAME, VERSION, PRE_FIX, DATA_NAME and the helper's file name are set from the naming rule. All of them are `const`, so nothing changes them later. The guard starts out null |
| Data.LocalData.CreateWithPrefix | supower/src/main/java/tw/supra/lib/supower/data/LocalData.java:35-45 | throws (Err) exactly when the ordered checks fail, and with the error of the first failing check. Otherwise it gives a fresh object with the derived identity and an idle guard |
| Data.LocalData.Create | supower/src/main/java/tw/supra/lib/supower/data/LocalData.java:31-33 | the same as the four-argument form with a null prefix, so PRE_FIX is always "supra" |
| Data.LocalData.GetDb | supower/src/main/java/tw/supra/lib/supower/data/LocalData.java:121-123 | returns the in-progress handle when the field is non-null, and the helper's writable database only when the field is null; it changes nothing |
| Data.LocalData.RunHook | supower/src/main/java/tw/supra/lib/supower/data/LocalData.java:104-110 | a subclass hook ends as its script says. Every `getDb()` call it makes returns the guard's handle when the guard is set. When the guard is null, each call returns the helper's answer |
| Data.LocalData.OnConfigure | supower/src/main/java/tw/supra/lib/supower/data/LocalData.java:49-55 | inside onDbConfigure every `getDb()` call returns the handle passed in. Afterwards the field is null if the hook returned, and still that handle if the hook threw |
| Data.LocalData.OnCreate | supower/src/main/java/tw/supra/lib/supower/data/LocalData.java:58-63 | the same guarantee for onDbCreate |
| Data.LocalData.OnUpgrade | supower/src/main/java/tw/supra/lib/supower/data/LocalData.java:66-70 | the same guarantee for onDbUpgrade, and the hook gets the old and new versions it was called with |
| Data.LocalData.OnOpen | supower/src/main/java/tw/supra/lib/supower/data/LocalData.java:73-82 | the same guarantee for onDbOpen |

## Left out

- `SQLiteOpenHelper` is not part of this model. That covers when and in what order it fires configure, create, upgrade and open, its connection pool, and its initialisation lock. `getWritableDatabase()` becomes the `pooled` parameter of `GetDb`, together with the per-call answers in a `HookScript`.
- `super.onConfigure(db)` and `super.onOpen(db)` are the platform's default callbacks. They do nothing here and are not modelled.
- `close()` only forwards to the helper.
- `getPreferences()` only forwards to `SmartPreferences`, which is not part of this model.
- `setForeignKeyConstraintsEnabled` and its two variants are not modelled. They execute SQL and branch on the platform version. Every call to them is commented out.
- `Context.getApplicationContext()` is a platform call. The `context` field holds the context that was passed in.
- Thread safety of the unsynchronised guard field is not modelled; the model is single-threaded.
- A subclass hook does only two things that the guard can observe: it calls `getDb()` and it returns or throws. All its other effects, such as SQL on the handle, are not modelled.
- Java's 32-bit `int` for the versions is an unbounded `int`. The source does no arithmetic on versions, so the width never matters.
- The constructor's exception becomes an `Err` result of `Create` and `CreateWithPrefix`. That is why the Dafny `constructor` requires the arguments that the checks would have accepted.
- Data.LocalData.CreateWithPrefix: the platform's `SQLiteOpenHelper` constructor (line 45) also rejects a version below 1, so version 0 passes `checkVersion` but still throws there. The model does not capture that and returns `Ok` for version 0.
- Data.LocalData.Create: the same gap for version 0, inherited from `CreateWithPrefix`.
