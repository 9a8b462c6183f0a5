/** Argument validation and storage naming of LocalData: the straight-line
    string logic its constructor runs before it registers the open helper. */
module Naming {
  import opened Wrappers

  /** Suffix of every database file name (DB_SUB_FIX). */
  const DB_SUFFIX: string := ".db"

  /** Prefix used when the caller gives none (PRE_FIX_ADJUST). */
  const DEFAULT_PREFIX: string := "supra"

  /** Stand-in for android.content.Context; only its nullness matters here. */
  class Context { }

  /** The IllegalArgumentException cases of the constructor. */
  datatype ArgError = EmptyName | NegativeVersion | NullContext

  /** Outcome of a check that either passes or throws. */
  datatype Check = Pass | Fail(error: ArgError)

  /** The exception message the constructor throws for each case. */
  function Message(e: ArgError): (m: string)
    ensures |m| > 0
  {
    match e
    case EmptyName => "the arg 'name' can not be empty"
    case NegativeVersion => "the arg 'version' must be >= 0"
    case NullContext => "the arg 'context' can not be empty"
  }

  /** Different error cases carry different messages. */
  lemma MessagesDistinct(e1: ArgError, e2: ArgError)
    requires e1 != e2
    ensures Message(e1) != Message(e2)
  {
  }

  /** TextUtils.isEmpty: null or of length zero. Whitespace is not empty. */
  predicate IsEmpty(s: Option<string>)
  {
    s.None? || |s.value| == 0
  }

  /** String.endsWith. */
  predicate EndsWith(s: string, suffix: string)
  {
    |suffix| <= |s| && s[|s| - |suffix|..] == suffix
  }

  function CheckName(name: Option<string>): (c: Check)
    ensures c.Fail? <==> IsEmpty(name)
    ensures c.Fail? ==> c.error == EmptyName
  {
    if IsEmpty(name) then Fail(EmptyName) else Pass
  }

  function CheckVersion(version: int): (c: Check)
    ensures c.Fail? <==> version < 0
    ensures c.Fail? ==> c.error == NegativeVersion
  {
    if version < 0 then Fail(NegativeVersion) else Pass
  }

  function CheckContext(context: Context?): (c: Check)
    ensures c.Fail? <==> context == null
    ensures c.Fail? ==> c.error == NullContext
  {
    if context == null then Fail(NullContext) else Pass
  }

  /** The three checks in the constructor's order: name, version, context.
      The first one that fails decides the exception. */
  function CheckArguments(context: Context?, name: Option<string>, version: int): (c: Check)
    ensures c == Pass <==> !IsEmpty(name) && version >= 0 && context != null
    ensures c == Fail(EmptyName) <==> IsEmpty(name)
    ensures c == Fail(NegativeVersion) <==> !IsEmpty(name) && version < 0
    ensures c == Fail(NullContext) <==> !IsEmpty(name) && version >= 0 && context == null
  {
    if CheckName(name).Fail? then CheckName(name)
    else if CheckVersion(version).Fail? then CheckVersion(version)
    else CheckContext(context)
  }

  /** PRE_FIX: the given prefix, or the default when it is null or empty. */
  function EffectivePrefix(prefix: Option<string>): (p: string)
    ensures |p| > 0
    ensures !IsEmpty(prefix) ==> p == prefix.value
    ensures IsEmpty(prefix) ==> p == DEFAULT_PREFIX
  {
    if IsEmpty(prefix) then DEFAULT_PREFIX else prefix.value
  }

  /** DATA_NAME: prefix, an underscore, then the logical name. */
  function DataName(prefix: string, name: string): (d: string)
    ensures |d| == |prefix| + 1 + |name|
    ensures d[..|prefix|] == prefix && d[|prefix|] == '_'
    ensures d[|prefix| + 1..] == name && EndsWith(d, name)
  {
    prefix + "_" + name
  }

  /** The file name handed to the open helper: DATA_NAME with ".db"
      appended unless it already ends in ".db". */
  function DbFileName(dataName: string): (f: string)
    ensures EndsWith(f, DB_SUFFIX)
    ensures EndsWith(dataName, DB_SUFFIX) ==> f == dataName
    ensures !EndsWith(dataName, DB_SUFFIX) ==> f == dataName + DB_SUFFIX
  {
    if EndsWith(dataName, DB_SUFFIX) then dataName else dataName + DB_SUFFIX
  }

  /** The on-disk name for a prefix as given and a validated name. */
  function StorageFileName(prefix: Option<string>, name: string): (f: string)
    ensures EndsWith(f, DB_SUFFIX)
    ensures |f| >= |EffectivePrefix(prefix)| + 1 + |name|
    ensures f[..|EffectivePrefix(prefix)| + 1] == EffectivePrefix(prefix) + "_"
  {
    DbFileName(DataName(EffectivePrefix(prefix), name))
  }

  // ---------------------------------------------------------------------
  // Properties of the naming rule

  /** Applying the suffix rule a second time changes nothing. */
  lemma DbFileNameIdempotent(dataName: string)
    ensures DbFileName(DbFileName(dataName)) == DbFileName(dataName)
  {
  }

  /** The rule never doubles the suffix: the file name ends in ".db.db"
      exactly when DATA_NAME itself already did. */
  lemma NoDoubleSuffix(dataName: string)
    ensures EndsWith(DbFileName(dataName), DB_SUFFIX + DB_SUFFIX)
        <==> EndsWith(dataName, DB_SUFFIX + DB_SUFFIX)
  {
  }

  /** The file name keeps DATA_NAME as its stem: removing what the rule
      added gives DATA_NAME back. */
  lemma DbFileNameStem(dataName: string)
    ensures |DbFileName(dataName)| - |dataName| in {0, |DB_SUFFIX|}
    ensures DbFileName(dataName)[..|dataName|] == dataName
  {
  }

  /** With the same prefix, DATA_NAME determines the logical name. */
  lemma DataNameInjective(prefix: string, name1: string, name2: string)
    requires DataName(prefix, name1) == DataName(prefix, name2)
    ensures name1 == name2
  {
    assert name1 == DataName(prefix, name1)[|prefix| + 1..];
  }

  /** A name and the same name with ".db" appended share one database file
      whenever DATA_NAME of the shorter one does not end in ".db", although
      their DATA_NAMEs differ. */
  lemma SuffixedNameSharesFile(prefix: string, name: string)
    requires !EndsWith(DataName(prefix, name), DB_SUFFIX)
    ensures DbFileName(DataName(prefix, name + DB_SUFFIX)) == DbFileName(DataName(prefix, name))
    ensures DataName(prefix, name + DB_SUFFIX) != DataName(prefix, name)
  {
    assert |DataName(prefix, name + DB_SUFFIX)| != |DataName(prefix, name)|;
    var d := DataName(prefix, name);
    assert DataName(prefix, name + DB_SUFFIX) == d + DB_SUFFIX;
    assert EndsWith(d + DB_SUFFIX, DB_SUFFIX) by {
      assert (d + DB_SUFFIX)[|d|..] == DB_SUFFIX;
    }
  }

  /** Worked example: a null or empty prefix falls back to "supra". */
  lemma DefaultPrefixExample()
    ensures StorageFileName(Some(""), "contacts") == "supra_contacts.db"
    ensures StorageFileName(None, "contacts") == "supra_contacts.db"
  {
    var d := DataName(DEFAULT_PREFIX, "contacts");
    assert d == "supra_contacts";
    assert d[|d| - 3..] == "cts";
    assert !EndsWith(d, DB_SUFFIX);
  }

  /** Worked example: a name already ending in ".db" is not suffixed again. */
  lemma ExistingSuffixExample()
    ensures StorageFileName(Some("app"), "contacts.db") == "app_contacts.db"
  {
    var d := DataName("app", "contacts.db");
    assert d == "app_contacts.db";
    assert d[|d| - 3..] == DB_SUFFIX;
  }

  /** Worked example: a name made only of blanks and version 0 are accepted. */
  lemma BlankNameExample()
    ensures CheckName(Some(" ")) == Pass && CheckVersion(0) == Pass
  {
  }
}
