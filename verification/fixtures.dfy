/** Vocabulary shared by the two test-framework adapters of dbunit-rules: the
    annotations a test declares, the throwables the collaborators raise, the
    events a test invocation produces, and the Java control-flow constructs
    (sequencing, `catch (Exception e)`, `finally`) as functions on runs. */
module Fixtures {

  datatype Option<+T> = None | Some(value: T)

  /** The Java class of a throwable, as far as the adapters' catch clauses tell them apart. */
  datatype Kind =
    | Exception               // a java.lang.Exception not named below
    | DatabaseUnitException   // org.dbunit.DatabaseUnitException
    | NullPointerException    // a call made through a null reference
    | Error                   // a java.lang.Error, e.g. AssertionError: no `catch (Exception e)` catches it

  /** How one call into a collaborator ends; an input of every scenario. */
  datatype Outcome = Returns | Throws(kind: Kind)

  /** Where a throwable was raised. */
  datatype Site =
    | SetDBUnitConfigSite
    | CreateDataSetSite
    | BeginSite
    | BodySite
    | CommitSite
    | RollbackSite
    | CompareSite
    | StatementsSite
    | ScriptSite(index: nat)
    | ClearSite
    | FindConnectionSite
    | StoreSite(key: string)

  datatype Fault =
    | Raised(kind: Kind, site: Site)
    | LeakHunterException(testMethod: string, delta: nat)
    /** The RuntimeException that wraps a failed dataset load; the JUnit 5 message names the test method. */
    | DataSetNotCreated(named: Option<string>, cause: Fault)
    /** The RuntimeException raised when no DataSet annotation can be found. */
    | DataSetAnnotationMissing(testMethod: string)
  {
    /** Whether `catch (Exception e)` catches this throwable: everything but a java.lang.Error. */
    predicate IsException() {
      !(Raised? && kind == Error)
    }

    predicate IsDatabaseUnitException() {
      Raised? && kind == DatabaseUnitException
    }
  }

  /** An opaque JDBC connection holder. */
  datatype ConnectionHolder = ConnectionHolder(connection: nat)

  /** The attributes of a DataSet annotation, read into a DataSetConfig. */
  datatype DataSetConfig = DataSetConfig(
    value: seq<string>,
    executorId: string,
    transactional: bool,
    cleanBefore: bool,
    cleanAfter: bool,
    executeStatementsAfter: seq<string>,
    executeScriptsAfter: seq<string>)

  /** The attributes of an ExpectedDataSet annotation. */
  datatype ExpectedDataSet = ExpectedDataSet(value: seq<string>, ignoreCols: seq<string>)

  /** What compareCurrentDataSetWith receives: the expected datasets, the constraint flag and the ignored columns. */
  datatype ExpectedConfig = ExpectedConfig(value: seq<string>, disableConstraints: bool, ignoreCols: seq<string>)

  /** The part of DBUnitConfig the adapters consult. */
  datatype DBUnitConfig = DBUnitConfig(leakHunter: bool)

  /** The annotations found at one level (the test method, or its class). */
  datatype Annotations = Annotations(
    dataSet: Option<DataSetConfig>,
    dbUnit: Option<DBUnitConfig>,
    expectedDataSet: Option<ExpectedDataSet>)

  /** One test: its method name, its class, and the annotations on each. */
  datatype TestMethod = TestMethod(name: string, testClass: string, onMethod: Annotations, onClass: Annotations)

  /** One observable step of a test invocation: a call into a collaborator, or a logged failure. */
  datatype Event =
    | ClearEntityManager
    | FindTestConnection
    | CreateExecutor(executorId: string, connectionHolder: ConnectionHolder)
    | SetDBUnitConfig(executor: string, config: DBUnitConfig)
    | CreateDataSet(executor: string, model: DataSetConfig)
    | Begin
    | OpenConnectionsBefore(count: nat)
    | Body
    | OpenConnectionsAfter(count: nat)
    | Commit
    | Rollback
    | Compare(executor: string, expected: ExpectedConfig)
    | ExecuteStatements(executor: string, statements: seq<string>)
    | ExecuteScript(executor: string, location: string)
    | ClearDatabase(executor: string, model: DataSetConfig)
    | Logged(fault: Fault)
  {
    /** The events of the post-test cleanup. */
    predicate IsCleanup() {
      ExecuteStatements? || ExecuteScript? || ClearDatabase? || Logged?
    }
  }

  /** A finished piece of Java code: what it did, and the throwable it completed with, if any. */
  datatype Run = Run(trace: seq<Event>, fault: Option<Fault>)

  const Skip := Run([], None)

  /** The throwable a call with outcome `o` raises at `site`, if any. */
  function Failure(o: Outcome, site: Site): Option<Fault> {
    if o.Throws? then Some(Raised(o.kind, site)) else None
  }

  /** A call into a collaborator whose outcome is `o`. */
  function Call(e: Event, o: Outcome, site: Site): Run {
    Run([e], Failure(o, site))
  }

  /** Two statements in sequence: `next` runs only when `first` completed normally. */
  function Then(first: Run, next: Run): Run {
    if first.fault.Some? then first else Run(first.trace + next.trace, next.fault)
  }

  /** `try { r } finally { fin }`: the finally block always runs, and a throwable it
      raises replaces the pending one (section 14.20.2 of the Java Language Specification). */
  function Finally(r: Run, fin: Run): Run {
    Run(r.trace + fin.trace, if fin.fault.Some? then fin.fault else r.fault)
  }

  /** `try { r } catch (Exception e) { log }`: an Exception is logged and swallowed, an Error propagates. */
  function LogExceptions(r: Run): Run {
    if r.fault.Some? && r.fault.value.IsException() then Run(r.trace + [Logged(r.fault.value)], None) else r
  }

  /** `try { r } catch (final Exception e) { throw new RuntimeException(.., e); }` around the dataset load. */
  function WrapSetupFailure(testMethod: Option<string>, r: Run): Run {
    if r.fault.Some? && r.fault.value.IsException() then Run(r.trace, Some(DataSetNotCreated(testMethod, r.fault.value))) else r
  }

  /** The second leak-hunter probe; a grown count raises a LeakHunterException carrying the difference. */
  function LeakCheck(testMethod: string, before: nat, after: nat): Run {
    Run([OpenConnectionsAfter(after)],
        if after > before then Some(LeakHunterException(testMethod, after - before)) else None)
  }

  /** The annotation lookup of both adapters: the method-level annotation, or else the class-level one. */
  function Override<T>(onMethod: Option<T>, onClass: Option<T>): Option<T> {
    if onMethod.Some? then onMethod else onClass
  }

  function ResolveDataSet(t: TestMethod): Option<DataSetConfig> {
    Override(t.onMethod.dataSet, t.onClass.dataSet)
  }

  function ResolveExpectedDataSet(t: TestMethod): Option<ExpectedDataSet> {
    Override(t.onMethod.expectedDataSet, t.onClass.expectedDataSet)
  }

  /** DBUnit annotation on the method, else on the class, else the global configuration. */
  function ResolveDBUnitConfig(t: TestMethod, global: DBUnitConfig): DBUnitConfig {
    match Override(t.onMethod.dbUnit, t.onClass.dbUnit)
    case Some(c) => c
    case None => global
  }

  /** The comparison configuration built from an ExpectedDataSet: constraints are always disabled. */
  function ComparisonConfig(e: ExpectedDataSet): ExpectedConfig {
    ExpectedConfig(e.value, true, e.ignoreCols)
  }

  lemma MethodLevelWins(t: TestMethod, otherClass: Annotations, global: DBUnitConfig)
    ensures t.onMethod.dataSet.Some? ==>
              ResolveDataSet(t.(onClass := otherClass)) == ResolveDataSet(t) == t.onMethod.dataSet
    ensures t.onMethod.expectedDataSet.Some? ==>
              ResolveExpectedDataSet(t.(onClass := otherClass)) == ResolveExpectedDataSet(t) == t.onMethod.expectedDataSet
    ensures t.onMethod.dbUnit.Some? ==>
              ResolveDBUnitConfig(t.(onClass := otherClass), global) == ResolveDBUnitConfig(t, global) == t.onMethod.dbUnit.value
    ensures t.onMethod.dbUnit.None? && t.onClass.dbUnit.None? ==> ResolveDBUnitConfig(t, global) == global
    ensures t.onMethod.dataSet.None? ==> ResolveDataSet(t) == t.onClass.dataSet
    ensures t.onMethod.expectedDataSet.None? ==> ResolveExpectedDataSet(t) == t.onClass.expectedDataSet
  {
  }

  // ---------------------------------------------------------------------------
  // java.lang.String.trim: strips leading and trailing characters up to U+0020.

  predicate IsBlankChar(c: char) {
    c <= ' '
  }

  function TrimLeading(s: string): (r: string)
    ensures |r| <= |s| && r == s[|s| - |r|..]
    ensures forall i :: 0 <= i < |s| - |r| ==> IsBlankChar(s[i])
    ensures r == [] || !IsBlankChar(r[0])
    decreases |s|
  {
    if |s| > 0 && IsBlankChar(s[0]) then TrimLeading(s[1..]) else s
  }

  function TrimTrailing(s: string): (r: string)
    ensures |r| <= |s| && r == s[..|r|]
    ensures forall i :: |r| <= i < |s| ==> IsBlankChar(s[i])
    ensures r == [] || !IsBlankChar(r[|r| - 1])
    decreases |s|
  {
    if |s| > 0 && IsBlankChar(s[|s| - 1]) then TrimTrailing(s[..|s| - 1]) else s
  }

  function Trim(s: string): string {
    TrimTrailing(TrimLeading(s))
  }

  /** What trim promises: the piece of `s` from the first to the last non-blank
      character; everything removed on either side is blank. */
  lemma TrimStripsOnlyBlanks(s: string)
    ensures var r, lo := Trim(s), |s| - |TrimLeading(s)|;
      && lo + |r| <= |s| && r == s[lo..lo + |r|]
      && (forall i :: 0 <= i < lo ==> IsBlankChar(s[i]))
      && (forall i :: lo + |r| <= i < |s| ==> IsBlankChar(s[i]))
      && (r == [] || (!IsBlankChar(r[0]) && !IsBlankChar(r[|r| - 1])))
  {
    var l := TrimLeading(s);
    var r := TrimTrailing(l);
    var lo := |s| - |l|;
    PrefixOfSuffix(s, lo, |r|);
    forall i | lo + |r| <= i < |s|
      ensures IsBlankChar(s[i])
    {
      assert s[i] == l[i - lo];
    }
  }

  /** The first n characters after position lo form the slice from lo to lo + n. */
  lemma PrefixOfSuffix(s: string, lo: nat, n: nat)
    requires lo + n <= |s|
    ensures s[lo..][..n] == s[lo..lo + n]
  {
  }

  /** Trim(s) is empty exactly when every character of `s` is blank. */
  lemma TrimEmptyIffBlank(s: string)
    ensures Trim(s) == [] <==> forall i :: 0 <= i < |s| ==> IsBlankChar(s[i])
  {
    var l := TrimLeading(s);
    if l != [] {
      assert !IsBlankChar(s[|s| - |l|]);
    }
  }

  /** The rule's test `id != null && !"".equals(id.trim())`; a DataSet's executorId is never null. */
  predicate ExecutorNameIsProvided(id: string) {
    Trim(id) != []
  }
}
