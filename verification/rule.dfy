/** The JUnit 4 adapter, DBUnitRule: one statement wraps the whole test. It loads
    the dataset, then inside one try/catch/finally optionally begins a
    transaction, takes a leak baseline, runs the body, checks for leaked
    connections, commits and compares; on an Exception it rolls back and
    rethrows. Once the load succeeded, the finally block runs whatever the try
    block did: the post-test statements, the scripts, and clean-after when
    configured, each stage only if no throwable escaped the one before. */
module RuleAdapter {
  import opened Fixtures
  import opened Registry

  /** What the collaborators do during one evaluate(): the outcome of each call
      and the two connection counts the leak hunter reports. */
  datatype Scenario = Scenario(
    setDBUnitConfig: Outcome,
    createDataSet: Outcome,
    entityManagerActive: bool,
    begin: Outcome,
    openConnectionsBefore: nat,
    body: Outcome,
    openConnectionsAfter: nat,
    commit: Outcome,
    compare: Outcome,
    rollback: Outcome,
    executeStatements: Outcome,
    executeScript: seq<Outcome>,
    clearDatabase: Outcome)

  /** The outcome of the i-th post-test script; scripts the scenario does not mention return normally. */
  function ScriptOutcome(sc: Scenario, i: nat): Outcome {
    if i < |sc.executeScript| then sc.executeScript[i] else Returns
  }

  // ---------------------------------------------------------------------------
  // The runs of evaluate(), piece by piece.

  /** A non-blank DataSet executorId selects a registry entry instead of the rule's executor. */
  predicate NamesExecutor(t: TestMethod) {
    ResolveDataSet(t).Some? && ExecutorNameIsProvided(ResolveDataSet(t).value.executorId)
  }

  /** The identity of the executor evaluate() uses, given the rule's current one and the registered ids. */
  function SelectExecutor(t: TestMethod, current: Option<string>, registered: set<string>): Option<string> {
    if NamesExecutor(t) then
      var id := ResolveDataSet(t).value.executorId;
      if id in registered then Some(id) else None
    else current
  }

  /** performDataSetComparison: compare against the resolved ExpectedDataSet, if there is one. */
  function Comparison(t: TestMethod, executor: Option<string>, sc: Scenario): (r: Run)
    ensures r.trace != [] ==> ResolveExpectedDataSet(t).Some? && executor.Some?
    ensures forall e :: e in r.trace ==> e.Compare?
  {
    match ResolveExpectedDataSet(t)
    case None => Skip
    case Some(expected) =>
      match executor
      case None => Run([], Some(Raised(NullPointerException, CompareSite)))
      case Some(id) => Call(Compare(id, ComparisonConfig(expected)), sc.compare, CompareSite)
  }

  /** setDBUnitConfig then createDataSet; an Exception from either is wrapped in a RuntimeException. */
  function Setup(executor: string, config: DBUnitConfig, model: DataSetConfig, sc: Scenario): Run {
    WrapSetupFailure(None,
      Then(Call(SetDBUnitConfig(executor, config), sc.setDBUnitConfig, SetDBUnitConfigSite),
           Call(CreateDataSet(executor, model), sc.createDataSet, CreateDataSetSite)))
  }

  /** The try block after the begin: baseline, body, leak check, commit, comparison. */
  function BodyAndChecks(t: TestMethod, executor: string, config: DBUnitConfig, isTransactional: bool, sc: Scenario): Run {
    var baseline := if config.leakHunter then Run([OpenConnectionsBefore(sc.openConnectionsBefore)], None) else Skip;
    var leakCheck := if config.leakHunter then LeakCheck(t.name, sc.openConnectionsBefore, sc.openConnectionsAfter) else Skip;
    var commit := if isTransactional then Call(Commit, sc.commit, CommitSite) else Skip;
    Then(baseline, Then(Call(Body, sc.body, BodySite), Then(leakCheck, Then(commit, Comparison(t, Some(executor), sc)))))
  }

  /** The try block: begin, then the rest. */
  function TestRun(t: TestMethod, executor: string, config: DBUnitConfig, isTransactional: bool, sc: Scenario): Run {
    var begin := if isTransactional then Call(Begin, sc.begin, BeginSite) else Skip;
    Then(begin, BodyAndChecks(t, executor, config, isTransactional, sc))
  }

  /** The catch block: on an Exception (not an Error) roll back when transactional, then rethrow. */
  function RollbackOnException(r: Run, isTransactional: bool, sc: Scenario): Run {
    if r.fault.Some? && r.fault.value.IsException() && isTransactional then
      var failure := Failure(sc.rollback, RollbackSite);
      Run(r.trace + [Rollback], if failure.Some? then failure else r.fault)
    else r
  }

  /** The try block and its catch. */
  function Guarded(t: TestMethod, executor: string, config: DBUnitConfig, isTransactional: bool, sc: Scenario): Run {
    RollbackOnException(TestRun(t, executor, config, isTransactional, sc), isTransactional, sc)
  }

  /** Post-test statements; an Exception from them is logged. */
  function StatementsRun(executor: string, model: DataSetConfig, sc: Scenario): Run {
    if |model.executeStatementsAfter| == 0 then Skip
    else LogExceptions(Call(ExecuteStatements(executor, model.executeStatementsAfter), sc.executeStatements, StatementsSite))
  }

  /** The scripts from index i on, in order, until the first one that throws. */
  function ScriptsFrom(executor: string, locations: seq<string>, sc: Scenario, i: nat): (r: Run)
    requires i <= |locations|
    ensures |r.trace| <= |locations| - i
    ensures forall e :: e in r.trace ==> e.ExecuteScript? && e.executor == executor
    ensures r.fault.Some? ==> r.fault.value.Raised? && r.fault.value.site.ScriptSite?
    decreases |locations| - i
  {
    if i == |locations| then Skip
    else Then(Call(ExecuteScript(executor, locations[i]), ScriptOutcome(sc, i), ScriptSite(i)),
              ScriptsFrom(executor, locations, sc, i + 1))
  }

  /** The catch around the script loop: a DatabaseUnitException is rethrown, other Exceptions are logged. */
  function RethrowDatabaseUnitException(r: Run): Run {
    if r.fault.Some? && r.fault.value.IsException() && !r.fault.value.IsDatabaseUnitException()
    then Run(r.trace + [Logged(r.fault.value)], None)
    else r
  }

  function ScriptsRun(executor: string, model: DataSetConfig, sc: Scenario): Run {
    if |model.executeScriptsAfter| == 0 then Skip
    else RethrowDatabaseUnitException(ScriptsFrom(executor, model.executeScriptsAfter, sc, 0))
  }

  function ClearRun(executor: string, model: DataSetConfig, sc: Scenario): Run {
    if model.cleanAfter then Call(ClearDatabase(executor, model), sc.clearDatabase, ClearSite) else Skip
  }

  /** evaluate() once a DataSet and a non-null executor are known: the dataset load outside
      the try, then the guarded test, then the finally block. */
  method RunWithDataSet(t: TestMethod, id: string, dbUnitConfig: DBUnitConfig, model: DataSetConfig, sc: Scenario)
    returns (run: Run)
    ensures var isTransactional := model.transactional && sc.entityManagerActive;
      run == Then(Setup(id, dbUnitConfig, model, sc),
                  Finally(Guarded(t, id, dbUnitConfig, isTransactional, sc), CleanupRun(id, model, sc)))
  {
    // try { setDBUnitConfig; createDataSet } catch (Exception e) { throw new RuntimeException(.., e) }
    var trace := [SetDBUnitConfig(id, dbUnitConfig)];
    var fault := Failure(sc.setDBUnitConfig, SetDBUnitConfigSite);
    if fault.None? {
      trace := trace + [CreateDataSet(id, model)];
      fault := Failure(sc.createDataSet, CreateDataSetSite);
    }
    if fault.Some? {
      if fault.value.IsException() {
        fault := Some(DataSetNotCreated(None, fault.value));
      }
      return Run(trace, fault);
    }
    var setupTrace := trace;
    assert Setup(id, dbUnitConfig, model, sc) == Run(setupTrace, None);

    var isTransactional := model.transactional && sc.entityManagerActive;
    var guarded := RunGuarded(t, id, dbUnitConfig, isTransactional, sc);

    // finally
    var cleanup := Cleanup(id, model, sc);
    fault := if cleanup.fault.Some? then cleanup.fault else guarded.fault;
    run := Run(setupTrace + guarded.trace + cleanup.trace, fault);
  }

  /** The try and catch blocks of evaluate(): on an Exception from the try block, rollback
      when transactional and rethrow. */
  method RunGuarded(t: TestMethod, executor: string, config: DBUnitConfig, isTransactional: bool, sc: Scenario)
    returns (run: Run)
    ensures run == Guarded(t, executor, config, isTransactional, sc)
  {
    run := RunTest(t, executor, config, isTransactional, sc);
    // catch (Exception e)
    if run.fault.Some? && run.fault.value.IsException() && isTransactional {
      var fault := run.fault;
      if sc.rollback.Throws? {
        fault := Some(Raised(sc.rollback.kind, RollbackSite));
      }
      run := Run(run.trace + [Rollback], fault);
    }
  }

  /** The try block of evaluate(): begin, leak baseline, body, leak check, commit and comparison. */
  method RunTest(t: TestMethod, executor: string, config: DBUnitConfig, isTransactional: bool, sc: Scenario)
    returns (run: Run)
    ensures run == TestRun(t, executor, config, isTransactional, sc)
  {
    run := Skip;
    if isTransactional {
      run := Run([Begin], Failure(sc.begin, BeginSite));
    }
    if run.fault.None? {
      var rest := RunBodyAndChecks(t, executor, config, isTransactional, sc);
      run := Run(run.trace + rest.trace, rest.fault);
    }
  }

  /** The try block of evaluate() after the begin. */
  method RunBodyAndChecks(t: TestMethod, executor: string, config: DBUnitConfig, isTransactional: bool, sc: Scenario)
    returns (run: Run)
    ensures run == BodyAndChecks(t, executor, config, isTransactional, sc)
  {
    var trace: seq<Event> := [];
    if config.leakHunter {
      trace := [OpenConnectionsBefore(sc.openConnectionsBefore)];
    }
    var rest := RunBody(t, executor, config, isTransactional, sc);
    run := Run(trace + rest.trace, rest.fault);
  }

  /** The body, the leak check against the baseline, then commit and comparison. */
  method RunBody(t: TestMethod, executor: string, config: DBUnitConfig, isTransactional: bool, sc: Scenario)
    returns (run: Run)
    ensures run == Then(Call(Body, sc.body, BodySite),
                        Then(if config.leakHunter then LeakCheck(t.name, sc.openConnectionsBefore, sc.openConnectionsAfter) else Skip,
                             Then(if isTransactional then Call(Commit, sc.commit, CommitSite) else Skip,
                                  Comparison(t, Some(executor), sc))))
  {
    var trace := [Body];
    var fault := Failure(sc.body, BodySite);
    if fault.None? && config.leakHunter {
      var openConnectionsBefore := sc.openConnectionsBefore;
      var openConnectionsAfter := sc.openConnectionsAfter;
      trace := trace + [OpenConnectionsAfter(openConnectionsAfter)];
      if openConnectionsAfter > openConnectionsBefore {
        fault := Some(LeakHunterException(t.name, openConnectionsAfter - openConnectionsBefore));
      }
    }
    if fault.None? {
      var checks := RunCommitAndCompare(t, executor, isTransactional, sc);
      trace := trace + checks.trace;
      fault := checks.fault;
    }
    run := Run(trace, fault);
  }

  /** The end of the try block: commit when transactional, then the comparison. */
  method RunCommitAndCompare(t: TestMethod, executor: string, isTransactional: bool, sc: Scenario)
    returns (run: Run)
    ensures run == Then(if isTransactional then Call(Commit, sc.commit, CommitSite) else Skip, Comparison(t, Some(executor), sc))
  {
    run := Skip;
    if isTransactional {
      run := Run([Commit], Failure(sc.commit, CommitSite));
    }
    if run.fault.None? {
      var comparison := Comparison(t, Some(executor), sc);
      run := Run(run.trace + comparison.trace, comparison.fault);
    }
  }

  /** The finally block: statements, then scripts, then clean-after. */
  function CleanupRun(executor: string, model: DataSetConfig, sc: Scenario): Run {
    Then(StatementsRun(executor, model, sc), Then(ScriptsRun(executor, model, sc), ClearRun(executor, model, sc)))
  }

  /** evaluate(), once the executor is selected. */
  function Lifecycle(t: TestMethod, executor: Option<string>, global: DBUnitConfig, sc: Scenario): Run {
    match ResolveDataSet(t)
    case None => Then(Call(Body, sc.body, BodySite), Comparison(t, executor, sc))
    case Some(model) =>
      match executor
      case None => Run([], Some(DataSetNotCreated(None, Raised(NullPointerException, SetDBUnitConfigSite))))
      case Some(id) =>
        var config := ResolveDBUnitConfig(t, global);
        var isTransactional := model.transactional && sc.entityManagerActive;
        Then(Setup(id, config, model, sc),
             Finally(Guarded(t, id, config, isTransactional, sc), CleanupRun(id, model, sc)))
  }

  // ---------------------------------------------------------------------------
  // The rule object.

  class DBUnitRule {
    var currentMethod: string
    var executor: Executor?
    const registry: ExecutorRegistry

    /** DBUnitRule.instance(executorName, connectionHolder): a new rule bound to the registry entry for the name. */
    constructor Instance(executorName: string, connectionHolder: ConnectionHolder, registry: ExecutorRegistry)
      requires registry.Valid()
      modifies registry, registry.executors.Values
      ensures this.registry == registry && registry.Valid()
      ensures executorName in registry.executors && executor == registry.executors[executorName]
      ensures executor.connectionHolder == connectionHolder
      ensures executorName in old(registry.executors) ==> registry.executors == old(registry.executors)
      ensures executorName !in old(registry.executors) ==>
                fresh(executor) && registry.executors == old(registry.executors)[executorName := executor]
      ensures forall key :: key in old(registry.executors) && key != executorName ==>
                registry.executors[key].connectionHolder == old(registry.executors[key].connectionHolder)
    {
      this.registry := registry;
      currentMethod := "";
      executor := null;
      new;
      Init(executorName, connectionHolder);
    }

    /** Get-or-insert on the registry: a new executor for an unknown name, otherwise the
        existing entry with its connection holder replaced; no other entry changes. */
    method Init(name: string, connectionHolder: ConnectionHolder)
      requires registry.Valid()
      modifies this`executor, registry, registry.executors.Values
      ensures registry.Valid()
      ensures name in registry.executors && executor == registry.executors[name]
      ensures executor.connectionHolder == connectionHolder
      ensures name in old(registry.executors) ==>
                executor == old(registry.executors[name]) && registry.executors == old(registry.executors)
      ensures name !in old(registry.executors) ==>
                fresh(executor) && registry.executors == old(registry.executors)[name := executor]
      ensures forall key :: key in old(registry.executors) && key != name ==>
                registry.executors[key].connectionHolder == old(registry.executors[key].connectionHolder)
    {
      var instance := registry.GetExecutorById(name);
      if instance == null {
        instance := new Executor(name, connectionHolder);
        registry.executors := registry.executors[name := instance];
      } else {
        instance.connectionHolder := connectionHolder;
      }
      executor := instance;
    }

    /** The statement's evaluate(): records the test method, selects the executor, and runs the lifecycle. */
    method Evaluate(t: TestMethod, global: DBUnitConfig, sc: Scenario) returns (run: Run)
      requires registry.Valid()
      modifies this`currentMethod, this`executor
      ensures currentMethod == t.name
      ensures NamesExecutor(t) ==> executor == registry.GetExecutorById(ResolveDataSet(t).value.executorId)
      ensures !NamesExecutor(t) ==> executor == old(executor)
      ensures IdOf(executor) == SelectExecutor(t, IdOf(old(executor)), registry.executors.Keys)
      ensures run == Lifecycle(t, IdOf(executor), global, sc)
    {
      currentMethod := t.name;
      var dataSet := ResolveDataSet(t);
      if dataSet.None? {
        run := Run([Body], Failure(sc.body, BodySite));
        if run.fault.None? {
          var comparison := Comparison(t, IdOf(executor), sc);
          run := Run(run.trace + comparison.trace, comparison.fault);
        }
        assert run == Then(Call(Body, sc.body, BodySite), Comparison(t, IdOf(executor), sc));
        return;
      }
      var model := dataSet.value;
      var dbUnitConfig := ResolveDBUnitConfig(t, global);
      if ExecutorNameIsProvided(model.executorId) {
        executor := registry.GetExecutorById(model.executorId);
      }
      if executor == null {
        return Run([], Some(DataSetNotCreated(None, Raised(NullPointerException, SetDBUnitConfigSite))));
      }
      run := RunWithDataSet(t, executor.id, dbUnitConfig, model, sc);
    }
  }

  /** The finally block of evaluate(), with its loop over the post-test scripts. */
  method Cleanup(executor: string, model: DataSetConfig, sc: Scenario) returns (run: Run)
    ensures run == CleanupRun(executor, model, sc)
  {
    var trace: seq<Event> := [];
    var statements := model.executeStatementsAfter;
    if |statements| > 0 {
      trace := [ExecuteStatements(executor, statements)];
      var failure := Failure(sc.executeStatements, StatementsSite);
      if failure.Some? {
        if !failure.value.IsException() {
          return Run(trace, failure);
        }
        trace := trace + [Logged(failure.value)];
      }
    }
    assert Run(trace, None) == StatementsRun(executor, model, sc);

    var scripts := RunScripts(executor, model, sc);
    trace := trace + scripts.trace;
    if scripts.fault.Some? {
      return Run(trace, scripts.fault);
    }

    if model.cleanAfter {
      return Run(trace + [ClearDatabase(executor, model)], Failure(sc.clearDatabase, ClearSite));
    }
    run := Run(trace, None);
  }

  /** The script stage of the finally block: the scripts in order until one throws; a
      DatabaseUnitException or an Error is rethrown, any other Exception logged. */
  method RunScripts(executor: string, model: DataSetConfig, sc: Scenario) returns (run: Run)
    ensures run == ScriptsRun(executor, model, sc)
  {
    var scripts := model.executeScriptsAfter;
    if |scripts| == 0 {
      return Skip;
    }
    var trace: seq<Event> := [];
    var failure: Option<Fault> := None;
    var i := 0;
    while i < |scripts| && failure.None?
      invariant 0 <= i <= |scripts|
      invariant Then(Run(trace, failure), ScriptsFrom(executor, scripts, sc, i)) == ScriptsFrom(executor, scripts, sc, 0)
      decreases |scripts| - i
    {
      trace := trace + [ExecuteScript(executor, scripts[i])];
      failure := Failure(ScriptOutcome(sc, i), ScriptSite(i));
      i := i + 1;
    }
    assert Run(trace, failure) == ScriptsFrom(executor, scripts, sc, 0);
    if failure.Some? && failure.value.IsException() && !failure.value.IsDatabaseUnitException() {
      trace := trace + [Logged(failure.value)];
      failure := None;
    }
    run := Run(trace, failure);
  }

  // ---------------------------------------------------------------------------
  // Properties of the rule's lifecycle.

  /** The try block after the begin neither begins, rolls back nor cleans up. */
  lemma BodyAndChecksEvents(t: TestMethod, executor: string, config: DBUnitConfig, isTransactional: bool, sc: Scenario)
    ensures forall e :: e in BodyAndChecks(t, executor, config, isTransactional, sc).trace ==>
              !e.IsCleanup() && e != Rollback && e != Begin
  {
    var ok := (e: Event) => !e.IsCleanup() && e != Rollback && e != Begin;
    var baseline := if config.leakHunter then Run([OpenConnectionsBefore(sc.openConnectionsBefore)], None) else Skip;
    var leakCheck := if config.leakHunter then LeakCheck(t.name, sc.openConnectionsBefore, sc.openConnectionsAfter) else Skip;
    var commit := if isTransactional then Call(Commit, sc.commit, CommitSite) else Skip;
    var comparison := Comparison(t, Some(executor), sc);
    var checks := Then(commit, comparison);
    ThenKeeps(commit, comparison, ok);
    ThenKeeps(leakCheck, checks, ok);
    ThenKeeps(Call(Body, sc.body, BodySite), Then(leakCheck, checks), ok);
    ThenKeeps(baseline, Then(Call(Body, sc.body, BodySite), Then(leakCheck, checks)), ok);
  }

  /** Sequencing adds no event of its own. */
  lemma ThenKeeps(first: Run, next: Run, ok: Event -> bool)
    requires forall e :: e in first.trace ==> ok(e)
    requires forall e :: e in next.trace ==> ok(e)
    ensures forall e :: e in Then(first, next).trace ==> ok(e)
  {
  }

  /** In the try block and its catch a transaction is begun first, when there is one, and at no
      other point, and no cleanup event occurs. */
  lemma GuardedEvents(t: TestMethod, executor: string, config: DBUnitConfig, isTransactional: bool, sc: Scenario)
    ensures var r := Guarded(t, executor, config, isTransactional, sc);
      && (isTransactional <==> |r.trace| > 0 && r.trace[0] == Begin)
      && (forall i :: 0 < i < |r.trace| ==> r.trace[i] != Begin)
      && (forall e :: e in r.trace ==> !e.IsCleanup())
  {
    BodyAndChecksEvents(t, executor, config, isTransactional, sc);
    var rest := BodyAndChecks(t, executor, config, isTransactional, sc);
    var tr := TestRun(t, executor, config, isTransactional, sc);
    var begin := if isTransactional then [Begin] else [];
    assert tr.trace == begin + rest.trace || tr.trace == begin;
    forall i | 0 < i < |tr.trace|
      ensures tr.trace[i] != Begin
    {
      assert tr.trace[i] in rest.trace;
    }
  }

  /** The finally block consists of cleanup events only. */
  lemma CleanupEvents(executor: string, model: DataSetConfig, sc: Scenario)
    ensures forall e :: e in CleanupRun(executor, model, sc).trace ==> e.IsCleanup()
  {
  }

  /** The index of the first post-test script at or after i that throws; n when none does. */
  function FirstScriptFailure(sc: Scenario, n: nat, i: nat): (k: nat)
    requires i <= n
    ensures i <= k <= n
    ensures forall j :: i <= j < k ==> ScriptOutcome(sc, j) == Returns
    ensures k < n ==> ScriptOutcome(sc, k).Throws?
    decreases n - i
  {
    if i == n || ScriptOutcome(sc, i).Throws? then i else FirstScriptFailure(sc, n, i + 1)
  }

  /** Scripts run in array order, up to and including the first one that throws, and that one's
      throwable is the result. */
  lemma {:induction false} ScriptsRunInOrderUntilFirstFailure(executor: string, locations: seq<string>, sc: Scenario, i: nat)
    requires i <= |locations|
    ensures var k := FirstScriptFailure(sc, |locations|, i);
            var last := if k < |locations| then k + 1 else k;
            var r := ScriptsFrom(executor, locations, sc, i);
      && |r.trace| == last - i
      && (forall j :: i <= j < last ==> r.trace[j - i] == ExecuteScript(executor, locations[j]))
      && r.fault == (if k < |locations| then Some(Raised(ScriptOutcome(sc, k).kind, ScriptSite(k))) else None)
    decreases |locations| - i
  {
    if i < |locations| && ScriptOutcome(sc, i) == Returns {
      ScriptsRunInOrderUntilFirstFailure(executor, locations, sc, i + 1);
      var r := ScriptsFrom(executor, locations, sc, i);
      var rest := ScriptsFrom(executor, locations, sc, i + 1);
      assert r.trace == [ExecuteScript(executor, locations[i])] + rest.trace;
    }
  }

  /** Whether the script loop ends with a throwable its catch does not swallow. */
  predicate ScriptsRaise(model: DataSetConfig, sc: Scenario) {
    var n := |model.executeScriptsAfter|;
    var k := FirstScriptFailure(sc, n, 0);
    k < n && ScriptOutcome(sc, k).kind in {DatabaseUnitException, Error}
  }

  /** The throwable of the first failing post-test script, if one fails. */
  function ScriptFailure(model: DataSetConfig, sc: Scenario): (f: Option<Fault>)
    ensures f.Some? <==> FirstScriptFailure(sc, |model.executeScriptsAfter|, 0) < |model.executeScriptsAfter|
  {
    var n := |model.executeScriptsAfter|;
    var k := FirstScriptFailure(sc, n, 0);
    if k < n then Failure(ScriptOutcome(sc, k), ScriptSite(k)) else None
  }

  /** The script stage of the finally block: the scripts in array order up to the first that
      throws; a DatabaseUnitException or an Error is raised, any other Exception is logged. */
  lemma ScriptStage(executor: string, model: DataSetConfig, sc: Scenario)
    ensures var r := ScriptsRun(executor, model, sc);
      var n := |model.executeScriptsAfter|;
      var k := FirstScriptFailure(sc, n, 0);
      var last := if k < n then k + 1 else k;
      var logged := k < n && !ScriptsRaise(model, sc);
      && |r.trace| == (if logged then last + 1 else last)
      && (forall j :: 0 <= j < last ==> r.trace[j] == ExecuteScript(executor, model.executeScriptsAfter[j]))
      && (logged ==> r.trace[last] == Logged(ScriptFailure(model, sc).value))
      && r.fault == (if ScriptsRaise(model, sc) then ScriptFailure(model, sc) else None)
  {
    var n := |model.executeScriptsAfter|;
    if n > 0 {
      ScriptsRunInOrderUntilFirstFailure(executor, model.executeScriptsAfter, sc, 0);
      var k := FirstScriptFailure(sc, n, 0);
      var loop := ScriptsFrom(executor, model.executeScriptsAfter, sc, 0);
      assert loop.fault == ScriptFailure(model, sc);
      if k < n && !ScriptsRaise(model, sc) {
        assert ScriptsRun(executor, model, sc).trace == loop.trace + [Logged(loop.fault.value)];
      } else {
        assert ScriptsRun(executor, model, sc) == loop;
      }
    }
  }

  /** The script stage completes with a throwable exactly when the scripts raise. */
  lemma ScriptStageRaises(executor: string, model: DataSetConfig, sc: Scenario)
    ensures ScriptsRun(executor, model, sc).fault ==
              (if ScriptsRaise(model, sc) then ScriptFailure(model, sc) else None)
  {
    ScriptStage(executor, model, sc);
  }

  /** The finally block opens with the post statements: an Exception from them is logged and
      the block goes on, an Error ends it. */
  lemma CleanupStatementsFirst(executor: string, model: DataSetConfig, sc: Scenario)
    requires |model.executeStatementsAfter| > 0
    ensures var r := CleanupRun(executor, model, sc);
      var head := ExecuteStatements(executor, model.executeStatementsAfter);
      && |r.trace| > 0 && r.trace[0] == head
      && (sc.executeStatements == Throws(Error) ==> r == Run([head], Some(Raised(Error, StatementsSite))))
      && (sc.executeStatements.Throws? && sc.executeStatements.kind != Error ==>
            |r.trace| > 1 && r.trace[1] == Logged(Raised(sc.executeStatements.kind, StatementsSite)))
  {
  }

  /** Unless an Error ended the statements, the script stage follows them; when the scripts
      raise, the finally block ends there with the scripts' throwable. */
  lemma CleanupScriptsAfterStatements(executor: string, model: DataSetConfig, sc: Scenario)
    requires !(|model.executeStatementsAfter| > 0 && sc.executeStatements == Throws(Error))
    ensures var r := CleanupRun(executor, model, sc);
      var p := if |model.executeStatementsAfter| == 0 then 0 else if sc.executeStatements.Throws? then 2 else 1;
      var scripts := ScriptsRun(executor, model, sc);
      && |r.trace| >= p + |scripts.trace|
      && r.trace[p..p + |scripts.trace|] == scripts.trace
      && (ScriptsRaise(model, sc) ==> |r.trace| == p + |scripts.trace| && r.fault == ScriptFailure(model, sc))
  {
    ScriptStageRaises(executor, model, sc);
    var st := StatementsRun(executor, model, sc);
    var scripts := ScriptsRun(executor, model, sc);
    var r := CleanupRun(executor, model, sc);
    assert st.fault.None? && |st.trace| == if |model.executeStatementsAfter| == 0 then 0 else if sc.executeStatements.Throws? then 2 else 1;
    if scripts.fault.Some? {
      assert r.trace == st.trace + scripts.trace;
    } else {
      assert r.trace == st.trace + scripts.trace + ClearRun(executor, model, sc).trace;
    }
    assert r.trace[|st.trace|..|st.trace| + |scripts.trace|] == scripts.trace;
  }

  /** When nothing was raised before it, clean-after closes the finally block if it is
      configured, and its outcome is the block's outcome. */
  lemma CleanupClearLast(executor: string, model: DataSetConfig, sc: Scenario)
    requires !(|model.executeStatementsAfter| > 0 && sc.executeStatements == Throws(Error))
    requires !ScriptsRaise(model, sc)
    ensures var r := CleanupRun(executor, model, sc);
      var p := if |model.executeStatementsAfter| == 0 then 0 else if sc.executeStatements.Throws? then 2 else 1;
      var q := p + |ScriptsRun(executor, model, sc).trace|;
      && |r.trace| >= q
      && r.trace[q..] == (if model.cleanAfter then [ClearDatabase(executor, model)] else [])
      && r.fault == (if model.cleanAfter then Failure(sc.clearDatabase, ClearSite) else None)
  {
    ScriptStage(executor, model, sc);
    var st := StatementsRun(executor, model, sc);
    var scripts := ScriptsRun(executor, model, sc);
    var r := CleanupRun(executor, model, sc);
    assert r.trace == st.trace + scripts.trace + ClearRun(executor, model, sc).trace;
  }

  /** Clean-after runs exactly when it is configured and neither the statements nor the scripts
      raised a throwable first. */
  lemma ClearOnlyWhenConfigured(executor: string, model: DataSetConfig, sc: Scenario)
    ensures ClearDatabase(executor, model) in CleanupRun(executor, model, sc).trace <==>
      && model.cleanAfter && !ScriptsRaise(model, sc)
      && !(|model.executeStatementsAfter| > 0 && sc.executeStatements == Throws(Error))
  {
    ScriptStage(executor, model, sc);
    var st := StatementsRun(executor, model, sc);
    var scripts := ScriptsRun(executor, model, sc);
    assert ClearDatabase(executor, model) !in st.trace;
    assert ClearDatabase(executor, model) !in scripts.trace;
  }

  /** A failed dataset load ends evaluate() before the body: an Exception is wrapped in a
      RuntimeException, an Error propagates as it is, and neither a transaction nor the
      cleanup starts. */
  lemma SetupFailureSkipsBody(t: TestMethod, executor: Option<string>, global: DBUnitConfig, sc: Scenario)
    requires ResolveDataSet(t).Some?
    requires executor.None? || sc.setDBUnitConfig.Throws? || sc.createDataSet.Throws?
    ensures var r := Lifecycle(t, executor, global, sc);
      var cause := if executor.None? then Raised(NullPointerException, SetDBUnitConfigSite)
                   else if sc.setDBUnitConfig.Throws? then Raised(sc.setDBUnitConfig.kind, SetDBUnitConfigSite)
                   else Raised(sc.createDataSet.kind, CreateDataSetSite);
      && r.fault == Some(if cause.IsException() then DataSetNotCreated(None, cause) else cause)
      && |r.trace| <= 2
      && (forall e :: e in r.trace ==> e.SetDBUnitConfig? || e.CreateDataSet?)
  {
  }

  /** A transaction is begun exactly when the load succeeded, the DataSet is transactional and an
      entity manager is active, and then right after the load. */
  lemma BeginOnlyAfterLoad(t: TestMethod, executor: Option<string>, global: DBUnitConfig, sc: Scenario)
    ensures var r := Lifecycle(t, executor, global, sc);
      Begin in r.trace <==>
        && ResolveDataSet(t).Some? && executor.Some?
        && sc.setDBUnitConfig == Returns && sc.createDataSet == Returns
        && ResolveDataSet(t).value.transactional && sc.entityManagerActive
    ensures var r := Lifecycle(t, executor, global, sc);
      Begin in r.trace ==>
        |r.trace| >= 3 && r.trace[..3] ==
          [SetDBUnitConfig(executor.value, ResolveDBUnitConfig(t, global)),
           CreateDataSet(executor.value, ResolveDataSet(t).value), Begin]
  {
    if ResolveDataSet(t).Some? && executor.Some? {
      if sc.setDBUnitConfig.Throws? || sc.createDataSet.Throws? {
        SetupFailureSkipsBody(t, executor, global, sc);
      } else {
        BeginAfterSuccessfulLoad(t, executor.value, global, sc);
      }
    }
  }

  /** After a successful load, a transaction is begun exactly when the DataSet is transactional
      and an entity manager is active, and then right after the load. */
  lemma BeginAfterSuccessfulLoad(t: TestMethod, id: string, global: DBUnitConfig, sc: Scenario)
    requires ResolveDataSet(t).Some? && sc.setDBUnitConfig == Returns && sc.createDataSet == Returns
    ensures var model := ResolveDataSet(t).value;
      var config := ResolveDBUnitConfig(t, global);
      var r := Lifecycle(t, Some(id), global, sc);
      && (Begin in r.trace <==> model.transactional && sc.entityManagerActive)
      && (Begin in r.trace ==> |r.trace| >= 3 && r.trace[..3] == [SetDBUnitConfig(id, config), CreateDataSet(id, model), Begin])
  {
    var model := ResolveDataSet(t).value;
    var config := ResolveDBUnitConfig(t, global);
    var isTransactional := model.transactional && sc.entityManagerActive;
    CleanupAlwaysRunsAfterLoad(t, id, global, sc);
    GuardedEvents(t, id, config, isTransactional, sc);
    CleanupEvents(id, model, sc);
    BeginOnlyAtHeadOfGuarded([SetDBUnitConfig(id, config), CreateDataSet(id, model)],
      Guarded(t, id, config, isTransactional, sc).trace, CleanupRun(id, model, sc).trace);
  }

  /** A trace made of a prefix without Begin, a guarded part that can begin only at its head,
      and cleanup events holds a Begin exactly when the guarded part starts with one. */
  lemma BeginOnlyAtHeadOfGuarded(prefix: seq<Event>, guarded: seq<Event>, cleanup: seq<Event>)
    requires Begin !in prefix
    requires forall i :: 0 < i < |guarded| ==> guarded[i] != Begin
    requires forall e :: e in cleanup ==> e.IsCleanup()
    ensures Begin in prefix + guarded + cleanup <==> |guarded| > 0 && guarded[0] == Begin
    ensures |guarded| > 0 && guarded[0] == Begin ==>
              (prefix + guarded + cleanup)[..|prefix| + 1] == prefix + [Begin]
  {
    var r := prefix + guarded + cleanup;
    forall k | 0 <= k < |r| && k != |prefix|
      ensures r[k] != Begin
    {
      if k < |prefix| {
        assert r[k] == prefix[k] && prefix[k] in prefix;
      } else if k < |prefix| + |guarded| {
        assert r[k] == guarded[k - |prefix|];
      } else {
        assert r[k] == cleanup[k - |prefix| - |guarded|] && r[k] in cleanup;
      }
    }
    if |guarded| > 0 {
      assert r[|prefix|] == guarded[0];
      assert r[..|prefix| + 1] == r[..|prefix|] + [guarded[0]];
    } else if |cleanup| > 0 {
      assert r[|prefix|] == cleanup[0] && cleanup[0] in cleanup;
    }
  }

  /** A transactional test in which nothing throws is committed and compared inside the try
      block, and the guarded run completes normally. */
  lemma NormalCompletionCommits(t: TestMethod, id: string, config: DBUnitConfig, sc: Scenario)
    requires sc.begin == Returns && sc.body == Returns && sc.commit == Returns
    requires config.leakHunter ==> sc.openConnectionsAfter <= sc.openConnectionsBefore
    requires ResolveExpectedDataSet(t).Some? ==> sc.compare == Returns
    ensures var expected := ResolveExpectedDataSet(t);
      Guarded(t, id, config, true, sc) == Run(
        [Begin]
        + (if config.leakHunter then [OpenConnectionsBefore(sc.openConnectionsBefore)] else [])
        + [Body]
        + (if config.leakHunter then [OpenConnectionsAfter(sc.openConnectionsAfter)] else [])
        + [Commit]
        + (if expected.Some? then [Compare(id, ComparisonConfig(expected.value))] else []),
        None)
  {
  }

  /** With leak hunting on and more open connections after the body than before, a
      LeakHunterException carrying the difference is raised before any commit or comparison,
      and the catch block rolls back when transactional; only the rollback can replace it. */
  lemma LeakReportedBeforeCommit(t: TestMethod, id: string, config: DBUnitConfig, isTransactional: bool, sc: Scenario)
    requires config.leakHunter && (isTransactional ==> sc.begin == Returns) && sc.body == Returns
    requires sc.openConnectionsAfter > sc.openConnectionsBefore
    ensures Guarded(t, id, config, isTransactional, sc) == Run(
      (if isTransactional then [Begin] else [])
      + [OpenConnectionsBefore(sc.openConnectionsBefore), Body, OpenConnectionsAfter(sc.openConnectionsAfter)]
      + (if isTransactional then [Rollback] else []),
      if isTransactional && sc.rollback.Throws? then Some(Raised(sc.rollback.kind, RollbackSite))
      else Some(LeakHunterException(t.name, sc.openConnectionsAfter - sc.openConnectionsBefore)))
  {
  }

  /** An Exception from the body of a transactional test is followed by a rollback and rethrown;
      there is no commit and no comparison. */
  lemma BodyExceptionRollsBack(t: TestMethod, id: string, config: DBUnitConfig, sc: Scenario)
    requires sc.begin == Returns && sc.body.Throws? && sc.body.kind != Error
    ensures Guarded(t, id, config, true, sc) == Run(
      [Begin] + (if config.leakHunter then [OpenConnectionsBefore(sc.openConnectionsBefore)] else []) + [Body, Rollback],
      if sc.rollback.Throws? then Some(Raised(sc.rollback.kind, RollbackSite)) else Some(Raised(sc.body.kind, BodySite)))
  {
  }

  /** An Error from the body escapes `catch (Exception e)`: the transaction is neither committed
      nor rolled back. */
  lemma BodyErrorSkipsRollback(t: TestMethod, id: string, config: DBUnitConfig, sc: Scenario)
    requires sc.begin == Returns && sc.body == Throws(Error)
    ensures Guarded(t, id, config, true, sc) == Run(
      [Begin] + (if config.leakHunter then [OpenConnectionsBefore(sc.openConnectionsBefore)] else []) + [Body],
      Some(Raised(Error, BodySite)))
  {
  }

  /** A comparison failure raised after the commit still reaches the rollback of the catch
      block, so a transactional test can see both a commit and a rollback. */
  lemma ComparisonFailureAfterCommitRollsBack(t: TestMethod, id: string, config: DBUnitConfig, sc: Scenario)
    requires sc.begin == Returns && sc.body == Returns && sc.commit == Returns
    requires config.leakHunter ==> sc.openConnectionsAfter <= sc.openConnectionsBefore
    requires ResolveExpectedDataSet(t).Some? && sc.compare.Throws? && sc.compare.kind != Error
    ensures Guarded(t, id, config, true, sc) == Run(
      [Begin]
      + (if config.leakHunter then [OpenConnectionsBefore(sc.openConnectionsBefore)] else [])
      + [Body]
      + (if config.leakHunter then [OpenConnectionsAfter(sc.openConnectionsAfter)] else [])
      + [Commit, Compare(id, ComparisonConfig(ResolveExpectedDataSet(t).value)), Rollback],
      if sc.rollback.Throws? then Some(Raised(sc.rollback.kind, RollbackSite)) else Some(Raised(sc.compare.kind, CompareSite)))
  {
  }

  /** A failing commit of a transactional test is followed by a rollback, and the commit's
      Exception is rethrown unless the rollback throws its own. */
  lemma CommitFailureRollsBack(t: TestMethod, id: string, config: DBUnitConfig, sc: Scenario)
    requires sc.begin == Returns && sc.body == Returns
    requires config.leakHunter ==> sc.openConnectionsAfter <= sc.openConnectionsBefore
    requires sc.commit.Throws? && sc.commit.kind != Error
    ensures Guarded(t, id, config, true, sc) == Run(
      [Begin]
      + (if config.leakHunter then [OpenConnectionsBefore(sc.openConnectionsBefore)] else [])
      + [Body]
      + (if config.leakHunter then [OpenConnectionsAfter(sc.openConnectionsAfter)] else [])
      + [Commit, Rollback],
      if sc.rollback.Throws? then Some(Raised(sc.rollback.kind, RollbackSite)) else Some(Raised(sc.commit.kind, CommitSite)))
  {
  }

  /** A failing begin skips the body: an Exception is followed by a rollback of the transaction
      that was never begun, an Error escapes without one. */
  lemma BeginFailureSkipsBody(t: TestMethod, id: string, config: DBUnitConfig, sc: Scenario)
    requires sc.begin.Throws?
    ensures Guarded(t, id, config, true, sc) ==
      if sc.begin.kind == Error then Run([Begin], Some(Raised(Error, BeginSite)))
      else Run([Begin, Rollback],
               if sc.rollback.Throws? then Some(Raised(sc.rollback.kind, RollbackSite)) else Some(Raised(sc.begin.kind, BeginSite)))
  {
  }

  /** The catch block over every run of the try block, which itself never rolls back: a
      transactional test whose try block ended in an Exception gets exactly one rollback, after
      everything the try block did, and rethrows that Exception unless the rollback throws its
      own; in every other case (not transactional, no throwable, or an Error) the catch block
      changes nothing. */
  lemma RollbackExactlyOnException(t: TestMethod, executor: string, config: DBUnitConfig, isTransactional: bool, sc: Scenario)
    ensures var tried := TestRun(t, executor, config, isTransactional, sc);
      var g := Guarded(t, executor, config, isTransactional, sc);
      var caught := isTransactional && tried.fault.Some? && tried.fault.value.IsException();
      && Rollback !in tried.trace
      && (Rollback in g.trace <==> caught)
      && (caught ==> g == Run(tried.trace + [Rollback],
                              if sc.rollback.Throws? then Some(Raised(sc.rollback.kind, RollbackSite)) else tried.fault))
      && (!caught ==> g == tried)
  {
    BodyAndChecksEvents(t, executor, config, isTransactional, sc);
    var rest := BodyAndChecks(t, executor, config, isTransactional, sc);
    var tried := TestRun(t, executor, config, isTransactional, sc);
    var begin := if isTransactional then [Begin] else [];
    assert tried.trace == begin + rest.trace || tried.trace == begin;
  }

  /** Once the load succeeded the finally block always runs, last, and a throwable it raises
      replaces whatever the guarded test raised. */
  lemma CleanupAlwaysRunsAfterLoad(t: TestMethod, id: string, global: DBUnitConfig, sc: Scenario)
    requires ResolveDataSet(t).Some? && sc.setDBUnitConfig == Returns && sc.createDataSet == Returns
    ensures var model := ResolveDataSet(t).value;
      var config := ResolveDBUnitConfig(t, global);
      var guarded := Guarded(t, id, config, model.transactional && sc.entityManagerActive, sc);
      var cleanup := CleanupRun(id, model, sc);
      var r := Lifecycle(t, Some(id), global, sc);
      && r.trace == [SetDBUnitConfig(id, config), CreateDataSet(id, model)] + guarded.trace + cleanup.trace
      && r.fault == (if cleanup.fault.Some? then cleanup.fault else guarded.fault)
      && forall e :: e in guarded.trace ==> !e.IsCleanup()
  {
    var model := ResolveDataSet(t).value;
    var config := ResolveDBUnitConfig(t, global);
    var isTransactional := model.transactional && sc.entityManagerActive;
    GuardedEvents(t, id, config, isTransactional, sc);
    var setup := Setup(id, config, model, sc);
    assert setup == Run([SetDBUnitConfig(id, config), CreateDataSet(id, model)], None);
    assert Lifecycle(t, Some(id), global, sc) == Then(setup, Finally(Guarded(t, id, config, isTransactional, sc), CleanupRun(id, model, sc)));
    ThenFinally(setup, Guarded(t, id, config, isTransactional, sc), CleanupRun(id, model, sc));
  }

  /** A successful statement followed by a try/finally: both traces in order, and the finally
      block's throwable, if any, wins. */
  lemma ThenFinally(first: Run, guarded: Run, cleanup: Run)
    requires first.fault.None?
    ensures Then(first, Finally(guarded, cleanup)) ==
      Run(first.trace + guarded.trace + cleanup.trace, if cleanup.fault.Some? then cleanup.fault else guarded.fault)
  {
    assert first.trace + (guarded.trace + cleanup.trace) == first.trace + guarded.trace + cleanup.trace;
  }

  /** Without a DataSet at method or class level: the body, then the comparison, and nothing else. */
  lemma WithoutDataSetOnlyBodyAndComparison(t: TestMethod, executor: Option<string>, global: DBUnitConfig, sc: Scenario)
    requires ResolveDataSet(t).None?
    ensures var r := Lifecycle(t, executor, global, sc);
      var expected := ResolveExpectedDataSet(t);
      && r.trace == [Body] +
           (if sc.body == Returns && expected.Some? && executor.Some?
            then [Compare(executor.value, ComparisonConfig(expected.value))] else [])
      && r.fault ==
           if sc.body.Throws? then Some(Raised(sc.body.kind, BodySite))
           else if expected.None? then None
           else if executor.None? then Some(Raised(NullPointerException, CompareSite))
           else Failure(sc.compare, CompareSite)
  {
  }

  /** A blank executorId (only characters up to U+0020) keeps the rule's executor; any other
      id selects the registry entry of that exact id, or null when there is none. */
  lemma ExecutorSelection(t: TestMethod, current: Option<string>, registered: set<string>)
    ensures ResolveDataSet(t).None? ==> SelectExecutor(t, current, registered) == current
    ensures ResolveDataSet(t).Some? ==>
      var id := ResolveDataSet(t).value.executorId;
      && ((forall i :: 0 <= i < |id| ==> IsBlankChar(id[i])) ==> SelectExecutor(t, current, registered) == current)
      && (!(forall i :: 0 <= i < |id| ==> IsBlankChar(id[i])) ==>
            SelectExecutor(t, current, registered) == if id in registered then Some(id) else None)
  {
    if ResolveDataSet(t).Some? {
      TrimEmptyIffBlank(ResolveDataSet(t).value.executorId);
    }
  }

  /** A DataSet naming an executor that was never registered fails the load with a wrapped
      NullPointerException, before anything runs. */
  lemma UnregisteredExecutorFailsLoad(t: TestMethod, current: Option<string>, registered: set<string>,
                                      global: DBUnitConfig, sc: Scenario)
    requires NamesExecutor(t) && ResolveDataSet(t).value.executorId !in registered
    ensures Lifecycle(t, SelectExecutor(t, current, registered), global, sc) ==
      Run([], Some(DataSetNotCreated(None, Raised(NullPointerException, SetDBUnitConfigSite))))
  {
  }
}
