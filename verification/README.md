# dbunit-rules fixture lifecycle, in Dafny

This project models how the two test-framework adapters of dbunit-rules run one
database test:

- `DBUnitRule` is the JUnit 4 rule.
- `DBUnitExtension` is the JUnit 5 extension.

Each adapter loads a dataset and may begin a transaction. It may take a
leaked-connection baseline. It runs or awaits the test body, checks for leaks,
then commits and compares against an expected dataset. The rule also rolls back
on failure and runs a best-effort cleanup.

Every collaborator is an abstract call whose outcome comes from a scenario input.
The collaborators are the executor's `setDBUnitConfig`, `createDataSet`,
`compareCurrentDataSetWith`, `executeStatements`, `executeScript` and
`clearDatabase`, plus the entity manager's transaction, the leak hunter's
`openConnections` and the test body. An outcome is one of:

- returns;
- throws an `Exception`;
- throws a `DatabaseUnitException`;
- throws a `NullPointerException`;
- throws an `Error`.

An adapter produces a `Run`, which is the trace of events it caused plus the
throwable it completed with, if any. The Java control flow is written with a few
combinators in `fixtures.dfy`:

- `Then` is statement sequencing.
- `Finally` is `try/finally`: a throwable raised in the finally block replaces
  the pending one (section 14.20.2 of the Java Language Specification).
- `LogExceptions` and `WrapSetupFailure` are two of the `catch (Exception e)`
  shapes. The other two, the rule's rollback and its rethrow of a script's
  `DatabaseUnitException`, are `RollbackOnException` and
  `RethrowDatabaseUnitException` in `rule.dfy`. None of them catches a
  `java.lang.Error`.

Files:

- `fixtures.dfy` (module `Fixtures`) holds the shared vocabulary and these
  combinators. It also holds the method-then-class annotation lookup and
  `String.trim`.
- `registry.dfy` (module `Registry`) holds the process-wide executor registry of
  `DataSetExecutorImpl`, as a class over a map.
- `rule.dfy` (module `RuleAdapter`) models the JUnit 4 rule:
  - the `DBUnitRule` class, whose fields `currentMethod` and `executor` change in
    `evaluate()`, and its registry get-or-insert `init`;
  - the imperative body of `evaluate()`, including the indexed script loop, proved
    equal to the specification function `Lifecycle`;
  - lemmas on `Guarded` (the try and catch blocks), on `CleanupRun` (the finally
    block) and on `Lifecycle` (the whole of `evaluate()`) for the ordering and
    failure properties; `CleanupAlwaysRunsAfterLoad` connects the first two to the
    third.
- `extension.dfy` (module `ExtensionAdapter`) models the JUnit 5 extension:
  - the two callbacks as methods on the store of one test's extension context, a
    class over a map from (namespace, key) slots to values, with `Store.put` and
    the typed `Store.get`;
  - the callbacks proved equal to the specification functions `Before` and `After`;
  - lemmas on the ordering and on how the second callback reads what the first
    one stored.

Behaviours of the code that the lemmas make explicit:

- An executorId that was never registered gives a null executor. The load then
  fails with a `NullPointerException` wrapped in the RuntimeException for a failed
  load; there is no dedicated configuration error (`UnregisteredExecutorFailsLoad`).
- A transactional test of the rule does not always get exactly one of commit and
  rollback. A comparison failure after the commit reaches the rollback, so both
  happen (`ComparisonFailureAfterCommitRollsBack`). An `Error` from the body
  escapes `catch (Exception e)`, so neither happens (`BodyErrorSkipsRollback`).
  The rollback happens exactly when the try block ends in an Exception
  (`RollbackExactlyOnException`).
- The extension never rolls back. It commits only when an ExpectedDataSet is
  declared (`CommitAndCompareOnlyWithExpected`).
- The rule raises a leak failure before commit and comparison, not after them.
  The finally block still runs (`LeakReportedBeforeCommit`, `CleanupAlwaysRunsAfterLoad`).
- In the extension, the leak baseline is taken before the dataset load and before
  the transaction begins (`LeakBaselineStoredBeforeLoad`).
- The test body's throwable does not always reach the caller of the rule. A
  rollback failure replaces it (`BodyExceptionRollsBack`). So does any throwable
  the finally block raises (`CleanupAlwaysRunsAfterLoad`): a
  `DatabaseUnitException` or an `Error` from a post-test script, which is
  rethrown (`ScriptStageRaises`), an `Error` from the post-test statements
  (`CleanupStatementsFirst`), or a clean-after failure (`CleanupClearLast`).
- In the extension, a test with an ExpectedDataSet but no DataSet fails in the
  second callback, since nothing was stored for it. With leak hunting off it
  fails on the null model (`ExpectedWithoutDataSetFails`). With leak hunting on
  it fails first, on the null connection count, and never reads the model
  (`LeakHuntingWithoutDataSetFails`).

## Model

| member | source | states |
|---|---|---|
| Fixtures.ResolveDataSet | core/src/main/java/com/github/dbunit/rules/DBUnitRule.java:150-156 | the DataSet annotation of the method, else of the class, else null; `MethodLevelWins` states that the method level wins and `PresenceMatchesResolution` that the extension's presence test agrees |
| Fixtures.ResolveExpectedDataSet | core/src/main/java/com/github/dbunit/rules/DBUnitRule.java:171-176 | the ExpectedDataSet annotation of the method, else of the class, else null; `MethodLevelWins` and `Comparison` state its use |
| Fixtures.ResolveDBUnitConfig | core/src/main/java/com/github/dbunit/rules/DBUnitRule.java:158-169 | the DBUnit annotation of the method, else of the class, else the global configuration; `MethodLevelWins` states both cases |
| Fixtures.MethodLevelWins | core/src/main/java/com/github/dbunit/rules/DBUnitRule.java:150-169 | method-level DataSet, ExpectedDataSet and DBUnit annotations win whatever the class declares; without a DBUnit annotation on either level the global configuration is used |
| Fixtures.TrimLeading | core/src/main/java/com/github/dbunit/rules/DBUnitRule.java:72 | the result is a suffix of the input, every removed character is at most U+0020, and the result is empty or starts with a character above U+0020 |
| Fixtures.TrimTrailing | core/src/main/java/com/github/dbunit/rules/DBUnitRule.java:72 | the result is a prefix of the input, every removed character is at most U+0020, and the result is empty or ends with a character above U+0020 |
| Fixtures.TrimStripsOnlyBlanks | core/src/main/java/com/github/dbunit/rules/DBUnitRule.java:72 | `trim` returns the contiguous piece of the id between the removed blank prefix and blank suffix, and that piece starts and ends with a non-blank character |
| Fixtures.TrimEmptyIffBlank | core/src/main/java/com/github/dbunit/rules/DBUnitRule.java:72 | the trimmed id is empty exactly when every character of the id is blank, so `executorNameIsProvided` means "has a non-blank character" |
| Registry.ExecutorRegistry.GetExecutorById | core/src/main/java/com/github/dbunit/rules/DBUnitRule.java:74 | the lookup yields null exactly for an unregistered id, and otherwise the entry, whose identity is that id |
| RuleAdapter.DBUnitRule.Instance | core/src/main/java/com/github/dbunit/rules/DBUnitRule.java:51-55 | a new rule bound to the registry entry for the name, created if absent, with its connection holder replaced; other entries keep their holders |
| RuleAdapter.DBUnitRule.Init | core/src/main/java/com/github/dbunit/rules/DBUnitRule.java:182-192 | get-or-insert: a fresh executor is added only for an unknown name; a known name keeps its entry and the map, and only that entry's holder changes; the rule's executor is the entry |
| RuleAdapter.DBUnitRule.Evaluate | core/src/main/java/com/github/dbunit/rules/DBUnitRule.java:64-75 | records the test method name; a non-blank DataSet executorId replaces the rule's executor with the registry lookup (null if unregistered), otherwise the executor is kept; the run is `Lifecycle` for that executor |
| RuleAdapter.Lifecycle | core/src/main/java/com/github/dbunit/rules/DBUnitRule.java:64-144 | the whole of `evaluate()`: without a DataSet the body and the comparison, otherwise the load, the guarded test and the finally block; `SetupFailureSkipsBody`, `BeginOnlyAfterLoad`, `CleanupAlwaysRunsAfterLoad` and `WithoutDataSetOnlyBodyAndComparison` state its properties, and `DBUnitRule.Evaluate` is proved equal to it |
| RuleAdapter.TestRun | core/src/main/java/com/github/dbunit/rules/DBUnitRule.java:83-107 | the try block: begin when transactional, then baseline, body, leak check, commit and comparison, each only after the previous step completed normally; `RunTest` is proved equal to it, and `GuardedEvents`, `NormalCompletionCommits` and `LeakReportedBeforeCommit` state its properties |
| RuleAdapter.Guarded | core/src/main/java/com/github/dbunit/rules/DBUnitRule.java:83-112 | the try block and its catch; `RollbackExactlyOnException` states the catch over every run of the try block, and `BodyExceptionRollsBack`, `BodyErrorSkipsRollback`, `CommitFailureRollsBack`, `BeginFailureSkipsBody` and `ComparisonFailureAfterCommitRollsBack` the individual failures |
| RuleAdapter.CleanupRun | core/src/main/java/com/github/dbunit/rules/DBUnitRule.java:113-137 | the finally block: statements, scripts, clean-after; `Cleanup` is proved equal to it, and `CleanupEvents`, `CleanupStatementsFirst`, `CleanupScriptsAfterStatements`, `CleanupClearLast` and `ClearOnlyWhenConfigured` state its properties |
| RuleAdapter.RunWithDataSet | core/src/main/java/com/github/dbunit/rules/DBUnitRule.java:76-137 | the load outside the try, then the guarded test with the cleanup as its finally block |
| RuleAdapter.RunTest | core/src/main/java/com/github/dbunit/rules/DBUnitRule.java:83-87 | the try block equals `TestRun`: begin when the test is transactional, and the rest of the block only if the begin completed normally |
| RuleAdapter.RunBodyAndChecks | core/src/main/java/com/github/dbunit/rules/DBUnitRule.java:88-93 | the rest of the try block equals `BodyAndChecks`: the leak baseline is taken, with leak hunting on, before anything else |
| RuleAdapter.RunBody | core/src/main/java/com/github/dbunit/rules/DBUnitRule.java:94-107 | the body, then with leak hunting on the second probe, which throws a LeakHunterException carrying the difference when the count grew, then commit and comparison, each only after the previous step completed normally |
| RuleAdapter.RunCommitAndCompare | core/src/main/java/com/github/dbunit/rules/DBUnitRule.java:104-107 | commit when transactional, then the comparison only if the commit completed normally |
| RuleAdapter.RunGuarded | core/src/main/java/com/github/dbunit/rules/DBUnitRule.java:108-112 | on an Exception (not an Error) from the try block, a transactional test is rolled back and the throwable rethrown, unless the rollback itself throws |
| RuleAdapter.Cleanup | core/src/main/java/com/github/dbunit/rules/DBUnitRule.java:113-137 | the finally block equals `CleanupRun`: statements with their failure logged unless it is an Error, then the script stage, then clean-after, each only if the previous stage raised nothing |
| RuleAdapter.RunScripts | core/src/main/java/com/github/dbunit/rules/DBUnitRule.java:122-133 | the indexed loop stops at the first script that throws, and the stage equals `ScriptsRun`: the loop, then a rethrown DatabaseUnitException or Error, or a logged Exception |
| RuleAdapter.Comparison | core/src/main/java/com/github/dbunit/rules/DBUnitRule.java:171-180 | a comparison happens only with a resolved ExpectedDataSet and a non-null executor, and it is the only event |
| RuleAdapter.BodyAndChecksEvents | core/src/main/java/com/github/dbunit/rules/DBUnitRule.java:88-107 | after the begin, the try block neither begins, rolls back nor runs a cleanup step |
| RuleAdapter.GuardedEvents | core/src/main/java/com/github/dbunit/rules/DBUnitRule.java:83-112 | in the try and catch blocks a transaction is begun exactly when the test is transactional, as the first event and never later, and no cleanup event occurs |
| RuleAdapter.ScriptsFrom | core/src/main/java/com/github/dbunit/rules/DBUnitRule.java:124-126 | the script loop runs at most the remaining scripts, only as scripts of this executor, and can only fail at a script |
| RuleAdapter.CleanupEvents | core/src/main/java/com/github/dbunit/rules/DBUnitRule.java:113-137 | the finally block produces only cleanup events (statements, scripts, clear, logged failures) |
| RuleAdapter.FirstScriptFailure | core/src/main/java/com/github/dbunit/rules/DBUnitRule.java:124-126 | the index of the first failing script: every earlier script returns, and the script at that index throws |
| RuleAdapter.ScriptsRunInOrderUntilFirstFailure | core/src/main/java/com/github/dbunit/rules/DBUnitRule.java:122-134 | scripts run in array order up to and including the first that throws, none after it, and that script's throwable ends the loop |
| RuleAdapter.ScriptFailure | core/src/main/java/com/github/dbunit/rules/DBUnitRule.java:124-126 | there is a script throwable exactly when some script throws |
| RuleAdapter.ScriptStage | core/src/main/java/com/github/dbunit/rules/DBUnitRule.java:122-134 | the script stage runs the scripts up to the first failure; a DatabaseUnitException or an Error is rethrown, and any other Exception is logged right after the failing script |
| RuleAdapter.ScriptStageRaises | core/src/main/java/com/github/dbunit/rules/DBUnitRule.java:127-133 | the script stage completes with a throwable exactly when the first script failure is a DatabaseUnitException or an Error |
| RuleAdapter.CleanupStatementsFirst | core/src/main/java/com/github/dbunit/rules/DBUnitRule.java:115-121 | the finally block opens with the post statements; an Exception from them is logged as the next event, and an Error ends the block |
| RuleAdapter.CleanupScriptsAfterStatements | core/src/main/java/com/github/dbunit/rules/DBUnitRule.java:113-134 | unless an Error ended the statements, the script stage follows them; when the scripts raise, the block ends there with that throwable |
| RuleAdapter.CleanupClearLast | core/src/main/java/com/github/dbunit/rules/DBUnitRule.java:135-137 | when nothing was raised before it, clean-after is the last event exactly when configured, and its outcome is the block's outcome |
| RuleAdapter.ClearOnlyWhenConfigured | core/src/main/java/com/github/dbunit/rules/DBUnitRule.java:113-137 | the database is cleared exactly when cleanAfter is set and neither an Error from the statements nor a rethrown script failure came first |
| RuleAdapter.SetupFailureSkipsBody | core/src/main/java/com/github/dbunit/rules/DBUnitRule.java:76-81 | a failed setDBUnitConfig or createDataSet, or a null executor, ends evaluate with the cause wrapped in a RuntimeException (an Error unwrapped); at most the two load calls happen, so there is no begin, body or cleanup |
| RuleAdapter.BeginOnlyAfterLoad | core/src/main/java/com/github/dbunit/rules/DBUnitRule.java:82-87 | a transaction is begun exactly when a DataSet was loaded, it is transactional and an entity manager is active, and then right after the two load calls |
| RuleAdapter.BeginAfterSuccessfulLoad | core/src/main/java/com/github/dbunit/rules/DBUnitRule.java:82-87 | after a successful load, a transaction is begun exactly when the DataSet is transactional and an entity manager is active, right after the two load calls |
| RuleAdapter.LeakReportedBeforeCommit | core/src/main/java/com/github/dbunit/rules/DBUnitRule.java:88-112 | with leak hunting on and a grown count after the body, the try block raises a LeakHunterException carrying the difference before any commit or comparison; the catch block rolls a transactional test back, and only a rollback failure replaces the leak failure |
| RuleAdapter.BodyExceptionRollsBack | core/src/main/java/com/github/dbunit/rules/DBUnitRule.java:94-112 | an Exception from the body of a transactional test is followed by a rollback and rethrown, unless the rollback throws; there is no commit and no comparison |
| RuleAdapter.BodyErrorSkipsRollback | core/src/main/java/com/github/dbunit/rules/DBUnitRule.java:94-112 | an Error from the body escapes the catch block: the transaction is neither committed nor rolled back, and the Error propagates from the guarded run |
| RuleAdapter.NormalCompletionCommits | core/src/main/java/com/github/dbunit/rules/DBUnitRule.java:83-107 | when nothing throws, the guarded run is begin, baseline, body, leak probe, commit, then the comparison; it has no rollback and completes normally |
| RuleAdapter.ComparisonFailureAfterCommitRollsBack | core/src/main/java/com/github/dbunit/rules/DBUnitRule.java:104-112 | a comparison failure after the commit still reaches the rollback, so the guarded run holds commit, compare and rollback, and rethrows the comparison failure unless the rollback throws |
| RuleAdapter.CommitFailureRollsBack | core/src/main/java/com/github/dbunit/rules/DBUnitRule.java:104-112 | a failing commit of a transactional test is followed by a rollback, and the commit's throwable is rethrown unless the rollback throws |
| RuleAdapter.BeginFailureSkipsBody | core/src/main/java/com/github/dbunit/rules/DBUnitRule.java:83-112 | a failing begin skips the body; an Exception is followed by a rollback, an Error escapes without one |
| RuleAdapter.RollbackExactlyOnException | core/src/main/java/com/github/dbunit/rules/DBUnitRule.java:83-112 | over every run of the try block, which never rolls back itself: a transactional test whose try block ended in an Exception gets exactly one rollback, appended to the try block's events, and rethrows that Exception unless the rollback throws its own; otherwise the catch block changes nothing |
| RuleAdapter.CleanupAlwaysRunsAfterLoad | core/src/main/java/com/github/dbunit/rules/DBUnitRule.java:76-138 | once the load succeeded, evaluate() is the two load calls, the guarded run and then the finally block, whatever the guarded run did; a throwable from the finally block replaces the guarded run's. This carries each statement about the guarded run over to the whole of evaluate() |
| RuleAdapter.WithoutDataSetOnlyBodyAndComparison | core/src/main/java/com/github/dbunit/rules/DBUnitRule.java:139-142 | without a DataSet the trace is the body, then the comparison if the body returned, and nothing else |
| RuleAdapter.ExecutorSelection | core/src/main/java/com/github/dbunit/rules/DBUnitRule.java:72-75 | a blank executorId keeps the rule's executor; any other id selects the registry entry of that exact id, or null |
| RuleAdapter.UnregisteredExecutorFailsLoad | core/src/main/java/com/github/dbunit/rules/DBUnitRule.java:72-81 | a non-blank executorId with no registry entry fails the load with a wrapped NullPointerException before anything runs |
| ExtensionAdapter.TypedGet | junit5/src/main/java/com/github/dbunit/junit5/DBUnitExtension.java:100-117 | `Store.get(key, type)`: null exactly when the slot is empty, the entry when it has the required type, and otherwise a thrown RuntimeException naming the key |
| ExtensionAdapter.TypedGetAfterPut | junit5/src/main/java/com/github/dbunit/junit5/DBUnitExtension.java:64-71 | a typed get after a put reads the value back under its own type, throws under another type, and reads every other slot as before |
| ExtensionAdapter.ShouldCreateDataSet | junit5/src/main/java/com/github/dbunit/junit5/DBUnitExtension.java:86-88 | a DataSet is present on the method or the class; `PresenceMatchesResolution` states that it agrees with the method-then-class lookup |
| ExtensionAdapter.ShouldCompareDataSet | junit5/src/main/java/com/github/dbunit/junit5/DBUnitExtension.java:90-92 | an ExpectedDataSet is present on the method or the class; `PresenceMatchesResolution` states that it agrees with the method-then-class lookup |
| ExtensionAdapter.ExecutorNamespace | junit5/src/main/java/com/github/dbunit/junit5/DBUnitExtension.java:128-130 | the store namespace of a test class; `NamespaceIdentifiesClass` states that different classes get different namespaces |
| ExtensionAdapter.Before | junit5/src/main/java/com/github/dbunit/junit5/DBUnitExtension.java:37-83 | the first callback's run and the store it leaves; `BeforeTestExecution` is proved equal to it, and the lemmas from `BeforeIsNoOpWithoutDataSet` to `BeginIffLoadedAndTransactional` state its properties |
| ExtensionAdapter.After | junit5/src/main/java/com/github/dbunit/junit5/DBUnitExtension.java:96-126 | the second callback's run on the test's store; `AfterTestExecution` is proved equal to it, and `LeakFailsAfterPhaseFirst`, `CommitAndCompareOnlyWithExpected` and `AfterReadsWhatBeforeStored` state its properties |
| ExtensionAdapter.BeforeTestExecution | junit5/src/main/java/com/github/dbunit/junit5/DBUnitExtension.java:37-83 | the callback's run and the store it leaves equal `Before` on the store it found |
| ExtensionAdapter.StoreEntries | junit5/src/main/java/com/github/dbunit/junit5/DBUnitExtension.java:64-71 | the puts leave the store as `StoredSlots`: executor and model, and with leak hunting on the leak hunter and its baseline |
| ExtensionAdapter.LoadFollowsConfiguration | junit5/src/main/java/com/github/dbunit/junit5/DBUnitExtension.java:43-77 | once the connection is found and the executor configured, the callback is the configured events, then the load and begin; the store is left as `StoredSlots` of the store found |
| ExtensionAdapter.BeginEndsLoad | junit5/src/main/java/com/github/dbunit/junit5/DBUnitExtension.java:73-81 | the load comes right after the events so far; a begin follows it, as the last event, exactly when the load succeeded, the dataset is transactional and an entity manager is active |
| ExtensionAdapter.LoadDataSet | junit5/src/main/java/com/github/dbunit/junit5/DBUnitExtension.java:73-81 | the load and the begin equal `LoadAndBegin` after the events so far |
| ExtensionAdapter.AfterTestExecution | junit5/src/main/java/com/github/dbunit/junit5/DBUnitExtension.java:96-126 | the callback's run equals `After` on the store, which it does not change |
| ExtensionAdapter.PresenceMatchesResolution | junit5/src/main/java/com/github/dbunit/junit5/DBUnitExtension.java:86-92 | the two presence tests hold exactly when the method-then-class lookup finds an annotation |
| ExtensionAdapter.NamespaceIdentifiesClass | junit5/src/main/java/com/github/dbunit/junit5/DBUnitExtension.java:128-130 | two test classes get the same store namespace exactly when they are the same class |
| ExtensionAdapter.BeforeIsNoOpWithoutDataSet | junit5/src/main/java/com/github/dbunit/junit5/DBUnitExtension.java:39-41 | without a DataSet the first callback does nothing and leaves the store as it was |
| ExtensionAdapter.BeforeNeverMissesAnnotation | junit5/src/main/java/com/github/dbunit/junit5/DBUnitExtension.java:49-57 | the RuntimeException for a missing DataSet annotation is never raised |
| ExtensionAdapter.EntityManagerClearedFirst | junit5/src/main/java/com/github/dbunit/junit5/DBUnitExtension.java:43-47 | with a DataSet, an active entity manager is cleared first, the connection lookup comes next, and a failed lookup ends the callback with the store untouched |
| ExtensionAdapter.BeforeOpensWithLookup | junit5/src/main/java/com/github/dbunit/junit5/DBUnitExtension.java:43-47 | with a DataSet the callback starts with the entity manager clear (when active) and the connection lookup, and never clears the entity manager again |
| ExtensionAdapter.BeforeStoresUnderClassNamespace | junit5/src/main/java/com/github/dbunit/junit5/DBUnitExtension.java:61-71 | once the executor is configured, the executor and model are stored under the class namespace, and the leak hunter and baseline too exactly when leak hunting is on; no other namespace changes; an earlier failure leaves the store as it was |
| ExtensionAdapter.LeakBaselineStoredBeforeLoad | junit5/src/main/java/com/github/dbunit/junit5/DBUnitExtension.java:67-77 | the baseline probe is the event right before createDataSet, and the baseline is stored whatever the load does |
| ExtensionAdapter.DataSetFailureIsWrapped | junit5/src/main/java/com/github/dbunit/junit5/DBUnitExtension.java:73-77 | a createDataSet Exception is rethrown wrapped in a RuntimeException naming the test method; the trace ends with createDataSet and holds no begin |
| ExtensionAdapter.BeginIffLoadedAndTransactional | junit5/src/main/java/com/github/dbunit/junit5/DBUnitExtension.java:78-81 | a transaction is begun exactly when the dataset was loaded, it is transactional and an entity manager is active; the begin is then the last event and occurs once |
| ExtensionAdapter.LeakFailsAfterPhaseFirst | junit5/src/main/java/com/github/dbunit/junit5/DBUnitExtension.java:97-105 | with a stored baseline that the count after the test exceeds, the second callback raises a LeakHunterException with the difference at once: no commit and no comparison |
| ExtensionAdapter.CommitAndCompareOnlyWithExpected | junit5/src/main/java/com/github/dbunit/junit5/DBUnitExtension.java:108-123 | the second callback commits and compares only with an ExpectedDataSet, and commits before comparing; it never begins, rolls back or cleans up |
| ExtensionAdapter.AfterReadsWhatBeforeStored | junit5/src/main/java/com/github/dbunit/junit5/DBUnitExtension.java:64-71 | after a first callback that stored its entries, the second does the leak check against the stored baseline, then commit and comparison with the stored model and executor; no entry is missing or mistyped |
| ExtensionAdapter.OtherClassesDoNotShare | junit5/src/main/java/com/github/dbunit/junit5/DBUnitExtension.java:128-130 | entries are kept apart by class namespace: the puts of the first callback under one class's namespace leave unchanged every slot that `After` reads under another class's namespace |
| ExtensionAdapter.LeakHuntingWithoutDataSetFails | junit5/src/main/java/com/github/dbunit/junit5/DBUnitExtension.java:97-101 | with leak hunting on and no DataSet, nothing is stored, so on the test's fresh store the second callback fails unboxing a null baseline count |
| ExtensionAdapter.ExpectedWithoutDataSetFails | junit5/src/main/java/com/github/dbunit/junit5/DBUnitExtension.java:108-118 | with an ExpectedDataSet, no DataSet and no leak hunting, nothing is stored, so on the test's fresh store the second callback fails on the null model before any commit or comparison |

## Left out

- `findTestConnection` (reflection over the test class's fields and methods) is
  modelled only as "returns a holder or fails with a RuntimeException". Its `null`
  return, when the class declares no connection holder, is not modelled.
- `DBUnitConfig.from(method)` in the extension is not part of this model. Its
  result is a parameter of both callbacks, and both receive the same value.
- The rule's `resolveDBUnitConfig` keeps only the leak-hunting flag of the
  configuration. `DBUnitConfig.fromGlobalConfig()` is a parameter.
- `isEntityManagerActive()` is one scenario flag per adapter run. The Java asks it
  again at each use and could in principle get different answers.
- The leak hunter's counts are inputs and cannot fail. `LeakHunterFactory.from`
  and the rule's `executor.getConnectionHolder().getConnection()` are not modelled
  as failing calls. `em().clear()` in the extension is not modelled as failing.
- `DataSetExecutorImpl.instance` in the extension is an event that records the
  executor id and holder. Its own registry effects are not part of this model.
- The internals of `DataSetExecutorImpl`, `LeakHunter`, `EntityManagerProvider`
  and `DBUnitConfig` are not part of this model. Their calls are abstract, with
  scenario-given outcomes.
- Logging is a `Logged` event. Exception messages other than the test method
  name in the extension's load failure are not modelled.
- The JUnit `Statement`, `Description` and `ExtensionContext` plumbing is reduced
  to the test method value and the store map. The `apply` wrapper is modelled by
  `DBUnitRule.Evaluate` itself.
- The store map stands for the store of one test's extension context. JUnit 5
  gives each test method its own store, a child of its class's store, and drops
  it when the test ends. That hierarchy and that lifetime are not modelled:
  nothing carries over from one test to the next.
- LoadAndBegin: the extension builds the wrapping RuntimeException's message
  with `String.format`, and the cause's message is part of the format string,
  whose own `%s` already takes the only argument, the method name. Any
  conversion in the message that needs an argument of its own (such as `%s` or
  `%d`), or any malformed `%`, makes `String.format` throw an
  `IllegalFormatException`, which then escapes in place of the wrapper and loses
  the cause. The model always wraps.
- The thread safety of the process-wide executor registry is not modelled, since
  the model is sequential.
- The `instance` overloads that take a raw `Connection` or use the default executor
  id, and the `getDataSetExecutor` getter, are not modelled. They only delegate.
- `DataSetExporter` is an interface without behaviour and is not part of this
  model.
- An annotation's `executorId` is never null in Java, so `executorNameIsProvided`
  is modelled without its null test.
- The finally block's `model != null` and null-array tests are always true for a
  model built from an annotation, so they are not modelled.
