/** The JUnit 5 adapter, DBUnitExtension: the lifecycle split into two callbacks.
    beforeTestExecution looks up the test's connection, creates the executor, stores
    it with the dataset model (and, with leak hunting on, the leak hunter and its
    baseline count) in the store namespace of the test class, loads the dataset and
    begins a transaction. afterTestExecution reads those entries back, checks for
    leaked connections, and commits and compares when an ExpectedDataSet is declared.
    There is no rollback and no post-test cleanup in this adapter. */
module ExtensionAdapter {
  import opened Fixtures

  /** The store keys. */
  const EXECUTOR_STORE := "executor"
  const MODEL_STORE := "model"
  const LEAK_STORE := "leakHunter"
  const CONNECTION_BEFORE_STORE := "openConnectionsBefore"

  const NAMESPACE_PREFIX := "DBUnitExtension-"

  /** What the collaborators do during one test: the connection lookup (None when it fails),
      the outcome of each call, and the two connection counts the leak hunter reports. */
  datatype Scenario = Scenario(
    entityManagerActive: bool,
    testConnection: Option<ConnectionHolder>,
    setDBUnitConfig: Outcome,
    openConnectionsBefore: nat,
    createDataSet: Outcome,
    begin: Outcome,
    openConnectionsAfter: nat,
    commit: Outcome,
    compare: Outcome)

  /** A store entry's address: the namespace and the key inside it. */
  datatype Slot = Slot(namespace: string, key: string)

  /** The values the extension puts into the store. */
  datatype StoreValue =
    | ExecutorValue(executorId: string, connectionHolder: ConnectionHolder)
    | ModelValue(model: DataSetConfig)
    | LeakHunterValue(connectionHolder: ConnectionHolder)
    | CountValue(count: nat)

  /** The store of one test's extension context, which both callbacks of that test reach.
      A test starts with an empty store; what it puts there is gone when the test ends. */
  class ExtensionStore {
    var slots: map<Slot, StoreValue>

    /** The store of a test that has not run yet. */
    constructor ()
      ensures slots == map[]
    {
      slots := map[];
    }

    /** Store.put: the entry under `slot` becomes `value`; every other entry stays. */
    method Put(slot: Slot, value: StoreValue)
      modifies this
      ensures slots == old(slots)[slot := value]
    {
      slots := slots[slot := value];
    }
  }

  /** The entry under `slot`, or None when there is none: the lookup the lemmas below use to
      speak about the store's contents. */
  function Get(slots: map<Slot, StoreValue>, slot: Slot): Option<StoreValue> {
    if slot in slots then Some(slots[slot]) else None
  }

  /** The Java types the second callback asks the store for. */
  datatype ValueClass = ExecutorClass | ModelClass | LeakHunterClass | IntegerClass

  /** The Java type of a stored value. */
  function ClassOf(v: StoreValue): ValueClass {
    match v
    case ExecutorValue(_, _) => ExecutorClass
    case ModelValue(_) => ModelClass
    case LeakHunterValue(_) => LeakHunterClass
    case CountValue(_) => IntegerClass
  }

  /** What Store.get(key, requiredType) does: it returns the entry or null, or it throws. */
  datatype Lookup = Got(entry: Option<StoreValue>) | Threw(fault: Fault)

  /** Store.get(key, requiredType): null when the slot is empty, the entry when it is an instance
      of the required type, and otherwise a thrown RuntimeException (ExtensionContextException). */
  function TypedGet(slots: map<Slot, StoreValue>, slot: Slot, required: ValueClass): (r: Lookup)
    ensures r.Threw? <==> slot in slots && ClassOf(slots[slot]) != required
    ensures r.Threw? ==> r.fault == Raised(Exception, StoreSite(slot.key))
    ensures r == Got(None) <==> slot !in slots
    ensures r.Got? && r.entry.Some? ==> slot in slots && r.entry.value == slots[slot] && ClassOf(r.entry.value) == required
  {
    if slot !in slots then Got(None)
    else if ClassOf(slots[slot]) == required then Got(Some(slots[slot]))
    else Threw(Raised(Exception, StoreSite(slot.key)))
  }

  /** A typed get after a put: the value put is read back under its own type, a read under
      another type throws, and every other slot reads as before. */
  lemma TypedGetAfterPut(slots: map<Slot, StoreValue>, slot: Slot, value: StoreValue, other: Slot, required: ValueClass)
    ensures TypedGet(slots[slot := value], slot, ClassOf(value)) == Got(Some(value))
    ensures required != ClassOf(value) ==>
              TypedGet(slots[slot := value], slot, required) == Threw(Raised(Exception, StoreSite(slot.key)))
    ensures other != slot ==> TypedGet(slots[slot := value], other, required) == TypedGet(slots, other, required)
  {
  }

  /** What one callback leaves behind: its run and the store. */
  datatype Phase = Phase(run: Run, slots: map<Slot, StoreValue>)

  predicate ShouldCreateDataSet(t: TestMethod) {
    t.onMethod.dataSet.Some? || t.onClass.dataSet.Some?
  }

  predicate ShouldCompareDataSet(t: TestMethod) {
    t.onMethod.expectedDataSet.Some? || t.onClass.expectedDataSet.Some?
  }

  /** The namespace of a test class: the prefix followed by the class's toString(), which is
      "class " and its name. */
  function ExecutorNamespace(testClass: string): string {
    NAMESPACE_PREFIX + "class " + testClass
  }

  // ---------------------------------------------------------------------------
  // beforeTestExecution

  /** The store after the puts of a test whose connection is found and whose executor is configured. */
  function StoredSlots(namespace: string, model: DataSetConfig, connectionHolder: ConnectionHolder,
                       config: DBUnitConfig, openConnectionsBefore: nat, slots: map<Slot, StoreValue>): map<Slot, StoreValue>
  {
    var withModel := slots[Slot(namespace, EXECUTOR_STORE) := ExecutorValue(model.executorId, connectionHolder)]
                          [Slot(namespace, MODEL_STORE) := ModelValue(model)];
    if config.leakHunter then
      withModel[Slot(namespace, LEAK_STORE) := LeakHunterValue(connectionHolder)]
               [Slot(namespace, CONNECTION_BEFORE_STORE) := CountValue(openConnectionsBefore)]
    else withModel
  }

  /** createDataSet, whose Exception is wrapped in a RuntimeException naming the test method,
      then begin when the dataset is transactional and an entity manager is active. */
  function LoadAndBegin(t: TestMethod, model: DataSetConfig, sc: Scenario): Run {
    var load := WrapSetupFailure(Some(t.name),
      Call(CreateDataSet(model.executorId, model), sc.createDataSet, CreateDataSetSite));
    var isTransactional := model.transactional && sc.entityManagerActive;
    Then(load, if isTransactional then Call(Begin, sc.begin, BeginSite) else Skip)
  }

  /** The first events of the callback: the entity manager is cleared when one is active, then
      the test's connection is looked up. */
  function Opening(sc: Scenario): seq<Event> {
    (if sc.entityManagerActive then [ClearEntityManager] else []) + [FindTestConnection]
  }

  /** beforeTestExecution: its run and the store it leaves. */
  function Before(t: TestMethod, config: DBUnitConfig, slots: map<Slot, StoreValue>, sc: Scenario): Phase {
    if !ShouldCreateDataSet(t) then Phase(Skip, slots)
    else
      var opening := Opening(sc);
      match sc.testConnection
      case None => Phase(Run(opening, Some(Raised(Exception, FindConnectionSite))), slots)
      case Some(holder) =>
        match ResolveDataSet(t)
        case None => Phase(Run(opening, Some(DataSetAnnotationMissing(t.name))), slots)
        case Some(model) =>
          var configured := Then(Run(opening + [CreateExecutor(model.executorId, holder)], None),
                                 Call(SetDBUnitConfig(model.executorId, config), sc.setDBUnitConfig, SetDBUnitConfigSite));
          if configured.fault.Some? then Phase(configured, slots)
          else
            var baseline := if config.leakHunter then [OpenConnectionsBefore(sc.openConnectionsBefore)] else [];
            Phase(Then(Run(configured.trace + baseline, None), LoadAndBegin(t, model, sc)),
                  StoredSlots(ExecutorNamespace(t.testClass), model, holder, config, sc.openConnectionsBefore, slots))
  }

  /** The callback itself, on the shared store. */
  method BeforeTestExecution(t: TestMethod, config: DBUnitConfig, store: ExtensionStore, sc: Scenario)
    returns (run: Run)
    modifies store
    ensures run == Before(t, config, old(store.slots), sc).run
    ensures store.slots == Before(t, config, old(store.slots), sc).slots
  {
    if !ShouldCreateDataSet(t) {
      return Skip;
    }
    var trace: seq<Event> := [];
    if sc.entityManagerActive {
      trace := [ClearEntityManager];
    }
    trace := trace + [FindTestConnection];
    if sc.testConnection.None? {
      return Run(trace, Some(Raised(Exception, FindConnectionSite)));
    }
    var connectionHolder := sc.testConnection.value;

    var annotation := t.onMethod.dataSet;
    if annotation.None? {
      annotation := t.onClass.dataSet;
    }
    if annotation.None? {
      // the DataSet annotation was found on the method or the class a moment ago
      assert false;
    }
    var model := annotation.value;
    trace := trace + [CreateExecutor(model.executorId, connectionHolder), SetDBUnitConfig(model.executorId, config)];
    if sc.setDBUnitConfig.Throws? {
      return Run(trace, Some(Raised(sc.setDBUnitConfig.kind, SetDBUnitConfigSite)));
    }

    LoadFollowsConfiguration(t, config, store.slots, sc);
    StoreEntries(store, ExecutorNamespace(t.testClass), model, connectionHolder, config, sc.openConnectionsBefore);
    if config.leakHunter {
      trace := trace + [OpenConnectionsBefore(sc.openConnectionsBefore)];
    }
    assert trace == ConfiguredTrace(t, config, sc);
    run := LoadDataSet(t, model, trace, sc);
  }

  /** The puts of the callback: executor and model, then, with leak hunting on, the leak hunter
      and its baseline count. */
  method StoreEntries(store: ExtensionStore, namespace: string, model: DataSetConfig, connectionHolder: ConnectionHolder,
                      config: DBUnitConfig, openConnectionsBefore: nat)
    modifies store
    ensures store.slots == StoredSlots(namespace, model, connectionHolder, config, openConnectionsBefore, old(store.slots))
  {
    store.Put(Slot(namespace, EXECUTOR_STORE), ExecutorValue(model.executorId, connectionHolder));
    store.Put(Slot(namespace, MODEL_STORE), ModelValue(model));
    if config.leakHunter {
      store.Put(Slot(namespace, LEAK_STORE), LeakHunterValue(connectionHolder));
      store.Put(Slot(namespace, CONNECTION_BEFORE_STORE), CountValue(openConnectionsBefore));
    }
  }

  /** The tail of the callback: the dataset load and the transaction begin, after `trace`. */
  method LoadDataSet(t: TestMethod, model: DataSetConfig, trace: seq<Event>, sc: Scenario) returns (run: Run)
    ensures run == Then(Run(trace, None), LoadAndBegin(t, model, sc))
  {
    var events := trace + [CreateDataSet(model.executorId, model)];
    if sc.createDataSet.Throws? {
      var cause := Raised(sc.createDataSet.kind, CreateDataSetSite);
      return Run(events, Some(if cause.IsException() then DataSetNotCreated(Some(t.name), cause) else cause));
    }
    var fault: Option<Fault> := None;
    var isTransactional := model.transactional && sc.entityManagerActive;
    if isTransactional {
      events := events + [Begin];
      fault := Failure(sc.begin, BeginSite);
    }
    run := Run(events, fault);
  }

  // ---------------------------------------------------------------------------
  // afterTestExecution

  /** The leak check of the second callback, on the entries stored under `namespace`. A
      mistyped entry makes Store.get throw; a missing baseline is a null Integer unboxed, a
      missing leak hunter a null receiver. */
  function LeakCheckAfter(t: TestMethod, namespace: string, slots: map<Slot, StoreValue>, sc: Scenario): Run {
    var hunter := TypedGet(slots, Slot(namespace, LEAK_STORE), LeakHunterClass);
    var count := TypedGet(slots, Slot(namespace, CONNECTION_BEFORE_STORE), IntegerClass);
    if hunter.Threw? then Run([], Some(hunter.fault))
    else if count.Threw? then Run([], Some(count.fault))
    else if count.entry.None? then Run([], Some(Raised(NullPointerException, StoreSite(CONNECTION_BEFORE_STORE))))
    else if hunter.entry.None? then Run([], Some(Raised(NullPointerException, StoreSite(LEAK_STORE))))
    else LeakCheck(t.name, count.entry.value.count, sc.openConnectionsAfter)
  }

  /** Commit (when the stored model is transactional and an entity manager is active), then the
      comparison with the stored executor. */
  function CompareAfter(t: TestMethod, namespace: string, slots: map<Slot, StoreValue>, sc: Scenario): Run {
    match ResolveExpectedDataSet(t)
    case None => Skip
    case Some(expected) =>
      var executor := TypedGet(slots, Slot(namespace, EXECUTOR_STORE), ExecutorClass);
      var model := TypedGet(slots, Slot(namespace, MODEL_STORE), ModelClass);
      if executor.Threw? then Run([], Some(executor.fault))
      else if model.Threw? then Run([], Some(model.fault))
      else if model.entry.None? then Run([], Some(Raised(NullPointerException, StoreSite(MODEL_STORE))))
      else
        var isTransactional := model.entry.value.model.transactional && sc.entityManagerActive;
        Then(if isTransactional then Call(Commit, sc.commit, CommitSite) else Skip,
             if executor.entry.None? then Run([], Some(Raised(NullPointerException, CompareSite)))
             else Call(Compare(executor.entry.value.executorId, ComparisonConfig(expected)), sc.compare, CompareSite))
  }

  /** afterTestExecution: the leak check, then the commit and comparison. */
  function After(t: TestMethod, config: DBUnitConfig, slots: map<Slot, StoreValue>, sc: Scenario): Run {
    var namespace := ExecutorNamespace(t.testClass);
    Then(if config.leakHunter then LeakCheckAfter(t, namespace, slots, sc) else Skip,
         if ShouldCompareDataSet(t) then CompareAfter(t, namespace, slots, sc) else Skip)
  }

  /** The callback itself; it only reads the store. */
  method AfterTestExecution(t: TestMethod, config: DBUnitConfig, store: ExtensionStore, sc: Scenario)
    returns (run: Run)
    ensures run == After(t, config, store.slots, sc)
  {
    var namespace := ExecutorNamespace(t.testClass);
    run := Skip;
    if config.leakHunter {
      var leakHunter := TypedGet(store.slots, Slot(namespace, LEAK_STORE), LeakHunterClass);
      if leakHunter.Threw? {
        return Run([], Some(leakHunter.fault));
      }
      var stored := TypedGet(store.slots, Slot(namespace, CONNECTION_BEFORE_STORE), IntegerClass);
      if stored.Threw? {
        return Run([], Some(stored.fault));
      }
      if stored.entry.None? {
        return Run([], Some(Raised(NullPointerException, StoreSite(CONNECTION_BEFORE_STORE))));
      }
      var openConnectionsBefore := stored.entry.value.count;
      if leakHunter.entry.None? {
        return Run([], Some(Raised(NullPointerException, StoreSite(LEAK_STORE))));
      }
      var openConnectionsAfter := sc.openConnectionsAfter;
      run := Run([OpenConnectionsAfter(openConnectionsAfter)], None);
      if openConnectionsAfter > openConnectionsBefore {
        return Run(run.trace, Some(LeakHunterException(t.name, openConnectionsAfter - openConnectionsBefore)));
      }
    }
    if ShouldCompareDataSet(t) {
      var expectedDataSet := t.onMethod.expectedDataSet;
      if expectedDataSet.None? {
        expectedDataSet := t.onClass.expectedDataSet;
      }
      if expectedDataSet.Some? {
        var executor := TypedGet(store.slots, Slot(namespace, EXECUTOR_STORE), ExecutorClass);
        if executor.Threw? {
          return Run(run.trace, Some(executor.fault));
        }
        var datasetConfig := TypedGet(store.slots, Slot(namespace, MODEL_STORE), ModelClass);
        if datasetConfig.Threw? {
          return Run(run.trace, Some(datasetConfig.fault));
        }
        if datasetConfig.entry.None? {
          return Run(run.trace, Some(Raised(NullPointerException, StoreSite(MODEL_STORE))));
        }
        var isTransactional := datasetConfig.entry.value.model.transactional && sc.entityManagerActive;
        if isTransactional {
          run := Run(run.trace + [Commit], Failure(sc.commit, CommitSite));
          if run.fault.Some? {
            return;
          }
        }
        if executor.entry.None? {
          return Run(run.trace, Some(Raised(NullPointerException, CompareSite)));
        }
        var expected := ComparisonConfig(expectedDataSet.value);
        run := Run(run.trace + [Compare(executor.entry.value.executorId, expected)], Failure(sc.compare, CompareSite));
      }
    }
  }

  // ---------------------------------------------------------------------------
  // Properties of the two callbacks.

  /** The presence tests agree with the method-then-class annotation lookup. */
  lemma PresenceMatchesResolution(t: TestMethod)
    ensures ShouldCreateDataSet(t) <==> ResolveDataSet(t).Some?
    ensures ShouldCompareDataSet(t) <==> ResolveExpectedDataSet(t).Some?
  {
  }

  /** Two test classes share a namespace only when they are the same class. */
  lemma NamespaceIdentifiesClass(a: string, b: string)
    ensures ExecutorNamespace(a) == ExecutorNamespace(b) <==> a == b
  {
    var n := |NAMESPACE_PREFIX + "class "|;
    assert ExecutorNamespace(a)[n..] == a;
    assert ExecutorNamespace(b)[n..] == b;
  }

  /** Without a DataSet on the method or its class, the first callback does nothing. */
  lemma BeforeIsNoOpWithoutDataSet(t: TestMethod, config: DBUnitConfig, slots: map<Slot, StoreValue>, sc: Scenario)
    requires ResolveDataSet(t).None?
    ensures Before(t, config, slots, sc) == Phase(Skip, slots)
  {
  }

  /** The RuntimeException for a missing DataSet annotation is never raised: the callback only
      goes on when the annotation is present. */
  lemma BeforeNeverMissesAnnotation(t: TestMethod, config: DBUnitConfig, slots: map<Slot, StoreValue>, sc: Scenario)
    ensures Before(t, config, slots, sc).run.fault != Some(DataSetAnnotationMissing(t.name))
  {
  }

  /** With a DataSet, an active entity manager is cleared first of all, and the connection
      lookup comes next; a failed lookup ends the callback with the store untouched. */
  lemma EntityManagerClearedFirst(t: TestMethod, config: DBUnitConfig, slots: map<Slot, StoreValue>, sc: Scenario)
    requires ShouldCreateDataSet(t)
    ensures var r := Before(t, config, slots, sc).run;
      var lookup := if sc.entityManagerActive then 1 else 0;
      && (ClearEntityManager in r.trace <==> sc.entityManagerActive)
      && |r.trace| > lookup && r.trace[lookup] == FindTestConnection
      && (sc.entityManagerActive ==> r.trace[0] == ClearEntityManager)
    ensures sc.testConnection.None? ==>
      Before(t, config, slots, sc) ==
        Phase(Run((if sc.entityManagerActive then [ClearEntityManager] else []) + [FindTestConnection],
                  Some(Raised(Exception, FindConnectionSite))), slots)
  {
    BeforeOpensWithLookup(t, config, slots, sc);
    var r := Before(t, config, slots, sc).run;
    assert r.trace == Opening(sc) + r.trace[|Opening(sc)|..];
  }

  /** With a DataSet the callback's trace starts with the opening events, and the entity
      manager is not cleared again afterwards. */
  lemma BeforeOpensWithLookup(t: TestMethod, config: DBUnitConfig, slots: map<Slot, StoreValue>, sc: Scenario)
    requires ShouldCreateDataSet(t)
    ensures OpensWith(Before(t, config, slots, sc).run.trace, Opening(sc))
  {
    var opening := Opening(sc);
    assert OpensWith(opening, opening);
    if sc.testConnection.Some? {
      var model := ResolveDataSet(t).value;
      var configured := opening + [CreateExecutor(model.executorId, sc.testConnection.value), SetDBUnitConfig(model.executorId, config)];
      OpensWithExtended(opening, opening, [CreateExecutor(model.executorId, sc.testConnection.value), SetDBUnitConfig(model.executorId, config)]);
      if sc.setDBUnitConfig == Returns {
        var baseline := if config.leakHunter then [OpenConnectionsBefore(sc.openConnectionsBefore)] else [];
        OpensWithExtended(configured, opening, baseline);
        var prefix := ConfiguredTrace(t, config, sc);
        OpensWithExtended(prefix, opening, [CreateDataSet(model.executorId, model)]);
        var begun := sc.createDataSet == Returns && model.transactional && sc.entityManagerActive;
        OpensWithExtended(prefix + [CreateDataSet(model.executorId, model)], opening, if begun then [Begin] else []);
        LoadFollowsConfiguration(t, config, slots, sc);
        BeginEndsLoad(t, model, prefix, sc);
      }
    }
  }

  /** `s` starts with `opening` and holds no ClearEntityManager after it. */
  predicate OpensWith(s: seq<Event>, opening: seq<Event>) {
    |s| >= |opening| && s[..|opening|] == opening && ClearEntityManager !in s[|opening|..]
  }

  lemma OpensWithExtended(s: seq<Event>, opening: seq<Event>, tail: seq<Event>)
    requires OpensWith(s, opening) && ClearEntityManager !in tail
    ensures OpensWith(s + tail, opening)
  {
    assert (s + tail)[..|opening|] == s[..|opening|];
    assert (s + tail)[|opening|..] == s[|opening|..] + tail;
  }

  /** Once the connection is found and the executor configured, the executor and the model are
      stored under the test class's namespace, the leak hunter and its baseline too exactly when
      leak hunting is on, and no entry of another namespace changes. A failure before that point
      leaves the store as it was. */
  lemma BeforeStoresUnderClassNamespace(t: TestMethod, config: DBUnitConfig, slots: map<Slot, StoreValue>, sc: Scenario)
    ensures var after := Before(t, config, slots, sc).slots;
      var namespace := ExecutorNamespace(t.testClass);
      && (forall slot: Slot :: slot.namespace != namespace ==> Get(after, slot) == Get(slots, slot))
      && (!(ShouldCreateDataSet(t) && sc.testConnection.Some? && sc.setDBUnitConfig == Returns) ==> after == slots)
      && (ShouldCreateDataSet(t) && sc.testConnection.Some? && sc.setDBUnitConfig == Returns ==>
            var model := ResolveDataSet(t).value;
            var holder := sc.testConnection.value;
            && Get(after, Slot(namespace, EXECUTOR_STORE)) == Some(ExecutorValue(model.executorId, holder))
            && Get(after, Slot(namespace, MODEL_STORE)) == Some(ModelValue(model))
            && (config.leakHunter ==>
                  && Get(after, Slot(namespace, LEAK_STORE)) == Some(LeakHunterValue(holder))
                  && Get(after, Slot(namespace, CONNECTION_BEFORE_STORE)) == Some(CountValue(sc.openConnectionsBefore)))
            && (!config.leakHunter ==>
                  && Get(after, Slot(namespace, LEAK_STORE)) == Get(slots, Slot(namespace, LEAK_STORE))
                  && Get(after, Slot(namespace, CONNECTION_BEFORE_STORE)) == Get(slots, Slot(namespace, CONNECTION_BEFORE_STORE))))
  {
  }

  /** With leak hunting on, the baseline is taken right before createDataSet is called, and
      it is in the store whatever the load does. */
  lemma LeakBaselineStoredBeforeLoad(t: TestMethod, config: DBUnitConfig, slots: map<Slot, StoreValue>, sc: Scenario)
    requires ShouldCreateDataSet(t) && sc.testConnection.Some? && sc.setDBUnitConfig == Returns
    requires config.leakHunter
    ensures var phase := Before(t, config, slots, sc);
      var model := ResolveDataSet(t).value;
      var load := if sc.entityManagerActive then 5 else 4;
      && |phase.run.trace| > load
      && phase.run.trace[load - 1] == OpenConnectionsBefore(sc.openConnectionsBefore)
      && phase.run.trace[load] == CreateDataSet(model.executorId, model)
      && Get(phase.slots, Slot(ExecutorNamespace(t.testClass), CONNECTION_BEFORE_STORE)) == Some(CountValue(sc.openConnectionsBefore))
  {
    BeforeStoresUnderClassNamespace(t, config, slots, sc);
  }

  /** The events before the load, once the connection is found and the executor configured. */
  function ConfiguredTrace(t: TestMethod, config: DBUnitConfig, sc: Scenario): seq<Event>
    requires ResolveDataSet(t).Some? && sc.testConnection.Some?
  {
    var model := ResolveDataSet(t).value;
    Opening(sc)
    + [CreateExecutor(model.executorId, sc.testConnection.value), SetDBUnitConfig(model.executorId, config)]
    + (if config.leakHunter then [OpenConnectionsBefore(sc.openConnectionsBefore)] else [])
  }

  /** Once the executor is configured, the callback goes on with the load and the begin. */
  lemma LoadFollowsConfiguration(t: TestMethod, config: DBUnitConfig, slots: map<Slot, StoreValue>, sc: Scenario)
    requires ShouldCreateDataSet(t) && sc.testConnection.Some? && sc.setDBUnitConfig == Returns
    ensures Begin !in ConfiguredTrace(t, config, sc)
    ensures Before(t, config, slots, sc).run ==
              Then(Run(ConfiguredTrace(t, config, sc), None), LoadAndBegin(t, ResolveDataSet(t).value, sc))
    ensures Before(t, config, slots, sc).slots ==
              StoredSlots(ExecutorNamespace(t.testClass), ResolveDataSet(t).value, sc.testConnection.value,
                          config, sc.openConnectionsBefore, slots)
  {
  }

  /** After events without a Begin, the load is next; a Begin follows it, last, exactly when the
      load succeeded, the dataset is transactional and an entity manager is active. */
  lemma BeginEndsLoad(t: TestMethod, model: DataSetConfig, prefix: seq<Event>, sc: Scenario)
    requires Begin !in prefix
    ensures var r := Then(Run(prefix, None), LoadAndBegin(t, model, sc));
      var begun := sc.createDataSet == Returns && model.transactional && sc.entityManagerActive;
      && r.trace == prefix + [CreateDataSet(model.executorId, model)] + (if begun then [Begin] else [])
      && (Begin in r.trace <==> begun)
  {
  }

  /** A createDataSet failure ends the callback: an Exception is rethrown wrapped in a
      RuntimeException naming the test method, and no transaction is begun. */
  lemma DataSetFailureIsWrapped(t: TestMethod, config: DBUnitConfig, slots: map<Slot, StoreValue>, sc: Scenario)
    requires ShouldCreateDataSet(t) && sc.testConnection.Some? && sc.setDBUnitConfig == Returns
    requires sc.createDataSet.Throws?
    ensures var r := Before(t, config, slots, sc).run;
      var model := ResolveDataSet(t).value;
      var cause := Raised(sc.createDataSet.kind, CreateDataSetSite);
      && r.fault == Some(if sc.createDataSet.kind != Error then DataSetNotCreated(Some(t.name), cause) else cause)
      && r.trace == ConfiguredTrace(t, config, sc) + [CreateDataSet(model.executorId, model)]
      && Begin !in r.trace
  {
    LoadFollowsConfiguration(t, config, slots, sc);
  }

  /** A transaction is begun exactly when the dataset was loaded, it is transactional and an
      entity manager is active; the begin is then the callback's last step. */
  lemma BeginIffLoadedAndTransactional(t: TestMethod, config: DBUnitConfig, slots: map<Slot, StoreValue>, sc: Scenario)
    ensures var r := Before(t, config, slots, sc).run;
      Begin in r.trace <==>
        && ShouldCreateDataSet(t) && sc.testConnection.Some? && sc.setDBUnitConfig == Returns
        && sc.createDataSet == Returns && ResolveDataSet(t).value.transactional && sc.entityManagerActive
    ensures var r := Before(t, config, slots, sc).run;
      Begin in r.trace ==> r.trace[|r.trace| - 1] == Begin && Begin !in r.trace[..|r.trace| - 1]
  {
    if ShouldCreateDataSet(t) && sc.testConnection.Some? && sc.setDBUnitConfig == Returns {
      var model := ResolveDataSet(t).value;
      var prefix := ConfiguredTrace(t, config, sc);
      LoadFollowsConfiguration(t, config, slots, sc);
      BeginEndsLoad(t, model, prefix, sc);
      var loaded := prefix + [CreateDataSet(model.executorId, model)];
      assert Begin !in loaded;
      assert (loaded + [Begin])[..|loaded|] == loaded;
    } else {
      NoBeginBeforeConfiguration(t, config, slots, sc);
    }
  }

  /** Until the executor is configured, the first callback begins nothing. */
  lemma NoBeginBeforeConfiguration(t: TestMethod, config: DBUnitConfig, slots: map<Slot, StoreValue>, sc: Scenario)
    requires !(ShouldCreateDataSet(t) && sc.testConnection.Some? && sc.setDBUnitConfig == Returns)
    ensures Begin !in Before(t, config, slots, sc).run.trace
  {
    var r := Before(t, config, slots, sc).run;
    if ShouldCreateDataSet(t) && sc.testConnection.Some? {
      var model := ResolveDataSet(t).value;
      assert r.trace == Opening(sc) + [CreateExecutor(model.executorId, sc.testConnection.value), SetDBUnitConfig(model.executorId, config)];
    }
  }

  /** With leak hunting on and a stored baseline that the count after the test exceeds, the
      second callback raises a LeakHunterException carrying the difference at once: no commit
      and no comparison. */
  lemma LeakFailsAfterPhaseFirst(t: TestMethod, config: DBUnitConfig, slots: map<Slot, StoreValue>, sc: Scenario,
                                 holder: ConnectionHolder, before: nat)
    requires config.leakHunter
    requires Get(slots, Slot(ExecutorNamespace(t.testClass), LEAK_STORE)) == Some(LeakHunterValue(holder))
    requires Get(slots, Slot(ExecutorNamespace(t.testClass), CONNECTION_BEFORE_STORE)) == Some(CountValue(before))
    requires sc.openConnectionsAfter > before
    ensures After(t, config, slots, sc) ==
      Run([OpenConnectionsAfter(sc.openConnectionsAfter)], Some(LeakHunterException(t.name, sc.openConnectionsAfter - before)))
  {
  }

  /** The second callback commits and compares only when an ExpectedDataSet is declared, and
      commits before it compares; it never begins, rolls back, or runs any cleanup. */
  lemma CommitAndCompareOnlyWithExpected(t: TestMethod, config: DBUnitConfig, slots: map<Slot, StoreValue>, sc: Scenario)
    ensures var r := After(t, config, slots, sc);
      && (forall e :: e in r.trace ==> e == Commit || e.Compare? || e.OpenConnectionsAfter?)
      && (!ShouldCompareDataSet(t) ==> Commit !in r.trace && forall e :: e in r.trace ==> !e.Compare?)
      && (forall i, j :: 0 <= i < |r.trace| && 0 <= j < |r.trace| && r.trace[i] == Commit && r.trace[j].Compare? ==> i < j)
  {
    var namespace := ExecutorNamespace(t.testClass);
    var leak := if config.leakHunter then LeakCheckAfter(t, namespace, slots, sc) else Skip;
    var compare := if ShouldCompareDataSet(t) then CompareAfter(t, namespace, slots, sc) else Skip;
    CompareAfterEvents(t, namespace, slots, sc);
    ProbeThenCommitThenCompare(leak.trace, compare.trace);
    ProbeThenCommitThenCompare(leak.trace, []);
    assert leak.trace + [] == leak.trace;
  }

  /** The events the commit-and-compare part of the second callback can leave: nothing, a
      commit, a comparison, or a commit followed by a comparison. */
  predicate CommitThenCompare(c: seq<Event>) {
    || c == [] || c == [Commit]
    || (|c| == 1 && c[0].Compare?)
    || (|c| == 2 && c[0] == Commit && c[1].Compare?)
  }

  lemma CompareAfterEvents(t: TestMethod, namespace: string, slots: map<Slot, StoreValue>, sc: Scenario)
    ensures CommitThenCompare(CompareAfter(t, namespace, slots, sc).trace)
  {
  }

  /** At most one leak probe, followed by a commit-and-compare part: only those events, and any
      commit comes before any comparison. */
  lemma ProbeThenCommitThenCompare(probe: seq<Event>, c: seq<Event>)
    requires probe == [] || (|probe| == 1 && probe[0].OpenConnectionsAfter?)
    requires CommitThenCompare(c)
    ensures forall e :: e in probe + c ==> e == Commit || e.Compare? || e.OpenConnectionsAfter?
    ensures forall i, j :: 0 <= i < |probe + c| && 0 <= j < |probe + c| && (probe + c)[i] == Commit && (probe + c)[j].Compare? ==> i < j
  {
  }

  /** What the second callback does once the first one stored its entries: the leak check
      against the stored baseline, then commit and comparison against the stored model and
      executor; no entry is missing or mistyped. */
  lemma AfterReadsWhatBeforeStored(t: TestMethod, config: DBUnitConfig, slots: map<Slot, StoreValue>, sc: Scenario)
    requires ShouldCreateDataSet(t) && sc.testConnection.Some? && sc.setDBUnitConfig == Returns
    ensures var model := ResolveDataSet(t).value;
      var leak := if config.leakHunter then LeakCheck(t.name, sc.openConnectionsBefore, sc.openConnectionsAfter) else Skip;
      var compare :=
        match ResolveExpectedDataSet(t)
        case None => Skip
        case Some(expected) =>
          Then(if model.transactional && sc.entityManagerActive then Call(Commit, sc.commit, CommitSite) else Skip,
               Call(Compare(model.executorId, ComparisonConfig(expected)), sc.compare, CompareSite));
      After(t, config, Before(t, config, slots, sc).slots, sc) == Then(leak, compare)
  {
    BeforeStoresUnderClassNamespace(t, config, slots, sc);
  }

  /** Entries are kept apart by test class: the puts of the first callback under one class's
      namespace leave unchanged every slot that `After` reads under another class's namespace. */
  lemma OtherClassesDoNotShare(t1: TestMethod, config1: DBUnitConfig, t2: TestMethod, config2: DBUnitConfig,
                               slots: map<Slot, StoreValue>, sc: Scenario)
    requires t1.testClass != t2.testClass
    ensures After(t2, config2, Before(t1, config1, slots, sc).slots, sc) == After(t2, config2, slots, sc)
  {
    NamespaceIdentifiesClass(t1.testClass, t2.testClass);
    BeforeStoresUnderClassNamespace(t1, config1, slots, sc);
    var namespace := ExecutorNamespace(t2.testClass);
    var after := Before(t1, config1, slots, sc).slots;
    assert forall key :: Get(after, Slot(namespace, key)) == Get(slots, Slot(namespace, key));
  }

  /** Leak hunting on a test without a DataSet: the first callback stores nothing, so on the
      test's fresh store the second callback fails unboxing a null baseline count before it
      reaches the comparison. */
  lemma LeakHuntingWithoutDataSetFails(t: TestMethod, config: DBUnitConfig, sc: Scenario)
    requires ResolveDataSet(t).None? && config.leakHunter
    ensures After(t, config, Before(t, config, map[], sc).slots, sc) ==
      Run([], Some(Raised(NullPointerException, StoreSite(CONNECTION_BEFORE_STORE))))
  {
  }

  /** An ExpectedDataSet without a DataSet: the first callback stores nothing, so on the test's
      fresh store the second callback reads a null model and fails dereferencing it, before any
      commit or comparison. */
  lemma ExpectedWithoutDataSetFails(t: TestMethod, config: DBUnitConfig, sc: Scenario)
    requires ResolveDataSet(t).None? && ResolveExpectedDataSet(t).Some? && !config.leakHunter
    ensures After(t, config, Before(t, config, map[], sc).slots, sc) ==
      Run([], Some(Raised(NullPointerException, StoreSite(MODEL_STORE))))
  {
  }
}
