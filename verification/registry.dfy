/** The process-wide executor registry of DataSetExecutorImpl: executors keyed by
    their identity, created on first use; the connection holder inside an entry
    can be replaced. */
module Registry {
  import opened Fixtures

  /** A DataSetExecutor bound to one executor identity. */
  class Executor {
    const id: string
    var connectionHolder: ConnectionHolder

    constructor (id: string, connectionHolder: ConnectionHolder)
      ensures this.id == id && this.connectionHolder == connectionHolder
    {
      this.id := id;
      this.connectionHolder := connectionHolder;
    }
  }

  class ExecutorRegistry {
    var executors: map<string, Executor>

    /** Every entry is the executor created for its own key. */
    ghost predicate Valid()
      reads this
    {
      forall key :: key in executors ==> executors[key].id == key
    }

    constructor ()
      ensures Valid() && executors == map[]
    {
      executors := map[];
    }

    /** DataSetExecutorImpl.getExecutorById: the registered executor, or null. */
    function GetExecutorById(id: string): (e: Executor?)
      reads this
      requires Valid()
      ensures e == null <==> id !in executors
      ensures e != null ==> e == executors[id] && e.id == id
    {
      if id in executors then executors[id] else null
    }
  }

  /** The identity of an executor reference; None stands for null. */
  function IdOf(e: Executor?): Option<string> {
    if e == null then None else Some(e.id)
  }
}
