/** The process-wide singletons behind the agent: the connection pool, the
    Postgres checkpointer, the compiled graph and the initialised flag, with
    the three functions that create, reuse and tear them down. Both
    generations of the code implement them the same way. */
module Lifecycle {
  import opened Wrappers

  /** A checkpointer over the pool for a database URL. */
  datatype Saver = Saver(url: string)

  /** A compiled graph; `checkpointed` records whether it was compiled with
      a checkpointer. */
  datatype Compiled = Compiled(checkpointed: bool)

  /** The module globals. `pool` names the URL of the open pool. */
  datatype Globals = Globals(checkpointer: Option<Saver>, pool: Option<string>, compiled: Option<Compiled>,
                             dbInitialized: bool)

  const Initial: Globals := Globals(None, None, None, false)

  /** What the database does when connected to: the configured URL, and the
      error raised by opening the pool and by the checkpointer's setup. */
  datatype Db = Db(url: string, openError: Option<string>, setupError: Option<string>)

  /** A result and the globals left behind, also when an error is raised. */
  datatype Outcome<T> = Outcome(result: Result<T, string>, globals: Globals)

  /** The globals are consistent: an initialised database has a checkpointer
      over an open pool for the same URL, and a checkpointed graph exists
      only while its checkpointer does. */
  predicate Consistent(g: Globals) {
    && (g.dbInitialized ==> g.checkpointer.Some? && g.pool == Some(g.checkpointer.value.url))
    && (g.compiled.Some? && g.compiled.value.checkpointed ==> g.dbInitialized)
  }

  /** `close_checkpointer`: a failure to close the pool is logged, and every
      global is reset regardless. */
  function CloseCheckpointer(g: Globals): (r: Globals)
    ensures r == Initial && Consistent(r)
  {
    Initial
  }

  /** `get_checkpointer`: the existing checkpointer once initialised; none
      (and no change) without a database URL; otherwise a new pool and
      checkpointer, and on any error the globals are closed and the error
      is raised again. */
  function GetCheckpointer(g: Globals, db: Db): (o: Outcome<Option<Saver>>)
    ensures g.dbInitialized && g.checkpointer.Some? ==> o == Outcome(Success(g.checkpointer), g)
    ensures !(g.dbInitialized && g.checkpointer.Some?) && db.url == "" ==> o == Outcome(Success(None), g)
    ensures o.result.Failure? <==>
      !(g.dbInitialized && g.checkpointer.Some?) && db.url != "" && (db.openError.Some? || db.setupError.Some?)
    ensures o.result.Failure? ==> o.globals == Initial
    ensures o.result.Failure? && db.openError.Some? ==> o.result.error == db.openError.value
    ensures o.result.Success? && o.result.value.Some? ==> o.globals.dbInitialized && o.globals.checkpointer == o.result.value
    ensures Consistent(g) ==> Consistent(o.globals)
  {
    if g.dbInitialized && g.checkpointer.Some? then Outcome(Success(g.checkpointer), g)
    else if db.url == "" then Outcome(Success(None), g)
    else
      var withPool := g.(pool := Some(db.url));
      if db.openError.Some? then Outcome(Failure(db.openError.value), CloseCheckpointer(withPool))
      else
        var withSaver := withPool.(checkpointer := Some(Saver(db.url)));
        if db.setupError.Some? then Outcome(Failure(db.setupError.value), CloseCheckpointer(withSaver))
        else Outcome(Success(withSaver.checkpointer), withSaver.(dbInitialized := true))
  }

  /** `get_compiled_agent`: the cached graph if there is one; otherwise the
      checkpointer (whose error propagates) and a newly compiled graph,
      which is cached. */
  function GetCompiledAgent(g: Globals, db: Db): (o: Outcome<Compiled>)
    ensures g.compiled.Some? ==> o == Outcome(Success(g.compiled.value), g)
    ensures g.compiled.None? ==>
      var c := GetCheckpointer(g, db);
      && (c.result.Failure? ==> o == Outcome(Failure(c.result.error), Initial))
      && (c.result.Success? ==> o.result == Success(Compiled(c.result.value.Some?))
                                && o.globals == c.globals.(compiled := Some(o.result.value)))
    ensures o.result.Success? ==> o.globals.compiled == Some(o.result.value)
    ensures Consistent(g) ==> Consistent(o.globals)
  {
    if g.compiled.Some? then Outcome(Success(g.compiled.value), g)
    else
      var c := GetCheckpointer(g, db);
      match c.result
      case Failure(e) => Outcome(Failure(e), c.globals)
      case Success(saver) =>
        var compiled := Compiled(saver.Some?);
        Outcome(Success(compiled), c.globals.(compiled := Some(compiled)))
  }

  /** Once compiled, the graph is reused: later calls return it and change
      nothing, whatever the database does by then. */
  lemma CompiledOnce(g: Globals, db1: Db, db2: Db)
    requires GetCompiledAgent(g, db1).result.Success?
    ensures var o := GetCompiledAgent(g, db1);
      GetCompiledAgent(o.globals, db2) == o
  {
  }

  /** From a fresh process the graph is checkpointed exactly when a database
      URL is configured and connecting succeeds; an empty URL compiles a
      graph without memory. */
  lemma CheckpointedIffConnected(db: Db)
    ensures var o := GetCompiledAgent(Initial, db);
      && (o.result.Success? <==> db.url == "" || (db.openError.None? && db.setupError.None?))
      && (o.result.Success? ==> (o.result.value.checkpointed <==> db.url != ""))
  {
  }

  /** Closing returns the process to its fresh state, so the next request
      connects again. */
  lemma ReinitialisesAfterClose(g: Globals, db: Db)
    ensures GetCompiledAgent(CloseCheckpointer(g), db) == GetCompiledAgent(Initial, db)
  {
  }

  /** A failed connection leaves nothing behind, so a later request retries
      against the database. */
  lemma FailureRetriesLater(g: Globals, db1: Db, db2: Db)
    requires GetCompiledAgent(g, db1).result.Failure?
    ensures GetCompiledAgent(GetCompiledAgent(g, db1).globals, db2) == GetCompiledAgent(Initial, db2)
  {
  }
}
