/**
 * The MySQL system functions the MySQL frontend adds to the expression
 * engine: DATABASE(), CONNECTION_ID() and CURRENT_USER(). Each one reads the
 * evaluation context and falls back to a default, and the three are added to
 * the engine's function registry once.
 */
module MySqlFunctions {
  import opened GoTypes

  /** The expression engine's values, as far as these functions see them. */
  datatype Value =
    | StringValue(s: string)
    | IntValue(i: int64)
    | BoolValue(b: bool)
    | NumberValue(r: real)
    | NilValue

  /** An evaluation context: the session variables it can look up. */
  type EvalContext = map<string, Value>

  const DatabaseVar := "@@database"
  const ConnectionIdVar := "@@connection_id"
  const DefaultConnectionId: int64 := 1
  const RootUser := "root"

  /**
   * DATABASE(): the `@@database` session variable when it holds a string,
   * otherwise the empty string; it always succeeds.
   */
  function DatabaseName(ctx: EvalContext): (r: (string, bool))
    ensures r.1
    ensures DatabaseVar in ctx && ctx[DatabaseVar].StringValue? ==> r.0 == ctx[DatabaseVar].s
    ensures (DatabaseVar !in ctx || !ctx[DatabaseVar].StringValue?) ==> r.0 == ""
  {
    if DatabaseVar in ctx && ctx[DatabaseVar].StringValue? then (ctx[DatabaseVar].s, true)
    else ("", true)
  }

  /**
   * CONNECTION_ID(): the `@@connection_id` session variable when it holds an
   * integer, otherwise 1; it always succeeds.
   */
  function ConnectionId(ctx: EvalContext): (r: (int64, bool))
    ensures r.1
    ensures ConnectionIdVar in ctx && ctx[ConnectionIdVar].IntValue? ==> r.0 == ctx[ConnectionIdVar].i
    ensures (ConnectionIdVar !in ctx || !ctx[ConnectionIdVar].IntValue?) ==> r.0 == DefaultConnectionId
  {
    if ConnectionIdVar in ctx && ctx[ConnectionIdVar].IntValue? then (ctx[ConnectionIdVar].i, true)
    else (DefaultConnectionId, true)
  }

  /** CURRENT_USER(): always "root", whatever the context holds. */
  function CurrentUser(ctx: EvalContext): (r: (string, bool))
    ensures r == (RootUser, true)
  {
    (RootUser, true)
  }

  /** A session variable of the wrong type is treated exactly as a missing one. */
  lemma DatabaseWrongTypeIsAbsent(ctx: EvalContext)
    requires DatabaseVar in ctx && !ctx[DatabaseVar].StringValue?
    ensures DatabaseName(ctx) == DatabaseName(ctx - {DatabaseVar}) == ("", true)
  {
  }

  lemma ConnectionIdWrongTypeIsAbsent(ctx: EvalContext)
    requires ConnectionIdVar in ctx && !ctx[ConnectionIdVar].IntValue?
    ensures ConnectionId(ctx) == ConnectionId(ctx - {ConnectionIdVar}) == (DefaultConnectionId, true)
  {
  }

  /** Setting a session variable and reading it back through its function gives the value set. */
  lemma SessionVariablesRoundTrip(ctx: EvalContext, db: string, id: int64)
    ensures DatabaseName(ctx[DatabaseVar := StringValue(db)]) == (db, true)
    ensures ConnectionId(ctx[ConnectionIdVar := IntValue(id)]) == (id, true)
  {
  }

  /** Each function depends only on its own session variable. */
  lemma OtherVariablesIrrelevant(ctx: EvalContext, key: string, v: Value)
    requires key != DatabaseVar && key != ConnectionIdVar
    ensures DatabaseName(ctx[key := v]) == DatabaseName(ctx)
    ensures ConnectionId(ctx[key := v]) == ConnectionId(ctx)
    ensures CurrentUser(ctx[key := v]) == CurrentUser(ctx)
  {
  }

  /** The functions this frontend contributes to the expression engine. */
  datatype Builtin = CurrentUserFunc | ConnectionIdFunc | DatabaseFunc

  /** Calling a registered builtin, with its result widened to an engine value. */
  function Call(f: Builtin, ctx: EvalContext): (r: (Value, bool))
    ensures r.1
    ensures f == DatabaseFunc ==> r.0 == StringValue(DatabaseName(ctx).0)
    ensures f == ConnectionIdFunc ==> r.0 == IntValue(ConnectionId(ctx).0)
    ensures f == CurrentUserFunc ==> r.0 == StringValue(RootUser)
  {
    match f
    case CurrentUserFunc => (StringValue(CurrentUser(ctx).0), CurrentUser(ctx).1)
    case ConnectionIdFunc => (IntValue(ConnectionId(ctx).0), ConnectionId(ctx).1)
    case DatabaseFunc => (StringValue(DatabaseName(ctx).0), DatabaseName(ctx).1)
  }

  /** The registry entries the frontend adds, in the order it adds them. */
  function WithMySqlFunctions(funcs: map<string, Builtin>): (r: map<string, Builtin>)
  {
    funcs["current_user" := CurrentUserFunc]["connection_id" := ConnectionIdFunc]["database" := DatabaseFunc]
  }

  /**
   * Registration adds exactly the three names, each bound to its function, and
   * leaves every other entry as it was.
   */
  lemma WithMySqlFunctionsEntries(funcs: map<string, Builtin>)
    ensures WithMySqlFunctions(funcs).Keys == funcs.Keys + {"current_user", "connection_id", "database"}
    ensures WithMySqlFunctions(funcs)["current_user"] == CurrentUserFunc
    ensures WithMySqlFunctions(funcs)["connection_id"] == ConnectionIdFunc
    ensures WithMySqlFunctions(funcs)["database"] == DatabaseFunc
    ensures forall name :: name in funcs && name !in {"current_user", "connection_id", "database"} ==>
      WithMySqlFunctions(funcs)[name] == funcs[name]
  {
  }

  /** Registering a second time changes nothing. */
  lemma WithMySqlFunctionsIdempotent(funcs: map<string, Builtin>)
    ensures WithMySqlFunctions(WithMySqlFunctions(funcs)) == WithMySqlFunctions(funcs)
  {
  }

  /**
   * The expression engine's function registry together with the frontend's
   * once-only guard. `adds` counts the registrations performed.
   */
  class FunctionRegistry {
    var funcs: map<string, Builtin>
    var loaded: bool
    ghost var adds: nat

    constructor ()
      ensures funcs == map[] && !loaded && adds == 0
    {
      funcs := map[];
      loaded := false;
      adds := 0;
    }

    /** Adds (or replaces) one named function. */
    method FuncAdd(name: string, f: Builtin)
      modifies this`funcs, this`adds
      ensures funcs == old(funcs)[name := f]
      ensures adds == old(adds) + 1
    {
      funcs := funcs[name := f];
      adds := adds + 1;
    }

    /**
     * Registers CURRENT_USER, CONNECTION_ID and DATABASE the first time it is
     * called; every later call does nothing.
     */
    method LoadMySqlFunctions()
      modifies this
      ensures loaded
      ensures old(loaded) ==> funcs == old(funcs) && adds == old(adds)
      ensures !old(loaded) ==> funcs == WithMySqlFunctions(old(funcs)) && adds == old(adds) + 3
    {
      if !loaded {
        loaded := true;
        FuncAdd("current_user", CurrentUserFunc);
        FuncAdd("connection_id", ConnectionIdFunc);
        FuncAdd("database", DatabaseFunc);
      }
    }
  }

  /**
   * Loading twice registers the functions once: the second call adds nothing,
   * and afterwards each name calls its function.
   */
  method LoadTwice(reg: FunctionRegistry, ctx: EvalContext)
    modifies reg
    ensures reg.loaded && reg.adds <= old(reg.adds) + 3
    ensures !old(reg.loaded) ==>
      && reg.funcs == WithMySqlFunctions(old(reg.funcs))
      && "database" in reg.funcs
      && Call(reg.funcs["database"], ctx) == (StringValue(DatabaseName(ctx).0), true)
  {
    reg.LoadMySqlFunctions();
    reg.LoadMySqlFunctions();
    WithMySqlFunctionsEntries(old(reg.funcs));
  }
}
