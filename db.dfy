/** The MySQL access layer: configuration from the environment and a lazily created shared pool. */
module Db {
  import opened Wrappers
  import opened Env

  const HostVar := "MYSQL_HOST"
  const UserVar := "MYSQL_USER"
  const PasswordVar := "MYSQL_PASSWORD"
  const DatabaseVar := "MYSQL_DATABASE"
  const PortVar := "MYSQL_PORT"
  const MissingVariablesMessage := "Missing MySQL environment variables"

  /** A statement parameter: a string or SQL `NULL`. */
  datatype SqlValue = SqlText(text: string) | SqlNull

  datatype StatementKind = QueryKind | ExecuteKind

  /** A parameterised statement as handed to the driver. */
  datatype Statement = Statement(kind: StatementKind, sql: string, params: seq<SqlValue>)

  /**
   * The connection settings. `port` holds the text of `MYSQL_PORT`, which the source converts with
   * `Number(...)`; that conversion is not modelled.
   */
  datatype DbConfig = DbConfig(host: string, user: string, password: string, database: string, port: Option<string>)

  /** `getDbConfig()`: throws unless host, user, password and database are all set and non-empty. */
  function GetDbConfig(env: Env): (r: Result<DbConfig>)
    ensures r.Ok? <==> IsSet(env, HostVar) && IsSet(env, UserVar) && IsSet(env, PasswordVar) && IsSet(env, DatabaseVar)
    ensures r.Err? ==> r.message == MissingVariablesMessage
    ensures r.Ok? ==> (r.value.host == env[HostVar] && r.value.user == env[UserVar] &&
                       r.value.password == env[PasswordVar] && r.value.database == env[DatabaseVar])
    ensures r.Ok? ==> (r.value.port.None? <==> !IsSet(env, PortVar))
    ensures r.Ok? && IsSet(env, PortVar) ==> r.value.port == Some(env[PortVar])
  {
    var host := Lookup(env, HostVar);
    var user := Lookup(env, UserVar);
    var password := Lookup(env, PasswordVar);
    var database := Lookup(env, DatabaseVar);
    var port := if IsSet(env, PortVar) then Some(env[PortVar]) else None;
    if !Truthy(host) || !Truthy(user) || !Truthy(password) || !Truthy(database) then
      Err(MissingVariablesMessage)
    else
      Ok(DbConfig(host.value, user.value, password.value, database.value, port))
  }

  /** `params = []` when a caller gives none. */
  function EffectiveParams(params: Option<seq<SqlValue>>): (p: seq<SqlValue>)
    ensures params.None? ==> p == []
    ensures params.Some? ==> p == params.value
  {
    params.GetOr([])
  }

  /** A connection pool as `mysql.createPool` receives it: the settings and the fixed queueing options. */
  class Pool {
    const config: DbConfig
    const waitForConnections: bool
    const connectionLimit: nat
    const queueLimit: nat

    constructor (config: DbConfig)
      ensures this.config == config
      ensures waitForConnections && connectionLimit == 10 && queueLimit == 0
    {
      this.config := config;
      waitForConnections := true;
      connectionLimit := 10;
      queueLimit := 0;
    }
  }

  /** A statement sent through a pool. */
  datatype Sent = Sent(pool: Pool, statement: Statement)

  /** The module-level state of the access layer: the shared pool, `null` until first use. */
  class Database {
    var pool: Pool?

    constructor ()
      ensures pool == null
    {
      pool := null;
    }

    /** `getDbPool()`: creates the pool on first successful use and returns the same pool ever after. */
    method GetDbPool(env: Env) returns (r: Result<Pool>)
      modifies this
      ensures old(pool) != null ==> r == Ok(old(pool)) && pool == old(pool)
      ensures old(pool) == null && GetDbConfig(env).Err? ==> r == Err(MissingVariablesMessage) && pool == null
      ensures old(pool) == null && GetDbConfig(env).Ok? ==>
        && r.Ok? && fresh(r.value) && pool == r.value
        && r.value.config == GetDbConfig(env).value
        && r.value.waitForConnections && r.value.connectionLimit == 10 && r.value.queueLimit == 0
    {
      if pool == null {
        var config := GetDbConfig(env);
        if config.Err? {
          return Err(config.message);
        }
        pool := new Pool(config.value);
      }
      r := Ok(pool);
    }

    /** `query(sql, params)` and `execute(sql, params)`: the statement goes to the shared pool. */
    method Send(env: Env, kind: StatementKind, sql: string, params: Option<seq<SqlValue>>) returns (r: Result<Sent>)
      modifies this
      ensures old(pool) != null ==> pool == old(pool)
      ensures r.Ok? ==> pool != null && r.value == Sent(pool, Statement(kind, sql, EffectiveParams(params)))
      ensures r.Err? <==> old(pool) == null && GetDbConfig(env).Err?
      ensures r.Err? ==> r.message == MissingVariablesMessage && pool == null
      ensures old(pool) == null && GetDbConfig(env).Ok? ==>
        && pool != null && fresh(pool) && pool.config == GetDbConfig(env).value
        && pool.waitForConnections && pool.connectionLimit == 10 && pool.queueLimit == 0
    {
      var p := GetDbPool(env);
      match p
      case Err(m) => r := Err(m);
      case Ok(handle) => r := Ok(Sent(handle, Statement(kind, sql, EffectiveParams(params))));
    }
  }

  /** Two uses of the layer share one pool, and a failed first use leaves nothing behind to share. */
  method SharedPool(env1: Env, env2: Env) returns (first: Result<Pool>, second: Result<Pool>)
    ensures first.Ok? <==> GetDbConfig(env1).Ok?
    ensures first.Ok? ==> second == first
    ensures first.Err? ==> (second.Ok? <==> GetDbConfig(env2).Ok?)
  {
    var db := new Database();
    first := db.GetDbPool(env1);
    second := db.GetDbPool(env2);
  }
}
