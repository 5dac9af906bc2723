/** The database health endpoint `GET /api/health`. */
module HealthRoute {
  import opened Wrappers
  import opened Env
  import Db

  const RequiredVars := [Db.HostVar, Db.UserVar, Db.PasswordVar, Db.DatabaseVar]
  const DefaultPort := "3306"
  const ConnectTimeout: nat := 5000
  const FailureHint := "Check MySQL credentials in Vercel environment variables"

  /** The names among `names` that are unset or empty, in the order given. */
  function Unset(names: seq<string>, env: Env): seq<string> {
    if names == [] then []
    else (if IsSet(env, names[0]) then [] else [names[0]]) + Unset(names[1..], env)
  }

  /** A name is reported exactly when it is one of the names asked about and is not set. */
  lemma {:induction false} UnsetMembers(names: seq<string>, env: Env, v: string)
    ensures v in Unset(names, env) <==> v in names && !IsSet(env, v)
  {
    if names != [] {
      UnsetMembers(names[1..], env, v);
      assert names == [names[0]] + names[1..];
    }
  }

  function UnsetOne(name: string, env: Env): seq<string> {
    if IsSet(env, name) then [] else [name]
  }

  /** The four required variables written out in their fixed order. */
  lemma UnsetRequiredInOrder(env: Env)
    ensures Unset(RequiredVars, env) ==
      UnsetOne(Db.HostVar, env) + UnsetOne(Db.UserVar, env) + UnsetOne(Db.PasswordVar, env) + UnsetOne(Db.DatabaseVar, env)
  {
    var r := RequiredVars;
    assert r[1..] == [Db.UserVar, Db.PasswordVar, Db.DatabaseVar];
    assert r[1..][1..] == [Db.PasswordVar, Db.DatabaseVar];
    assert r[1..][1..][1..] == [Db.DatabaseVar];
    assert r[1..][1..][1..][1..] == [];
    assert Unset(r[1..][1..][1..], env) == UnsetOne(Db.DatabaseVar, env);
    assert Unset(r[1..][1..], env) == UnsetOne(Db.PasswordVar, env) + UnsetOne(Db.DatabaseVar, env);
  }

  predicate AllRequiredSet(env: Env) {
    IsSet(env, Db.HostVar) && IsSet(env, Db.UserVar) && IsSet(env, Db.PasswordVar) && IsSet(env, Db.DatabaseVar)
  }

  /** The connection the endpoint opens. */
  datatype ConnectionRequest = ConnectionRequest(host: string, user: string, password: string, database: string, port: string, connectTimeout: nat)

  datatype HealthResponse =
    | MissingVariables(missing: seq<string>)
    | Connected(host: string, port: string, user: string, database: string, testQuery: seq<int>)
    | Failed(message: string, hint: string)
  {
    function Status(): nat {
      match this
      case MissingVariables(_) => 400
      case Connected(_, _, _, _, _) => 200
      case Failed(_, _) => 500
    }

    /** The `hasAllVars: false` field, present only on the missing-variables answer. */
    predicate ReportsMissingVars() {
      MissingVariables?
    }
  }

  /** `MYSQL_PORT || "3306"`. */
  function Port(env: Env): (p: string)
    ensures IsSet(env, Db.PortVar) ==> p == env[Db.PortVar]
    ensures !IsSet(env, Db.PortVar) ==> p == DefaultPort
  {
    Or(Lookup(env, Db.PortVar), DefaultPort)
  }

  /** The list of missing variables, built by one conditional push per required variable. */
  method CollectMissing(env: Env) returns (missing: seq<string>)
    ensures missing == Unset(RequiredVars, env)
  {
    missing := [];
    if !IsSet(env, Db.HostVar) { missing := missing + [Db.HostVar]; }
    assert missing == UnsetOne(Db.HostVar, env);
    if !IsSet(env, Db.UserVar) { missing := missing + [Db.UserVar]; }
    assert missing == UnsetOne(Db.HostVar, env) + UnsetOne(Db.UserVar, env);
    if !IsSet(env, Db.PasswordVar) { missing := missing + [Db.PasswordVar]; }
    assert missing == UnsetOne(Db.HostVar, env) + UnsetOne(Db.UserVar, env) + UnsetOne(Db.PasswordVar, env);
    if !IsSet(env, Db.DatabaseVar) { missing := missing + [Db.DatabaseVar]; }
    UnsetRequiredInOrder(env);
  }

  /**
   * `GET /api/health`: `connect` is the result of connecting and running `SELECT 1` (the rows'
   * `connected` values, or the error thrown). Returns the response and the connection opened, if any.
   */
  method Get(env: Env, connect: Result<seq<int>>) returns (response: HealthResponse, connection: Option<ConnectionRequest>)
    ensures response.MissingVariables? <==> Unset(RequiredVars, env) != []
    ensures response.ReportsMissingVars() <==> !AllRequiredSet(env)
    ensures response.MissingVariables? ==> response.missing == Unset(RequiredVars, env) && connection.None?
    ensures !response.MissingVariables? ==> AllRequiredSet(env)
    ensures !response.MissingVariables? ==> connection == Some(ConnectionRequest(
      env[Db.HostVar], env[Db.UserVar], env[Db.PasswordVar], env[Db.DatabaseVar], Port(env), ConnectTimeout))
    ensures !response.MissingVariables? && connect.Ok? ==>
      response == Connected(env[Db.HostVar], Port(env), env[Db.UserVar], env[Db.DatabaseVar], connect.value)
    ensures !response.MissingVariables? && connect.Err? ==> response == Failed(connect.message, FailureHint)
  {
    var port := Port(env);
    var missing := CollectMissing(env);
    if |missing| > 0 {
      UnsetMembers(RequiredVars, env, missing[0]);
      return MissingVariables(missing), None;
    }
    UnsetMembers(RequiredVars, env, Db.HostVar);
    UnsetMembers(RequiredVars, env, Db.UserVar);
    UnsetMembers(RequiredVars, env, Db.PasswordVar);
    UnsetMembers(RequiredVars, env, Db.DatabaseVar);
    connection := Some(ConnectionRequest(env[Db.HostVar], env[Db.UserVar], env[Db.PasswordVar], env[Db.DatabaseVar], port, ConnectTimeout));
    match connect
    case Ok(rows) => response := Connected(env[Db.HostVar], port, env[Db.UserVar], env[Db.DatabaseVar], rows);
    case Err(m) => response := Failed(m, FailureHint);
  }

  /** `MYSQL_PORT` is never reported missing: it has a default. */
  lemma PortNeverMissing(env: Env)
    ensures Db.PortVar !in Unset(RequiredVars, env)
  {
    UnsetMembers(RequiredVars, env, Db.PortVar);
  }

  /** The endpoint reports nothing missing exactly when the access layer's configuration succeeds. */
  lemma AgreesWithDbConfig(env: Env)
    ensures Unset(RequiredVars, env) == [] <==> Db.GetDbConfig(env).Ok?
  {
    var missing := Unset(RequiredVars, env);
    if missing != [] {
      UnsetMembers(RequiredVars, env, missing[0]);
    } else {
      UnsetMembers(RequiredVars, env, Db.HostVar);
      UnsetMembers(RequiredVars, env, Db.UserVar);
      UnsetMembers(RequiredVars, env, Db.PasswordVar);
      UnsetMembers(RequiredVars, env, Db.DatabaseVar);
    }
  }
}
