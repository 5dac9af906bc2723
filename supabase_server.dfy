/** Construction of the server-side Supabase client from the environment. */
module SupabaseServer {
  import opened Wrappers
  import opened Env

  const SupabaseUrlVar := "NEXT_PUBLIC_SUPABASE_URL"
  const ServiceRoleKeyVar := "SUPABASE_SERVICE_ROLE_KEY"
  const MissingVariablesMessage := "Supabase environment variables are missing"

  /** The connection settings a client is created with (the client itself is foreign code). */
  datatype SupabaseClient = SupabaseClient(url: string, serviceKey: string, persistSession: bool)

  /** `createServerSupabaseClient()`: throws unless both variables are set. */
  function CreateServerClient(env: Env): (r: Result<SupabaseClient>)
    ensures r.Ok? <==> IsSet(env, SupabaseUrlVar) && IsSet(env, ServiceRoleKeyVar)
    ensures r.Err? ==> r.message == MissingVariablesMessage
    ensures r.Ok? ==> r.value == SupabaseClient(env[SupabaseUrlVar], env[ServiceRoleKeyVar], false)
  {
    var url := Lookup(env, SupabaseUrlVar);
    var key := Lookup(env, ServiceRoleKeyVar);
    if !Truthy(url) || !Truthy(key) then Err(MissingVariablesMessage)
    else Ok(SupabaseClient(url.value, key.value, false))
  }
}
