/** Per-business widget configuration read from Supabase, with defaults for whatever is missing. */
module Config {
  import opened Wrappers
  import opened Env
  import SupabaseServer

  datatype FeatureFlag = FeatureFlag(key: string, enabled: bool)

  /** The selected columns of the business row; either may be `null`. */
  datatype BusinessRow = BusinessRow(id: string, defaultDepartmentId: Option<string>, allowDepartmentPicker: Option<bool>)

  datatype BusinessConfig = BusinessConfig(
    businessId: string, allowDepartmentPicker: bool, defaultDepartmentId: Option<string>, featureFlags: seq<FeatureFlag>)

  /** The Supabase-backed configuration service (it keeps no state of its own). */
  class SupabaseConfigService {
    constructor () {}

    /**
     * `getBusinessConfig(businessId)`: the Supabase client is created from `env` first, which throws
     * when its variables are missing; `business` is the data of the single-row business query and
     * `flags` that of the feature-flag query, each missing when the query found nothing or failed.
     */
    method GetBusinessConfig(env: Env, businessId: string, business: Option<BusinessRow>, flags: Option<seq<FeatureFlag>>)
      returns (r: Result<BusinessConfig>)
      ensures r.Err? <==> !SupabaseServer.CreateServerClient(env).Ok?
      ensures r.Err? ==> r.message == SupabaseServer.MissingVariablesMessage
      ensures r.Ok? ==> r.value.businessId == businessId
      ensures r.Ok? ==> (r.value.allowDepartmentPicker <==>
        business.None? || business.value.allowDepartmentPicker.None? || business.value.allowDepartmentPicker.value)
      ensures r.Ok? ==> r.value.defaultDepartmentId == if business.Some? then business.value.defaultDepartmentId else None
      ensures r.Ok? && flags.None? ==> r.value.featureFlags == []
      ensures r.Ok? && flags.Some? ==> r.value.featureFlags == flags.value
    {
      var client := SupabaseServer.CreateServerClient(env);
      if client.Err? {
        return Err(client.message);
      }
      var picker := if business.Some? then business.value.allowDepartmentPicker else None;
      var department := if business.Some? then business.value.defaultDepartmentId else None;
      r := Ok(BusinessConfig(businessId, picker.GetOr(true), department, flags.GetOr([])));
    }
  }

  /** `getConfigService()`: a new service on every call. */
  method GetConfigService() returns (s: SupabaseConfigService)
    ensures fresh(s)
  {
    s := new SupabaseConfigService();
  }
}
