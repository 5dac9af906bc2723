/**
 * The page data getters: each reads one or more Supabase tables, falls back to built-in sample
 * data when Supabase is not configured or the read fails, and fills missing columns with defaults.
 */
module Data {
  import opened Wrappers
  import opened Env
  import SupabaseServer

  /** The `{ data, error }` pair a Supabase query resolves to. */
  datatype QueryResult<T> = QueryResult(data: Option<seq<T>>, error: Option<string>)

  /** A joined `department:departments(name)` column. */
  datatype DepartmentRef = DepartmentRef(name: Option<string>)

  /** `department?.name ?? default`. */
  function DepartmentName(d: Option<DepartmentRef>, default: string): (n: string)
    ensures d.Some? && d.value.name.Some? ==> n == d.value.name.value
    ensures d.None? || d.value.name.None? ==> n == default
  {
    match d
    case Some(r) => r.name.GetOr(default)
    case None => default
  }

  datatype ArticleRow = ArticleRow(id: string, title: string, summary: Option<string>, department: Option<DepartmentRef>)
  datatype Article = Article(id: string, title: string, summary: string, departmentName: string)

  datatype TicketRow = TicketRow(id: string, subject: string, status: string, department: Option<DepartmentRef>)
  datatype TicketSummary = TicketSummary(id: string, subject: string, status: string, departmentName: string)

  datatype ConversationRow = ConversationRow(id: string, subject: Option<string>, department: Option<DepartmentRef>)
  datatype QueueItem = QueueItem(id: string, title: string, preview: string, departmentName: string)

  /** A department; `description` is not selected by the department-options query. */
  datatype Department = Department(id: string, name: string, description: Option<string>)
  datatype Bot = Bot(id: string, name: string, tone: string)
  datatype Integration = Integration(id: string, name: string, status: string)
  datatype AdminOverview = AdminOverview(departments: seq<Department>, bots: seq<Bot>, integrations: seq<Integration>)

  const FallbackDepartments := [
    Department("dept_sales", "Sales", Some("Lead qualification and product discovery")),
    Department("dept_support", "Support", Some("Technical troubleshooting and incident response"))]
  const FallbackBots := [Bot("bot_support", "Support Concierge", "Friendly, concise, and empathetic")]
  const FallbackIntegrations := [Integration("zapier", "Zapier", "Connected"), Integration("twilio", "Twilio", "Needs credentials")]
  const FallbackTickets := [TicketSummary("ticket_1", "Cannot reset password", "open", "Support")]
  const FallbackArticles := [Article("kb_1", "Getting started with Nimbus", "Learn the basics of onboarding and setup.", "Global")]
  const FallbackQueue := [QueueItem("conv_1", "Billing question", "Need help understanding my invoice", "Billing")]

  /** `canUseSupabase()`: both the project URL and the service-role key are set. */
  predicate CanUseSupabase(env: Env): (r: bool)
    ensures r <==> SupabaseServer.CreateServerClient(env).Ok?
  {
    IsSet(env, SupabaseServer.SupabaseUrlVar) && IsSet(env, SupabaseServer.ServiceRoleKeyVar)
  }

  /** `error || !data`: a reported error or missing data. */
  predicate Failed<T>(r: QueryResult<T>) {
    r.error.Some? || r.data.None?
  }

  /** `getPublicArticles()`, with the published-articles query answering `res`. */
  function PublicArticles(env: Env, res: QueryResult<ArticleRow>): (r: seq<Article>)
    ensures !CanUseSupabase(env) || Failed(res) ==> r == FallbackArticles
    ensures CanUseSupabase(env) && !Failed(res) ==> |r| == |res.data.value|
    ensures CanUseSupabase(env) && !Failed(res) ==> forall i :: 0 <= i < |r| ==>
        var row := res.data.value[i];
        r[i] == Article(row.id, row.title, row.summary.GetOr(""), DepartmentName(row.department, "Global"))
  {
    if !CanUseSupabase(env) || Failed(res) then FallbackArticles
    else
      var rows := res.data.value;
      seq(|rows|, i requires 0 <= i < |rows| =>
        Article(rows[i].id, rows[i].title, rows[i].summary.GetOr(""), DepartmentName(rows[i].department, "Global")))
  }

  /** `getCustomerTickets()`, with the tickets query answering `res`. */
  function CustomerTickets(env: Env, res: QueryResult<TicketRow>): (r: seq<TicketSummary>)
    ensures !CanUseSupabase(env) || Failed(res) ==> r == FallbackTickets
    ensures CanUseSupabase(env) && !Failed(res) ==> |r| == |res.data.value|
    ensures CanUseSupabase(env) && !Failed(res) ==> forall i :: 0 <= i < |r| ==>
        var row := res.data.value[i];
        r[i] == TicketSummary(row.id, row.subject, row.status, DepartmentName(row.department, "General"))
  {
    if !CanUseSupabase(env) || Failed(res) then FallbackTickets
    else
      var rows := res.data.value;
      seq(|rows|, i requires 0 <= i < |rows| =>
        TicketSummary(rows[i].id, rows[i].subject, rows[i].status, DepartmentName(rows[i].department, "General")))
  }

  /** `getAgentQueue()`, with the open-conversations query answering `res`. */
  function AgentQueue(env: Env, res: QueryResult<ConversationRow>): (r: seq<QueueItem>)
    ensures !CanUseSupabase(env) || Failed(res) ==> r == FallbackQueue
    ensures CanUseSupabase(env) && !Failed(res) ==> |r| == |res.data.value|
    ensures CanUseSupabase(env) && !Failed(res) ==> forall i :: 0 <= i < |r| ==>
        var row := res.data.value[i];
        r[i] == QueueItem(row.id, row.subject.GetOr("Conversation"), "Open conversation", DepartmentName(row.department, "General"))
  {
    if !CanUseSupabase(env) || Failed(res) then FallbackQueue
    else
      var rows := res.data.value;
      seq(|rows|, i requires 0 <= i < |rows| =>
        QueueItem(rows[i].id, rows[i].subject.GetOr("Conversation"), "Open conversation", DepartmentName(rows[i].department, "General")))
  }

  /** `getAdminOverview()`: each list falls back on its own, on missing data only. */
  function Overview(env: Env, departments: QueryResult<Department>, bots: QueryResult<Bot>, integrations: QueryResult<Integration>): (r: AdminOverview)
    ensures !CanUseSupabase(env) ==> r == AdminOverview(FallbackDepartments, FallbackBots, FallbackIntegrations)
    ensures CanUseSupabase(env) ==>
      && r.departments == departments.data.GetOr(FallbackDepartments)
      && r.bots == bots.data.GetOr(FallbackBots)
      && r.integrations == integrations.data.GetOr(FallbackIntegrations)
  {
    if !CanUseSupabase(env) then AdminOverview(FallbackDepartments, FallbackBots, FallbackIntegrations)
    else AdminOverview(departments.data.GetOr(FallbackDepartments), bots.data.GetOr(FallbackBots), integrations.data.GetOr(FallbackIntegrations))
  }

  /** The overview ignores a reported error: present data is shown even alongside one. */
  lemma OverviewIgnoresErrors(env: Env, d: seq<Department>, b: QueryResult<Bot>, i: QueryResult<Integration>, e: string)
    requires CanUseSupabase(env)
    ensures Overview(env, QueryResult(Some(d), Some(e)), b, i).departments == d
  {
  }

  /** `getDepartmentOptions()`: the rows unchanged, or the fallback departments. */
  function DepartmentOptions(env: Env, res: QueryResult<Department>): (r: seq<Department>)
    ensures !CanUseSupabase(env) || Failed(res) ==> r == FallbackDepartments
    ensures CanUseSupabase(env) && !Failed(res) ==> r == res.data.value
  {
    if !CanUseSupabase(env) || Failed(res) then FallbackDepartments else res.data.value
  }

  /** An empty but successful read shows nothing rather than the sample data. */
  lemma EmptyReadIsNotFallback(env: Env)
    requires CanUseSupabase(env)
    ensures PublicArticles(env, QueryResult(Some([]), None)) == []
    ensures CustomerTickets(env, QueryResult(Some([]), None)) == []
    ensures AgentQueue(env, QueryResult(Some([]), None)) == []
    ensures DepartmentOptions(env, QueryResult(Some([]), None)) == []
  {
  }
}
