# Support portal request logic, modelled in Dafny

This project models the request-level decision and formatting code of a multi-tenant
customer-support portal (Next.js, TypeScript): the retrieval-augmented chat answer (`runRag`
and the `/api/chat` endpoint), the ticket listing and creation endpoints, the route-protection
middleware, the administrator sign-in and its token/session callbacks, the default-filling page
data getters, the business configuration service, the MySQL access layer with its lazily created
shared pool, and the database health endpoint.

Every external call is an input value. That covers the OpenAI embedding and completion calls,
Supabase queries and the `match_kb_chunks` retrieval procedure, MySQL statements and
connections, `bcrypt.compare`, and the NextAuth session lookup. Where it matters which calls were
made, a member returns the requests it sent, in order. `runRag` returns its provider calls, the
ticket endpoints return the SQL statements they issued, and the health endpoint returns the
connection it opened. That is how "no completion is requested" or "no insert happens" is stated
and proved. The process environment is a `map<string, string>`. An environment variable counts as
set when it is present and non-empty, which is JavaScript truthiness for strings.

Modules, one per source file: `Rag`, `SupabaseServer`, `ChatRoute`, `TicketsRoute`, `Middleware`,
`Auth`, `Data`, `Config`, `Db`, `HealthRoute`. They share three helper modules: `Wrappers`
(`Option` for `null`/`undefined`, `Result` for a thrown `Error`), `Env` (environment lookups and
truthiness) and `Text` (`Array.prototype.join`, decimal rendering, `startsWith`, character
counts).

Code style follows the source:
- `runRag`, the chat endpoint, the middleware, `authorize` and the data getters are functions.
- The ticket query builder and the health endpoint's missing-variable list are methods. They build
  their results step by step, as the source does.
- The module-level `pool` is a field of the class `Db.Database`. The `jwt` and `session` callbacks
  are methods that update `Token` and `SessionUser` objects in place.

## Behaviour of the answering code

- Cosine similarity and top-k ranking are not in the application. They happen inside the
  `match_kb_chunks` database procedure, so the model treats its rows as an opaque, ordered
  sequence.
- A retrieval error or missing data does not produce the unavailability message. It produces the
  "couldn't find relevant sources" answer, with status 200.
- An empty but present row list is not treated as "no evidence". The completion is still requested,
  with an empty evidence block (`Rag.EmptyRowsStillGenerate`).
- The question is not trimmed (`ChatRoute.WhitespaceQuestionReachesRag`).
- `runRag` throws on a missing Supabase configuration, a missing provider key, or a provider error.
  It is the chat endpoint that turns these into the 500 unavailability reply, with the error
  message in `error`.
- The citations are `{id, title, url, excerpt, similarity}`, where `excerpt` is the chunk content.

## Model

| member | source | states |
|---|---|---|
| `SupabaseServer.CreateServerClient` | lib/supabase/server.ts:3-16 | succeeds iff the Supabase URL and service-role key are both set; otherwise throws the fixed message |
| `Rag.OpenAIClient` | lib/rag.ts:17-23 | succeeds iff `AI_PROVIDER_KEY` is set; otherwise throws "AI provider key is missing" |
| `Rag.QueryVector` | lib/rag.ts:34 | the first item's embedding, or the empty vector when there is no first item or it has no embedding |
| `Rag.Context` | lib/rag.ts:48-52 | the evidence block is empty exactly when there are no rows; otherwise it opens with the whole paragraph of the first row, numbered 1 |
| `Rag.ContextSnoc` | lib/rag.ts:48-52 | appending a row appends one paragraph numbered one past the earlier rows, after a blank line, so the numbering is 1-based, consecutive and in retrieval order |
| `Text.DecimalRoundTrip` | lib/rag.ts:50 | the rendered source number reads back as the number, so the rendering is injective |
| `Rag.SourceNumbersDistinct` | lib/rag.ts:50 | each paragraph starts with "Source ", and distinct positions get distinct numbers |
| `Rag.UserPrompt` | lib/rag.ts:64 | the user message starts with "Question: " and the question, and ends with the evidence block |
| `Rag.Answer` | lib/rag.ts:70 | the first choice's content verbatim (even when empty), or "No answer generated." when absent |
| `Rag.Sources` | lib/rag.ts:71-77 | one citation per row, same order; `excerpt` is the content and the other fields are copied unchanged |
| `Rag.RunRag` | lib/rag.ts:25-79 | no request is sent before the client and key checks pass. The requests are, in order, the embedding of the question, retrieval with match count 6 and the business id (or null), and the completion with the fixed system prompt and the prompt over the context. Once configured, every input decides the whole run: an embedding error ends it after the embedding request, with that error. A retrieval error or missing data gives the fixed answer after exactly two requests, with no completion request. Otherwise all three requests are made, and the result is the completion's error or the answer with all rows as citations |
| `Rag.ConfiguredRunEmbeds` | lib/rag.ts:25-32 | once both checks pass, the embedding request is always sent |
| `Rag.EmptyRowsStillGenerate` | lib/rag.ts:41-78 | an empty but present row list still requests a completion, with an empty context, and cites nothing |
| `ChatRoute.LastMessage` | app/api/chat/route.ts:6-7 | the content of the last message; "" when `messages` is missing or empty, or the last content is missing |
| `ChatRoute.SourceLine` | app/api/chat/route.ts:16 | each footer line starts with "- " |
| `ChatRoute.FooterText` | app/api/chat/route.ts:15-17 | the joined lines are empty iff there are no sources, and otherwise start with "- " |
| `ChatRoute.Footer` | app/api/chat/route.ts:15-18 | the footer is "No sources found." iff there are no sources; otherwise it is the lines joined by newlines |
| `ChatRoute.Reply` | app/api/chat/route.ts:18 | the reply is the answer, then "\n\nSources:\n", then a footer that is "No sources found." exactly when nothing is cited |
| `ChatRoute.Post` | app/api/chat/route.ts:5-29 | an empty question gives 400 "Ask a question to get started." and `runRag` is not called. Otherwise `runRag` gets the untrimmed last message and the body's business id. A thrown error gives 500 with the unavailability reply and the error's message. A result gives the reply, with the sources unchanged |
| `ChatRoute.WhitespaceQuestionReachesRag` | app/api/chat/route.ts:7-14 | a whitespace-only question is passed to `runRag` as it is |
| `ChatRoute.MissingKeyIsUnavailable` | app/api/chat/route.ts:20-28 | without a provider key: 500, the unavailability reply, error "AI provider key is missing", no provider contacted |
| `ChatRoute.RetrievalErrorReply` | app/api/chat/route.ts:14-19 | a retrieval error gives status 200, the fixed answer, the "No sources found." footer and empty sources, after exactly two provider calls |
| `TicketsRoute.FiltersInOrder` | app/api/tickets/route.ts:20-33 | the filters are business, then department, then status, each present only when its parameter is truthy |
| `TicketsRoute.FiltersOverSound` | app/api/tickets/route.ts:20-33 | every filter binds the non-empty parameter of its own column |
| `TicketsRoute.FiltersOverComplete` | app/api/tickets/route.ts:20-33 | a column is filtered iff its parameter is truthy, so an empty string counts as absent |
| `TicketsRoute.Params` | app/api/tickets/route.ts:18-33 | the i-th parameter is the value of the i-th filter |
| `TicketsRoute.ClausesPlaceholders` | app/api/tickets/route.ts:21-31 | the appended clauses hold exactly one `?` per filter |
| `TicketsRoute.QueryPlaceholders` | app/api/tickets/route.ts:17-35 | the whole listing query has as many `?` as there are filters |
| `TicketsRoute.BuildQuery` | app/api/tickets/route.ts:17-35 | the SQL is the fixed `SELECT ... WHERE 1=1` prefix, the clauses in order, then " ORDER BY created_at DESC". The parameters are the filter values, and the placeholder count equals the parameter count |
| `TicketsRoute.Get` | app/api/tickets/route.ts:5-45 | without a session: 401 and no query. Otherwise one query with the built SQL and parameters, answering the rows, or 500 with the error message |
| `TicketsRoute.HasRequiredFields` | app/api/tickets/route.ts:56 | a body passes exactly when the business id, department id and subject are all present and non-empty |
| `TicketsRoute.InsertParams` | app/api/tickets/route.ts:63-66 | the insert parameters are the business id, department id, subject, conversation id or NULL, and "open" |
| `TicketsRoute.Post` | app/api/tickets/route.ts:47-79 | without a session: 401 and no statement. A body parse error gives 500. Missing required fields give 400 and no insert. A complete request always issues the fixed insert with `InsertParams`. An insert error gives 500 with its message and nothing else is issued. Otherwise the newest-ticket query follows, and its error gives 500. An empty read gives 500 with "Value is not JSON serializable", because `tickets[0]` is undefined and the response cannot be serialised. Otherwise 201 with the newest row |
| `TicketsRoute.CreatedTicketsAreOpen` | app/api/tickets/route.ts:65 | every issued insert stores status "open" |
| `Middleware.AnyPrefix` | middleware.ts:12 | true iff the path starts with one of the routes |
| `Middleware.ProtectedIff` | middleware.ts:6-12 | a path is protected iff it starts with "/admin", "/agent" or "/portal" |
| `Middleware.ProtectedExtends` | middleware.ts:12 | anything appended to a protected path stays protected |
| `Middleware.PrefixExamples` | middleware.ts:6-12 | "/administrator" is protected and "/login" is not |
| `Middleware.Run` | middleware.ts:8-26 | `auth()` is consulted iff the path is protected. A redirect happens iff the path is protected and there is no session. It goes to "/login" with `callbackUrl` set to the original pathname. Otherwise the request passes through |
| `Middleware.NoRedirectLoops` | middleware.ts:17-22 | the login page itself passes through without a session lookup |
| `Auth.Settings` | lib/auth.ts:6-7 | the admin email defaults to "admin@example.com" and the password hash to "" |
| `Auth.Authorize` | lib/auth.ts:16-36 | missing email or password throws "Invalid credentials" before any comparison. The hash is compared iff the email is the admin email and the hash is non-empty. Success requires that and a true comparison, and yields exactly the admin user. Every other case throws "Invalid email or password" |
| `Auth.NoHashNoLogin` | lib/auth.ts:7-26 | with no configured hash, no sign-in succeeds and no comparison is made |
| `Auth.OnlyAdminEmail` | lib/auth.ts:22-26 | a successful sign-in used the admin email |
| `Auth.Jwt` | lib/auth.ts:43-49 | at sign-in the token gets the user's id and role (defaulting to "admin"); without a user the token is unchanged; other claims never change |
| `Auth.SessionCallback` | lib/auth.ts:50-56 | when the session has a user, its id and role are copied from the token; nothing else changes |
| `Auth.SessionAfterSignIn` | lib/auth.ts:43-56 | after sign-in, the session exposes the user's id and role (or "admin") |
| `Data.DepartmentName` | lib/data.ts:69 | the joined department's name, or the default when the join or the name is missing |
| `Data.CanUseSupabase` | lib/data.ts:53-54 | the getters use Supabase exactly when creating the client cannot throw |
| `Data.PublicArticles` | lib/data.ts:56-71 | not configured, error or no data gives the fallback articles. Otherwise one article per row, in order, with summary defaulting to "" and department to "Global" |
| `Data.CustomerTickets` | lib/data.ts:73-87 | fallback tickets as above; otherwise one summary per row with department defaulting to "General" |
| `Data.AgentQueue` | lib/data.ts:89-104 | fallback queue as above; otherwise one item per row, title defaulting to "Conversation", preview always "Open conversation", department defaulting to "General" |
| `Data.Overview` | lib/data.ts:106-125 | not configured gives all three fallbacks; otherwise each list falls back on its own when its data is missing |
| `Data.OverviewIgnoresErrors` | lib/data.ts:115-124 | present data is shown even when an error is reported alongside it |
| `Data.DepartmentOptions` | lib/data.ts:127-133 | the rows unchanged on success, else the fallback departments |
| `Data.EmptyReadIsNotFallback` | lib/data.ts:64-132 | an empty but successful read yields an empty list, not the sample data |
| `Config.SupabaseConfigService.GetBusinessConfig` | lib/config.ts:22-40 | fails with the missing-variables error exactly when the Supabase client cannot be created; otherwise the business id is the argument, even when the stored row carries another. The department picker defaults to true, the default department to null, and the flags to [] |
| `Config.GetConfigService` | lib/config.ts:43 | every call returns a new service |
| `Db.GetDbConfig` | lib/db.ts:11-23 | succeeds iff host, user, password and database are all set, with their values. Otherwise throws "Missing MySQL environment variables". The port is absent iff `MYSQL_PORT` is unset |
| `Db.EffectiveParams` | lib/db.ts:40-45 | no parameters given means `[]` |
| `Db.Pool.constructor` | lib/db.ts:29-34 | a new pool has the configuration, waits for connections, and has a connection limit of 10 and a queue limit of 0 |
| `Db.Database.GetDbPool` | lib/db.ts:25-38 | an existing pool is returned unchanged. Otherwise a failed configuration throws and leaves `pool` null. A valid one creates a fresh pool with the fixed options and stores it |
| `Db.Database.Send` | lib/db.ts:25-48 | a statement goes to the shared pool with its parameters or `[]`. An existing pool is kept. On first use a valid configuration stores a fresh pool with that configuration and the fixed options; an invalid one fails with the missing-variables error and leaves no pool |
| `Db.SharedPool` | lib/db.ts:25-38 | a second use returns the pool of a successful first use; after a failed first use, creation is retried |
| `HealthRoute.UnsetMembers` | app/api/health/route.ts:11-15 | a name is reported iff it is a required variable that is unset or empty |
| `HealthRoute.UnsetRequiredInOrder` | app/api/health/route.ts:11-15 | the report lists host, user, password, database in that order |
| `HealthRoute.CollectMissing` | app/api/health/route.ts:11-15 | the conditional pushes build exactly that list |
| `HealthRoute.Port` | app/api/health/route.ts:9 | the port is `MYSQL_PORT` or "3306" |
| `HealthRoute.PortNeverMissing` | app/api/health/route.ts:9-15 | `MYSQL_PORT` is never reported missing |
| `HealthRoute.Get` | app/api/health/route.ts:3-71 | missing variables give 400 with the list, `hasAllVars: false` exactly when a required variable is unset, and no connection attempt. Otherwise one connection with the values, port and 5000 ms timeout. Success answers with the configuration and test rows; an error gives 500 with its message and the fixed hint |
| `HealthRoute.AgreesWithDbConfig` | app/api/health/route.ts:11-15 | nothing is reported missing iff the access layer's configuration succeeds |

## Left out

- Similarity ranking, cosine similarity and top-k selection happen inside the `match_kb_chunks`
  database procedure, which is not part of this model. Its rows are an input sequence.
- Embedding vectors are opaque sequences of reals. The model does no floating-point arithmetic.
- OpenAI, Supabase, MySQL, bcrypt and NextAuth are foreign libraries or services. Their answers
  are inputs, and the requests sent to them are outputs. The Supabase query shapes (selected
  columns, `status` filters, `limit(5)`/`limit(6)`) live inside those foreign queries and are not
  modelled.
- The request body of `/api/chat` is parsed outside the `try` block. A malformed body gives the
  framework's own error, which is not modelled. JSON fields are modelled as strings or absent;
  non-string JSON values are not modelled.
- `Middleware.Run` returns the redirect as a path plus one query parameter. Building the absolute
  URL from `request.url` and percent-encoding `callbackUrl` are not modelled. The `matcher`
  routing configuration is not modelled either.
- `Number(MYSQL_PORT)` and `parseInt(port)` are not modelled, because they follow JavaScript number
  semantics, including `NaN`. The port is kept as its text.
- Console logging and `connection.end()` in the health endpoint are I/O and are not modelled.
- `Db.Database.Send` covers both `query` and `execute`. The rows or result they return come from
  the driver and are not modelled.
- The NextAuth session strategy, its 30-day lifetime and the sign-in page setting are framework
  configuration and are not modelled.
- `Promise.all` in `getAdminOverview` runs three queries concurrently. The model takes their three
  results as independent inputs, so any interleaving is left out.
- `TicketsRoute.Post`: the 500 message for an empty newest-ticket read is the error text that the
  framework's JSON response helper throws for an `undefined` body. That helper is not part of this
  model, so the text is taken as a constant.
- The newest-ticket query after an insert may return another client's ticket when requests run
  concurrently. Concurrency is not modelled.
- The webhook, escalation, business, ingest and department endpoints are not part of this model.
  Neither are the React pages, the embeddable widget, and the setup and seed scripts.
