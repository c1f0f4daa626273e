# Browserbase MCP server: session broker, screenshot registry and session tools in Dafny

This project models the core of the Browserbase MCP server:

- **The session broker** (`SessionManager`, src/sessionManager.ts). It keeps:
  - the table from logical session id to browser session;
  - the cached default session;
  - the active session id;
  - the single-flight guard of default-session creation;
  - the set of ids being torn down.
- **The screenshot registry** (src/mcp/resources.ts). It holds two module-level maps, the resource listing and the `screenshot://` reader. The broker purges it on teardown.
- **The create and close session tools** (src/tools/session.ts). The model covers their routing and their reply selection.
- **The configuration rules of the entry point** (src/index.ts). These are the custom-model key refinement, LOCAL mode, the credential check and the internal configuration.

Modules, one concept each:

| file | module | contents |
|---|---|---|
| wrappers.dfy | `Wrappers` | `Option`, `Result` |
| config.dfy | `ServerConfig` | the `Config` record, JavaScript truthiness, the refinement, `ResolveConfig` |
| resources.dfy | `Screenshots` | the registry value `Registry`, its specification functions and lemmas, the mutable `ScreenshotStore` |
| session_manager.dfy | `Sessions` | the engine oracle, outcome functions, the `SessionManager` class |
| session_tools.dfy | `SessionTools` | create routing, close reply selection, the two handlers |
| scenarios.dfy | `Scenarios` | runs on fresh objects that interleave concurrent callers |

How the model is built:

- **The Stagehand engine is an oracle.**
  - A `Launch` says what one factory call produced: `init()` failed, or an instance with its pages and reported Browserbase session id.
  - An `Engine` holds the set of instances whose `context.pages()` is non-empty, and the set whose `close()` throws.
- **Promises become explicit state.** An async method is split at the points where it awaits, so other callers can run between the halves:
  - `defaultSessionCreation` holds the ticket of the creation in flight.
  - `settled[t]` holds what awaiting ticket `t` yields.
  - `cleaningUpSessions` is observable between `BeginClose` and `FinishClose`.
  - `ensureDefaultSessionInternal` is split at the eviction close of a stale default (`StartEnsureDefault`/`ResumeEnsureDefault`) and at the creation promise (`RunDefaultCreation`).
- **Each mutator is tied to a specification function.** The registry's methods are stated as `Model() == F(old(Model()))` over the value `Registry`, and the properties are lemmas about `F`. The broker's methods state their new state and keep the invariant `Valid()`. Two contracts state less on the default route; they are named under "## Left out".
- **Insertion order of the screenshot map is modelled.** `Registry.order` follows JavaScript `Map` insertion order, so `listResources` lists in that order.

## Model

| member | source | states |
|---|---|---|
| ServerConfig.ModelNameOrDefault | src/sessionManager.ts:26 | the model name is the first truthy one of the requested name and "gemini-2.0-flash", so it is never empty |
| ServerConfig.AcceptsModelKeyMeaning | src/index.ts:100-116 | the refinement accepts a configuration exactly when its model is the default one or it carries a non-empty model API key |
| ServerConfig.ResolveConfig | src/index.ts:120-149 | fails exactly outside LOCAL mode with a missing API key or project id, and reports the API key first; on success the internal configuration is LOCAL exactly in LOCAL mode, `env` is always set, and every other field is copied unchanged (so the model-key refinement, which does not read `env`, still holds) |
| ServerConfig.ResolveConfigIdempotent | src/index.ts:146-149 | resolving the internal configuration again under the same STAGEHAND_ENV gives it back unchanged |
| Screenshots.ScreenshotStore.constructor | src/mcp/resources.ts:13-18 | the registry starts with both maps empty |
| Screenshots.ScreenshotStore.RegisterScreenshot | src/mcp/resources.ts:20-32 | the new registry is `Register` of the old one; the name keeps its place in the listing when it already existed |
| Screenshots.RegisterEffect | src/mcp/resources.ts:20-32 | after registering, the name holds the blob and is in the session's set; every other blob and every other session's set is unchanged; a new name is appended to the listing order and an existing one keeps its place, so the order stays in step with the keys |
| Screenshots.ScreenshotStore.ClearScreenshotsForSession | src/mcp/resources.ts:34-42 | the loop deletes the session's names one by one, and the new registry is `ClearSession` of the old one |
| Screenshots.Without | src/mcp/resources.ts:37-39 | deleting keys keeps exactly the remaining keys in the listing, each once |
| Screenshots.WithoutKeepsOrder | src/mcp/resources.ts:37-39 | deleting keys keeps the remaining keys in their insertion order, as `Map.delete` does |
| Screenshots.ClearSessionEffect | src/mcp/resources.ts:34-42 | exactly the session's names are deleted, together with the session's key, and the listing order loses exactly those names; every other blob and every other session's set is unchanged |
| Screenshots.ClearSessionIdempotent | src/mcp/resources.ts:35-41 | clearing an unregistered session changes nothing, so clearing twice equals clearing once |
| Screenshots.ClearSessionsStep | src/sessionManager.ts:505-516 | clearing one more session after a batch equals clearing the larger batch, so bulk teardown does not depend on the order of the closes |
| Screenshots.ClearSessionsValid | src/sessionManager.ts:505-516 | clearing a batch removes exactly the names the batch owned and the batch's sets, and keeps the registry well formed |
| Screenshots.ScreenshotStore.ClearAllScreenshots | src/mcp/resources.ts:44-47 | both maps are empty afterwards |
| Screenshots.ListResources | src/mcp/resources.ts:53-63 | one entry per stored screenshot, no duplicates, in Map insertion order, each with uri "screenshot://" + name and mime type image/png |
| Screenshots.IndexOf | src/mcp/resources.ts:80 | the result is the first occurrence of the separator at or after the start, or none occurs |
| Screenshots.SecondPiece | src/mcp/resources.ts:80 | `split(sep)[1]` exists exactly when the separator occurs; it is the text right after the first separator, ending at the next separator or the end of the string, so it never contains the separator |
| Screenshots.NameOfScreenshotUri | src/mcp/resources.ts:79-80 | for a name without "://", splitting "screenshot://" + name yields the name |
| Screenshots.ReadResource | src/mcp/resources.ts:78-96 | a successful read echoes the URI, gives mime type image/png and a non-empty blob stored under the extracted name; the read succeeds whenever the URI has the scheme and the extracted name holds a non-empty blob; every failure is "Resource not found: " + uri |
| Screenshots.ReadResourceFailures | src/mcp/resources.ts:79-95 | reading fails for a URI without the scheme, and for a name without "://" that is unknown or holds an empty blob |
| Screenshots.ReadAfterRegister | src/mcp/resources.ts:20-92 | round trip: after registering a non-empty blob under a name without "://", reading "screenshot://" + name returns that blob |
| Screenshots.ReadListed | src/mcp/resources.ts:53-92 | every listed screenshot with a name without "://" and a non-empty blob reads back at its listed URI |
| Screenshots.ListedUriUnreadable | src/mcp/resources.ts:80 | a screenshot named `x://y` is listed, yet reading its listed URI fails |
| Screenshots.ListedUriReadsOtherBlob | src/mcp/resources.ts:80 | with `x` also stored, reading the listed URI of `x://y` returns the blob of `x` |
| Screenshots.ReadResourceByName | src/mcp/resources.ts:78-96 | the corrected read takes the name as everything after the scheme; it succeeds exactly for a stored non-empty blob |
| Screenshots.ReadListedByName | src/mcp/resources.ts:53-96 | with the corrected read, every listed screenshot with a non-empty blob reads back at its listed URI, whatever its name |
| Screenshots.ReadByNameAgrees | src/mcp/resources.ts:78-96 | on names without "://" the corrected read agrees with the read as written |
| Sessions.DefaultSessionId | src/sessionManager.ts:134-135 | the default id starts with "browserbase_session_", followed by the context id when one is given and by "default" otherwise, and ends with "_" + timestamp + "_" + uuid |
| Sessions.SessionManager.constructor | src/sessionManager.ts:131-137 | the table is empty, there is no cached default and the active id is the default id |
| Sessions.SessionManager.SetActiveSessionId | src/sessionManager.ts:147-159 | the active id changes only to a tracked id or the default id; otherwise nothing changes |
| ServerConfig.FirstTruthy | src/sessionManager.ts:27-32 | the `a \|\| b \|\| ...` chain yields the first non-empty key, and is empty only when all keys are |
| Sessions.StagehandOptionsFor | src/sessionManager.ts:17-76 | rejects exactly outside LOCAL mode with a missing key or project id; Browserbase mode carries both, the call's own key and project id winning over the configured ones; the model name is never empty, and a name given by the call wins over the configured one; a model key is passed exactly when one of the keys is set, and it is the first such key; the resume id is passed only in Browserbase mode when it is given |
| Sessions.CustomModelCarriesItsKey | src/sessionManager.ts:26-73 | for a configuration that passed the refinement, a custom model is handed to Stagehand with the configuration's own key |
| Sessions.FactoryAcceptsCheckedConfig | src/sessionManager.ts:180-206 | once `createNewBrowserSession`'s own checks pass, the factory cannot reject the credentials, and the resume hint reaches Stagehand exactly outside LOCAL mode |
| Sessions.ResolvedConfigHasCredentials | src/index.ts:123-130 | a configuration the entry point accepted passes the broker's credential checks |
| Sessions.CreationOutcome | src/sessionManager.ts:180-265 | the create result in every case: missing API key, missing project id, failed init, no page, no Browserbase session id (not an error in LOCAL mode) and success; on success the session takes the first page and has the right provider id |
| Sessions.SessionManager.CreateNewBrowserSession | src/sessionManager.ts:175-266 | on failure nothing changes; on success the id maps to the session and is active, and the default cache is updated exactly when the id is the default; the factory is called exactly when the credentials are present, with the resume hint |
| Sessions.SessionManager.BeginClose | src/sessionManager.ts:272-281 | closing proceeds exactly when the id was not already being torn down, and the id is marked |
| Sessions.SessionManager.FinishClose | src/sessionManager.ts:283-317 | a throwing close is swallowed; screenshots are purged only after a clean close; the guard is released in every case |
| Sessions.SessionManager.CloseBrowserGracefully | src/sessionManager.ts:268-318 | a no-op for an id already being torn down; otherwise one close, a purge exactly when it succeeds, and the guard set as before |
| Sessions.PurgeIfValid | src/sessionManager.ts:294-303 | a teardown purge keeps the registry well formed and removes exactly the session's names |
| Sessions.SessionManager.StartEnsureDefault | src/sessionManager.ts:322-351 | up to the first await: joins an in-flight creation and changes nothing; with no cached default it installs the guard; reuses a live default and makes it active; for a stale default it only starts the eviction close, with no guard installed yet |
| Sessions.SessionManager.ResumeEnsureDefault | src/sessionManager.ts:351-362 | after the eviction close: the close is finished (purging only after a clean close), the default is forgotten, and a new guard replaces whatever guard is installed |
| Sessions.SessionManager.BeginEnsureDefault | src/sessionManager.ts:322-362 | the two steps above when no other caller runs during the eviction close: while a creation is in flight it joins that creation and changes nothing; it reuses a live default and makes it active; it evicts a stale default before installing the guard |
| Sessions.DefaultCreation | src/sessionManager.ts:362-399 | the retry runs only after the first attempt failed, and creation fails only when both attempts failed, with the retry's error |
| Sessions.DefaultCreationCalls | src/sessionManager.ts:362-399 | the factory is called at most twice: never without credentials, twice exactly when the first attempt failed |
| Sessions.SessionManager.CreateDefaultWithRetry | src/sessionManager.ts:363-399 | the result and the number of factory calls are those of the retry-once rule; on success the default is tracked, cached and active |
| Sessions.SessionManager.RunDefaultCreation | src/sessionManager.ts:362-404 | the guard is cleared on every exit, and the outcome is recorded under the creation's own ticket as what awaiting it yields |
| Sessions.SessionManager.StartEnsureDefaultGuarded | src/sessionManager.ts:322-362 | the corrected start: whenever the caller heads for a creation, the guard is installed before any await, including the eviction close of a stale default |
| Sessions.SessionManager.ResumeEnsureDefaultGuarded | src/sessionManager.ts:351-356 | the corrected continuation: finishes the eviction close and forgets the stale default, keeping the guard installed before the close |
| Sessions.EnsureOutcome | src/sessionManager.ts:322-411 | returns the in-flight creation when there is one, else the live cached default, else the outcome of a new creation |
| Sessions.SessionManager.EnsureDefaultSessionInternal | src/sessionManager.ts:322-412 | while a creation is in flight it starts nothing, calls no factory and changes nothing; otherwise at most two factory calls; the guard is clear afterwards; on success the default is cached and active; on failure the stale default is gone; the registry is unchanged on reuse, and loses the stale default's screenshots exactly when its eviction close ran and succeeded |
| Sessions.SessionManager.GetSession | src/sessionManager.ts:415-468 | for the default id with `createIfMissing` it is `ensureDefaultSessionInternal` with any failure read as null; otherwise an absent id gives null and no change, a stale one is closed, removed and reset from active, and a live one becomes active |
| Sessions.SessionManager.DetachSession | src/sessionManager.ts:487-501 | removes the id, drops the default cache when the id is the default, and resets the active id to the default when the id was active |
| Sessions.SessionManager.CleanupSession | src/sessionManager.ts:476-502 | closes a tracked id through the guard and then detaches it; on an id already torn down it changes nothing, so a second cleanup leaves the first one's state |
| Sessions.SessionManager.CloseNext | src/sessionManager.ts:508-513 | one close of the loop extends the set of purged sessions exactly when that close ran and succeeded |
| Sessions.SessionManager.CloseTracked | src/sessionManager.ts:505-522 | every tracked session is closed through the guard; the purged sessions are exactly those whose close ran and succeeded |
| Sessions.SessionManager.CloseAllSessions | src/sessionManager.ts:505-528 | afterwards the table is empty, there is no default cache and the active id is the default, whatever the close outcomes; the purged sessions are exactly those whose close ran and succeeded |
| SessionTools.RouteCreate | src/tools/session.ts:42-64 | no id, an empty id or the default id goes to `ensureDefaultSessionInternal`; any other id creates a session tracked under that id and resumes the provider session of the same id |
| SessionTools.CreateToolResult | src/tools/session.ts:66-75 | the create tool succeeds exactly for a successful broker result with a valid session object, and wraps broker errors with the target id |
| SessionTools.CreatedSessionsPassCheck | src/tools/session.ts:66-75 | a session created under a non-empty id always passes the validity check |
| SessionTools.AwaitedSessionsPassCheck | src/tools/session.ts:54-75 | a caller that joined the in-flight default creation also passes the check once it succeeds |
| SessionTools.HandleCreateSession | src/tools/session.ts:34-75 | the result is that of the routed broker call; on success the session is valid and active; the named route passes the id as the resume hint and leaves the cleanup guard, the default cache, the in-flight creation, the settled outcomes and the registry unchanged |
| SessionTools.CloseReplyFor | src/tools/session.ts:189-211 | throws only when an error occurred and cleanup did not succeed; a replay is offered only for a non-default id; the not-found reply names the id only when it is non-empty and not the default |
| SessionTools.ReplayLinkEndsText | src/tools/session.ts:197-203 | when a replay is offered, the success text ends with the replay URL of the provider session |
| SessionTools.CloseMessage | src/tools/session.ts:191-211 | the tool throws exactly for a failed cleanup; the success text is the closed-session text |
| SessionTools.HandleCloseSession | src/tools/session.ts:144-212 | it never creates a session and never throws; the previously active id is untracked afterwards and the default is active; the reply is selected from whether the active session was found live; its screenshots are purged exactly when its close ran and succeeded; the default cache is dropped exactly when the closed session was the live default |
| Scenarios.FreshManager | src/sessionManager.ts:131-137 | a new broker over an empty registry satisfies the invariant |
| Scenarios.SingleFlight | src/sessionManager.ts:324-329 | a second caller during an in-flight creation calls no factory and awaits exactly the first caller's outcome |
| Scenarios.RetryOnce | src/sessionManager.ts:382-387 | a failed first attempt followed by a good one gives a default session after two factory calls |
| Scenarios.StaleDefaultRecreated | src/sessionManager.ts:339-362 | a default without pages is replaced by a new engine instance from one more factory call |
| Scenarios.WithStaleDefault | src/sessionManager.ts:339-350 | a broker whose cached and tracked default has lost its pages |
| Scenarios.RacingStaleDefault | src/sessionManager.ts:351-362 | as written, two callers that find the default stale at once start two creations under distinct tickets; the session of the first creation is dropped from the table without a close |
| Scenarios.GuardedStaleDefault | src/sessionManager.ts:324-329 | with the guard installed before the eviction close, the second caller joins, the factory is called once and both callers get the same session |
| Scenarios.ConcurrentTeardown | src/sessionManager.ts:272-281 | of two overlapping teardowns of one id only the first closes; once both run to the end the id is untracked and the guard is clear |
| Scenarios.CreateThenClose | src/tools/session.ts:144-212 | creating a named session and closing it gives a reply with its replay, makes the default active again, and leaves no screenshot of it |
| Scenarios.TwoTrackedSessions | src/sessionManager.ts:236-248 | two creations under distinct ids track both sessions, each with its own registered screenshots |
| Scenarios.BulkShutdown | src/sessionManager.ts:505-528 | closing all with one throwing close untracks both sessions but purges only the one that closed cleanly |

## Findings

| source | as written | input that shows it | evidently intended | confidence | as-written member | corrected member |
|---|---|---|---|---|---|---|
| src/sessionManager.ts:351-362 | a stale default is evicted across an await (the close at :351) before the guard is installed at :362 | two callers ask for the default while it is stale; the second runs while the first awaits the eviction close. It sees no guard, its own close is a no-op, and it installs a guard and creates. The first then resumes, replaces that guard and creates again: two factory calls, and the first new session is dropped from the table without a close | at most one creation of the default is in flight, as the comment at :321 says; the guard goes up before the first await | medium; not executed | Scenarios.RacingStaleDefault | Sessions.SessionManager.StartEnsureDefaultGuarded |
| src/mcp/resources.ts:80 | the name read back is `uri.split("://")[1]`, the text up to the second "://" | a screenshot named `x://y` is listed as `screenshot://x://y`, but reading that URI looks up `x`: it fails with "Resource not found", or, when a screenshot `x` exists, returns the blob of `x`. Names come from a user-supplied name (src/tools/screenshot.ts:91-99), so they can contain "://" | every listed URI reads back its screenshot; the name is everything after `screenshot://` | medium; not executed | Screenshots.ListedUriUnreadable, Screenshots.ListedUriReadsOtherBlob | Screenshots.ReadListedByName |

The model keeps `ensureDefaultSessionInternal` as written: `StartEnsureDefault`, `ResumeEnsureDefault` and their composition `BeginEnsureDefault`. `StartEnsureDefaultGuarded` and `ResumeEnsureDefaultGuarded` are the corrected steps, and `Scenarios.GuardedStaleDefault` runs the same interleaving through them.

The model keeps `Screenshots.ReadResource` as written. `Screenshots.ReadResourceByName` is the corrected reader. `Screenshots.ReadByNameAgrees` proves that the two agree on every name without "://".

## Left out

- **Stagehand, the Browserbase SDK and the MCP server are not modelled.** This covers Stagehand construction, `init`, `context.pages()`, `close()`, the debug-URL fetch with its Browserbase session id check (src/tools/session.ts:79-108), and server and tool registration. They are foreign calls: `Launch` and `Engine` stand in for their answers. A `pages()` call that throws counts as a stale session, the same as no pages.
- **The JavaScript event loop is not modelled.** Promises are explicit state. The steps of concurrent callers are interleaved only where the model splits a method at an await: `StartEnsureDefault`/`ResumeEnsureDefault`/`RunDefaultCreation` and `BeginClose`/`FinishClose`. The awaits inside `createNewBrowserSession` are not split points, so a creation runs as one step.
- **The closes of `closeAllSessions` run one after another in the model.** In the source they run concurrently. Their ids are distinct, and `Screenshots.ClearSessionsStep` proves the purges commute, so the final state is the same.
- **The iteration order of the `browsers` map is not modelled**, because no observable result depends on it.
- **Inputs the source reads from its environment are parameters.** The default id comes from `randomUUID` and `Date.now`, so the constructor takes a timestamp and a uuid. `STAGEHAND_ENV` and the model API key variables are passed in as values.
- **Logging is not modelled**: none of the `process.stderr.write` or `console` output.
- **Error message texts of the broker are not modelled.** They are the `SessionError` variants. The close tool's texts are written out in `SessionTools.CloseMessage`. The create tool's wrapping text (src/tools/session.ts:109-117) is the `ToolError` variants.
- **The Stagehand options this model does not track are left out**: local browser launch options, proxies, stealth, keep-alive, context, viewport, experimental flag and logger. `Config` keeps the configuration's fields for them, and the `screenshot` and `server` fields, as optional values that `ResolveConfig` copies unchanged; no operation of the model reads them. The logger is not a configuration field and is not carried at all.
- Sessions.SessionManager.GetSession: on the default route with `createIfMissing`, the contract states the returned value and the active id, not the whole new state. `EnsureDefaultSessionInternal` states that state.
- SessionTools.HandleCreateSession: on the default route the contract states the result and the active id, not the whole new state. `EnsureDefaultSessionInternal` states that state.
- SessionTools.HandleCloseSession: `getSession` with `createIfMissing = false` and `cleanupSession` cannot throw in the model, because closes swallow their errors. So the handler's error message is always empty and it never throws. `SessionTools.CloseReplyFor` states the selection for every combination of flags.
- **The page and engine handles are always present in the model**, so the create tool's `!session.page` and `!session.stagehand` tests never fire.
- **A behaviour of the source, kept as is:** `getSession` on the default id with `createIfMissing = false` evicts a stale default from the table but leaves the default cache set (src/sessionManager.ts:447-459). The next `ensureDefaultSessionInternal` then probes that cached session again and closes the same engine instance a second time (src/sessionManager.ts:339-356).
- **`SessionFailed(target, cause)` carries the target id, but the source's error does not.** The create tool's wrapper (src/tools/session.ts:116) adds only the broker's message, and the broker's configuration errors (src/sessionManager.ts:183-191) carry no id.
- **`getDefaultSessionId`, `listResourceTemplates` and the empty `RESOURCES` lists are not modelled.** They are constant accessors. In the model the default id is the field `defaultSessionId`.
