/**
 * The session broker of src/sessionManager.ts. `SessionManager` keeps the
 * table from logical session id to browser session, the cached default
 * session, the active id, the single-flight guard of default-session creation
 * and the set of ids being torn down. The Stagehand engine is an oracle:
 * a `Launch` says what one factory call produced, an `Engine` says which
 * existing sessions still have pages and whose `close()` throws.
 */
module Sessions {
  import opened Wrappers
  import opened ServerConfig
  import Screenshots

  /** Identity of an object the engine owns: a Stagehand instance or a page. */
  type Handle = nat

  /** A tracked session: its page, the provider's session id and the Stagehand instance. */
  datatype BrowserSession = BrowserSession(page: Handle, sessionId: string, stagehand: Handle)

  /**
   * What one factory call produced: construction or `init()` threw, or an
   * initialised instance with the pages of its context and the Browserbase
   * session id it reports ("" when it reports none).
   */
  datatype Launch =
    | InitFailed
    | Launched(stagehand: Handle, pages: seq<Handle>, browserbaseSessionId: string)

  /** The engine's answers about existing sessions. */
  datatype Engine = Engine(withPages: set<Handle>, closeThrows: set<Handle>)

  /** The liveness probe: `context.pages()` returns at least one page (and does not throw). */
  predicate IsLive(engine: Engine, s: BrowserSession) {
    s.stagehand in engine.withPages
  }

  /** `stagehand.close()` returns without throwing. */
  predicate ClosesCleanly(engine: Engine, s: BrowserSession) {
    s.stagehand !in engine.closeThrows
  }

  datatype Cause = InitError | NoPages | NoBrowserbaseSessionId

  datatype SessionError =
    | Misconfigured(problem: ConfigError)
    | CreateFailed(id: string, cause: Cause)
    | EnsureFailed(id: string, retryError: SessionError)

  /**
   * The value an async operation hands back: available now, or the caller
   * awaits the in-flight default-session creation with this ticket.
   */
  datatype Pending<T> = Now(value: T) | Later(ticket: nat)

  /** How `ensureDefaultSessionInternal` proceeds once it has looked at the guard and the cache. */
  datatype EnsureStep = Joined(ticket: nat) | Reused(session: BrowserSession) | Started(ticket: nat)

  /**
   * Where `ensureDefaultSessionInternal` stands when it first awaits: it has
   * decided its step, or it awaits the eviction close of the stale default
   * (`closing` is false when that close was a no-op because the id was
   * already being torn down).
   */
  datatype EnsureStart = Decided(step: EnsureStep) | Evicting(stale: BrowserSession, closing: bool)

  const DefaultIdPrefix := "browserbase_session_"

  /** The default id `browserbase_session_<contextId or "default">_<timestamp>_<uuid>`. */
  function DefaultSessionId(contextId: Option<string>, timestamp: string, uuid: string): (id: string)
    ensures |DefaultIdPrefix| < |id| && id[..|DefaultIdPrefix|] == DefaultIdPrefix
    ensures Truthy(contextId) ==>
      |DefaultIdPrefix| + |contextId.value| < |id| &&
      id[|DefaultIdPrefix|..|DefaultIdPrefix| + |contextId.value|] == contextId.value
    ensures !Truthy(contextId) ==> |DefaultIdPrefix| + 7 < |id| && id[|DefaultIdPrefix|..|DefaultIdPrefix| + 7] == "default"
    ensures var suffix := "_" + timestamp + "_" + uuid; |suffix| < |id| && id[|id| - |suffix|..] == suffix
  {
    var tag := if Truthy(contextId) then contextId.value else "default";
    var id := DefaultIdPrefix + tag + "_" + timestamp + "_" + uuid;
    assert id[..|DefaultIdPrefix|] == DefaultIdPrefix;
    assert id[|DefaultIdPrefix|..|DefaultIdPrefix| + |tag|] == tag;
    assert id == (DefaultIdPrefix + tag) + ("_" + timestamp + "_" + uuid);
    id
  }

  // ---------------------------------------------------------------------------
  // createStagehandInstance: credential check and option defaults

  /** The `CreateSessionParams` a caller may pass to `createStagehandInstance`. */
  datatype SessionParams = SessionParams(
    apiKey: Option<string>,
    projectId: Option<string>,
    modelName: Option<string>,
    browserbaseSessionID: Option<string>)

  /** Stagehand's `model` option: a bare name, or a name with its API key. */
  datatype ModelChoice = ModelName(name: string) | ModelWithKey(apiKey: string, name: string)

  /** The options `createStagehandInstance` passes to the Stagehand constructor that this model tracks. */
  datatype StagehandOptions = StagehandOptions(
    env: Env,
    apiKey: Option<string>,
    projectId: Option<string>,
    model: ModelChoice,
    browserbaseSessionID: Option<string>)

  /**
   * `createStagehandInstance` up to the constructor call. `ambientModelKeys`
   * are the GEMINI_API_KEY, GOOGLE_API_KEY, OPENAI_API_KEY and
   * ANTHROPIC_API_KEY variables of the process, in that order.
   */
  function StagehandOptionsFor(config: Config, params: SessionParams, ambientModelKeys: seq<Option<string>>): (r: Result<StagehandOptions, ConfigError>)
    ensures r.Failure? <==>
      !LocalEnv(config) &&
      (!Truthy(OrElse(params.apiKey, config.browserbaseApiKey)) || !Truthy(OrElse(params.projectId, config.browserbaseProjectId)))
    ensures r.Failure? ==> r.error == MissingCredentials
    ensures r.Success? ==> (r.value.env == Local <==> LocalEnv(config))
    ensures r.Success? && r.value.env == Browserbase ==> Truthy(r.value.apiKey) && Truthy(r.value.projectId)
    ensures r.Success? && r.value.env == Browserbase ==>
      r.value.apiKey == OrElse(params.apiKey, config.browserbaseApiKey) &&
      r.value.projectId == OrElse(params.projectId, config.browserbaseProjectId)
    ensures r.Success? ==>
      (r.value.browserbaseSessionID.Some? <==> r.value.env == Browserbase && Truthy(params.browserbaseSessionID))
    ensures r.Success? ==> r.value.model.name != ""
    ensures r.Success? && Truthy(params.modelName) ==> r.value.model.name == params.modelName.value
    ensures r.Success? && !Truthy(params.modelName) ==> r.value.model.name == ModelNameOrDefault(config.modelName)
    ensures r.Success? ==> (r.value.model.ModelWithKey? <==> Truthy(FirstTruthy([config.modelApiKey] + ambientModelKeys)))
    ensures r.Success? && r.value.model.ModelWithKey? ==> r.value.model.apiKey == FirstTruthy([config.modelApiKey] + ambientModelKeys).value
  {
    var local := LocalEnv(config);
    var apiKey := OrElse(params.apiKey, config.browserbaseApiKey);
    var projectId := OrElse(params.projectId, config.browserbaseProjectId);
    if !local && (!Truthy(apiKey) || !Truthy(projectId)) then
      Failure(MissingCredentials)
    else
      var modelName := ModelNameOrDefault(OrElse(params.modelName, config.modelName));
      var modelApiKey := FirstTruthy([config.modelApiKey] + ambientModelKeys);
      var model := if Truthy(modelApiKey) then ModelWithKey(modelApiKey.value, modelName) else ModelName(modelName);
      if local then
        Success(StagehandOptions(Local, None, None, model, None))
      else
        var resume := if Truthy(params.browserbaseSessionID) then params.browserbaseSessionID else None;
        Success(StagehandOptions(Browserbase, apiKey, projectId, model, resume))
  }

  /**
   * When the call names no model, a custom model from a configuration that
   * passed the schema's refinement is always handed to Stagehand together with
   * the configuration's own key.
   */
  lemma CustomModelCarriesItsKey(config: Config, params: SessionParams, ambientModelKeys: seq<Option<string>>)
    requires AcceptsModelKey(config)
    requires !Truthy(params.modelName)
    requires Truthy(config.modelName) && config.modelName.value != DefaultModelName
    requires StagehandOptionsFor(config, params, ambientModelKeys).Success?
    ensures StagehandOptionsFor(config, params, ambientModelKeys).value.model
         == ModelWithKey(config.modelApiKey.value, config.modelName.value)
  {
    assert FirstTruthy([config.modelApiKey] + ambientModelKeys) == config.modelApiKey;
  }

  /** The checks `createNewBrowserSession` makes before calling the factory. */
  predicate CredentialsPresent(config: Config) {
    LocalEnv(config) || (Truthy(config.browserbaseApiKey) && Truthy(config.browserbaseProjectId))
  }

  /** The parameters `createNewBrowserSession` hands the factory: the resume hint, outside LOCAL mode only. */
  function ResumeParams(config: Config, resumeSessionId: Option<string>): SessionParams {
    SessionParams(None, None, None, if Truthy(resumeSessionId) && !LocalEnv(config) then resumeSessionId else None)
  }

  /**
   * Once `createNewBrowserSession`'s own checks pass, `createStagehandInstance`
   * can no longer reject the credentials, and the resume hint reaches Stagehand
   * exactly outside LOCAL mode.
   */
  lemma FactoryAcceptsCheckedConfig(config: Config, resumeSessionId: Option<string>, ambientModelKeys: seq<Option<string>>)
    requires CredentialsPresent(config)
    ensures StagehandOptionsFor(config, ResumeParams(config, resumeSessionId), ambientModelKeys).Success?
    ensures StagehandOptionsFor(config, ResumeParams(config, resumeSessionId), ambientModelKeys).value.browserbaseSessionID
         == if !LocalEnv(config) && Truthy(resumeSessionId) then resumeSessionId else None
  {
  }

  /** A configuration the server entry point accepted passes the broker's credential checks. */
  lemma ResolvedConfigHasCredentials(c: Config, stagehandEnv: Option<string>)
    requires ResolveConfig(c, stagehandEnv).Success?
    ensures CredentialsPresent(ResolveConfig(c, stagehandEnv).value)
  {
  }

  // ---------------------------------------------------------------------------
  // Outcomes of the broker's operations, as functions of their inputs

  /** What `createNewBrowserSession(newSessionId, config, _)` returns or throws, given the factory's `launch`. */
  function CreationOutcome(config: Config, newSessionId: string, launch: Launch): (r: Result<BrowserSession, SessionError>)
    ensures r == Failure(Misconfigured(MissingApiKey)) <==> !LocalEnv(config) && !Truthy(config.browserbaseApiKey)
    ensures r == Failure(Misconfigured(MissingProjectId)) <==>
      !LocalEnv(config) && Truthy(config.browserbaseApiKey) && !Truthy(config.browserbaseProjectId)
    ensures r.Success? <==>
      CredentialsPresent(config) && launch.Launched? && |launch.pages| > 0 &&
      (LocalEnv(config) || launch.browserbaseSessionId != "")
    ensures r.Success? ==> r.value.stagehand == launch.stagehand && r.value.page == launch.pages[0]
    ensures r.Success? ==> r.value.sessionId == if LocalEnv(config) then newSessionId else launch.browserbaseSessionId
    ensures r.Failure? && !r.error.Misconfigured? ==> r.error.CreateFailed? && r.error.id == newSessionId
    ensures r == Failure(CreateFailed(newSessionId, InitError)) <==> CredentialsPresent(config) && launch.InitFailed?
    ensures r == Failure(CreateFailed(newSessionId, NoPages)) <==>
      CredentialsPresent(config) && launch.Launched? && |launch.pages| == 0
    ensures r == Failure(CreateFailed(newSessionId, NoBrowserbaseSessionId)) <==>
      CredentialsPresent(config) && !LocalEnv(config) && launch.Launched? && |launch.pages| > 0 && launch.browserbaseSessionId == ""
  {
    if !LocalEnv(config) && !Truthy(config.browserbaseApiKey) then Failure(Misconfigured(MissingApiKey))
    else if !LocalEnv(config) && !Truthy(config.browserbaseProjectId) then Failure(Misconfigured(MissingProjectId))
    else
      match launch
      case InitFailed => Failure(CreateFailed(newSessionId, InitError))
      case Launched(stagehand, pages, browserbaseSessionId) =>
        if |pages| == 0 then Failure(CreateFailed(newSessionId, NoPages))
        else if LocalEnv(config) then Success(BrowserSession(pages[0], newSessionId, stagehand))
        else if browserbaseSessionId == "" then Failure(CreateFailed(newSessionId, NoBrowserbaseSessionId))
        else Success(BrowserSession(pages[0], browserbaseSessionId, stagehand))
  }

  /**
   * The retry-once rule of default-session creation: the retry is consulted
   * only when the first attempt failed, and the creation fails only when both
   * attempts failed, with the retry's error.
   */
  function DefaultCreation(config: Config, id: string, first: Launch, retry: Launch): (r: Result<BrowserSession, SessionError>)
    ensures r.Success? <==> CreationOutcome(config, id, first).Success? || CreationOutcome(config, id, retry).Success?
    ensures CreationOutcome(config, id, first).Success? ==> r == CreationOutcome(config, id, first)
    ensures CreationOutcome(config, id, first).Failure? ==>
      r == if CreationOutcome(config, id, retry).Success? then CreationOutcome(config, id, retry)
           else Failure(EnsureFailed(id, CreationOutcome(config, id, retry).error))
  {
    var attempt := CreationOutcome(config, id, first);
    if attempt.Success? then attempt
    else
      var again := CreationOutcome(config, id, retry);
      if again.Success? then again else Failure(EnsureFailed(id, again.error))
  }

  /** How many times default-session creation calls the factory: never without credentials, at most twice. */
  function DefaultCreationCalls(config: Config, id: string, first: Launch): (n: nat)
    ensures n <= 2
    ensures n == 0 <==> !CredentialsPresent(config)
    ensures n == 2 <==> CredentialsPresent(config) && CreationOutcome(config, id, first).Failure?
  {
    if !CredentialsPresent(config) then 0
    else if CreationOutcome(config, id, first).Success? then 1
    else 2
  }

  /** The step `ensureDefaultSessionInternal` takes from the guard and the cache. */
  function EnsureStepFor(creation: Option<nat>, cached: Option<BrowserSession>, engine: Engine, nextTicket: nat): EnsureStep {
    if creation.Some? then Joined(creation.value)
    else if cached.Some? && IsLive(engine, cached.value) then Reused(cached.value)
    else Started(nextTicket)
  }

  /**
   * What `ensureDefaultSessionInternal` hands back: the in-flight creation's
   * promise, the live cached default, or the outcome of a new creation.
   */
  function EnsureOutcome(creation: Option<nat>, cached: Option<BrowserSession>, engine: Engine,
                         config: Config, id: string, first: Launch, retry: Launch): (r: Pending<Result<BrowserSession, SessionError>>)
    ensures r.Later? <==> creation.Some?
    ensures creation.Some? ==> r.ticket == creation.value
    ensures creation.None? && cached.Some? && IsLive(engine, cached.value) ==> r == Now(Success(cached.value))
    ensures creation.None? && (cached.None? || !IsLive(engine, cached.value)) ==> r == Now(DefaultCreation(config, id, first, retry))
  {
    match EnsureStepFor(creation, cached, engine, 0)
    case Joined(t) => Later(t)
    case Reused(s) => Now(Success(s))
    case Started(_) => Now(DefaultCreation(config, id, first, retry))
  }

  /** `getSession` turns a failure of the default path into `null`. */
  function FoundOrNull(p: Pending<Result<BrowserSession, SessionError>>): Pending<Option<BrowserSession>> {
    match p
    case Later(t) => Later(t)
    case Now(Success(s)) => Now(Some(s))
    case Now(Failure(_)) => Now(None)
  }

  /** The registry after a teardown that purges `sessionId`'s screenshots exactly when `purge` holds. */
  function PurgeIf(reg: Screenshots.Registry, purge: bool, sessionId: string): Screenshots.Registry {
    if purge then Screenshots.ClearSession(reg, sessionId) else reg
  }

  /** A teardown keeps the registry's listing order in step with its screenshots. */
  lemma PurgeIfValid(reg: Screenshots.Registry, purge: bool, sessionId: string)
    requires Screenshots.Valid(reg)
    ensures Screenshots.Valid(PurgeIf(reg, purge, sessionId))
    ensures PurgeIf(reg, purge, sessionId).screenshots.Keys ==
      if purge then reg.screenshots.Keys - Screenshots.NamesOf(reg, sessionId) else reg.screenshots.Keys
  {
    if purge {
      Screenshots.ClearSessionEffect(reg, sessionId);
    }
  }

  /** The ids among `ids` whose close `closeAllSessions` runs and whose close succeeds. */
  function CleanlyClosed(table: map<string, BrowserSession>, cleaning: set<string>, engine: Engine, ids: set<string>): set<string> {
    set id | id in ids && id in table && id !in cleaning && ClosesCleanly(engine, table[id])
  }

  lemma CleanlyClosedStep(table: map<string, BrowserSession>, cleaning: set<string>, engine: Engine, done: set<string>, id: string)
    requires id in table
    ensures CleanlyClosed(table, cleaning, engine, done + {id}) ==
      if id !in cleaning && ClosesCleanly(engine, table[id]) then CleanlyClosed(table, cleaning, engine, done) + {id}
      else CleanlyClosed(table, cleaning, engine, done)
  {
  }

  // ---------------------------------------------------------------------------
  // The broker

  class SessionManager {
    var browsers: map<string, BrowserSession>
    var defaultBrowserSession: Option<BrowserSession>
    const defaultSessionId: string
    var activeSessionId: string
    /** The ticket of the in-flight default-session creation (the shared promise), None when none runs. */
    var defaultSessionCreation: Option<nat>
    /** The outcome of every finished default-session creation, by ticket: what awaiting its promise yields. */
    var settled: map<nat, Result<BrowserSession, SessionError>>
    var nextTicket: nat
    var cleaningUpSessions: set<string>
    /** The screenshot registry that teardown purges. */
    const screenshots: Screenshots.ScreenshotStore

    ghost predicate Valid()
      reads this
    {
      && defaultSessionId != ""
      && (activeSessionId == defaultSessionId || activeSessionId in browsers)
      && (defaultSessionId in browsers ==> defaultBrowserSession == Some(browsers[defaultSessionId]))
      && (defaultBrowserSession.Some? ==> defaultBrowserSession.value.sessionId != "")
      && (defaultSessionCreation.Some? ==> defaultSessionCreation.value < nextTicket && defaultSessionCreation.value !in settled)
      && (forall t :: t in settled ==> t < nextTicket)
      && (forall t :: t in settled && settled[t].Success? ==> settled[t].value.sessionId != "")
    }

    /** What awaiting the promise of creation `ticket` yields, once it has settled. */
    function Awaited(ticket: nat): Option<Result<BrowserSession, SessionError>>
      reads this
    {
      if ticket in settled then Some(settled[ticket]) else None
    }

    /** A session id is torn down: not tracked, not cached as default, not active unless it is the default. */
    predicate TornDown(sessionId: string)
      reads this
    {
      && sessionId !in browsers
      && (sessionId == defaultSessionId ==> defaultBrowserSession.None?)
      && (activeSessionId == sessionId ==> sessionId == defaultSessionId)
    }

    constructor (contextId: Option<string>, timestamp: string, uuid: string, screenshots: Screenshots.ScreenshotStore)
      ensures Valid()
      ensures defaultSessionId == DefaultSessionId(contextId, timestamp, uuid) && this.screenshots == screenshots
      ensures browsers == map[] && defaultBrowserSession == None && activeSessionId == defaultSessionId
      ensures defaultSessionCreation == None && settled == map[] && nextTicket == 0 && cleaningUpSessions == {}
    {
      browsers := map[];
      defaultBrowserSession := None;
      defaultSessionId := DefaultSessionId(contextId, timestamp, uuid);
      activeSessionId := defaultSessionId;
      defaultSessionCreation := None;
      settled := map[];
      nextTicket := 0;
      cleaningUpSessions := {};
      this.screenshots := screenshots;
    }

    method SetActiveSessionId(id: string)
      modifies this`activeSessionId
      ensures activeSessionId == if id in browsers || id == defaultSessionId then id else old(activeSessionId)
    {
      if id in browsers {
        activeSessionId := id;
      } else if id == defaultSessionId {
        activeSessionId := id;
      }
    }

    /**
     * `createNewBrowserSession`. `request` is what the factory was called
     * with, None when the credential checks threw before it.
     */
    method CreateNewBrowserSession(newSessionId: string, config: Config, resumeSessionId: Option<string>, launch: Launch)
      returns (r: Result<BrowserSession, SessionError>, request: Option<SessionParams>)
      requires Valid()
      modifies this`browsers, this`defaultBrowserSession, this`activeSessionId
      ensures Valid()
      ensures r == CreationOutcome(config, newSessionId, launch)
      ensures request == if CredentialsPresent(config) then Some(ResumeParams(config, resumeSessionId)) else None
      ensures r.Success? ==> browsers == old(browsers)[newSessionId := r.value] && activeSessionId == newSessionId
      ensures r.Success? ==>
        defaultBrowserSession == if newSessionId == defaultSessionId then Some(r.value) else old(defaultBrowserSession)
      ensures r.Failure? ==>
        browsers == old(browsers) && defaultBrowserSession == old(defaultBrowserSession) && activeSessionId == old(activeSessionId)
    {
      var isLocalMode := LocalEnv(config);
      if !isLocalMode {
        if !Truthy(config.browserbaseApiKey) {
          return Failure(Misconfigured(MissingApiKey)), None;
        }
        if !Truthy(config.browserbaseProjectId) {
          return Failure(Misconfigured(MissingProjectId)), None;
        }
      }
      request := Some(ResumeParams(config, resumeSessionId));
      match launch {
        case InitFailed =>
          r := Failure(CreateFailed(newSessionId, InitError));
        case Launched(stagehand, pages, reportedId) =>
          if |pages| == 0 {
            r := Failure(CreateFailed(newSessionId, NoPages));
            return;
          }
          var page := pages[0];
          var browserbaseSessionId: string;
          if isLocalMode {
            browserbaseSessionId := newSessionId;
          } else {
            browserbaseSessionId := reportedId;
            if browserbaseSessionId == "" {
              r := Failure(CreateFailed(newSessionId, NoBrowserbaseSessionId));
              return;
            }
          }
          var sessionObj := BrowserSession(page, browserbaseSessionId, stagehand);
          browsers := browsers[newSessionId := sessionObj];
          if newSessionId == defaultSessionId {
            defaultBrowserSession := Some(sessionObj);
          }
          SetActiveSessionId(newSessionId);
          r := Success(sessionObj);
      }
    }

    /** The synchronous start of `closeBrowserGracefully`: test and mark the cleanup guard. */
    method BeginClose(sessionId: string) returns (proceed: bool)
      requires Valid()
      modifies this`cleaningUpSessions
      ensures Valid()
      ensures proceed <==> sessionId !in old(cleaningUpSessions)
      ensures cleaningUpSessions == old(cleaningUpSessions) + {sessionId}
    {
      proceed := sessionId !in cleaningUpSessions;
      if proceed {
        cleaningUpSessions := cleaningUpSessions + {sessionId};
      }
    }

    /**
     * The rest of `closeBrowserGracefully`, from the awaited `close()` on: a
     * close that throws is swallowed, a clean close purges the session's
     * screenshots, and the guard is released in any case.
     */
    method FinishClose(session: BrowserSession, sessionId: string, engine: Engine)
      requires Valid()
      requires sessionId in cleaningUpSessions
      modifies this`cleaningUpSessions, screenshots
      ensures Valid()
      ensures cleaningUpSessions == old(cleaningUpSessions) - {sessionId}
      ensures screenshots.Model() == PurgeIf(old(screenshots.Model()), ClosesCleanly(engine, session), sessionId)
    {
      if ClosesCleanly(engine, session) {
        screenshots.ClearScreenshotsForSession(sessionId);
      }
      cleaningUpSessions := cleaningUpSessions - {sessionId};
    }

    /** `closeBrowserGracefully`: a no-op for an id already being torn down, otherwise one close. */
    method CloseBrowserGracefully(session: BrowserSession, sessionId: string, engine: Engine) returns (closeCalled: bool)
      requires Valid()
      modifies this`cleaningUpSessions, screenshots
      ensures Valid()
      ensures closeCalled <==> sessionId !in old(cleaningUpSessions)
      ensures cleaningUpSessions == old(cleaningUpSessions)
      ensures screenshots.Model() == PurgeIf(old(screenshots.Model()), closeCalled && ClosesCleanly(engine, session), sessionId)
    {
      closeCalled := BeginClose(sessionId);
      if closeCalled {
        FinishClose(session, sessionId, engine);
      }
    }

    /**
     * `ensureDefaultSessionInternal` up to its first await: join the in-flight
     * creation, reuse a live cached default, install the guard when nothing is
     * cached, or start the eviction close of a stale default. In the last case
     * no guard is installed yet.
     */
    method StartEnsureDefault(engine: Engine) returns (start: EnsureStart)
      requires Valid()
      modifies this`activeSessionId, this`defaultSessionCreation, this`nextTicket, this`cleaningUpSessions
      ensures Valid()
      ensures old(defaultSessionCreation).Some? ==> start == Decided(Joined(old(defaultSessionCreation).value)) && unchanged(this)
      ensures old(defaultSessionCreation).None? && old(defaultBrowserSession).None? ==>
        && start == Decided(Started(old(nextTicket)))
        && defaultSessionCreation == Some(old(nextTicket)) && nextTicket == old(nextTicket) + 1
        && activeSessionId == old(activeSessionId) && cleaningUpSessions == old(cleaningUpSessions)
      ensures old(defaultSessionCreation).None? && old(defaultBrowserSession).Some? && IsLive(engine, old(defaultBrowserSession).value) ==>
        && start == Decided(Reused(old(defaultBrowserSession).value))
        && activeSessionId == defaultSessionId
        && defaultSessionCreation == None && nextTicket == old(nextTicket) && cleaningUpSessions == old(cleaningUpSessions)
      ensures old(defaultSessionCreation).None? && old(defaultBrowserSession).Some? && !IsLive(engine, old(defaultBrowserSession).value) ==>
        && start == Evicting(old(defaultBrowserSession).value, defaultSessionId !in old(cleaningUpSessions))
        && cleaningUpSessions == old(cleaningUpSessions) + {defaultSessionId}
        && activeSessionId == old(activeSessionId) && defaultSessionCreation == None && nextTicket == old(nextTicket)
    {
      if defaultSessionCreation.Some? {
        return Decided(Joined(defaultSessionCreation.value));
      }
      var sessionId := defaultSessionId;
      if defaultBrowserSession.None? {
        start := Decided(Started(nextTicket));
        defaultSessionCreation := Some(nextTicket);
        nextTicket := nextTicket + 1;
      } else if !IsLive(engine, defaultBrowserSession.value) {
        var closing := BeginClose(sessionId);
        start := Evicting(defaultBrowserSession.value, closing);
      } else {
        SetActiveSessionId(sessionId);
        start := Decided(Reused(defaultBrowserSession.value));
      }
    }

    /**
     * `ensureDefaultSessionInternal` after the eviction close of a stale
     * default: finish that close, forget the default, and install a guard for
     * a new creation, replacing whatever guard another caller installed
     * meanwhile.
     */
    method ResumeEnsureDefault(stale: BrowserSession, closing: bool, engine: Engine) returns (step: EnsureStep)
      requires Valid()
      requires closing ==> defaultSessionId in cleaningUpSessions
      modifies this`browsers, this`defaultBrowserSession, this`defaultSessionCreation, this`nextTicket, this`cleaningUpSessions, screenshots
      ensures Valid()
      ensures step == Started(old(nextTicket))
      ensures defaultSessionCreation == Some(old(nextTicket)) && nextTicket == old(nextTicket) + 1
      ensures defaultBrowserSession == None && browsers == old(browsers) - {defaultSessionId}
      ensures cleaningUpSessions == if closing then old(cleaningUpSessions) - {defaultSessionId} else old(cleaningUpSessions)
      ensures screenshots.Model() == PurgeIf(old(screenshots.Model()), closing && ClosesCleanly(engine, stale), defaultSessionId)
    {
      if closing {
        FinishClose(stale, defaultSessionId, engine);
      }
      defaultBrowserSession := None;
      browsers := browsers - {defaultSessionId};
      step := Started(nextTicket);
      defaultSessionCreation := Some(nextTicket);
      nextTicket := nextTicket + 1;
    }

    /**
     * The intended start of `ensureDefaultSessionInternal`: for a stale default
     * the guard is installed before the eviction close is awaited. Whenever the
     * caller heads for a creation, the guard is up, so a caller arriving during
     * the eviction joins that creation instead of starting another.
     */
    method StartEnsureDefaultGuarded(engine: Engine) returns (start: EnsureStart)
      requires Valid()
      modifies this`activeSessionId, this`defaultSessionCreation, this`nextTicket, this`cleaningUpSessions
      ensures Valid()
      ensures !(start.Decided? && start.step.Reused?) ==> defaultSessionCreation.Some?
      ensures old(defaultSessionCreation).Some? ==> start == Decided(Joined(old(defaultSessionCreation).value)) && unchanged(this)
      ensures old(defaultSessionCreation).None? && old(defaultBrowserSession).None? ==>
        && start == Decided(Started(old(nextTicket)))
        && defaultSessionCreation == Some(old(nextTicket)) && nextTicket == old(nextTicket) + 1
        && activeSessionId == old(activeSessionId) && cleaningUpSessions == old(cleaningUpSessions)
      ensures old(defaultSessionCreation).None? && old(defaultBrowserSession).Some? && IsLive(engine, old(defaultBrowserSession).value) ==>
        && start == Decided(Reused(old(defaultBrowserSession).value))
        && activeSessionId == defaultSessionId
        && defaultSessionCreation == None && nextTicket == old(nextTicket) && cleaningUpSessions == old(cleaningUpSessions)
      ensures old(defaultSessionCreation).None? && old(defaultBrowserSession).Some? && !IsLive(engine, old(defaultBrowserSession).value) ==>
        && start == Evicting(old(defaultBrowserSession).value, defaultSessionId !in old(cleaningUpSessions))
        && defaultSessionCreation == Some(old(nextTicket)) && nextTicket == old(nextTicket) + 1
        && cleaningUpSessions == old(cleaningUpSessions) + {defaultSessionId}
        && activeSessionId == old(activeSessionId)
    {
      if defaultSessionCreation.Some? {
        return Decided(Joined(defaultSessionCreation.value));
      }
      var sessionId := defaultSessionId;
      if defaultBrowserSession.Some? && IsLive(engine, defaultBrowserSession.value) {
        SetActiveSessionId(sessionId);
        return Decided(Reused(defaultBrowserSession.value));
      }
      var ticket := nextTicket;
      defaultSessionCreation := Some(ticket);
      nextTicket := nextTicket + 1;
      if defaultBrowserSession.None? {
        start := Decided(Started(ticket));
      } else {
        var closing := BeginClose(sessionId);
        start := Evicting(defaultBrowserSession.value, closing);
      }
    }

    /**
     * The intended continuation after the eviction close: finish the close and
     * forget the stale default; the creation keeps the guard installed before
     * the close.
     */
    method ResumeEnsureDefaultGuarded(stale: BrowserSession, closing: bool, engine: Engine) returns (step: EnsureStep)
      requires Valid()
      requires defaultSessionCreation.Some?
      requires closing ==> defaultSessionId in cleaningUpSessions
      modifies this`browsers, this`defaultBrowserSession, this`cleaningUpSessions, screenshots
      ensures Valid()
      ensures step == Started(defaultSessionCreation.value)
      ensures defaultBrowserSession == None && browsers == old(browsers) - {defaultSessionId}
      ensures cleaningUpSessions == if closing then old(cleaningUpSessions) - {defaultSessionId} else old(cleaningUpSessions)
      ensures screenshots.Model() == PurgeIf(old(screenshots.Model()), closing && ClosesCleanly(engine, stale), defaultSessionId)
    {
      if closing {
        FinishClose(stale, defaultSessionId, engine);
      }
      defaultBrowserSession := None;
      browsers := browsers - {defaultSessionId};
      step := Started(defaultSessionCreation.value);
    }

    /**
     * `ensureDefaultSessionInternal` up to the point where it awaits the
     * creation promise, when no other caller runs during the eviction close:
     * join the in-flight creation, reuse a live cached default, or evict a
     * stale one (before the guard is installed) and install a new guard.
     */
    method BeginEnsureDefault(engine: Engine) returns (step: EnsureStep)
      requires Valid()
      modifies this, screenshots
      ensures Valid()
      ensures step == EnsureStepFor(old(defaultSessionCreation), old(defaultBrowserSession), engine, old(nextTicket))
      ensures step.Joined? ==> unchanged(this) && unchanged(screenshots)
      ensures step.Reused? ==>
        && activeSessionId == defaultSessionId
        && browsers == old(browsers) && defaultBrowserSession == old(defaultBrowserSession)
        && defaultSessionCreation == None && settled == old(settled) && nextTicket == old(nextTicket)
        && cleaningUpSessions == old(cleaningUpSessions) && unchanged(screenshots)
      ensures step.Started? ==>
        && defaultSessionCreation == Some(step.ticket) && nextTicket == step.ticket + 1
        && defaultBrowserSession == None && browsers == old(browsers) - {defaultSessionId}
        && activeSessionId == old(activeSessionId) && settled == old(settled)
        && cleaningUpSessions == old(cleaningUpSessions)
        && screenshots.Model() == PurgeIf(old(screenshots.Model()),
             old(defaultBrowserSession).Some? && defaultSessionId !in old(cleaningUpSessions) &&
             ClosesCleanly(engine, old(defaultBrowserSession).value), defaultSessionId)
    {
      var start := StartEnsureDefault(engine);
      match start {
        case Decided(s) =>
          step := s;
        case Evicting(stale, closing) =>
          step := ResumeEnsureDefault(stale, closing, engine);
      }
    }

    /** Create the default session, retrying once after a failure. */
    method CreateDefaultWithRetry(config: Config, first: Launch, retry: Launch)
      returns (r: Result<BrowserSession, SessionError>, factoryCalls: nat)
      requires Valid()
      modifies this`browsers, this`defaultBrowserSession, this`activeSessionId
      ensures Valid()
      ensures r == DefaultCreation(config, defaultSessionId, first, retry)
      ensures factoryCalls == DefaultCreationCalls(config, defaultSessionId, first)
      ensures r.Success? ==>
        && browsers == old(browsers)[defaultSessionId := r.value]
        && defaultBrowserSession == Some(r.value) && activeSessionId == defaultSessionId
      ensures r.Failure? ==>
        browsers == old(browsers) && defaultBrowserSession == old(defaultBrowserSession) && activeSessionId == old(activeSessionId)
    {
      var attempt, request := CreateNewBrowserSession(defaultSessionId, config, None, first);
      factoryCalls := if request.Some? then 1 else 0;
      if attempt.Success? {
        return attempt, factoryCalls;
      }
      var again, request' := CreateNewBrowserSession(defaultSessionId, config, None, retry);
      if request'.Some? {
        factoryCalls := factoryCalls + 1;
      }
      r := if again.Success? then again else Failure(EnsureFailed(defaultSessionId, again.error));
    }

    /**
     * The body of the promise of creation `ticket`: create the default session
     * (retrying once), record the shared outcome under `ticket` and clear the
     * guard, whichever creation it holds by then.
     */
    method RunDefaultCreation(ticket: nat, config: Config, first: Launch, retry: Launch)
      returns (r: Result<BrowserSession, SessionError>, factoryCalls: nat)
      requires Valid()
      requires ticket < nextTicket && ticket !in settled
      modifies this`browsers, this`defaultBrowserSession, this`activeSessionId, this`defaultSessionCreation, this`settled
      ensures Valid()
      ensures r == DefaultCreation(config, defaultSessionId, first, retry)
      ensures factoryCalls == DefaultCreationCalls(config, defaultSessionId, first)
      ensures defaultSessionCreation == None
      ensures settled == old(settled)[ticket := r]
      ensures r.Success? ==>
        && browsers == old(browsers)[defaultSessionId := r.value]
        && defaultBrowserSession == Some(r.value) && activeSessionId == defaultSessionId
      ensures r.Failure? ==>
        browsers == old(browsers) && defaultBrowserSession == old(defaultBrowserSession) && activeSessionId == old(activeSessionId)
    {
      r, factoryCalls := CreateDefaultWithRetry(config, first, retry);
      defaultSessionCreation := None;
      settled := settled[ticket := r];
    }

    /** `ensureDefaultSessionInternal`, when no other caller runs between its steps. */
    method EnsureDefaultSessionInternal(config: Config, engine: Engine, first: Launch, retry: Launch)
      returns (r: Pending<Result<BrowserSession, SessionError>>, factoryCalls: nat)
      requires Valid()
      modifies this, screenshots
      ensures Valid()
      ensures r == EnsureOutcome(old(defaultSessionCreation), old(defaultBrowserSession), engine, config, defaultSessionId, first, retry)
      ensures old(defaultSessionCreation).Some? ==> factoryCalls == 0 && unchanged(this) && unchanged(screenshots)
      ensures old(defaultSessionCreation).None? ==> defaultSessionCreation == None
      ensures factoryCalls <= 2
      ensures r.Now? && r.value.Success? ==> activeSessionId == defaultSessionId && defaultBrowserSession == Some(r.value.value)
      ensures old(defaultSessionCreation).None? && old(defaultBrowserSession).Some? && IsLive(engine, old(defaultBrowserSession).value) ==>
        factoryCalls == 0 && browsers == old(browsers) && nextTicket == old(nextTicket) && settled == old(settled)
      ensures old(defaultSessionCreation).None? && (old(defaultBrowserSession).None? || !IsLive(engine, old(defaultBrowserSession).value)) ==>
        && factoryCalls == DefaultCreationCalls(config, defaultSessionId, first)
        && nextTicket == old(nextTicket) + 1
        && settled == old(settled)[old(nextTicket) := r.value]
        && browsers == (if r.value.Success? then old(browsers)[defaultSessionId := r.value.value] else old(browsers) - {defaultSessionId})
        && (r.value.Failure? ==> defaultBrowserSession == None && activeSessionId == old(activeSessionId))
      ensures old(defaultSessionCreation).None? ==>
        screenshots.Model() == PurgeIf(old(screenshots.Model()),
          && old(defaultBrowserSession).Some? && !IsLive(engine, old(defaultBrowserSession).value)
          && defaultSessionId !in old(cleaningUpSessions) && ClosesCleanly(engine, old(defaultBrowserSession).value),
          defaultSessionId)
      ensures cleaningUpSessions == old(cleaningUpSessions)
    {
      var step := BeginEnsureDefault(engine);
      match step {
        case Joined(t) =>
          r, factoryCalls := Later(t), 0;
        case Reused(s) =>
          r, factoryCalls := Now(Success(s)), 0;
        case Started(t) =>
          var result;
          result, factoryCalls := RunDefaultCreation(t, config, first, retry);
          r := Now(result);
      }
    }

    /**
     * `getSession`. The default id with `createIfMissing` goes through
     * `ensureDefaultSessionInternal`, any failure read as `null`; any other
     * lookup probes the tracked session, evicting it when stale.
     */
    method GetSession(sessionId: string, config: Config, createIfMissing: bool, engine: Engine, first: Launch, retry: Launch)
      returns (r: Pending<Option<BrowserSession>>)
      requires Valid()
      modifies this, screenshots
      ensures Valid()
      ensures sessionId == defaultSessionId && createIfMissing ==>
        r == FoundOrNull(EnsureOutcome(old(defaultSessionCreation), old(defaultBrowserSession), engine, config, defaultSessionId, first, retry))
      ensures sessionId == defaultSessionId && createIfMissing && r.Now? && r.value.Some? ==> activeSessionId == defaultSessionId
      ensures !(sessionId == defaultSessionId && createIfMissing) ==>
        && defaultSessionCreation == old(defaultSessionCreation) && settled == old(settled) && nextTicket == old(nextTicket)
        && cleaningUpSessions == old(cleaningUpSessions) && defaultBrowserSession == old(defaultBrowserSession)
      ensures !(sessionId == defaultSessionId && createIfMissing) && sessionId !in old(browsers) ==>
        r == Now(None) && browsers == old(browsers) && activeSessionId == old(activeSessionId) && unchanged(screenshots)
      ensures !(sessionId == defaultSessionId && createIfMissing) && sessionId in old(browsers) && !IsLive(engine, old(browsers)[sessionId]) ==>
        && r == Now(None)
        && browsers == old(browsers) - {sessionId}
        && activeSessionId == (if old(activeSessionId) == sessionId then defaultSessionId else old(activeSessionId))
        && screenshots.Model() == PurgeIf(old(screenshots.Model()),
             sessionId !in old(cleaningUpSessions) && ClosesCleanly(engine, old(browsers)[sessionId]), sessionId)
      ensures !(sessionId == defaultSessionId && createIfMissing) && sessionId in old(browsers) && IsLive(engine, old(browsers)[sessionId]) ==>
        r == Now(Some(old(browsers)[sessionId])) && browsers == old(browsers) && activeSessionId == sessionId && unchanged(screenshots)
    {
      if sessionId == defaultSessionId && createIfMissing {
        var ensured, _ := EnsureDefaultSessionInternal(config, engine, first, retry);
        return FoundOrNull(ensured);
      }
      if sessionId !in browsers {
        return Now(None);
      }
      var sessionObj := browsers[sessionId];
      if !IsLive(engine, sessionObj) {
        var closeCalled := CloseBrowserGracefully(sessionObj, sessionId, engine);
        browsers := browsers - {sessionId};
        if activeSessionId == sessionId {
          SetActiveSessionId(defaultSessionId);
        }
        return Now(None);
      }
      SetActiveSessionId(sessionId);
      r := Now(Some(sessionObj));
    }

    /** The part of `cleanupSession` after the close has been awaited: forget the id. */
    method DetachSession(sessionId: string)
      requires Valid()
      modifies this`browsers, this`defaultBrowserSession, this`activeSessionId
      ensures Valid()
      ensures TornDown(sessionId)
      ensures browsers == old(browsers) - {sessionId}
      ensures defaultBrowserSession == if sessionId == defaultSessionId then None else old(defaultBrowserSession)
      ensures activeSessionId == if old(activeSessionId) == sessionId then defaultSessionId else old(activeSessionId)
      ensures old(TornDown(sessionId)) ==> unchanged(this)
    {
      if sessionId !in browsers {
        assert browsers - {sessionId} == browsers;
      }
      browsers := browsers - {sessionId};
      if sessionId == defaultSessionId && defaultBrowserSession.Some? {
        defaultBrowserSession := None;
      }
      if activeSessionId == sessionId {
        SetActiveSessionId(defaultSessionId);
      }
    }

    /**
     * `cleanupSession`: close the tracked session (once, through the cleanup
     * guard), then forget the id. On an id already torn down it changes nothing,
     * so a second call leaves the state of the first.
     */
    method CleanupSession(sessionId: string, engine: Engine) returns (closeCalled: bool)
      requires Valid()
      modifies this, screenshots
      ensures Valid()
      ensures TornDown(sessionId)
      ensures closeCalled <==> sessionId in old(browsers) && sessionId !in old(cleaningUpSessions)
      ensures browsers == old(browsers) - {sessionId}
      ensures defaultBrowserSession == if sessionId == defaultSessionId then None else old(defaultBrowserSession)
      ensures activeSessionId == if old(activeSessionId) == sessionId then defaultSessionId else old(activeSessionId)
      ensures screenshots.Model() == PurgeIf(old(screenshots.Model()),
        closeCalled && ClosesCleanly(engine, old(browsers)[sessionId]), sessionId)
      ensures defaultSessionCreation == old(defaultSessionCreation) && settled == old(settled) && nextTicket == old(nextTicket)
      ensures cleaningUpSessions == old(cleaningUpSessions)
      ensures old(TornDown(sessionId)) ==> !closeCalled && unchanged(this) && unchanged(screenshots)
    {
      closeCalled := false;
      if sessionId in browsers {
        closeCalled := CloseBrowserGracefully(browsers[sessionId], sessionId, engine);
      }
      DetachSession(sessionId);
    }

    /** One turn of the loop of `closeAllSessions`: close `id`, extending the purged set when its close succeeds. */
    method CloseNext(id: string, engine: Engine, ghost reg0: Screenshots.Registry, ghost done: set<string>) returns (closeCalled: bool)
      requires Valid()
      requires id in browsers
      requires screenshots.Model() == Screenshots.ClearSessions(reg0, CleanlyClosed(browsers, cleaningUpSessions, engine, done))
      modifies this`cleaningUpSessions, screenshots
      ensures Valid()
      ensures cleaningUpSessions == old(cleaningUpSessions)
      ensures closeCalled <==> id !in cleaningUpSessions
      ensures screenshots.Model() == Screenshots.ClearSessions(reg0, CleanlyClosed(browsers, cleaningUpSessions, engine, done + {id}))
    {
      ghost var purged := CleanlyClosed(browsers, cleaningUpSessions, engine, done);
      CleanlyClosedStep(browsers, cleaningUpSessions, engine, done, id);
      if id in purged {
        assert purged + {id} == purged;
      } else if id !in cleaningUpSessions && ClosesCleanly(engine, browsers[id]) {
        Screenshots.ClearSessionsStep(reg0, purged, id);
      }
      closeCalled := CloseBrowserGracefully(browsers[id], id, engine);
    }

    /**
     * The loop of `closeAllSessions`: close every tracked session through the
     * cleanup guard; a close that throws does not stop the others.
     */
    method CloseTracked(engine: Engine)
      requires Valid()
      modifies this`cleaningUpSessions, screenshots
      ensures Valid()
      ensures screenshots.Model() == Screenshots.ClearSessions(old(screenshots.Model()),
        CleanlyClosed(browsers, cleaningUpSessions, engine, browsers.Keys))
      ensures cleaningUpSessions == old(cleaningUpSessions)
    {
      ghost var reg0 := screenshots.Model();
      ghost var done: set<string> := {};
      ghost var table, cleaning := browsers, cleaningUpSessions;
      var todo := browsers.Keys;
      Screenshots.ClearSessionsNone(reg0);
      assert CleanlyClosed(table, cleaning, engine, done) == {};
      while todo != {}
        invariant done + todo == table.Keys && done !! todo
        invariant Valid()
        invariant browsers == table && cleaningUpSessions == cleaning
        invariant screenshots.Model() == Screenshots.ClearSessions(reg0, CleanlyClosed(table, cleaning, engine, done))
        decreases |todo|
      {
        var id :| id in todo;
        var closeCalled := CloseNext(id, engine, reg0, done);
        todo := todo - {id};
        done := done + {id};
      }
    }

    /**
     * `closeAllSessions`: close every tracked session, then empty the table,
     * drop the default cache and make the default id active.
     */
    method CloseAllSessions(engine: Engine)
      requires Valid()
      modifies this, screenshots
      ensures Valid()
      ensures browsers == map[] && defaultBrowserSession == None && activeSessionId == defaultSessionId
      ensures screenshots.Model() == Screenshots.ClearSessions(old(screenshots.Model()),
        CleanlyClosed(old(browsers), old(cleaningUpSessions), engine, old(browsers).Keys))
      ensures cleaningUpSessions == old(cleaningUpSessions)
      ensures defaultSessionCreation == old(defaultSessionCreation) && settled == old(settled) && nextTicket == old(nextTicket)
    {
      CloseTracked(engine);
      browsers := map[];
      defaultBrowserSession := None;
      SetActiveSessionId(defaultSessionId);
    }
  }
}
