/**
 * The create and close tools of src/tools/session.ts, over the broker: which
 * broker operation a create request goes to, and which reply a close gives.
 */
module SessionTools {
  import opened Wrappers
  import opened ServerConfig
  import opened Sessions

  /** Where `handleCreateSession` sends a request. */
  datatype CreateRoute =
    | ViaDefault
    | ViaNew(id: string, resume: Option<string>)

  datatype ToolError =
    | SessionFailed(target: string, cause: SessionError)
    | InvalidSession(target: string)

  /**
   * The routing of `handleCreateSession`: no id (or an empty one) and the
   * default id go to `ensureDefaultSessionInternal`; any other id creates a
   * session tracked under that id and asks the provider to resume the session
   * of the same id.
   */
  function RouteCreate(requested: Option<string>, defaultId: string): (route: CreateRoute)
    ensures route == ViaDefault <==> !Truthy(requested) || requested.value == defaultId
    ensures route.ViaNew? ==> route.id == requested.value && route.resume == requested
    ensures route.ViaNew? ==> route.id != "" && route.id != defaultId
  {
    if Truthy(requested) && requested.value != defaultId then ViaNew(requested.value, requested) else ViaDefault
  }

  /** The check of `handleCreateSession` on what the broker returned (page and engine handles always exist here). */
  predicate ValidSessionObject(s: BrowserSession) {
    s.sessionId != ""
  }

  /** What the create tool makes of the broker's outcome for `target`. */
  function CreateToolResult(target: string, outcome: Result<BrowserSession, SessionError>): (r: Result<BrowserSession, ToolError>)
    ensures r.Success? <==> outcome.Success? && ValidSessionObject(outcome.value)
    ensures r.Success? ==> r.value == outcome.value
    ensures outcome.Failure? ==> r == Failure(SessionFailed(target, outcome.error))
  {
    match outcome
    case Failure(e) => Failure(SessionFailed(target, e))
    case Success(s) => if ValidSessionObject(s) then Success(s) else Failure(InvalidSession(target))
  }

  function CreateToolPending(target: string, p: Pending<Result<BrowserSession, SessionError>>): Pending<Result<BrowserSession, ToolError>> {
    match p
    case Later(t) => Later(t)
    case Now(outcome) => Now(CreateToolResult(target, outcome))
  }

  /** A session created under a non-empty id always passes the create tool's check. */
  lemma CreatedSessionsPassCheck(config: Config, id: string, launch: Launch)
    requires id != ""
    ensures CreationOutcome(config, id, launch).Success? ==> ValidSessionObject(CreationOutcome(config, id, launch).value)
    ensures CreateToolResult(id, CreationOutcome(config, id, launch)).Success? <==> CreationOutcome(config, id, launch).Success?
  {
  }

  /**
   * `handleCreateSession` without the debug-URL step. `request` is the factory
   * call of the named-session route (None on the default route, or when the
   * credential checks threw).
   */
  method HandleCreateSession(manager: SessionManager, requested: Option<string>, config: Config,
                             engine: Engine, first: Launch, retry: Launch, launch: Launch)
    returns (r: Pending<Result<BrowserSession, ToolError>>, request: Option<SessionParams>)
    requires manager.Valid()
    modifies manager, manager.screenshots
    ensures manager.Valid()
    ensures RouteCreate(requested, manager.defaultSessionId) == ViaDefault ==>
      && request == None
      && r == CreateToolPending(manager.defaultSessionId,
           EnsureOutcome(old(manager.defaultSessionCreation), old(manager.defaultBrowserSession), engine,
                         config, manager.defaultSessionId, first, retry))
    ensures RouteCreate(requested, manager.defaultSessionId).ViaNew? ==>
      && r == Now(CreateToolResult(requested.value, CreationOutcome(config, requested.value, launch)))
      && request == (if CredentialsPresent(config) then Some(ResumeParams(config, requested)) else None)
      && manager.browsers == (if r.value.Success? then old(manager.browsers)[requested.value := r.value.value] else old(manager.browsers))
      && (r.value.Failure? ==> manager.activeSessionId == old(manager.activeSessionId))
      && manager.defaultSessionCreation == old(manager.defaultSessionCreation)
      && manager.defaultBrowserSession == old(manager.defaultBrowserSession)
      && manager.settled == old(manager.settled) && manager.nextTicket == old(manager.nextTicket)
      && unchanged(manager.screenshots)
    ensures manager.cleaningUpSessions == old(manager.cleaningUpSessions)
    ensures r.Now? && r.value.Success? ==>
      ValidSessionObject(r.value.value) &&
      manager.activeSessionId == if RouteCreate(requested, manager.defaultSessionId) == ViaDefault then manager.defaultSessionId else requested.value
    ensures r.Now? && r.value.Failure? ==> r.value.error.SessionFailed?
  {
    match RouteCreate(requested, manager.defaultSessionId) {
      case ViaDefault =>
        var ensured, _ := manager.EnsureDefaultSessionInternal(config, engine, first, retry);
        r, request := CreateToolPending(manager.defaultSessionId, ensured), None;
      case ViaNew(targetSessionId, resume) =>
        var outcome;
        outcome, request := manager.CreateNewBrowserSession(targetSessionId, config, resume, launch);
        r := Now(CreateToolResult(targetSessionId, outcome));
    }
  }

  /** Once the awaited creation settles, a joining create call also passes the check when it succeeded. */
  lemma AwaitedSessionsPassCheck(manager: SessionManager, ticket: nat)
    requires manager.Valid()
    requires manager.Awaited(ticket).Some?
    ensures CreateToolResult(manager.defaultSessionId, manager.Awaited(ticket).value).Success? <==> manager.Awaited(ticket).value.Success?
  {
  }

  /** The reply of `handleCloseSession`. */
  datatype CloseReply =
    | Closed(shownId: string, replay: Option<string>)
    | NothingToClose(named: Option<string>)
    | CloseFailed(shownId: string, error: string)

  /** JavaScript's `id || fallback` on a string. */
  function OrFallback(id: string, fallback: string): (r: string)
    ensures r == id || (id == "" && r == fallback)
    ensures r != "" <==> id != "" || fallback != ""
  {
    if id != "" then id else fallback
  }

  /**
   * The result selection at the end of `handleCloseSession`, from the flags the
   * handler collected: it throws only when an error occurred and the cleanup did
   * not succeed, offers a replay only for a non-default session, and names the
   * id in the not-found reply only when it is non-empty and not the default.
   */
  function CloseReplyFor(previous: string, defaultId: string, cleanupSuccessful: bool,
                         cleanupError: string, browserbaseSessionId: Option<string>): (reply: CloseReply)
    ensures reply.CloseFailed? <==> cleanupError != "" && !cleanupSuccessful
    ensures reply.Closed? <==> cleanupSuccessful
    ensures reply.Closed? ==> reply.shownId == OrFallback(previous, "default")
    ensures reply.Closed? ==> (reply.replay.Some? <==> Truthy(browserbaseSessionId) && previous != defaultId)
    ensures reply.Closed? && reply.replay.Some? ==> reply.replay == browserbaseSessionId
    ensures reply.NothingToClose? ==> (reply.named.Some? <==> previous != "" && previous != defaultId)
    ensures reply.NothingToClose? && reply.named.Some? ==> reply.named.value == previous
    ensures reply.CloseFailed? ==> reply.shownId == OrFallback(previous, "default/unknown") && reply.error == cleanupError
  {
    if cleanupError != "" && !cleanupSuccessful then
      CloseFailed(OrFallback(previous, "default/unknown"), cleanupError)
    else if cleanupSuccessful then
      Closed(OrFallback(previous, "default"),
             if Truthy(browserbaseSessionId) && previous != defaultId then browserbaseSessionId else None)
    else
      NothingToClose(if previous != "" && previous != defaultId then Some(previous) else None)
  }

  predicate EndsWith(s: string, suffix: string) {
    |suffix| <= |s| && s[|s| - |suffix|..] == suffix
  }

  lemma SuffixOfConcat(prefix: string, suffix: string)
    ensures EndsWith(prefix + suffix, suffix)
  {
    assert (prefix + suffix)[|prefix|..] == suffix;
  }

  const ReplayUrlBase := "https://www.browserbase.com/sessions/"

  /** The success text of the close tool, with the replay link when there is one. */
  function ClosedText(shownId: string, replay: Option<string>): string {
    var text := "Browserbase session (" + shownId + ") closed successfully. Context reset to default.";
    if replay.Some? then text + " View replay at " + ReplayUrlBase + replay.value else text
  }

  /** The replay link, when offered, closes the success text. */
  lemma ReplayLinkEndsText(shownId: string, replayId: string)
    ensures EndsWith(ClosedText(shownId, Some(replayId)), ReplayUrlBase + replayId)
  {
    var text := "Browserbase session (" + shownId + ") closed successfully. Context reset to default.";
    SuffixOfConcat(text + " View replay at ", ReplayUrlBase + replayId);
    assert text + " View replay at " + ReplayUrlBase + replayId == (text + " View replay at ") + (ReplayUrlBase + replayId);
  }

  /** The text the close tool returns (Success) or the message of the error it throws (Failure). */
  function CloseMessage(reply: CloseReply): (m: Result<string, string>)
    ensures m.Failure? <==> reply.CloseFailed?
    ensures reply.Closed? ==> m == Success(ClosedText(reply.shownId, reply.replay))
  {
    match reply
    case CloseFailed(shownId, error) =>
      Failure("Failed to cleanup session (session ID was " + shownId + "). Error: " + error
              + ". Session context has been reset to default.")
    case Closed(shownId, replay) =>
      Success(ClosedText(shownId, replay))
    case NothingToClose(named) =>
      if named.Some? then
        Success("No active session found for session ID '" + named.value + "'. The context has been reset to default.")
      else
        Success("No active session found to close. Session context has been reset to default.")
  }

  /**
   * `handleCloseSession`: look up the active session without creating one,
   * clean it up when it is found live, and select the reply. Whatever the
   * outcome, the active id afterwards is the default, the previously active
   * id is no longer tracked and no default creation was started.
   */
  method HandleCloseSession(manager: SessionManager, config: Config, engine: Engine) returns (reply: CloseReply)
    requires manager.Valid()
    modifies manager, manager.screenshots
    ensures manager.Valid()
    ensures manager.activeSessionId == manager.defaultSessionId
    ensures manager.browsers == old(manager.browsers) - {old(manager.activeSessionId)}
    ensures manager.defaultSessionCreation == old(manager.defaultSessionCreation)
    ensures manager.settled == old(manager.settled) && manager.nextTicket == old(manager.nextTicket)
    ensures manager.cleaningUpSessions == old(manager.cleaningUpSessions)
    ensures var previous := old(manager.activeSessionId);
      var found := previous in old(manager.browsers) && IsLive(engine, old(manager.browsers)[previous]);
      reply == CloseReplyFor(previous, manager.defaultSessionId, found, "",
                             if found then Some(old(manager.browsers)[previous].sessionId) else None)
    ensures var previous := old(manager.activeSessionId);
      manager.screenshots.Model() == PurgeIf(old(manager.screenshots.Model()),
        previous in old(manager.browsers) && previous !in old(manager.cleaningUpSessions) &&
        ClosesCleanly(engine, old(manager.browsers)[previous]), previous)
    ensures var previous := old(manager.activeSessionId);
      var found := previous in old(manager.browsers) && IsLive(engine, old(manager.browsers)[previous]);
      manager.defaultBrowserSession == if previous == manager.defaultSessionId && found then None else old(manager.defaultBrowserSession)
    ensures !reply.CloseFailed?
  {
    var previousSessionId := manager.activeSessionId;
    var cleanupSuccessful := false;
    var cleanupErrorMessage := "";
    var browserbaseSessionId: Option<string> := None;
    var session := manager.GetSession(previousSessionId, config, false, engine, InitFailed, InitFailed);
    if session.Now? && session.value.Some? {
      browserbaseSessionId := Some(session.value.value.sessionId);
      var closeCalled := manager.CleanupSession(previousSessionId, engine);
      cleanupSuccessful := true;
    }
    reply := CloseReplyFor(previousSessionId, manager.defaultSessionId, cleanupSuccessful, cleanupErrorMessage, browserbaseSessionId);
  }
}
