/**
 * Runs of the broker and the tools on fresh objects, interleaving the steps
 * of concurrent callers at the points where the source awaits. Each method's
 * contract states what the interleaving lets the callers observe.
 */
module Scenarios {
  import opened Wrappers
  import opened ServerConfig
  import Screenshots
  import opened Sessions
  import opened SessionTools

  /** A LOCAL-mode configuration with nothing else set. */
  const LocalConfig := Config(Some(Local), None, None, None, None, None, None, None, None, None, None, None, None, None)

  /** A broker with an empty registry. */
  method FreshManager(contextId: Option<string>, timestamp: string, uuid: string) returns (m: SessionManager)
    ensures fresh(m) && fresh(m.screenshots) && m.Valid()
    ensures m.defaultSessionId == DefaultSessionId(contextId, timestamp, uuid)
    ensures m.browsers == map[] && m.defaultBrowserSession == None && m.activeSessionId == m.defaultSessionId
    ensures m.defaultSessionCreation == None && m.settled == map[] && m.nextTicket == 0 && m.cleaningUpSessions == {}
    ensures m.screenshots.Model() == Screenshots.Empty
  {
    var store := new Screenshots.ScreenshotStore();
    m := new SessionManager(contextId, timestamp, uuid, store);
  }

  /**
   * Two callers ask for the default session at once. The second arrives while
   * the first one's creation is in flight: it starts nothing, calls no factory,
   * and awaiting its ticket yields exactly the first caller's outcome.
   */
  method SingleFlight(config: Config, engine: Engine, first: Launch, retry: Launch)
    returns (leader: Result<BrowserSession, SessionError>, joined: Pending<Result<BrowserSession, SessionError>>,
             joinerCalls: nat, awaited: Option<Result<BrowserSession, SessionError>>)
    ensures joined == Later(0) && joinerCalls == 0
    ensures awaited == Some(leader)
    ensures leader == DefaultCreation(config, DefaultSessionId(None, "0", "u"), first, retry)
  {
    var m := FreshManager(None, "0", "u");
    var step := m.BeginEnsureDefault(engine);
    joined, joinerCalls := m.EnsureDefaultSessionInternal(config, engine, first, retry);
    var leaderCalls;
    leader, leaderCalls := m.RunDefaultCreation(step.ticket, config, first, retry);
    awaited := m.Awaited(joined.ticket);
  }

  /** A first factory call that fails and a retry that succeeds: the default exists after two calls. */
  method RetryOnce(pages: seq<Handle>) returns (r: Pending<Result<BrowserSession, SessionError>>, calls: nat)
    requires |pages| > 0
    ensures r.Now? && r.value.Success? && calls == 2
    ensures r.value.value.stagehand == 2 && r.value.value.page == pages[0]
  {
    var m := FreshManager(None, "0", "u");
    r, calls := m.EnsureDefaultSessionInternal(LocalConfig, Engine({}, {}), InitFailed, Launched(2, pages, ""));
  }

  /**
   * A default whose pages are gone is evicted and created anew: the second
   * request gets a different engine instance from one more factory call.
   */
  method StaleDefaultRecreated() returns (before: BrowserSession, after: BrowserSession, calls: nat)
    ensures before.stagehand == 1 && after.stagehand == 2 && calls == 1
  {
    var m := FreshManager(None, "0", "u");
    var r, c := m.EnsureDefaultSessionInternal(LocalConfig, Engine({}, {}), Launched(1, [10], ""), InitFailed);
    before := r.value.value;
    var again, c' := m.EnsureDefaultSessionInternal(LocalConfig, Engine({}, {}), Launched(2, [20], ""), InitFailed);
    after, calls := again.value.value, c';
  }

  /** A broker whose default session (engine instance 1) has lost its pages under `Engine({}, {})`. */
  method WithStaleDefault() returns (m: SessionManager)
    ensures fresh(m) && fresh(m.screenshots) && m.Valid()
    ensures m.defaultSessionCreation == None && m.nextTicket == 1 && m.cleaningUpSessions == {}
    ensures m.defaultBrowserSession.Some? && m.defaultBrowserSession.value.stagehand == 1
    ensures m.browsers == map[m.defaultSessionId := m.defaultBrowserSession.value]
  {
    m := FreshManager(None, "0", "u");
    var r, _ := m.EnsureDefaultSessionInternal(LocalConfig, Engine({}, {}), Launched(1, [10], ""), InitFailed);
  }

  /**
   * Two callers find the default stale at once, as the source is written. The
   * second arrives while the first awaits the eviction close: no guard is up
   * yet, its own close is a no-op, and it installs a guard and creates. The
   * first then resumes, replaces that guard and creates again. The default id
   * gets two creations, and the session of the first one to finish is dropped
   * from the table without ever being closed.
   */
  method RacingStaleDefault() returns (firstTicket: nat, secondTicket: nat, calls: nat,
                                       dropped: BrowserSession, kept: BrowserSession, tracked: map<string, BrowserSession>)
    ensures firstTicket != secondTicket && calls == 2
    ensures dropped.stagehand == 2 && kept.stagehand == 3
    ensures forall id :: id in tracked ==> tracked[id] != dropped
    ensures kept in tracked.Values
  {
    var m := WithStaleDefault();
    var engine := Engine({}, {});
    var a := m.StartEnsureDefault(engine);
    var b := m.StartEnsureDefault(engine);
    var stepB := m.ResumeEnsureDefault(b.stale, b.closing, engine);
    var stepA := m.ResumeEnsureDefault(a.stale, a.closing, engine);
    firstTicket, secondTicket := stepB.ticket, stepA.ticket;
    var outcomeB, callsB := m.RunDefaultCreation(stepB.ticket, LocalConfig, Launched(2, [20], ""), InitFailed);
    var outcomeA, callsA := m.RunDefaultCreation(stepA.ticket, LocalConfig, Launched(3, [30], ""), InitFailed);
    calls := callsB + callsA;
    dropped, kept, tracked := outcomeB.value, outcomeA.value, m.browsers;
    assert tracked == map[m.defaultSessionId := kept];
  }

  /**
   * The same two callers when the guard is installed before the eviction
   * close: the second one joins the first one's creation, the factory is
   * called once, and both callers get the same session.
   */
  method GuardedStaleDefault() returns (joined: EnsureStart, ticket: nat, calls: nat,
                                        outcome: Result<BrowserSession, SessionError>, awaited: Option<Result<BrowserSession, SessionError>>)
    ensures joined == Decided(Joined(ticket)) && calls == 1
    ensures outcome.Success? && outcome.value.stagehand == 2 && awaited == Some(outcome)
  {
    var m := WithStaleDefault();
    var engine := Engine({}, {});
    var a := m.StartEnsureDefaultGuarded(engine);
    joined := m.StartEnsureDefaultGuarded(engine);
    var step := m.ResumeEnsureDefaultGuarded(a.stale, a.closing, engine);
    ticket := step.ticket;
    outcome, calls := m.RunDefaultCreation(ticket, LocalConfig, Launched(2, [20], ""), InitFailed);
    awaited := m.Awaited(ticket);
  }

  /**
   * Two teardowns of the same session overlap: the second arrives while the
   * first awaits the close. It does not close again; once both finish the
   * session is gone and the cleanup guard is released.
   */
  method ConcurrentTeardown(engine: Engine) returns (firstCloses: bool, secondCloses: bool, tracked: set<string>, guarded: set<string>)
    ensures firstCloses && !secondCloses
    ensures tracked == {} && guarded == {}
  {
    var m := FreshManager(None, "0", "u");
    var created, _ := m.CreateNewBrowserSession("work", LocalConfig, None, Launched(7, [70], ""));
    var session := created.value;
    firstCloses := m.BeginClose("work");
    secondCloses := m.CleanupSession("work", engine);
    m.FinishClose(session, "work", engine);
    m.DetachSession("work");
    tracked, guarded := m.browsers.Keys, m.cleaningUpSessions;
  }

  /**
   * Create a named session with the tool, take a screenshot in it, then close
   * it with the tool: the reply offers the replay, the default is active again
   * and the session's screenshot is gone.
   */
  method CreateThenClose() returns (created: Pending<Result<BrowserSession, ToolError>>, reply: CloseReply,
                                    active: string, defaultId: string, stored: set<string>)
    ensures created.Now? && created.value.Success? && created.value.value.sessionId == "work"
    ensures reply == Closed("work", Some("work"))
    ensures active == defaultId && stored == {}
  {
    var m := FreshManager(None, "0", "u");
    var request;
    assert m.defaultSessionId != "work";
    created, request := HandleCreateSession(m, Some("work"), LocalConfig, Engine({7}, {}), InitFailed, InitFailed, Launched(7, [70], ""));
    assert m.activeSessionId == "work" && "work" in m.browsers && m.browsers["work"].stagehand == 7;
    assert m.cleaningUpSessions == {};
    m.screenshots.RegisterScreenshot("work", "shot", "aGk=");
    assert m.screenshots.Model().sessionNames["work"] == {"shot"};
    reply := HandleCloseSession(m, LocalConfig, Engine({7}, {}));
    assert m.screenshots.Model().screenshots.Keys == {};
    active, defaultId, stored := m.activeSessionId, m.defaultSessionId, m.screenshots.Model().screenshots.Keys;
  }

  /** A broker tracking sessions "a" and "b", each with one screenshot. */
  method TwoTrackedSessions() returns (m: SessionManager)
    ensures fresh(m) && fresh(m.screenshots) && m.Valid() && m.cleaningUpSessions == {}
    ensures m.browsers.Keys == {"a", "b"} && m.browsers["a"].stagehand == 1 && m.browsers["b"].stagehand == 2
    ensures "a" in m.screenshots.sessionNames && m.screenshots.sessionNames["a"] == {"a1"}
    ensures "b" in m.screenshots.sessionNames && m.screenshots.sessionNames["b"] == {"b1"}
    ensures m.screenshots.screenshots.Keys == {"a1", "b1"}
  {
    m := FreshManager(None, "0", "u");
    var a, _ := m.CreateNewBrowserSession("a", LocalConfig, None, Launched(1, [10], ""));
    var b, _ := m.CreateNewBrowserSession("b", LocalConfig, None, Launched(2, [20], ""));
    m.screenshots.RegisterScreenshot("a", "a1", "eA==");
    assert Screenshots.NamesOf(Screenshots.Empty, "a") == {};
    m.screenshots.RegisterScreenshot("b", "b1", "eQ==");
  }

  /**
   * Shut down two sessions, one of whose close throws: both are untracked
   * afterwards, but only the one that closed cleanly loses its screenshots.
   */
  method BulkShutdown() returns (tracked: set<string>, stored: set<string>, active: string, defaultId: string)
    ensures tracked == {} && active == defaultId
    ensures stored == {"b1"}
  {
    var m := TwoTrackedSessions();
    ghost var reg := m.screenshots.Model();
    ghost var table := m.browsers;
    m.CloseAllSessions(Engine({1, 2}, {2}));
    assert CleanlyClosed(table, {}, Engine({1, 2}, {2}), table.Keys) == {"a"};
    assert Screenshots.OwnedNames(reg, {"a"}) == {"a1"} by {
      assert forall id, n :: id in {"a"} && id in reg.sessionNames && n in reg.sessionNames[id] ==> n == "a1";
    }
    tracked, stored := m.browsers.Keys, m.screenshots.Model().screenshots.Keys;
    active, defaultId := m.activeSessionId, m.defaultSessionId;
  }
}
