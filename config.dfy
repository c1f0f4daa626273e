/**
 * The server configuration (the `Config` record of config.d.ts) and the rules
 * the server entry point in src/index.ts applies to it: the schema's
 * custom-model refinement, the LOCAL-mode decision, the Browserbase credential
 * check and the internal configuration handed to the session broker.
 */
module ServerConfig {
  import opened Wrappers

  /** The model Stagehand uses when none is configured. */
  const DefaultModelName := "gemini-2.0-flash"

  datatype Env = Browserbase | Local

  datatype ContextOptions = ContextOptions(contextId: Option<string>, persist: Option<bool>)

  /** Browser viewport; JavaScript numbers are modelled as integers. */
  datatype ViewPort = ViewPort(browserWidth: Option<int>, browserHeight: Option<int>)

  datatype ScreenshotOptions = ScreenshotOptions(enabled: Option<bool>, dir: Option<string>, sessionId: Option<string>)

  datatype LaunchOptions = LaunchOptions(headless: Option<bool>, executablePath: Option<string>, args: Option<seq<string>>)

  /** Where the server listens; JavaScript numbers are modelled as integers. */
  datatype ServerOptions = ServerOptions(port: Option<int>, host: Option<string>)

  /**
   * The optional fields of the `Config` type. The configuration schema of the
   * entry point admits all of them except `screenshot` and
   * `localBrowserLaunchOptions`; the internal configuration copies whatever
   * fields the configuration has.
   */
  datatype Config = Config(
    env: Option<Env>,
    browserbaseApiKey: Option<string>,
    browserbaseProjectId: Option<string>,
    screenshot: Option<ScreenshotOptions>,
    localBrowserLaunchOptions: Option<LaunchOptions>,
    proxies: Option<bool>,
    advancedStealth: Option<bool>,
    keepAlive: Option<bool>,
    context: Option<ContextOptions>,
    viewPort: Option<ViewPort>,
    server: Option<ServerOptions>,
    modelName: Option<string>,
    modelApiKey: Option<string>,
    experimental: Option<bool>)

  datatype ConfigError = MissingApiKey | MissingProjectId | MissingCredentials

  /** JavaScript truthiness of an optional string: present and not empty. */
  predicate Truthy(s: Option<string>) {
    s.Some? && s.value != ""
  }

  /** `a || b` on optional strings. */
  function OrElse(a: Option<string>, b: Option<string>): Option<string> {
    if Truthy(a) then a else b
  }

  /** `k0 || k1 || ...` on optional strings: the first truthy one, if any. */
  function FirstTruthy(keys: seq<Option<string>>): (r: Option<string>)
    ensures Truthy(r) <==> exists i :: 0 <= i < |keys| && Truthy(keys[i])
    ensures Truthy(r) ==> exists i :: 0 <= i < |keys| && keys[i] == r && forall j :: 0 <= j < i ==> !Truthy(keys[j])
  {
    if keys == [] then None
    else if Truthy(keys[0]) then keys[0]
    else
      var r := FirstTruthy(keys[1..]);
      assert forall i :: 0 < i < |keys| ==> keys[i] == keys[1..][i - 1];
      r
  }

  /** The test `config.env === "LOCAL"` that the session broker applies. */
  predicate LocalEnv(c: Config) {
    c.env == Some(Local)
  }

  /** The schema's `.refine` rule: a model other than the default needs a non-empty `modelApiKey`. */
  predicate AcceptsModelKey(c: Config) {
    if Truthy(c.modelName) && c.modelName.value != DefaultModelName then
      c.modelApiKey.Some? && |c.modelApiKey.value| > 0
    else
      true
  }

  /** `requested || "gemini-2.0-flash"`: the model name a session is created with. */
  function ModelNameOrDefault(requested: Option<string>): (name: string)
    ensures name != ""
    ensures Some(name) == FirstTruthy([requested, Some(DefaultModelName)])
  {
    if Truthy(requested) then requested.value else DefaultModelName
  }

  /**
   * The refinement holds exactly when the model sessions will use is the
   * default one or the configuration carries its own model key.
   */
  lemma AcceptsModelKeyMeaning(c: Config)
    ensures AcceptsModelKey(c) <==> ModelNameOrDefault(c.modelName) == DefaultModelName || Truthy(c.modelApiKey)
  {
  }

  /** LOCAL mode as the entry point decides it: the configuration or the STAGEHAND_ENV variable says LOCAL. */
  predicate IsLocalMode(c: Config, stagehandEnv: Option<string>) {
    c.env == Some(Local) || stagehandEnv == Some("LOCAL")
  }

  /**
   * The entry point's credential check and the internal configuration it
   * builds (`{...config, env: isLocalMode ? "LOCAL" : "BROWSERBASE"}`).
   */
  function ResolveConfig(c: Config, stagehandEnv: Option<string>): (r: Result<Config, ConfigError>)
    ensures r.Failure? <==>
      !IsLocalMode(c, stagehandEnv) && (!Truthy(c.browserbaseApiKey) || !Truthy(c.browserbaseProjectId))
    ensures r == Failure(MissingApiKey) <==> !IsLocalMode(c, stagehandEnv) && !Truthy(c.browserbaseApiKey)
    ensures r.Failure? ==> r.error != MissingCredentials
    ensures r.Success? ==> (LocalEnv(r.value) <==> IsLocalMode(c, stagehandEnv))
    ensures r.Success? ==> r.value.env.Some?
    ensures r.Success? ==> r.value.(env := c.env) == c
  {
    var local := IsLocalMode(c, stagehandEnv);
    if !local && !Truthy(c.browserbaseApiKey) then
      Failure(MissingApiKey)
    else if !local && !Truthy(c.browserbaseProjectId) then
      Failure(MissingProjectId)
    else
      Success(c.(env := Some(if local then Local else Browserbase)))
  }

  /**
   * Resolving is idempotent: under the same STAGEHAND_ENV the internal
   * configuration is accepted again and resolves to itself.
   */
  lemma ResolveConfigIdempotent(c: Config, stagehandEnv: Option<string>)
    requires ResolveConfig(c, stagehandEnv).Success?
    ensures ResolveConfig(ResolveConfig(c, stagehandEnv).value, stagehandEnv) == ResolveConfig(c, stagehandEnv)
  {
  }
}
