/**
 * Configuration of the end-to-end test suite, derived from the environment
 * when its helper library is loaded, and the identity broker ("idmux") request.
 *
 * The environment is an explicit record in place of the process environment.
 * A variable counts as set when it is present and non-empty, which is what the
 * library's `||` defaults and `!!` tests check.
 */
module TestLib {
  import opened Wrappers
  import LocalUrl

  const DefaultApiUrl: string := "http://127.0.0.1:3002"
  const DefaultSuiteWebsite: string := "http://127.0.0.1:4321"
  const InvalidUrlError: string := "Invalid URL supplied"
  const LocalInProductionError: string := "TEST_SUITE_WEBSITE cannot be a local address while testing in production"
  const DefaultConcurrency: int := 100

  /** The environment variables the library reads (and the one it writes). */
  datatype Env = Env(
    testApiUrl: Option<string>,
    testSuiteWebsite: Option<string>,
    testSuiteSelfHosted: Option<string>,
    openAiApiKey: Option<string>,
    ollamaBaseUrl: Option<string>,
    playwrightMicroserviceUrl: Option<string>,
    proxyServer: Option<string>,
    searxngEndpoint: Option<string>,
    allowLocalWebhooks: Option<string>,
    idmuxUrl: Option<string>,
    testApiKey: Option<string>,
    testTeamId: Option<string>,
    githubRefName: Option<string>,
    /** GITHUB_RUN_NUMBER as integer parsing reads it; None when parsing gives NaN. */
    githubRunNumber: Option<int>)

  /** The library's exported settings, once loading has succeeded. */
  datatype Config = Config(
    testApiUrl: string,
    testSuiteWebsite: string,
    testSelfHost: bool,
    testProduction: bool,
    hasAi: bool,
    hasPlaywright: bool,
    hasProxy: bool,
    hasSearch: bool,
    allowTestSuiteWebsite: bool,
    /** The environment after loading: the local-URL guard may have written to it. */
    env: Env)

  predicate IsSet(v: Option<string>) { v.Some? && v.value != "" }

  /** The variable's value when it is set, the default otherwise. */
  function OrDefault(v: Option<string>, default: string): (r: string)
    ensures IsSet(v) ==> r == v.value
    ensures !IsSet(v) ==> r == default
  {
    if IsSet(v) then v.value else default
  }

  /** Removes one trailing slash; an empty URL is an error. */
  function StripTrailingSlash(url: string): (r: Result<string, string>)
    ensures r.Failure? <==> url == []
    ensures r.Failure? ==> r.error == InvalidUrlError
    ensures r.Success? ==> url == r.value + (if url[|url| - 1] == '/' then "/" else "")
  {
    if |url| < 1 then Failure(InvalidUrlError)
    else if url[|url| - 1] == '/' then Success(url[..|url| - 1])
    else Success(url)
  }

  /** The result is a prefix of the input, at most one character shorter. */
  lemma StripTrailingSlashIsPrefix(url: string)
    requires url != []
    ensures var r := StripTrailingSlash(url).value;
      r <= url && (|r| == |url| || |r| == |url| - 1)
  {
  }

  /** Appending a slash and stripping it again gives the original back, even for "". */
  lemma StripTrailingSlashUndoesSlash(url: string)
    ensures StripTrailingSlash(url + "/") == Success(url)
  {
    assert (url + "/")[..|url|] == url;
  }

  /** Only one slash goes: "a//" becomes "a/", and so for any URL ending in two slashes. */
  lemma StripTrailingSlashRemovesOneSlash(url: string)
    ensures StripTrailingSlash(url + "//") == Success(url + "/")
  {
    assert (url + "//")[..|url| + 1] == url + "/";
  }

  /** Self-hosted only for the exact string "true"; any other value ("TRUE", "1", ...) means production. */
  predicate TestSelfHost(env: Env): (r: bool)
    ensures r ==> IsSet(env.testSuiteSelfHosted)
    ensures env.testSuiteSelfHosted == Some("true") ==> r
    ensures env.testSuiteSelfHosted.Some? && env.testSuiteSelfHosted.value != "true" ==> !r
  {
    env.testSuiteSelfHosted == Some("true")
  }

  /** The suite website: the variable or the default, with one trailing slash stripped. */
  function TestSuiteWebsite(env: Env): (r: Result<string, string>)
    ensures r.Success?
    ensures !IsSet(env.testSuiteWebsite) ==> r.value == DefaultSuiteWebsite
    ensures IsSet(env.testSuiteWebsite) ==> r == StripTrailingSlash(env.testSuiteWebsite.value)
  {
    StripTrailingSlash(OrDefault(env.testSuiteWebsite, DefaultSuiteWebsite))
  }

  /**
   * The guard run at load time: a local suite website is refused when testing
   * in production and, when self-hosted, switches on local webhooks.
   */
  function LocalUrlGuard(site: string, selfHost: bool, env: Env): (r: Result<Env, string>)
    ensures r.Failure? <==> LocalUrl.IsLocalUrl(site) && !selfHost
    ensures r.Failure? ==> r.error == LocalInProductionError
    ensures r.Success? && LocalUrl.IsLocalUrl(site) ==> r.value == env.(allowLocalWebhooks := Some("true"))
    ensures !LocalUrl.IsLocalUrl(site) ==> r == Success(env)
  {
    if LocalUrl.IsLocalUrl(site) then
      if selfHost then Success(env.(allowLocalWebhooks := Some("true")))
      else Failure(LocalInProductionError)
    else Success(env)
  }

  /** Loading the library: every exported setting, then the guard. */
  function LoadConfig(env: Env): (r: Result<Config, string>)
    ensures r.Failure? <==> !TestSelfHost(env) && LocalUrl.IsLocalUrl(TestSuiteWebsite(env).value)
    ensures r.Success? ==> r.value.testProduction == !r.value.testSelfHost
    ensures r.Success? ==> r.value.testSelfHost == TestSelfHost(env)
    ensures r.Failure? ==> r.error == LocalInProductionError
    ensures r.Success? ==> r.value.testSuiteWebsite == TestSuiteWebsite(env).value
    ensures r.Success? ==> r.value.testApiUrl == OrDefault(env.testApiUrl, DefaultApiUrl)
    ensures r.Success? ==> r.value.hasAi == (IsSet(env.openAiApiKey) || IsSet(env.ollamaBaseUrl))
    ensures r.Success? ==> r.value.hasPlaywright == IsSet(env.playwrightMicroserviceUrl)
    ensures r.Success? ==> r.value.hasProxy == IsSet(env.proxyServer)
    ensures r.Success? ==> r.value.hasSearch == (r.value.testProduction || IsSet(env.searxngEndpoint))
    ensures r.Success? ==>
              r.value.allowTestSuiteWebsite ==
              (!r.value.testSelfHost || (LocalUrl.IsLocalUrl(r.value.testSuiteWebsite) && !r.value.hasProxy))
    ensures r.Success? && !LocalUrl.IsLocalUrl(r.value.testSuiteWebsite) ==> r.value.env == env
    ensures r.Success? && LocalUrl.IsLocalUrl(r.value.testSuiteWebsite) ==>
              r.value.env == env.(allowLocalWebhooks := Some("true"))
  {
    match TestSuiteWebsite(env)
    case Failure(e) => Failure(e)
    case Success(site) =>
      var selfHost := TestSelfHost(env);
      var production := !selfHost;
      var hasProxy := IsSet(env.proxyServer);
      match LocalUrlGuard(site, selfHost, env)
      case Failure(e) => Failure(e)
      case Success(env') =>
        Success(Config(
          testApiUrl := OrDefault(env.testApiUrl, DefaultApiUrl),
          testSuiteWebsite := site,
          testSelfHost := selfHost,
          testProduction := production,
          hasAi := IsSet(env.openAiApiKey) || IsSet(env.ollamaBaseUrl),
          hasPlaywright := IsSet(env.playwrightMicroserviceUrl),
          hasProxy := hasProxy,
          hasSearch := production || IsSet(env.searxngEndpoint),
          allowTestSuiteWebsite := !selfHost || (LocalUrl.IsLocalUrl(site) && !hasProxy),
          env := env'))
  }

  /** The suite website never fails to load: an unset variable falls back to a non-empty default. */
  lemma SuiteWebsiteNeverInvalid(env: Env)
    ensures TestSuiteWebsite(env).Success?
    ensures LoadConfig(env) != Failure(InvalidUrlError)
  {
  }

  /** Search is available whenever testing production, and the flags are as derived. */
  lemma LoadedFlags(env: Env)
    requires LoadConfig(env).Success?
    ensures var c := LoadConfig(env).value;
      && (c.testProduction ==> c.hasSearch)
      && (c.testProduction ==> c.allowTestSuiteWebsite)
      && (c.testSelfHost ==> (c.allowTestSuiteWebsite <==> LocalUrl.IsLocalUrl(c.testSuiteWebsite) && !c.hasProxy))
      && (c.hasProxy <==> IsSet(env.proxyServer))
  {
  }

  /** After a successful load in production the website is not local and the environment is untouched. */
  lemma ProductionSiteIsRemote(env: Env)
    requires LoadConfig(env).Success? && LoadConfig(env).value.testProduction
    ensures !LocalUrl.IsLocalUrl(LoadConfig(env).value.testSuiteWebsite)
    ensures LoadConfig(env).value.env == env
  {
  }

  /** A self-hosted load with a local website switches on local webhooks and changes nothing else. */
  lemma SelfHostedLocalSiteAllowsWebhooks(env: Env)
    ensures TestSelfHost(env) && LocalUrl.IsLocalUrl(TestSuiteWebsite(env).value) ==>
      && LoadConfig(env).Success?
      && LoadConfig(env).value.env == env.(allowLocalWebhooks := Some("true"))
  {
  }

  /** A per-test URL on the suite website, tagged with a caller-supplied identifier. */
  function CreateTestIdUrl(site: string, testId: string): (r: string)
    ensures |r| == |site| + 8 + |testId|
    ensures r[..|site|] == site && r[|site|..] == "?testId=" + testId
  {
    site + "?testId=" + testId
  }

  /** The id reads back from the URL, so distinct ids give distinct URLs on one website. */
  lemma CreateTestIdUrlParsesBack(site: string, testId: string, otherId: string)
    ensures CreateTestIdUrl(site, testId)[|site| + 8..] == testId
    ensures CreateTestIdUrl(site, testId) == CreateTestIdUrl(site, otherId) ==> testId == otherId
  {
    var r := CreateTestIdUrl(site, testId);
    assert r[|site| + 8..] == r[|site|..][8..];
    assert ("?testId=" + testId)[8..] == testId;
    var q := CreateTestIdUrl(site, otherId);
    assert q[|site| + 8..] == q[|site|..][8..];
    assert ("?testId=" + otherId)[8..] == otherId;
  }

  // ---------------------------------------------------------------------------
  // idmux
  // ---------------------------------------------------------------------------

  datatype IdmuxRequest = IdmuxRequest(
    name: string,
    concurrency: Option<int>,
    credits: Option<int>,
    tokens: Option<int>,
    teamId: Option<string>)

  datatype Identity = Identity(apiKey: Option<string>, teamId: Option<string>)

  /** The JSON body posted to the broker. */
  datatype IdmuxBody = IdmuxBody(
    refName: Option<string>,
    runNumber: int,
    concurrency: int,
    name: string,
    credits: Option<int>,
    tokens: Option<int>,
    teamId: Option<string>)

  /** What `idmux` does: hand back the fixed test identity, or post to the broker. */
  datatype IdmuxStep =
    | UseTestIdentity(identity: Identity)
    | PostToBroker(url: string, body: IdmuxBody)

  /** The run number: the parsed value, or 0 when parsing failed. */
  function RunNumber(parsed: Option<int>): (n: int)
    ensures parsed.Some? ==> n == parsed.value
    ensures parsed.None? ==> n == 0
  {
    match parsed
    case Some(v) => v
    case None => 0
  }

  /** The test identity when no broker is configured, otherwise the request to post to the broker. */
  function Idmux(env: Env, req: IdmuxRequest): (step: IdmuxStep)
    ensures step.UseTestIdentity? <==> !IsSet(env.idmuxUrl)
    ensures step.UseTestIdentity? ==> step.identity == Identity(env.testApiKey, env.testTeamId)
    ensures step.PostToBroker? ==> step.url == env.idmuxUrl.value + "/"
    ensures step.PostToBroker? ==> step.body.runNumber == RunNumber(env.githubRunNumber)
    ensures step.PostToBroker? ==> step.body.concurrency == req.concurrency.GetOr(DefaultConcurrency)
    ensures step.PostToBroker? ==> step.body.name == req.name && step.body.teamId == req.teamId
    ensures step.PostToBroker? ==> step.body.refName == env.githubRefName
    ensures step.PostToBroker? ==> step.body.credits == req.credits && step.body.tokens == req.tokens
  {
    if !IsSet(env.idmuxUrl) then
      UseTestIdentity(Identity(env.testApiKey, env.testTeamId))
    else
      PostToBroker(env.idmuxUrl.value + "/", IdmuxBody(
        refName := env.githubRefName,
        runNumber := RunNumber(env.githubRunNumber),
        concurrency := req.concurrency.GetOr(DefaultConcurrency),
        name := req.name,
        credits := req.credits,
        tokens := req.tokens,
        teamId := req.teamId))
  }
}
