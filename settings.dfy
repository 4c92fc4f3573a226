/**
 * Settings: where the agent's options come from (the process environment
 * under Node, the options argument elsewhere) and the checks they must pass.
 * Reading the environment and detecting Node are inputs here.
 */
module Settings {
  import opened Wrappers
  import opened Json

  /**
   * The agent's options (AutotestAgentOptions). A timeout is None when it is
   * absent or when parseInt of its variable gave NaN.
   */
  datatype AgentOptions = AgentOptions(
    agentId: Option<string>,
    groupId: Option<string>,
    adminUrl: Option<string>,
    dispatcherUrl: Option<string>,
    clientId: Option<string>,
    dispatcherConnectTimeout: Option<int>,
    extensionReadyTimeout: Option<int>,
    testActionsTimeout: Option<int>)

  /**
   * The process environment as the agent reads it: DRILL_AGENT_ID,
   * DRILL_GROUP_ID, DRILL_ADMIN_URL, DRILL_DISPATCHER_URL, DRILL_CLIENT_ID, and
   * parseInt of DRILL_DISPATCHER_CONNECT_TIMEOUT_MS,
   * DRILL_EXTENSION_READY_TIMEOUT_MS and DRILL_TEST_ACTIONS_TIMEOUT_MS.
   */
  datatype Env = Env(
    drillAgentId: Option<string>,
    drillGroupId: Option<string>,
    drillAdminUrl: Option<string>,
    drillDispatcherUrl: Option<string>,
    drillClientId: Option<string>,
    drillDispatcherConnectTimeoutMs: Option<int>,
    drillExtensionReadyTimeoutMs: Option<int>,
    drillTestActionsTimeoutMs: Option<int>)

  const PREFIX := "@drill4j/js-auto-test-agent: "

  /** The error raised when neither agentId nor groupId is given. */
  function TargetMissingMessage(isNode: bool): string {
    PREFIX + "please specify either " +
    (if isNode then "DRILL_AGENT_ID or DRILL_GROUP_ID in env variables" else "agentId or groupId in options")
  }

  /** The error raised when adminUrl is not given. */
  function AdminUrlMissingMessage(isNode: bool): string {
    PREFIX + "please " + (if isNode then "DRILL_ADMIN_URL in env variables" else "adminUrl in options")
  }

  /** `getSettingsFromProcessEnv`. */
  function FromEnv(env: Env): AgentOptions {
    AgentOptions(env.drillAgentId, env.drillGroupId, env.drillAdminUrl, env.drillDispatcherUrl,
                 env.drillClientId, env.drillDispatcherConnectTimeoutMs,
                 env.drillExtensionReadyTimeoutMs, env.drillTestActionsTimeoutMs)
  }

  /**
   * `validateSettings`: the agent/group check runs before the admin URL check;
   * supplying both ids is accepted.
   */
  function ValidateSettings(settings: AgentOptions, isNode: bool): (r: Result<(), string>)
    ensures r.Ok? <==> (Present(settings.agentId) || Present(settings.groupId)) && Present(settings.adminUrl)
    ensures !Present(settings.agentId) && !Present(settings.groupId) ==> r == Err(TargetMissingMessage(isNode))
    ensures (Present(settings.agentId) || Present(settings.groupId)) && !Present(settings.adminUrl) ==>
              r == Err(AdminUrlMissingMessage(isNode))
  {
    if !Present(settings.agentId) && !Present(settings.groupId) then Err(TargetMissingMessage(isNode))
    else if !Present(settings.adminUrl) then Err(AdminUrlMissingMessage(isNode))
    else Ok(())
  }

  /** `getSettings`: the environment under Node, the options argument elsewhere, validated. */
  function GetSettings(options: AgentOptions, isNode: bool, env: Env): (r: Result<AgentOptions, string>)
    ensures var s := if isNode then FromEnv(env) else options;
              (r.Ok? <==> ValidateSettings(s, isNode).Ok?) &&
              (r.Err? ==> r.error == ValidateSettings(s, isNode).error)
    ensures !isNode && r.Ok? ==> r.value == options
    ensures isNode && r.Ok? ==> r.value == FromEnv(env)
    ensures r.Ok? ==> Present(r.value.adminUrl) && (Present(r.value.agentId) || Present(r.value.groupId))
  {
    var settings := if isNode then FromEnv(env) else options;
    match ValidateSettings(settings, isNode)
    case Err(msg) => Err(msg)
    case Ok(_) => Ok(settings)
  }

  /** Under Node the options argument is ignored entirely. */
  lemma NodeIgnoresOptions(options1: AgentOptions, options2: AgentOptions, env: Env)
    ensures GetSettings(options1, true, env) == GetSettings(options2, true, env)
  {
  }

  /** With every setting missing, the agent/group error is the one raised. */
  lemma AllMissingReportsTarget(isNode: bool)
    ensures ValidateSettings(AgentOptions(None, None, None, None, None, None, None, None), isNode)
              == Err(TargetMissingMessage(isNode))
  {
  }
}
