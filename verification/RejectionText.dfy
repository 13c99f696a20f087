/** Why a managed run is refused its read-only MCP tools: the structured verdict,
    the printed message, and the legacy reader that turns such a message back into
    a verdict. */
module RejectionText {
  import opened Wrappers
  import opened Names
  import opened TextSearch

  datatype Code =
    | DisabledByOperatorPolicy
    | NoAllowlistedHttpServers
    | HttpTransportNotAllowed
    | DynamicToolsNotAdmitted
    | SideEffectsDisabled
    | SideEffectToolsNotAdmitted
    | StdioSideEffectToolsNotAdmitted
    | StdioDynamicToolsNotAdmitted
    | StdioReadOnlyToolsNotAdmitted
    | CapabilitiesBlockedByAllowlist
    | PromptBlockedByAllowlist
    | ResourceBlockedByAllowlist
    | PromptUnavailable
    | ResourceUnavailable
    | CapabilitiesUnavailable
    | ToolsUnavailable
    | InvalidOperatorPolicy

  /** Servers outside the allowlist that would offer a capability. */
  datatype Probe = Probe(promptServers: seq<string>, resourceServers: seq<string>)

  datatype Attribution = Attribution(
    promptTools: seq<string>,
    resourceTools: seq<string>,
    blockedPromptServers: seq<string>,
    blockedResourceServers: seq<string>)

  const NO_ATTRIBUTION := Attribution([], [], [], [])

  datatype Rejection = Rejection(
    code: Code,
    error: string,
    requested: seq<string>,
    readOnly: seq<string>,
    sideEffect: seq<string>,
    dynamic: seq<string>,
    attribution: Attribution)

  // ----- Tool names -----

  predicate IsPromptTool(name: string) {
    name == "mcp_prompt_list" || name == "mcp_prompt_get"
  }

  predicate IsResourceTool(name: string) {
    name == "mcp_resource_list" || name == "mcp_resource_template_list" || name == "mcp_resource_read"
  }

  predicate IsReadOnlyTool(name: string) {
    IsPromptTool(name) || IsResourceTool(name)
  }

  predicate IsSideEffectTool(name: string) {
    name == "mcp_resource_subscribe" || name == "mcp_resource_unsubscribe" || name == "mcp_resource_updates"
  }

  predicate IsBetaTool(name: string) {
    name in ["read_file", "search_files", "write_file", "patch", "memory_read", "memory_write", "web_search",
             "web_extract", "vision_analyze", "skill_list", "skill_view"]
  }

  predicate IsDynamicTool(name: string) {
    !IsBetaTool(name) && !IsReadOnlyTool(name) && !IsSideEffectTool(name)
  }

  function Filter(names: seq<string>, keep: string -> bool): seq<string> {
    if names == [] then []
    else (if keep(names[0]) then [names[0]] else []) + Filter(names[1..], keep)
  }

  function SortDedup(names: seq<string>): seq<string> {
    Dedup(SortNames(names))
  }

  // ----- The structured verdict -----

  function Attribute(unavailable: seq<string>, probe: Probe): Attribution {
    Attribution(SortDedup(Filter(unavailable, IsPromptTool)), SortDedup(Filter(unavailable, IsResourceTool)),
                probe.promptServers, probe.resourceServers)
  }

  function StructuredCode(a: Attribution): Code {
    if a.promptTools != [] && a.resourceTools == [] then
      if a.blockedPromptServers == [] then PromptUnavailable else PromptBlockedByAllowlist
    else if a.promptTools == [] && a.resourceTools != [] then
      if a.blockedResourceServers == [] then ResourceUnavailable else ResourceBlockedByAllowlist
    else if a.promptTools != [] then
      if a.blockedPromptServers == [] && a.blockedResourceServers == [] then CapabilitiesUnavailable
      else CapabilitiesBlockedByAllowlist
    else ToolsUnavailable
  }

  function BuildRejection(code: Code, error: string, readOnly: seq<string>, sideEffect: seq<string>,
                          dynamic: seq<string>, attribution: Attribution): Rejection
  {
    Rejection(code, error, SortDedup(readOnly + sideEffect + dynamic), readOnly, sideEffect, dynamic, attribution)
  }

  /** The refusal issued when `unavailable` read-only tools are offered by none of
      the allowlisted `servers`. */
  function CapabilityRejection(allowed: seq<string>, unavailable: seq<string>, servers: seq<string>, probe: Probe)
    : Rejection
  {
    var attribution := Attribute(unavailable, probe);
    BuildRejection(StructuredCode(attribution), Message(unavailable, servers, attribution),
                   SortDedup(Filter(allowed, IsReadOnlyTool)), [], [], attribution)
  }

  // ----- The printed message -----

  // The phrases are put together from the short pieces that the proofs look at one by
  // one: where a piece holds a telling character is then plain from the piece alone.

  const SUBJECT := "allowlisted managed " + "MCP HTTP servers "
  const WITHOUT_PROMPT := "did not expose " + "prompt capability "
  const WITHOUT_RESOURCE := "did not expose " + "resource capability "
  const NEEDED := "required by requested " + "read-only MCP tools"
  const WITHOUT_BOTH := "did not expose " + "required "
  const CAPABILITIES := "read-only MCP capabilities"
  const WITHOUT_TOOLS := "could not expose requested "
  const TOOLS := "read-only tools"
  const REASONS := "; they may be unreachable or lack " + "the required capabilities: "

  const PROMPT_MISSING := SUBJECT + (WITHOUT_PROMPT + NEEDED)
  const RESOURCE_MISSING := SUBJECT + (WITHOUT_RESOURCE + NEEDED)
  const BOTH_MISSING := SUBJECT + (WITHOUT_BOTH + CAPABILITIES)
  const TOOLS_MISSING := SUBJECT + (WITHOUT_TOOLS + TOOLS)

  const CONFIGURED := "configured non-allowlisted " + "HTTP "
  const EXPOSING := "servers exposing "
  const PROMPT_CAPABILITY := "prompt capability: "
  const RESOURCE_CAPABILITY := "resource capability: "
  const PROMPT_SERVERS := CONFIGURED + (EXPOSING + PROMPT_CAPABILITY)
  const RESOURCE_SERVERS := CONFIGURED + (EXPOSING + RESOURCE_CAPABILITY)

  const ALLOWLISTED := " (allowlisted servers: "
  const PROMPTS := "prompts => "
  const RESOURCES := "resources => "

  function JoinOrDash(names: seq<string>): string {
    if names == [] then "-" else JoinNames(names)
  }

  function Message(unavailable: seq<string>, servers: seq<string>, a: Attribution): string {
    var allowlisted := JoinOrDash(servers);
    var prompt := JoinOrDash(a.blockedPromptServers);
    var resource := JoinOrDash(a.blockedResourceServers);
    if a.promptTools != [] && a.resourceTools == [] then
      SingleMessage(PROMPT_MISSING, PROMPT_SERVERS, JoinNames(a.promptTools), allowlisted, prompt)
    else if a.promptTools == [] && a.resourceTools != [] then
      SingleMessage(RESOURCE_MISSING, RESOURCE_SERVERS, JoinNames(a.resourceTools), allowlisted, resource)
    else if a.promptTools != [] then
      BothMessage(JoinNames(a.promptTools), prompt, JoinNames(a.resourceTools), resource, allowlisted)
    else
      TOOLS_MISSING + (REASONS + (JoinNames(unavailable) + (" (servers: " + (allowlisted + ")"))))
  }

  /** One capability is missing. */
  function SingleMessage(missing: string, exposing: string, tools: string, allowlisted: string, blocked: string)
    : string
  {
    missing + (": " + (tools + (ALLOWLISTED + (allowlisted + ("; " + (exposing + (blocked + ")")))))))
  }

  function BothMessage(prompts: string, promptServers: string, resources: string, resourceServers: string,
                       allowlisted: string): string
  {
    BOTH_MISSING + (": " + (PROMPTS + (prompts + (" (" + (PROMPT_SERVERS + (promptServers + (
      "); " + (RESOURCES + (resources + (" (" + (RESOURCE_SERVERS + (resourceServers + (
        ")" + (ALLOWLISTED + (allowlisted + ")")))))))))))))))
  }

  // ----- The legacy reader -----

  const DISABLED := "managed MCP tools are disabled by " + "operator policy"
  const NO_SERVER := "managed MCP policy requires " + ("at least one " + "allowlisted HTTP server")
  const NO_HTTP := "managed MCP policy does " + ("not currently " + "admit HTTP MCP servers")
  const NO_DYNAMIC := "managed runtime does not admit " + "model-callable MCP tools"
  const SIDE_EFFECTS_OFF := "managed MCP side-effect " + ("tools are " + "disabled by operator policy")
  const NOT_YET := "managed runtime does not yet admit "
  const NO_SIDE_EFFECT := NOT_YET + "MCP side-effect tools"
  const NO_STDIO_BRIDGE := NOT_YET + "stdio-only MCP bridge tools"
  const NO_STDIO_DYNAMIC :=
    NOT_YET + ("model-callable MCP tools that " + ("currently resolve only to " + "stdio servers"))
  const STDIO_ONLY :=
    "managed runtime currently admits " + ("read-only MCP bridge tools only " + (
      "through allowlisted HTTP MCP servers; " + (
        "current operator policy leaves only " + "stdio MCP candidates for these tools")))
  const NEEDS_HTTP := "managed MCP policy requires `http` in " + "managed.mcp.allowed_transports"

  /** The phrases of refusals that do not concern a read-only capability. */
  function PolicyCode(error: string): Option<Code> {
    if Contains(error, DISABLED) then Some(DisabledByOperatorPolicy)
    else if Contains(error, NO_SERVER) then Some(NoAllowlistedHttpServers)
    else if Contains(error, NO_HTTP) then Some(HttpTransportNotAllowed)
    else if Contains(error, NO_DYNAMIC) then Some(DynamicToolsNotAdmitted)
    else if Contains(error, SIDE_EFFECTS_OFF) then Some(SideEffectsDisabled)
    else if Contains(error, NO_SIDE_EFFECT) then Some(SideEffectToolsNotAdmitted)
    else if Contains(error, NO_STDIO_BRIDGE) then Some(StdioSideEffectToolsNotAdmitted)
    else if Contains(error, NO_STDIO_DYNAMIC) then Some(StdioDynamicToolsNotAdmitted)
    else if Contains(error, STDIO_ONLY) then Some(StdioReadOnlyToolsNotAdmitted)
    else None
  }

  function CapabilityCode(error: string): Option<Code> {
    if Contains(error, BOTH_MISSING)
       && !(Contains(error, PROMPT_CAPABILITY + "-") && Contains(error, RESOURCE_CAPABILITY + "-"))
    then Some(CapabilitiesBlockedByAllowlist)
    else if Contains(error, PROMPT_MISSING) && !Contains(error, PROMPT_SERVERS + "-")
    then Some(PromptBlockedByAllowlist)
    else if Contains(error, RESOURCE_MISSING) && !Contains(error, RESOURCE_SERVERS + "-")
    then Some(ResourceBlockedByAllowlist)
    else if Contains(error, PROMPT_MISSING) then Some(PromptUnavailable)
    else if Contains(error, RESOURCE_MISSING) then Some(ResourceUnavailable)
    else if Contains(error, BOTH_MISSING) then Some(CapabilitiesUnavailable)
    else if Contains(error, TOOLS_MISSING) then Some(ToolsUnavailable)
    else if Contains(error, "managed.mcp.allowed_servers references")
            || Contains(error, NEEDS_HTTP)
            || Contains(error, "managed MCP stdio policy requires")
            || Contains(error, "managed.mcp.stdio.allowed_servers " + "references")
            || Contains(error, "managed.mcp.stdio.allowed_env_keys")
    then Some(InvalidOperatorPolicy)
    else None
  }

  function ReadCode(error: string): Option<Code> {
    match PolicyCode(error)
    case Some(code) => Some(code)
    case None => CapabilityCode(error)
  }

  /** The list printed behind the first occurrence of `prefix`. */
  function NamedList(error: string, prefix: string): seq<string> {
    match After(error, prefix, 0)
    case None => []
    case Some(tail) => ListIn(UpToStop(tail))
  }

  function ListIn(segment: string): seq<string> {
    var value := Trim(segment);
    if value == "" || value == "-" then [] else CleanNames(SplitCommas(value))
  }

  function ReadAttribution(code: Code, error: string): Attribution {
    match code
    case PromptUnavailable | PromptBlockedByAllowlist =>
      NO_ATTRIBUTION.(promptTools := NamedList(error, PROMPT_MISSING + ": "),
                      blockedPromptServers := NamedList(error, PROMPT_SERVERS))
    case ResourceUnavailable | ResourceBlockedByAllowlist =>
      NO_ATTRIBUTION.(resourceTools := NamedList(error, RESOURCE_MISSING + ": "),
                      blockedResourceServers := NamedList(error, RESOURCE_SERVERS))
    case CapabilitiesUnavailable | CapabilitiesBlockedByAllowlist =>
      Attribution(NamedList(error, PROMPTS), NamedList(error, RESOURCES),
                  NamedList(error, PROMPT_SERVERS), NamedList(error, RESOURCE_SERVERS))
    case _ => NO_ATTRIBUTION
  }

  /** `parse_legacy_managed_mcp_admission_rejection`. */
  function ReadRejection(allowed: seq<string>, error: string): Option<Rejection> {
    var readOnly := SortDedup(Filter(allowed, IsReadOnlyTool));
    var sideEffect := SortDedup(Filter(allowed, IsSideEffectTool));
    var dynamic := SortDedup(Filter(allowed, IsDynamicTool));
    match ReadCode(error)
    case None => None
    case Some(code) =>
      if SortDedup(readOnly + sideEffect + dynamic) == [] then None
      else Some(BuildRejection(code, error, readOnly, sideEffect, dynamic, ReadAttribution(code, error)))
  }
}
