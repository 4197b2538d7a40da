/** `PermissionPolicy.evaluate` (app/approvals/policy.py). */
module ApprovalPolicy {

  datatype Capability =
    | FilesystemRead | McpRead | AgentDelegate
    | FilesystemWrite | ShellExecute | NetworkAccess | EmailSend | GitWrite | McpExecute | SandboxExecute
    | OtherCapability(name: string)

  datatype Risk = Low | Medium | High | Critical

  datatype Tool = Tool(capabilities: seq<Capability>, risk: Risk)

  type Registry = map<string, Tool>

  datatype Permission = Automatic | RequiresApproval

  const AUTOMATIC_CAPABILITIES := {FilesystemRead, McpRead, AgentDelegate}
  const APPROVAL_CAPABILITIES :=
    {FilesystemWrite, ShellExecute, NetworkAccess, EmailSend, GitWrite, McpExecute, SandboxExecute}

  // The risk gate, then the two passes over the capabilities.
  method Evaluate(capabilities: seq<Capability>, risk: Risk) returns (p: Permission)
    ensures p == Permit(capabilities, risk)
    ensures p == RequiresApproval <==>
      || risk == High || risk == Critical
      || exists c :: c in capabilities && c !in {FilesystemRead, McpRead, AgentDelegate}
  {
    if risk in {High, Critical} {
      return RequiresApproval;
    }
    for i := 0 to |capabilities|
      invariant forall k | 0 <= k < i :: capabilities[k] !in APPROVAL_CAPABILITIES
    {
      if capabilities[i] in APPROVAL_CAPABILITIES {
        assert capabilities[i] !in AUTOMATIC_CAPABILITIES && capabilities[i] in capabilities;
        return RequiresApproval;
      }
    }
    for i := 0 to |capabilities|
      invariant forall k | 0 <= k < i :: capabilities[k] in AUTOMATIC_CAPABILITIES
    {
      if capabilities[i] !in AUTOMATIC_CAPABILITIES {
        assert capabilities[i] in capabilities;
        return RequiresApproval;
      }
    }
    return Automatic;
  }

  /** Automatic exactly when the risk is below high and every capability is pre-cleared. */
  function Permit(capabilities: seq<Capability>, risk: Risk): Permission {
    if risk in {Low, Medium} && forall c | c in capabilities :: c in AUTOMATIC_CAPABILITIES then Automatic
    else RequiresApproval
  }

  /** The policy gates this tool; a tool that is not registered counts as high risk. */
  predicate Gated(registry: Registry, name: string) {
    name !in registry || Permit(registry[name].capabilities, registry[name].risk) == RequiresApproval
  }

  // What is gated: a tool that is not registered, or of high or critical risk, or with any capability beyond reading and delegating.
  lemma GatedIff(registry: Registry, name: string)
    ensures Gated(registry, name) <==>
      || name !in registry
      || registry[name].risk in {High, Critical}
      || exists c :: c in registry[name].capabilities && c !in {FilesystemRead, McpRead, AgentDelegate}
  {
    if name in registry {
      match registry[name].risk case Low => case Medium => case High => case Critical =>
    }
  }
}
