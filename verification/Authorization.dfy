/**
 The one authorization evaluator, and the eligible-approver list frozen when an
 operation starts waiting for approval.
 */
module Authorization {
  import opened Wrappers
  import opened Text
  import opened ScopePattern

  datatype Membership = Membership(
    principal: string,
    organization: string,
    roles: seq<string>,
    workflowScope: string,
    environmentScope: seq<string>,
    active: bool)

  datatype Reason =
    | Allowed | SelfDecision | NoActiveMembership | RoleLacksCapability | WorkflowOutOfScope | EnvironmentOutOfScope

  /** What is asked: which tool, on which workflow, in which environment of which
      organization. */
  datatype Target = Target(
    tool: string, workflow: Option<string>, environment: Option<string>, environmentOrganization: Option<string>)

  const READ_ONLY_TOOLS: set<string> := {
    "list_workflows", "describe_workflow", "get_instance_health", "validate_input", "preflight_workflow",
    "get_operation", "list_operations", "get_execution_result", "get_execution_log", "whoami",
    "list_environments", "diff_workflow_definition", "get_metrics", "list_audit_events", "get_approval_status"
  }
  const OPERATE: set<string> := {"prepare_operation", "cancel_operation", "execute_operation", "request_approval"}
  const APPROVE_REJECT: string := "approve_reject_operation"
  const RECONCILE: string := "reconcile_operation"

  /** The role-capability matrix; an unknown role has none. */
  function CapabilitiesForRole(role: string): set<string> {
    if role == "viewer" then READ_ONLY_TOOLS
    else if role == "operator" then READ_ONLY_TOOLS + OPERATE
    else if role == "approver" then READ_ONLY_TOOLS + {"request_approval", APPROVE_REJECT}
    else if role == "admin" then READ_ONLY_TOOLS + OPERATE + {"retry_operation", APPROVE_REJECT, RECONCILE}
    else {}
  }

  /** Asking and deciding are different roles, and only an admin does both. */
  lemma RolesSeparateDuties(role: string)
    ensures APPROVE_REJECT in CapabilitiesForRole(role) <==> role in ["approver", "admin"]
    ensures "prepare_operation" in CapabilitiesForRole(role) <==> role in ["operator", "admin"]
    ensures "execute_operation" in CapabilitiesForRole(role) <==> role in ["operator", "admin"]
    ensures "retry_operation" in CapabilitiesForRole(role) <==> role == "admin"
    ensures RECONCILE in CapabilitiesForRole(role) <==> role == "admin"
    ensures CapabilitiesForRole(role) != {} <==> READ_ONLY_TOOLS <= CapabilitiesForRole(role)
  {
    assert "whoami" in READ_ONLY_TOOLS;
  }

  /** The same matrix by column: who may use a tool. */
  function RolesFor(tool: string): set<string> {
    match tool
    case "prepare_operation" | "cancel_operation" | "execute_operation" => {"operator", "admin"}
    case "request_approval" => {"operator", "approver", "admin"}
    case "approve_reject_operation" => {"approver", "admin"}
    case "retry_operation" | "reconcile_operation" => {"admin"}
    case "list_workflows" | "describe_workflow" | "get_instance_health" | "validate_input" | "preflight_workflow"
      | "get_operation" | "list_operations" | "get_execution_result" | "get_execution_log" | "whoami"
      | "list_environments" | "diff_workflow_definition" | "get_metrics" | "list_audit_events"
      | "get_approval_status" => {"viewer", "operator", "approver", "admin"}
    case _ => {}
  }

  lemma ReadersByColumn(tool: string)
    ensures tool in READ_ONLY_TOOLS <==> "viewer" in RolesFor(tool)
    ensures tool in READ_ONLY_TOOLS ==> RolesFor(tool) == {"viewer", "operator", "approver", "admin"}
  {
  }

  lemma MatrixByColumn(role: string, tool: string)
    ensures tool in CapabilitiesForRole(role) <==> role in RolesFor(tool)
  {
    ReadersByColumn(tool);
  }

  // ---------------------------------------------------------------- one membership

  predicate Capable(m: Membership, tool: string) {
    exists role :: role in m.roles && tool in CapabilitiesForRole(role)
  }

  predicate CoversWorkflow(m: Membership, workflow: Option<string>, rule: ClassRule) {
    workflow.Some? ==> MatchWorkflowScope(m.workflowScope, workflow.value, rule)
  }

  /** The organization boundary first, then the scope list; with no environment only an
      unrestricted grant counts. */
  predicate CoversEnvironment(m: Membership, environment: Option<string>, organization: Option<string>) {
    if environment.Some? && organization.Some? && m.organization != organization.value then false
    else if environment.None? then m.environmentScope == ["*"]
    else "*" in m.environmentScope || environment.value in m.environmentScope
  }

  /** One membership grants the whole request by itself. */
  predicate Grants(m: Membership, target: Target, rule: ClassRule) {
    && Capable(m, target.tool)
    && CoversWorkflow(m, target.workflow, rule)
    && CoversEnvironment(m, target.environment, target.environmentOrganization)
  }

  /** The same in the columns of the membership: some role has the tool; the workflow, if
      one is named, is in scope. */
  predicate MayUse(m: Membership, tool: string) {
    exists role :: role in m.roles && role in RolesFor(tool)
  }

  predicate OnWorkflow(m: Membership, workflow: Option<string>, rule: ClassRule) {
    workflow.None? || MatchWorkflowScope(m.workflowScope, workflow.value, rule)
  }

  /** The environment is listed, or all are, and it belongs to the membership's own
      organization; where none is named, the list is exactly the star. */
  predicate Suits(m: Membership, target: Target, rule: ClassRule) {
    && MayUse(m, target.tool)
    && OnWorkflow(m, target.workflow, rule)
    && (target.environment.None? ==> m.environmentScope == ["*"])
    && (target.environment.Some? ==> "*" in m.environmentScope || target.environment.value in m.environmentScope)
    && (target.environment.Some? && target.environmentOrganization.Some? ==>
          m.organization == target.environmentOrganization.value)
  }

  lemma GrantsInColumns(m: Membership, target: Target, rule: ClassRule)
    ensures Grants(m, target, rule) <==> Suits(m, target, rule)
    ensures Capable(m, target.tool) <==> MayUse(m, target.tool)
    ensures CoversWorkflow(m, target.workflow, rule) <==> OnWorkflow(m, target.workflow, rule)
  {
    hide CapabilitiesForRole, RolesFor, MatchWorkflowScope;
    forall role ensures target.tool in CapabilitiesForRole(role) <==> role in RolesFor(target.tool) {
      MatrixByColumn(role, target.tool);
    }
  }

  predicate Deciding(requester: Option<string>, decider: Option<string>) {
    requester.Some? && decider.Some? && requester == decider
  }

  /** The verdict, as a statement about the memberships rather than a walk over them. */
  ghost function Verdict(
    memberships: seq<Membership>, target: Target, requester: Option<string>, decider: Option<string>, rule: ClassRule
  ): Reason {
    if Deciding(requester, decider) then SelfDecision
    else if memberships == [] then NoActiveMembership
    else if exists m :: m in memberships && Grants(m, target, rule) then Allowed
    else if !exists m :: m in memberships && Capable(m, target.tool) then RoleLacksCapability
    else if !exists m :: m in memberships && Capable(m, target.tool) && CoversWorkflow(m, target.workflow, rule) then
      WorkflowOutOfScope
    else EnvironmentOutOfScope
  }

  /** Each verdict, in columns. */
  lemma VerdictInColumns(
    memberships: seq<Membership>, target: Target, requester: Option<string>, decider: Option<string>, rule: ClassRule)
    ensures var reason := Verdict(memberships, target, requester, decider, rule);
            var deciding := requester.Some? && decider.Some? && requester.value == decider.value;
            var anyMay := exists m :: m in memberships && MayUse(m, target.tool);
            var anyOn := exists m :: m in memberships && MayUse(m, target.tool) && OnWorkflow(m, target.workflow, rule);
            var anySuits := exists m :: m in memberships && Suits(m, target, rule);
            && (reason == SelfDecision <==> deciding)
            && (reason == NoActiveMembership <==> !deciding && memberships == [])
            && (reason == Allowed <==> !deciding && anySuits)
            && (reason == RoleLacksCapability <==> !deciding && memberships != [] && !anyMay)
            && (reason == WorkflowOutOfScope <==> !deciding && anyMay && !anyOn)
            && (reason == EnvironmentOutOfScope <==> !deciding && anyOn && !anySuits)
  {
    hide Grants, Suits, Capable, MayUse, CoversWorkflow, OnWorkflow;
    forall m
      ensures Grants(m, target, rule) <==> Suits(m, target, rule)
      ensures Capable(m, target.tool) <==> MayUse(m, target.tool)
      ensures CoversWorkflow(m, target.workflow, rule) <==> OnWorkflow(m, target.workflow, rule)
    {
      GrantsInColumns(m, target, rule);
    }
    forall m | Suits(m, target, rule) ensures MayUse(m, target.tool) && OnWorkflow(m, target.workflow, rule) {
      SuitsMayUse(m, target, rule);
    }
  }

  lemma SuitsMayUse(m: Membership, target: Target, rule: ClassRule)
    requires Suits(m, target, rule)
    ensures MayUse(m, target.tool) && OnWorkflow(m, target.workflow, rule)
  {
  }

  /** Walk the memberships and stop at the first that grants everything; the flags only
      pick the reason. */
  method Evaluate(
    memberships: seq<Membership>, target: Target, requester: Option<string>, decider: Option<string>, rule: ClassRule)
    returns (reason: Reason)
    ensures reason == Verdict(memberships, target, requester, decider, rule)
    ensures reason == Allowed <==>
              !(requester.Some? && requester == decider) && exists m :: m in memberships && Suits(m, target, rule)
  {
    VerdictInColumns(memberships, target, requester, decider, rule);
    hide Capable, CoversWorkflow, CoversEnvironment, Suits;
    if Deciding(requester, decider) { return SelfDecision; }
    if memberships == [] { return NoActiveMembership; }
    var sawRoleCapability, sawWorkflowScope := false, false;
    for i := 0 to |memberships|
      invariant forall k | 0 <= k < i :: !Grants(memberships[k], target, rule)
      invariant sawRoleCapability <==> exists k :: 0 <= k < i && Capable(memberships[k], target.tool)
      invariant sawWorkflowScope <==>
                  exists k :: 0 <= k < i && Capable(memberships[k], target.tool)
                              && CoversWorkflow(memberships[k], target.workflow, rule)
    {
      var m := memberships[i];
      if !Capable(m, target.tool) { continue; }
      sawRoleCapability := true;
      if !CoversWorkflow(m, target.workflow, rule) { continue; }
      sawWorkflowScope := true;
      if !CoversEnvironment(m, target.environment, target.environmentOrganization) { continue; }
      assert m in memberships && Grants(m, target, rule);
      return Allowed;
    }
    assert forall k | 0 <= k < |memberships| :: memberships[k] in memberships;
    if !sawRoleCapability { return RoleLacksCapability; }
    if !sawWorkflowScope { return WorkflowOutOfScope; }
    return EnvironmentOutOfScope;
  }

  // ---------------------------------------------------------------- approvers

  /** `list_active_for_organization`. */
  function OfOrganization(all: seq<Membership>, organization: string): seq<Membership> {
    if all == [] then []
    else (if all[0].active && all[0].organization == organization then [all[0]] else [])
         + OfOrganization(all[1..], organization)
  }

  /** `list_active_for_principal`. */
  function OfPrincipal(all: seq<Membership>, principal: string): seq<Membership> {
    if all == [] then []
    else (if all[0].active && all[0].principal == principal then [all[0]] else []) + OfPrincipal(all[1..], principal)
  }

  lemma {:induction false} OrganizationMembers(all: seq<Membership>, organization: string, m: Membership)
    ensures m in OfOrganization(all, organization) <==> m in all && m.active && m.organization == organization
  {
    if all != [] {
      OrganizationMembers(all[1..], organization, m);
      assert m in all <==> m == all[0] || m in all[1..];
    }
  }

  lemma {:induction false} PrincipalMemberships(all: seq<Membership>, principal: string, m: Membership)
    ensures m in OfPrincipal(all, principal) <==> m in all && m.active && m.principal == principal
  {
    if all != [] {
      PrincipalMemberships(all[1..], principal, m);
      assert m in all <==> m == all[0] || m in all[1..];
    }
  }

  function ApprovalTarget(organization: string, workflow: string, environment: string): Target {
    Target(APPROVE_REJECT, Some(workflow), Some(environment), Some(organization))
  }

  /** One membership makes its principal eligible. */
  predicate MakesEligible(
    m: Membership, organization: string, workflow: string, environment: string, requester: string, rule: ClassRule
  ) {
    m.principal != requester && Grants(m, ApprovalTarget(organization, workflow, environment), rule)
  }

  /** The same in columns: an active member of the organization, approver or admin there,
      whose scopes hold the workflow and the environment, and not the requester. */
  predicate MayApprove(
    m: Membership, organization: string, workflow: string, environment: string, requester: string, rule: ClassRule
  ) {
    && m.active && m.organization == organization && m.principal != requester
    && ("approver" in m.roles || "admin" in m.roles)
    && MatchWorkflowScope(m.workflowScope, workflow, rule)
    && ("*" in m.environmentScope || environment in m.environmentScope)
  }

  lemma ApproversInColumns(
    all: seq<Membership>, organization: string, workflow: string, environment: string, requester: string,
        rule: ClassRule, m: Membership)
    ensures m in OfOrganization(all, organization)
            && MakesEligible(m, organization, workflow, environment, requester, rule)
            <==> m in all && MayApprove(m, organization, workflow, environment, requester, rule)
  {
    hide OfOrganization, Grants, MatchWorkflowScope;
    OrganizationMembers(all, organization, m);
    GrantsInColumns(m, ApprovalTarget(organization, workflow, environment), rule);
    assert RolesFor(APPROVE_REJECT) == {"approver", "admin"};
  }

  /** The eligible approvers: walk one organization's memberships, collect principals,
      sort. */
  method ComputeEligibleApprovers(
    all: seq<Membership>, organization: string, workflow: string, environment: string, requester: string,
        rule: ClassRule)
    returns (list: seq<string>)
    ensures Ascending(list) && requester !in list
    ensures forall p :: p in list <==>
              exists m :: m in OfOrganization(all, organization) && m.principal == p
                          && MakesEligible(m, organization, workflow, environment, requester, rule)
    ensures forall p :: p in list <==>
              exists m :: m in all && m.principal == p
                          && MayApprove(m, organization, workflow, environment, requester, rule)
  {
    hide Capable, MatchWorkflowScope, CoversEnvironment, OfOrganization, Sorted, MayApprove;
    forall m
      ensures m in OfOrganization(all, organization)
              && MakesEligible(m, organization, workflow, environment, requester, rule)
              <==> m in all && MayApprove(m, organization, workflow, environment, requester, rule)
    {
      ApproversInColumns(all, organization, workflow, environment, requester, rule, m);
    }
    var memberships := OfOrganization(all, organization);
    var eligible: set<string> := {};
    for i := 0 to |memberships|
      invariant forall p :: p in eligible <==>
                  exists k :: 0 <= k < i && memberships[k].principal == p
                              && MakesEligible(memberships[k], organization, workflow, environment, requester, rule)
    {
      var m := memberships[i];
      if m.principal == requester { continue; }
      if !Capable(m, APPROVE_REJECT) { continue; }
      if !MatchWorkflowScope(m.workflowScope, workflow, rule) { continue; }
      if !CoversEnvironment(m, Some(environment), Some(organization)) { continue; }
      eligible := eligible + {m.principal};
    }
    list := SortStrings(eligible);
    SortedKeeps(eligible);
    forall p
      ensures p in list <==>
                exists m :: m in memberships && m.principal == p
                            && MakesEligible(m, organization, workflow, environment, requester, rule)
    {
      if p in list {
        var k :| 0 <= k < |memberships| && memberships[k].principal == p
                 && MakesEligible(memberships[k], organization, workflow, environment, requester, rule);
        assert memberships[k] in memberships;
      }
    }
  }

  /** A principal is made eligible by the organization's list exactly when the evaluator,
      over everything that principal holds anywhere, allows the decision; so no grant is
      put together from two memberships, and the requester is never among them. */
  lemma {:induction false} EligibleIffAllowed(
    all: seq<Membership>, organization: string, workflow: string, environment: string, requester: string,
    principal: string, rule: ClassRule)
    ensures (exists m :: m in OfOrganization(all, organization) && m.principal == principal
                         && MakesEligible(m, organization, workflow, environment, requester, rule))
            <==> Verdict(OfPrincipal(all, principal), ApprovalTarget(organization, workflow, environment),
                         Some(requester), Some(principal), rule) == Allowed
  {
    hide Capable, CoversWorkflow, CoversEnvironment, OfOrganization, OfPrincipal;
    var target := ApprovalTarget(organization, workflow, environment);
    forall m
      ensures m in OfOrganization(all, organization) <==> m in all && m.active && m.organization == organization
    {
      OrganizationMembers(all, organization, m);
    }
    forall m ensures m in OfPrincipal(all, principal) <==> m in all && m.active && m.principal == principal {
      PrincipalMemberships(all, principal, m);
    }
    forall m | Grants(m, target, rule) ensures m.organization == organization {
      GrantStaysHome(m, organization, workflow, environment, rule);
    }
    if m :| m in OfOrganization(all, organization) && m.principal == principal
            && MakesEligible(m, organization, workflow, environment, requester, rule) {
      assert m in OfPrincipal(all, principal) && Grants(m, target, rule);
    }
  }

  /** A grant for an environment comes from the organization that owns it. */
  lemma GrantStaysHome(m: Membership, organization: string, workflow: string, environment: string, rule: ClassRule)
    requires Grants(m, ApprovalTarget(organization, workflow, environment), rule)
    ensures m.organization == organization
  {
    hide Capable, CoversWorkflow;
  }
}
