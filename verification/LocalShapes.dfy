/** What the local hash of a resource is taken of, told from the deployment: image, command, ports and mount. */
module LocalShapes {
  import opened Options
  import opened Roles
  import opened Names
  import opened Commands
  import opened Contracts
  import opened Planner
  import opened PlanInputs
  import opened ComposeNames
  import opened LocalScript
  import opened LocalHash

  function Value(env: map<string, string>, key: string): string {
    if key in env then env[key] else ""
  }

  /** Storage is mounted where it says, under the name of its volume, which is that of the resource if it has none. */
  ghost predicate MountedAs(u: Unicode, mount: Option<(string, string, string)>, s: Option<Storage>, name: string) {
    if s.None? || s.value.mountPath == "" then mount.None?
    else
      && mount.Some? && mount.value.1 == s.value.mountPath
      && mount.value.0 == ComposeName(u, if s.value.volumeId != "" then s.value.volumeId
                                         else if s.value.name != "" then s.value.name else name)
      && mount.value.2 == if s.value.retention != "" then s.value.retention else "preserve"
  }

  lemma {:induction false} StoredIsMounted(u: Unicode, r: Resource, s: Option<Storage>)
    requires Stored(r, s)
    ensures MountedAs(u, MountOf(u, r), s, r.name)
  {
    hide ComposeName;
  }

  /** A service's part of the hashed value: the default image of its kind, no ports, and a command only for an Ollama
      server or a Playwright browser. */
  ghost predicate ServiceHashed(host: Host, shape: Shape, role: Role, env: map<string, string>) {
    && shape.image == host.defaultImage(role, Value(env, if role == Browser then "BROWSER_KIND"
                                                         else if role == Llm then "LLM_PROVIDER"
                                                         else if role == Sql then "DATABASE_KIND"
                                                         else "VECTOR_KIND"))
    && shape.ports == []
    && shape.command == if role == Llm && Value(env, "LLM_PROVIDER") == "ollama" then FixedCommand("serve")
                        else if role == Browser && Value(env, "BROWSER_KIND") == "playwright"
                             then FixedCommand("npx playwright run-server --host 0.0.0.0 --port 3000")
                        else NoCommand
  }

  lemma {:induction false} ServiceIsHashed(host: Host, t: Tables, plan: Plan, r: Resource)
    requires plan.resources != [] && r.role != Agent && r.podInput.imageName == ""
    ensures ServiceHashed(host, LocalShape(host, t, plan, r), r.role, r.podInput.env)
    ensures LocalShape(host, t, plan, r).mount == MountOf(t.unicode, r)
  {
    hide MountOf, ComposeEnv, ServicesOf;
  }

  lemma {:induction false} ServiceImage(t: Tables, inputs: RunInputs, role: Role, dep: Dependency)
    ensures var r := DependencyResource(t, inputs, role, dep); r.role == role && r.podInput.imageName == ""
  {
    hide ManagedName, DependencyPodContract, CreationEnv, PodVariables;
  }

  /** The same for the services of a built plan, which mount the storage of their nodes. */
  lemma {:induction false} ServiceShape(host: Host, t: Tables, d: Deployment, inputs: RunInputs, i: nat)
    requires i < |OwnPodDependencies(d)|
    ensures var plan, role, s := Build(t, d, inputs), OwnPodDependencies(d)[i].0, OwnPodDependencies(d)[i].1;
            i < |plan.resources| && plan.resources != [] &&
            var r := plan.resources[i];
            var shape := LocalShape(host, t, plan, r);
            ServiceHashed(host, shape, role, r.podInput.env) && MountedAs(t.unicode, shape.mount, s.storage, r.name)
  {
    hide Build, LocalShape, ServiceHashed, MountedAs, MountOf, Stored, DependencyResource, OwnPodDependencies;
    BuiltResources(t, d, inputs);
    ResourceAt(t, d, inputs, i);
    OwnPodsNoAgent(d, i);
    StoredAt(t, d, inputs, i);
    var plan, dep := Build(t, d, inputs), OwnPodDependencies(d)[i].1;
    ServiceImage(t, inputs, OwnPodDependencies(d)[i].0, dep);
    ServiceIsHashed(host, t, plan, plan.resources[i]);
    StoredIsMounted(t.unicode, plan.resources[i], dep.storage);
  }

  lemma {:induction false} PlannedPhases(t: Tables, d: Deployment, inputs: RunInputs)
    ensures var actions, contract := Build(t, d, inputs).actions, AgentContract(d, inputs).commands;
            && CommandsForPhase(actions, IsBefore) == Group(contract, d.chain, IsBefore)
            && CommandsForPhase(actions, IsAfter) == Group(contract, d.chain, IsAfter)
  {
    hide AgentContract, AgentResource, DependencyResources, Group, TeardownGroup, PlanActions, CommandsForPhase;
    var contract, actions := AgentContract(d, inputs).commands, Build(t, d, inputs).actions;
    PlanCommands(DependencyResources(t, inputs, OwnPodDependencies(d)), AgentResource(t, d, inputs).name, contract,
                 d.chain, d.keepAlive);
    PlanGroups(contract, d.chain);
    SelectGroups(Group(contract, d.chain, IsBefore), Group(contract, d.chain, IsAfter), TeardownGroup(d.chain));
    PhaseIsFilter(actions, IsBefore);
    PhaseIsFilter(actions, IsAfter);
  }

  /** The agent's part of the hashed value: its own image or the default one, the port of the terminal if that is on,
      two groups of commands, and a launcher that works in the workspace. */
  ghost predicate AgentHashed(host: Host, shape: Shape, env: map<string, string>, image: string, workspace: string,
                              keepAlive: Option<KeepAlive>, before: seq<Command>, after: seq<Command>) {
    && shape.image == (if image != "" then image else host.defaultImage(Agent, ""))
    && shape.ports == (if Value(env, "CRAG_WEB_TERMINAL") != "1" then []
                       else host.mapping(Value(env, "CRAG_WEB_TERMINAL_PORT"),
                                         Value(env, "CRAG_WEB_TERMINAL_HOST_PORT")))
    && shape.command.AgentCommand? && shape.command.before == before && shape.command.after == after
    && shape.command.launcher
       == host.launch(Launch(workspace, Value(env, "AGENT_STARTUP_MODE"),
                             if "AGENT_HARNESS" in env then env["AGENT_HARNESS"] else "agent",
                             Value(env, "CRAG_AGENT_LAUNCH_COMMAND"), keepAlive))
  }

  lemma {:induction false} LastIsHashed(host: Host, t: Tables, plan: Plan, r: Resource, workspace: string)
    requires plan.resources != [] && plan.resources[|plan.resources| - 1] == r && r.role == Agent
    requires Has(r.podInput.env, "WORKSPACE_DIR", workspace)
    ensures AgentHashed(host, LocalShape(host, t, plan, r), r.podInput.env, r.podInput.imageName, workspace,
                        plan.keepAlive, CommandsForPhase(plan.actions, IsBefore),
                        CommandsForPhase(plan.actions, IsAfter))
    ensures LocalShape(host, t, plan, r).mount == MountOf(t.unicode, r)
  {
    hide CommandsForPhase, MountOf, ComposeEnv, StableEnv, ServicesOf;
  }

  /** The same for the agent of a built plan, in the workspace of the deployment and with its two groups of commands. */
  lemma {:induction false} AgentShape(host: Host, t: Tables, d: Deployment, inputs: RunInputs)
    requires NoSecret(AgentContract(d, inputs).secrets, "WORKSPACE_DIR") && NotALimit(d.keepAlive, "WORKSPACE_DIR")
    ensures var plan := Build(t, d, inputs);
            var r, contract := AgentResource(t, d, inputs), AgentContract(d, inputs).commands;
            plan.resources != [] && plan.resources[|plan.resources| - 1] == r &&
            var shape := LocalShape(host, t, plan, r);
            && AgentHashed(host, shape, r.podInput.env, d.agent.imageName, d.agent.workspace, d.keepAlive,
                           Group(contract, d.chain, IsBefore), Group(contract, d.chain, IsAfter))
            && MountedAs(t.unicode, shape.mount, d.storage, r.name)
  {
    hide Build, AgentContract, AgentResource, MountedAs, MountOf, Stored, Group, CommandsForPhase, AgentHashed,
        LocalShape, OwnPodDependencies, NoSecret, NotALimit, DependencyResource;
    var n, r := |OwnPodDependencies(d)|, AgentResource(t, d, inputs);
    BuiltLast(t, d, inputs);
    StoredAt(t, d, inputs, n);
    StoredIsMounted(t.unicode, r, d.storage);
    PlannedPhases(t, d, inputs);
    AgentVariables(t, d, inputs, "WORKSPACE_DIR");
    AgentImage(t, d, inputs);
    PlanFollowsPolicies(t, d, inputs);
    LastIsHashed(host, t, Build(t, d, inputs), r, d.agent.workspace);
  }

  lemma {:induction false} BuiltLast(t: Tables, d: Deployment, inputs: RunInputs)
    ensures var n, rs := |OwnPodDependencies(d)|, Build(t, d, inputs).resources;
            |rs| == n + 1 && rs[n] == AgentResource(t, d, inputs) && StorageOf(d, n) == d.storage
  {
    hide AgentResource, DependencyResource, PlanActions, OwnPodDependencies;
    BuiltResources(t, d, inputs);
    ResourceAt(t, d, inputs, |OwnPodDependencies(d)|);
  }

  lemma {:induction false} AgentImage(t: Tables, d: Deployment, inputs: RunInputs)
    ensures AgentResource(t, d, inputs).podInput.imageName == d.agent.imageName
            && AgentResource(t, d, inputs).role == Agent
  {
    hide AgentContract, ManagedName, MergeAll, CreationEnv, PodVariables;
  }
}
