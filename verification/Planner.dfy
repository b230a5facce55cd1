/** The planner: one list of resources and one flat, ordered list of actions. */
module Planner {
  import opened Options
  import opened Text
  import opened Roles
  import opened Names
  import opened Commands
  import opened Contracts

  datatype ReusePolicy = ReuseMatching | AlwaysCreate | ResumeStopped
  datatype LimitAction = StopPod | TerminatePod
  datatype KeepAliveMode = TimeMode | TurnsMode | CostMode | ManualMode

  /** A keep-alive policy; `limitEnv` holds its numeric limits as they are printed into variables. */
  datatype KeepAlive = KeepAlive(mode: KeepAliveMode, action: LimitAction, seconds: nat, turnLimit: nat,
                                 costLimit: real,
                                 serverSide: bool, podSide: bool, limitEnv: map<string, string>)

  datatype Storage = Storage(volumeId: string, name: string, sizeGb: nat, dataCenter: string, mountPath: string,
                             retention: string)

  /** A browser, LLM, SQL or vector service.  `spec` is its canonical JSON, which the hashes are taken of. */
  datatype Dependency = Dependency(ownPod: bool, nodeId: Option<string>, spec: string, templateId: string,
                                   contract: Contract, storage: Option<Storage>)

  datatype AgentSpec = AgentSpec(nodeId: Option<string>, spec: string, templateId: string, workspace: string,
                                 harness: string,
                                 imageName: string, contract: Contract)

  datatype Deployment = Deployment(
    agent: AgentSpec,
    llm: Option<Dependency>, sql: Option<Dependency>, vector: Option<Dependency>, browser: Option<Dependency>,
    llmApi: Option<Contract>, s3: Option<Contract>,
    storage: Option<Storage>,
    chain: Option<seq<Command>>,
    keepAlive: Option<KeepAlive>,
    reuse: ReusePolicy)

  /** The fields of a pod input that the model follows; the three private ones ask for a new volume. */
  datatype PodInput = PodInput(
    templateId: string, name: string, env: map<string, string>, ports: seq<Port>, imageName: string,
    volumeId: string, mountPath: string,
    privateName: string, privateSize: nat, privateCenter: string)

  datatype Resource = Resource(role: Role, nodeId: Option<string>, desiredHash: string, name: string,
                               templateId: string,
                               podInput: PodInput, retention: string)

  datatype Action =
    | CreateOrResume(role: Role, name: string)
    | WaitReady(role: Role, name: string)
    | ResolveContracts(names: seq<string>)
    | WaitSsh(name: string)
    | RunSsh(command: Command)
    | WriteRuntime
    | LaunchAgent
    | MonitorKeepAlive

  datatype Plan = Plan(runId: string, workflowHash: string, prompt: string, resources: seq<Resource>,
                       contract: Contract,
                       reuse: ReusePolicy, keepAlive: Option<KeepAlive>, actions: seq<Action>)

  /** What one run adds to a deployment: a fresh run id, the prompt, and the hash of the workflow graph. */
  datatype RunInputs = RunInputs(runId: string, prompt: string, workflowHash: string)

  /** stable_hash(...)[:12] of a canonical JSON text; `unicode` are the character tables of Python. */
  datatype Tables = Tables(hash: string -> string, unicode: Unicode)

  // ---------------------------------------------------------------------------------------------
  // Resources

  function OwnPod(role: Role, d: Option<Dependency>): seq<(Role, Dependency)> {
    if d.Some? && d.value.ownPod then [(role, d.value)] else []
  }

  /** _own_pod_dependencies */
  function OwnPodDependencies(d: Deployment): seq<(Role, Dependency)> {
    OwnPod(Llm, d.llm) + OwnPod(Sql, d.sql) + OwnPod(Vector, d.vector) + OwnPod(Browser, d.browser)
  }

  function EnvGet(env: map<string, string>, key: string): string {
    if key in env then env[key] else ""
  }

  /** dependency_pod_contract: what the pod itself must not see of its own endpoint */
  function DependencyPodContract(role: Role, c: Contract): Contract {
    match role
    case Llm =>
      if EnvGet(c.env, "LLM_PROVIDER") == "ollama"
          then c.(env := c.env["OLLAMA_HOST" := "0.0.0.0:11434"] - {"OPENAI_BASE_URL"})
      else if EnvGet(c.env, "LLM_PROVIDER") == "vllm" then c.(env := c.env - {"OPENAI_BASE_URL"})
      else c
    case Browser => c.(env := c.env - {"NEKO_URL", "PLAYWRIGHT_WS_ENDPOINT"})
    case Sql => c.(env := c.env - {"DATABASE_URL"})
    case Vector => c.(env := c.env - {"VECTOR_URL"})
    case Agent => c
  }

  function NodeText(nodeId: Option<string>): string {
    if nodeId.None? then "" else nodeId.value
  }

  /** ensure_ssh_port */
  function EnsureSshPort(ports: seq<Port>): seq<Port> {
    if exists i :: 0 <= i < |ports| && ports[i].containerPort == 22 then ports
    else ports + [Port("ssh", 22, "tcp", true)]
  }

  const MANAGED_BY := "comfyui-runpod-agentic"

  function PodVariables(role: Role, nodeId: Option<string>, hash: string): map<string, string> {
    map["RUNPOD_MANAGED_BY" := MANAGED_BY, "CRAG_NODE_ID" := NodeText(nodeId), "CRAG_ROLE" := RoleText(role),
        "CRAG_DESIRED_HASH" := hash]
  }

  /** _pod_input */
  function MakePodInput(templateId: string, name: string, role: Role, nodeId: Option<string>, hash: string, c: Contract,
                        storage: Option<Storage>, imageName: string): PodInput {
    var env := CreationEnv(c) + PodVariables(role, nodeId, hash);
    var bare := PodInput(templateId, name, env, EnsureSshPort(c.ports), imageName, "", "", "", 0, "");
    if storage.None? then bare
    else
      var s := storage.value;
      if s.volumeId != "" then bare.(volumeId := s.volumeId, mountPath := s.mountPath)
      else bare.(privateName := if s.name == "" then name else s.name, privateSize := s.sizeGb,
                 privateCenter := s.dataCenter, mountPath := s.mountPath)
  }

  function DependencyResource(t: Tables, inputs: RunInputs, role: Role, dep: Dependency): Resource {
    var hash := Take(t.hash(dep.spec), 12);
    var name := ManagedName(t.unicode, inputs.workflowHash, RoleText(role), dep.nodeId, hash);
    Resource(role, dep.nodeId, hash, name, dep.templateId,
             MakePodInput(dep.templateId, name, role, dep.nodeId, hash, DependencyPodContract(role, dep.contract),
                          dep.storage, ""),
             if dep.storage.Some? then dep.storage.value.retention else "")
  }

  function DependencyResources(t: Tables, inputs: RunInputs, deps: seq<(Role, Dependency)>): (r: seq<Resource>)
    ensures |r| == |deps|
  {
    if deps == [] then []
    else
      var last := deps[|deps| - 1];
      DependencyResources(t, inputs, deps[..|deps| - 1]) + [DependencyResource(t, inputs, last.0, last.1)]
  }

  lemma {:induction false} DependencyResourceAt(t: Tables, inputs: RunInputs, deps: seq<(Role, Dependency)>, i: nat)
    requires i < |deps|
    ensures DependencyResources(t, inputs, deps)[i] == DependencyResource(t, inputs, deps[i].0, deps[i].1)
    decreases |deps|
  {
    if i < |deps| - 1 {
      DependencyResourceAt(t, inputs, deps[..|deps| - 1], i);
    }
  }

  function DependencyContracts(deps: seq<(Role, Dependency)>): seq<Option<Contract>> {
    if deps == [] then [] else DependencyContracts(deps[..|deps| - 1]) + [Some(deps[|deps| - 1].1.contract)]
  }

  function InAgentPod(d: Option<Dependency>): Option<Contract> {
    if d.Some? && !d.value.ownPod then Some(d.value.contract) else None
  }

  /** The contracts merged into the agent's own pod, in the order the planner lists them. */
  function LocalContracts(d: Deployment): seq<Option<Contract>> {
    [Some(d.agent.contract), InAgentPod(d.browser), InAgentPod(d.llm), InAgentPod(d.sql), InAgentPod(d.vector),
     d.llmApi, d.s3]
  }

  function ModeText(mode: KeepAliveMode): string {
    match mode
    case TimeMode => "time"
    case TurnsMode => "turns"
    case CostMode => "cost"
    case ManualMode => "manual"
  }

  function EnforcementText(k: KeepAlive): string {
    if k.serverSide && k.podSide then "both" else if k.serverSide then "server_side" else "pod_side"
  }

  function KeepAliveEnv(k: Option<KeepAlive>): map<string, string> {
    if k.None? || k.value.mode == ManualMode then map[]
    else map["CRAG_KEEP_ALIVE_MODE" := ModeText(k.value.mode),
             "CRAG_KEEP_ALIVE_ACTION" := if k.value.action == StopPod then "stop" else "terminate",
             "CRAG_KEEP_ALIVE_ENFORCEMENT" := EnforcementText(k.value)]
         + k.value.limitEnv
  }

  function RuntimeDir(workspace: string): string {
    RStrip(workspace, '/') + "/.runpod_agentic"
  }

  /** The variables that every run gives the agent; only the last two differ from run to run of one deployment and
      workflow. */
  function RunVariables(d: Deployment, inputs: RunInputs): map<string, string> {
    map["RUNPOD_MANAGED_BY" := MANAGED_BY, "CRAG_WORKFLOW_HASH" := inputs.workflowHash,
        "CRAG_NODE_ID" := NodeText(d.agent.nodeId), "CRAG_ROLE" := "agent",
        "CRAG_RUNTIME_DIR" := RuntimeDir(d.agent.workspace), "WORKSPACE_DIR" := d.agent.workspace]
       ["CRAG_RUN_ID" := inputs.runId]["AGENT_PROMPT" := inputs.prompt]
  }

  function MergedContract(d: Deployment): Contract {
    Merge2(MergeAll(LocalContracts(d)), MergeAll(DependencyContracts(OwnPodDependencies(d))))
  }

  function AgentContract(d: Deployment, inputs: RunInputs): Contract {
    WithEnv(WithEnv(MergedContract(d), RunVariables(d, inputs)), KeepAliveEnv(d.keepAlive))
  }

  function AgentResource(t: Tables, d: Deployment, inputs: RunInputs): Resource {
    var hash := Take(t.hash(d.agent.spec), 12);
    var name := ManagedName(t.unicode, inputs.workflowHash, RoleText(Agent), d.agent.nodeId, hash);
    var pod := AgentContract(d, inputs).(ports := MergeAll(LocalContracts(d)).ports);
    Resource(Agent, d.agent.nodeId, hash, name, d.agent.templateId,
             MakePodInput(d.agent.templateId, name, Agent, d.agent.nodeId, hash, pod, d.storage, d.agent.imageName),
             if d.storage.Some? then d.storage.value.retention else "")
  }

  function Resources(t: Tables, d: Deployment, inputs: RunInputs): seq<Resource> {
    DependencyResources(t, inputs, OwnPodDependencies(d)) + [AgentResource(t, d, inputs)]
  }

  // ---------------------------------------------------------------------------------------------
  // Actions

  predicate IsBefore(c: Command) { c.phase == BeforeStart }
  predicate IsAfter(c: Command) { c.phase == AfterStart || c.phase == AfterReady }
  predicate IsTeardown(c: Command) { c.phase == Teardown }
  predicate NotTeardown(c: Command) { c.phase != Teardown }

  function RunAll(commands: seq<Command>): seq<Action> {
    if commands == [] then [] else RunAll(commands[..|commands| - 1]) + [RunSsh(commands[|commands| - 1])]
  }

  function CreateAll(deps: seq<Resource>): seq<Action> {
    if deps == [] then []
    else CreateAll(deps[..|deps| - 1]) + [CreateOrResume(deps[|deps| - 1].role, deps[|deps| - 1].name)]
  }

  function WaitAll(deps: seq<Resource>): seq<Action> {
    if deps == [] then [] else WaitAll(deps[..|deps| - 1]) + [WaitReady(deps[|deps| - 1].role, deps[|deps| - 1].name)]
  }

  function NamesOf(deps: seq<Resource>): seq<string> {
    if deps == [] then [] else NamesOf(deps[..|deps| - 1]) + [deps[|deps| - 1].name]
  }

  function Chained(chain: Option<seq<Command>>): seq<Command> {
    if chain.None? then [] else chain.value
  }

  /** The commands of one phase group: the contract's, selected then sorted, then the chain's, sorted then selected. */
  function Group(contract: seq<Command>, chain: Option<seq<Command>>, p: Command -> bool): seq<Command> {
    Sort(Filter(contract, p)) + Filter(Sort(Chained(chain)), p)
  }

  /** Teardown commands come from the chain only. */
  function TeardownGroup(chain: Option<seq<Command>>): seq<Command> {
    Filter(Sort(Chained(chain)), IsTeardown)
  }

  function Opening(deps: seq<Resource>, agentName: string): seq<Action> {
    CreateAll(deps) + WaitAll(deps) + (if deps == [] then [] else [ResolveContracts(NamesOf(deps))])
    + [CreateOrResume(Agent, agentName), WaitSsh(agentName)]
  }

  function Closing(keepAlive: Option<KeepAlive>): seq<Action> {
    if keepAlive.Some? then [MonitorKeepAlive] else []
  }

  /** The whole list, as its parts. */
  function PlanActions(deps: seq<Resource>, agentName: string, contract: seq<Command>, chain: Option<seq<Command>>,
                       keepAlive: Option<KeepAlive>): seq<Action> {
    Opening(deps, agentName) + (RunAll(Group(contract, chain, IsBefore)) + ([WriteRuntime, LaunchAgent]
      + (RunAll(Group(contract, chain, IsAfter)) + (Closing(keepAlive) + RunAll(TeardownGroup(chain))))))
  }

  /** Planner.build */
  function Build(t: Tables, d: Deployment, inputs: RunInputs): Plan {
    var deps := DependencyResources(t, inputs, OwnPodDependencies(d));
    var agent := AgentResource(t, d, inputs);
    var contract := AgentContract(d, inputs);
    Plan(inputs.runId, inputs.workflowHash, inputs.prompt, deps + [agent], contract, d.reuse, d.keepAlive,
         PlanActions(deps, agent.name, contract.commands, d.chain, d.keepAlive))
  }

  // The action list is appended to, part by part.

  method AppendRuns(before: seq<Action>, commands: seq<Command>) returns (actions: seq<Action>)
    ensures actions == before + RunAll(commands)
  {
    actions := before;
    for i := 0 to |commands|
      invariant actions == before + RunAll(commands[..i])
    {
      assert commands[..i + 1][..i] == commands[..i];
      actions := actions + [RunSsh(commands[i])];
    }
    assert commands[..|commands|] == commands;
  }

  /** for command in sorted(chain): if command.phase ...: append */
  method AppendChain(before: seq<Action>, chain: Option<seq<Command>>, p: Command -> bool)
      returns (actions: seq<Action>)
    ensures actions == before + RunAll(Filter(Sort(Chained(chain)), p))
  {
    var commands := Sort(Chained(chain));
    actions := before;
    for i := 0 to |commands|
      invariant actions == before + RunAll(Filter(commands[..i], p))
    {
      RunsUpTo(commands, i, p);
      if p(commands[i]) {
        actions := actions + [RunSsh(commands[i])];
      }
    }
    assert commands[..|commands|] == commands;
  }

  lemma {:induction false} RunAllSnoc(commands: seq<Command>, c: Command)
    ensures RunAll(commands + [c]) == RunAll(commands) + [RunSsh(c)]
  {
    assert (commands + [c])[..|commands|] == commands;
  }

  lemma {:induction false} RunsUpTo(commands: seq<Command>, i: nat, p: Command -> bool)
    requires i < |commands|
    ensures RunAll(Filter(commands[..i + 1], p))
            == if p(commands[i]) then RunAll(Filter(commands[..i], p)) + [RunSsh(commands[i])]
               else RunAll(Filter(commands[..i], p))
  {
    FilterUpTo(commands, i, p);
    var f := Filter(commands[..i], p);
    RunAllSnoc(f, commands[i]);
    assert f + [] == f;
  }

  lemma {:induction false} FilterConcat(a: seq<Command>, b: seq<Command>, p: Command -> bool)
    ensures Filter(a + b, p) == Filter(a, p) + Filter(b, p)
    decreases |a|
  {
    if a == [] {
      assert a + b == b;
    } else {
      assert (a + b)[1..] == a[1..] + b;
      FilterConcat(a[1..], b, p);
    }
  }

  lemma {:induction false} FilterUpTo(commands: seq<Command>, i: nat, p: Command -> bool)
    requires i < |commands|
    ensures Filter(commands[..i + 1], p) == Filter(commands[..i], p) + if p(commands[i]) then [commands[i]] else []
  {
    assert commands[..i + 1] == commands[..i] + [commands[i]];
    FilterConcat(commands[..i], [commands[i]], p);
  }

  method AppendDependencies(deps: seq<Resource>) returns (actions: seq<Action>)
    ensures actions == CreateAll(deps) + WaitAll(deps) + if deps == [] then [] else [ResolveContracts(NamesOf(deps))]
  {
    actions := [];
    for i := 0 to |deps|
      invariant actions == CreateAll(deps[..i])
    {
      assert deps[..i + 1][..i] == deps[..i];
      actions := actions + [CreateOrResume(deps[i].role, deps[i].name)];
    }
    assert deps[..|deps|] == deps;
    ghost var created := actions;
    var names := [];
    for i := 0 to |deps|
      invariant actions == created + WaitAll(deps[..i]) && names == NamesOf(deps[..i])
    {
      assert deps[..i + 1][..i] == deps[..i];
      actions := actions + [WaitReady(deps[i].role, deps[i].name)];
      names := names + [deps[i].name];
    }
    assert deps[..|deps|] == deps;
    if deps != [] {
      actions := actions + [ResolveContracts(names)];
    }
  }

  lemma {:induction false} RunAllConcat(a: seq<Command>, b: seq<Command>)
    ensures RunAll(a + b) == RunAll(a) + RunAll(b)
    decreases |b|
  {
    if b == [] {
      assert a + b == a;
    } else {
      var n := |b| - 1;
      RunAllConcat(a, b[..n]);
      assert (a + b)[..|a + b| - 1] == a + b[..n];
    }
  }

  lemma {:induction false} ActionsRegroup(o: seq<Action>, b1: seq<Action>, b2: seq<Action>, m: seq<Action>,
                                          a1: seq<Action>, a2: seq<Action>, k: seq<Action>, t: seq<Action>)
    ensures ((((((o + b1) + b2) + m) + a1) + a2) + k) + t == o + ((b1 + b2) + (m + ((a1 + a2) + (k + t))))
  {
  }

  /** Planner._actions */
  method BuildActions(deps: seq<Resource>, agentName: string, contract: seq<Command>, chain: Option<seq<Command>>,
                      keepAlive: Option<KeepAlive>) returns (actions: seq<Action>)
    ensures actions == PlanActions(deps, agentName, contract, chain, keepAlive)
  {
    actions := AppendDependencies(deps);
    actions := actions + [CreateOrResume(Agent, agentName), WaitSsh(agentName)];
    actions := AppendRuns(actions, Sort(Filter(contract, IsBefore)));
    actions := AppendChain(actions, chain, IsBefore);
    actions := actions + [WriteRuntime, LaunchAgent];
    actions := AppendRuns(actions, Sort(Filter(contract, IsAfter)));
    actions := AppendChain(actions, chain, IsAfter);
    actions := actions + Closing(keepAlive);
    actions := AppendChain(actions, chain, IsTeardown);
    RunAllConcat(Sort(Filter(contract, IsBefore)), Filter(Sort(Chained(chain)), IsBefore));
    RunAllConcat(Sort(Filter(contract, IsAfter)), Filter(Sort(Chained(chain)), IsAfter));
    ActionsRegroup(Opening(deps, agentName), RunAll(Sort(Filter(contract, IsBefore))),
                   RunAll(Filter(Sort(Chained(chain)), IsBefore)), [WriteRuntime, LaunchAgent],
                   RunAll(Sort(Filter(contract, IsAfter))), RunAll(Filter(Sort(Chained(chain)), IsAfter)),
                   Closing(keepAlive), RunAll(TeardownGroup(chain)));
  }

  // ---------------------------------------------------------------------------------------------
  // The commands of a plan

  /** [action.detail for action in actions if action.action == "RUN_SSH_COMMAND"] */
  function CommandsOf(actions: seq<Action>): seq<Command> {
    if actions == [] then []
    else if actions[0].RunSsh? then [actions[0].command] + CommandsOf(actions[1..])
    else CommandsOf(actions[1..])
  }

  lemma {:induction false} CommandsOfConcat(a: seq<Action>, b: seq<Action>)
    ensures CommandsOf(a + b) == CommandsOf(a) + CommandsOf(b)
    decreases |a|
  {
    if a == [] {
      assert a + b == b;
    } else {
      assert (a + b)[1..] == a[1..] + b;
      CommandsOfConcat(a[1..], b);
    }
  }

  lemma {:induction false} CommandsOfRuns(commands: seq<Command>)
    ensures CommandsOf(RunAll(commands)) == commands
    decreases |commands|
  {
    if commands != [] {
      var n := |commands| - 1;
      CommandsOfRuns(commands[..n]);
      CommandsOfConcat(RunAll(commands[..n]), [RunSsh(commands[n])]);
      assert [RunSsh(commands[n])][1..] == [];
      assert commands == commands[..n] + [commands[n]];
    }
  }

  predicate NoRuns(actions: seq<Action>) {
    forall i :: 0 <= i < |actions| ==> !actions[i].RunSsh?
  }

  lemma {:induction false} CommandsOfNoRuns(actions: seq<Action>)
    requires NoRuns(actions)
    ensures CommandsOf(actions) == []
    decreases |actions|
  {
    if actions != [] {
      CommandsOfNoRuns(actions[1..]);
    }
  }

  lemma {:induction false} CreateAndWaitNoRuns(deps: seq<Resource>)
    ensures NoRuns(CreateAll(deps)) && NoRuns(WaitAll(deps))
    decreases |deps|
  {
    if deps != [] {
      CreateAndWaitNoRuns(deps[..|deps| - 1]);
    }
  }

  lemma {:induction false} OpeningNoRuns(deps: seq<Resource>, agentName: string)
    ensures NoRuns(Opening(deps, agentName))
  {
    CreateAndWaitNoRuns(deps);
  }

  /** The commands of a plan are its before_start group, then its after group, then its teardown group. */
  lemma {:induction false} PlanCommands(deps: seq<Resource>, agentName: string, contract: seq<Command>,
                                        chain: Option<seq<Command>>, keepAlive: Option<KeepAlive>)
    ensures CommandsOf(PlanActions(deps, agentName, contract, chain, keepAlive))
            == Group(contract, chain, IsBefore) + (Group(contract, chain, IsAfter) + TeardownGroup(chain))
  {
    hide Group, TeardownGroup, Opening, RunAll;
    var o, m, k := Opening(deps, agentName), [WriteRuntime, LaunchAgent], Closing(keepAlive);
    var b, a := RunAll(Group(contract, chain, IsBefore)), RunAll(Group(contract, chain, IsAfter));
    var t := RunAll(TeardownGroup(chain));
    CommandsOfConcat(o, b + (m + (a + (k + t))));
    CommandsOfConcat(b, m + (a + (k + t)));
    CommandsOfConcat(m, a + (k + t));
    CommandsOfConcat(a, k + t);
    CommandsOfConcat(k, t);
    OpeningNoRuns(deps, agentName);
    CommandsOfNoRuns(o);
    CommandsOfNoRuns(m);
    CommandsOfNoRuns(k);
    CommandsOfRuns(Group(contract, chain, IsBefore));
    CommandsOfRuns(Group(contract, chain, IsAfter));
    CommandsOfRuns(TeardownGroup(chain));
    DropEmpties(Group(contract, chain, IsBefore), Group(contract, chain, IsAfter), TeardownGroup(chain));
  }

  lemma {:induction false} DropEmpties(b: seq<Command>, a: seq<Command>, t: seq<Command>)
    ensures [] + (b + ([] + (a + ([] + t)))) == b + (a + t)
  {
  }

  lemma {:induction false} FilterAll(s: seq<Command>, p: Command -> bool)
    requires forall c :: c in s ==> p(c)
    ensures Filter(s, p) == s
    decreases |s|
  {
    if s != [] {
      FilterAll(s[1..], p);
      assert s == [s[0]] + s[1..];
    }
  }

  lemma {:induction false} FilterNone(s: seq<Command>, p: Command -> bool)
    requires forall c :: c in s ==> !p(c)
    ensures Filter(s, p) == []
    decreases |s|
  {
    if s != [] {
      FilterNone(s[1..], p);
    }
  }

  lemma {:induction false} GroupMembers(contract: seq<Command>, chain: Option<seq<Command>>, p: Command -> bool)
    ensures forall c :: c in Group(contract, chain, p) ==> p(c)
    ensures forall c :: c in TeardownGroup(chain) ==> IsTeardown(c)
  {
    var f := Filter(contract, p);
    SortSorted(f);
    forall c | c in Sort(f) ensures p(c) {
      assert c in multiset(Sort(f));
      assert c in f;
    }
  }

  lemma {:induction false} SelectOne(b: seq<Command>, a: seq<Command>, t: seq<Command>, p: Command -> bool)
    ensures Filter(b + (a + t), p) == Filter(b, p) + (Filter(a, p) + Filter(t, p))
  {
    FilterConcat(b, a + t, p);
    FilterConcat(a, t, p);
  }

  predicate AllAre(s: seq<Command>, p: Command -> bool) {
    forall c :: c in s ==> p(c)
  }

  predicate NoneIs(s: seq<Command>, p: Command -> bool) {
    forall c :: c in s ==> !p(c)
  }

  /** With one part all in and the other two all out, the selection is that part. */
  lemma {:induction false} SelectPart(b: seq<Command>, a: seq<Command>, t: seq<Command>, p: Command -> bool)
    ensures AllAre(b, p) && NoneIs(a, p) && NoneIs(t, p) ==> Filter(b + (a + t), p) == b
    ensures NoneIs(b, p) && AllAre(a, p) && NoneIs(t, p) ==> Filter(b + (a + t), p) == a
    ensures NoneIs(b, p) && NoneIs(a, p) && AllAre(t, p) ==> Filter(b + (a + t), p) == t
  {
    SelectOne(b, a, t, p);
    if AllAre(b, p) { FilterAll(b, p); }
    if AllAre(a, p) { FilterAll(a, p); }
    if AllAre(t, p) { FilterAll(t, p); }
    if NoneIs(b, p) { FilterNone(b, p); }
    if NoneIs(a, p) { FilterNone(a, p); }
    if NoneIs(t, p) { FilterNone(t, p); }
    assert b + ([] + []) == b && [] + (a + []) == a && [] + ([] + t) == t;
  }

  lemma {:induction false} PhasesExclude(s: seq<Command>)
    ensures AllAre(s, IsBefore) ==> NoneIs(s, IsAfter) && NoneIs(s, IsTeardown)
    ensures AllAre(s, IsAfter) ==> NoneIs(s, IsBefore) && NoneIs(s, IsTeardown)
    ensures AllAre(s, IsTeardown) ==> NoneIs(s, IsBefore) && NoneIs(s, IsAfter)
  {
  }

  /** Selecting a phase group from such a list gives back exactly that group. */
  lemma {:induction false} SelectGroups(b: seq<Command>, a: seq<Command>, t: seq<Command>)
    requires AllAre(b, IsBefore) && AllAre(a, IsAfter) && AllAre(t, IsTeardown)
    ensures var all := b + (a + t);
            Filter(all, IsBefore) == b && Filter(all, IsAfter) == a && Filter(all, IsTeardown) == t
  {
    PhasesExclude(b);
    PhasesExclude(a);
    PhasesExclude(t);
    SelectPart(b, a, t, IsBefore);
    SelectPart(b, a, t, IsAfter);
    SelectPart(b, a, t, IsTeardown);
  }

  lemma {:induction false} PlanGroups(contract: seq<Command>, chain: Option<seq<Command>>)
    ensures AllAre(Group(contract, chain, IsBefore), IsBefore)
    ensures AllAre(Group(contract, chain, IsAfter), IsAfter)
    ensures AllAre(TeardownGroup(chain), IsTeardown)
  {
    GroupMembers(contract, chain, IsBefore);
    GroupMembers(contract, chain, IsAfter);
  }

  /** The teardown commands of a plan are those of the chain. */
  lemma {:induction false} PlanTeardown(t: Tables, d: Deployment, inputs: RunInputs)
    ensures Filter(CommandsOf(Build(t, d, inputs).actions), IsTeardown) == TeardownGroup(d.chain)
  {
    var contract := AgentContract(d, inputs).commands;
    PlanCommands(DependencyResources(t, inputs, OwnPodDependencies(d)), AgentResource(t, d, inputs).name, contract,
                 d.chain, d.keepAlive);
    PlanGroups(contract, d.chain);
    SelectGroups(Group(contract, d.chain, IsBefore), Group(contract, d.chain, IsAfter), TeardownGroup(d.chain));
  }

  /** End to end: for a chain of command nodes, each phase group of the plan is the contract's commands in order of
      their orders, followed by the chain's commands of that group in chain order. */
  lemma {:induction false} ChainKeepsOrder(deps: seq<Resource>, agentName: string, contract: seq<Command>,
                                           drafts: seq<Command>, keepAlive: Option<KeepAlive>)
    requires drafts != []
    ensures var plan := CommandsOf(PlanActions(deps, agentName, contract, Chain(drafts), keepAlive));
            && Filter(plan, IsBefore) == Sort(Filter(contract, IsBefore)) + Filter(Numbered(drafts), IsBefore)
            && Filter(plan, IsAfter) == Sort(Filter(contract, IsAfter)) + Filter(Numbered(drafts), IsAfter)
            && Filter(plan, IsTeardown) == Filter(Numbered(drafts), IsTeardown)
  {
    var chain := Chain(drafts);
    PlanCommands(deps, agentName, contract, chain, keepAlive);
    PlanGroups(contract, chain);
    SelectGroups(Group(contract, chain, IsBefore), Group(contract, chain, IsAfter), TeardownGroup(chain));
    ChainOrder(drafts);
  }

  // ---------------------------------------------------------------------------------------------
  // The resources of a plan

  predicate RolesDistinct(rs: seq<Resource>) {
    forall i, j :: 0 <= i < j < |rs| ==> rs[i].role != rs[j].role
  }

  predicate DepsOrdered(deps: seq<(Role, Dependency)>) {
    && (forall i :: 0 <= i < |deps| ==> deps[i].0 != Agent)
    && (forall i, j :: 0 <= i < j < |deps| ==> deps[i].0 != deps[j].0)
  }

  predicate OnlyRole(deps: seq<(Role, Dependency)>, role: Role) {
    |deps| <= 1 && forall i :: 0 <= i < |deps| ==> deps[i].0 == role
  }

  lemma {:induction false} FourDistinct(a: seq<(Role, Dependency)>, b: seq<(Role, Dependency)>,
                                        c: seq<(Role, Dependency)>, e: seq<(Role, Dependency)>)
    requires OnlyRole(a, Llm) && OnlyRole(b, Sql) && OnlyRole(c, Vector) && OnlyRole(e, Browser)
    ensures DepsOrdered(a + b + c + e)
  {
  }

  lemma {:induction false} OwnPodsDistinct(d: Deployment)
    ensures DepsOrdered(OwnPodDependencies(d))
  {
    FourDistinct(OwnPod(Llm, d.llm), OwnPod(Sql, d.sql), OwnPod(Vector, d.vector), OwnPod(Browser, d.browser));
  }

  predicate NamedBy(t: Tables, inputs: RunInputs, r: Resource) {
    r.name == ManagedName(t.unicode, inputs.workflowHash, RoleText(r.role), r.nodeId, r.desiredHash)
  }

  lemma {:induction false} DependenciesListed(t: Tables, inputs: RunInputs, deps: seq<(Role, Dependency)>)
    requires DepsOrdered(deps)
    ensures var rs := DependencyResources(t, inputs, deps);
            RolesDistinct(rs) && NoAgent(rs) && AllNamed(t, inputs, rs)
  {
    var rs := DependencyResources(t, inputs, deps);
    forall i | 0 <= i < |rs| ensures rs[i].role == deps[i].0 && NamedBy(t, inputs, rs[i]) {
      DependencyResourceAt(t, inputs, deps, i);
    }
  }

  predicate AllNamed(t: Tables, inputs: RunInputs, rs: seq<Resource>) {
    forall i :: 0 <= i < |rs| ==> NamedBy(t, inputs, rs[i])
  }

  predicate NoAgent(rs: seq<Resource>) {
    forall i :: 0 <= i < |rs| ==> rs[i].role != Agent
  }

  lemma {:induction false} AgentLast(t: Tables, inputs: RunInputs, deps: seq<Resource>, agent: Resource)
    requires RolesDistinct(deps) && NoAgent(deps) && AllNamed(t, inputs, deps)
    requires agent.role == Agent && NamedBy(t, inputs, agent)
    ensures RolesDistinct(deps + [agent]) && AllNamed(t, inputs, deps + [agent])
  {
  }

  lemma {:induction false} BuiltResources(t: Tables, d: Deployment, inputs: RunInputs)
    ensures Build(t, d, inputs).resources == Resources(t, d, inputs)
  {
  }

  lemma {:induction false} AgentNamed(t: Tables, d: Deployment, inputs: RunInputs)
    ensures AgentResource(t, d, inputs).role == Agent && NamedBy(t, inputs, AgentResource(t, d, inputs))
  {
  }

  lemma {:induction false} DependenciesDistinct(t: Tables, d: Deployment, inputs: RunInputs)
    ensures var rs := DependencyResources(t, inputs, OwnPodDependencies(d));
            RolesDistinct(rs) && NoAgent(rs) && AllNamed(t, inputs, rs)
  {
    OwnPodsDistinct(d);
    DependenciesListed(t, inputs, OwnPodDependencies(d));
  }

  lemma {:induction false} AgentAtEnd(rs: seq<Resource>, r: Resource)
    requires NoAgent(rs)
    ensures |rs + [r]| == |rs| + 1 && (rs + [r])[|rs|] == r && NoAgent((rs + [r])[..|rs|])
  {
  }

  /** One resource per role, the agent's last; all named after the workflow, role, node and hash. */
  lemma {:induction false} PlanResources(t: Tables, d: Deployment, inputs: RunInputs)
    ensures var rs := Build(t, d, inputs).resources;
            && RolesDistinct(rs) && AllNamed(t, inputs, rs)
            && |rs| >= 1 && rs[|rs| - 1].role == Agent && NoAgent(rs[..|rs| - 1])
  {
    var deps, agent := DependencyResources(t, inputs, OwnPodDependencies(d)), AgentResource(t, d, inputs);
    DependenciesDistinct(t, d, inputs);
    AgentNamed(t, d, inputs);
    AgentLast(t, inputs, deps, agent);
    AgentAtEnd(deps, agent);
    BuiltResources(t, d, inputs);
  }

  /** Within one plan all resource names and all ledger ids are pairwise distinct. */
  lemma {:induction false} NamesDistinct(t: Tables, d: Deployment, inputs: RunInputs, i: nat, j: nat)
    requires t.unicode.Sane() && DashFree(Take(inputs.workflowHash, 12))
    requires i < j < |Build(t, d, inputs).resources|
    ensures var rs := Build(t, d, inputs).resources;
            && rs[i].name != rs[j].name
            && LedgerId(inputs.runId, RoleText(rs[i].role), rs[i].desiredHash)
               != LedgerId(inputs.runId, RoleText(rs[j].role), rs[j].desiredHash)
  {
    PlanResources(t, d, inputs);
    var rs := Build(t, d, inputs).resources;
    RoleTextsDiffer(rs[i].role, rs[j].role);
    RoleTextPlain(rs[i].role);
    RoleTextPlain(rs[j].role);
    RolesTellNamesApart(t.unicode, inputs.workflowHash, RoleText(rs[i].role), rs[i].nodeId, rs[i].desiredHash,
                        RoleText(rs[j].role), rs[j].nodeId, rs[j].desiredHash);
    RolesTellIdsApart(inputs.runId, RoleText(rs[i].role), rs[i].desiredHash, RoleText(rs[j].role), rs[j].desiredHash);
  }

  /** The resources of a plan, by position. */
  lemma {:induction false} ResourceAt(t: Tables, d: Deployment, inputs: RunInputs, i: nat)
    requires i < |Build(t, d, inputs).resources|
    ensures |Build(t, d, inputs).resources| == |OwnPodDependencies(d)| + 1
    ensures Build(t, d, inputs).resources[i]
            == if i < |OwnPodDependencies(d)|
               then DependencyResource(t, inputs, OwnPodDependencies(d)[i].0, OwnPodDependencies(d)[i].1)
               else AgentResource(t, d, inputs)
  {
    hide PlanActions, DependencyResource, AgentResource, AgentContract;
    if i < |OwnPodDependencies(d)| {
      DependencyResourceAt(t, inputs, OwnPodDependencies(d), i);
    }
  }

  /** The desired hash of a resource depends on its specification alone. */
  function HashAt(t: Tables, d: Deployment, i: nat): string {
    var deps := OwnPodDependencies(d);
    Take(t.hash(if i < |deps| then deps[i].1.spec else d.agent.spec), 12)
  }

  lemma {:induction false} HashOfResource(t: Tables, d: Deployment, inputs: RunInputs, i: nat)
    requires i < |Build(t, d, inputs).resources|
    ensures Build(t, d, inputs).resources[i].desiredHash == HashAt(t, d, i)
  {
    hide PlanActions, MakePodInput, ManagedName, AgentContract;
    ResourceAt(t, d, inputs, i);
  }
}
