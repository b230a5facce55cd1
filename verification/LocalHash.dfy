/** The hash by which the local runtime recognizes a running container: which inputs it depends on. */
module LocalHash {
  import opened Options
  import opened Roles
  import opened Names
  import opened Commands
  import opened Contracts
  import opened Planner
  import opened ComposeNames
  import opened LocalScript
  import Placeholders
  import PlaceholderResults

  /** What launch_command_for_plan reads. */
  datatype Launch = Launch(workspace: string, startupMode: string, harness: string, launcher: string,
                           keepAlive: Option<KeepAlive>)

  /** What the local machine adds: secret values, default images, the printed launch command and port mapping. */
  datatype Host = Host(
    secretValue: string -> string,
    defaultImage: (Role, string) -> string,
    launch: Launch -> string,
    mapping: (string, string) -> seq<string>)

  datatype CommandShape =
    | NoCommand
    | FixedCommand(text: string)
    | AgentCommand(before: seq<Command>, after: seq<Command>, launcher: string)

  /** The value that is hashed. */
  datatype Shape = Shape(image: string, environment: map<string, string>, command: CommandShape, ports: seq<string>,
                         mount: Option<(string, string, string)>)

  /** The key and default of one setdefault call. */
  datatype Default = Default(key: string, from: string)

  function NamedResources(rs: seq<Resource>): (r: seq<Named>)
    ensures |r| == |rs|
    ensures forall i :: 0 <= i < |rs| ==> r[i] == Named(RoleText(rs[i].role), rs[i].nodeId, rs[i].desiredHash)
  {
    if rs == [] then [] else [Named(RoleText(rs[0].role), rs[0].nodeId, rs[0].desiredHash)] + NamedResources(rs[1..])
  }

  /** first_service_for_role over {resource.name: compose_service_name(resource)} */
  function ServicesOf(t: Tables, plan: Plan): Placeholders.Services {
    (role: Role) =>
      var found := FirstServiceForRole(t.unicode, plan.workflowHash, NamedResources(plan.resources), RoleText(role));
      if found.None? then None else Some(ComposeName(t.unicode, plan.resources[found.value].name))
  }

  function Resolved(host: Host, services: Placeholders.Services, value: string): string {
    host.secretValue(Placeholders.Stages(value, Placeholders.ROWS, services))
  }

  function ResolvedEnv(host: Host, services: Placeholders.Services, env: map<string, string>): map<string, string> {
    map k | k in env :: Resolved(host, services, env[k])
  }

  function WithDefaults(env: map<string, string>, defaults: seq<Default>): map<string, string> {
    if defaults == [] then env
    else
      var front, d := WithDefaults(env, defaults[..|defaults| - 1]), defaults[|defaults| - 1];
      if d.key in front then front else front[d.key := if d.from in front then front[d.from] else "app"]
  }

  function SqlDefaults(kind: string): seq<Default> {
    if kind == "postgres" then
      [Default("POSTGRES_DB", "DATABASE_NAME"), Default("POSTGRES_USER", "DATABASE_USER"),
       Default("POSTGRES_PASSWORD", "DATABASE_PASSWORD")]
    else if kind == "mysql" then
      [Default("MYSQL_DATABASE", "DATABASE_NAME"), Default("MYSQL_USER", "DATABASE_USER"),
       Default("MYSQL_PASSWORD", "DATABASE_PASSWORD"),
       Default("MYSQL_ROOT_PASSWORD", "DATABASE_PASSWORD")]
    else []
  }

  /** compose_env */
  function ComposeEnv(host: Host, services: Placeholders.Services, r: Resource): map<string, string> {
    var env := ResolvedEnv(host, services, r.podInput.env);
    if r.role == Sql then WithDefaults(env, SqlDefaults(EnvGet(env, "DATABASE_KIND"))) else env
  }

  const RUN_ID := "CRAG_RUN_ID"
  const PROMPT := "AGENT_PROMPT"
  const WORKFLOW := "CRAG_WORKFLOW_HASH"

  predicate Transient(key: string) {
    key == RUN_ID || key == PROMPT || key == WORKFLOW
  }

  /** stable_agent_env */
  function StableEnv(env: map<string, string>): map<string, string> {
    map k | k in env && !Transient(k) :: env[k]
  }

  function EnvOr(env: map<string, string>, key: string, other: string): string {
    if key in env then env[key] else other
  }

  function LaunchOf(env: map<string, string>, keepAlive: Option<KeepAlive>): Launch {
    Launch(EnvOr(env, "WORKSPACE_DIR", "/workspace"), EnvGet(env, "AGENT_STARTUP_MODE"),
           EnvOr(env, "AGENT_HARNESS", "agent"),
           EnvGet(env, "CRAG_AGENT_LAUNCH_COMMAND"), keepAlive)
  }

  /** local_port_mappings for the agent */
  function PortsOf(host: Host, env: map<string, string>): seq<string> {
    if EnvGet(env, "CRAG_WEB_TERMINAL") != "1" then []
    else host.mapping(EnvGet(env, "CRAG_WEB_TERMINAL_PORT"), EnvGet(env, "CRAG_WEB_TERMINAL_HOST_PORT"))
  }

  function KindOf(r: Resource): string {
    match r.role
    case Agent => ""
    case Browser => EnvGet(r.podInput.env, "BROWSER_KIND")
    case Llm => EnvGet(r.podInput.env, "LLM_PROVIDER")
    case Sql => EnvGet(r.podInput.env, "DATABASE_KIND")
    case Vector => EnvGet(r.podInput.env, "VECTOR_KIND")
  }

  /** image_for_resource */
  function ImageOf(host: Host, r: Resource): string {
    if r.podInput.imageName != "" then r.podInput.imageName else host.defaultImage(r.role, KindOf(r))
  }

  /** volume_mount_for_resource */
  function MountOf(u: Unicode, r: Resource): Option<(string, string, string)> {
    var volume := if r.podInput.volumeId != "" then r.podInput.volumeId else r.podInput.privateName;
    if volume == "" || r.podInput.mountPath == "" then None
    else Some((ComposeName(u, volume), r.podInput.mountPath, if r.retention == "" then "preserve" else r.retention))
  }

  function CommandOf(host: Host, plan: Plan, agentEnv: map<string, string>, r: Resource): CommandShape {
    if r.role == Agent then
      AgentCommand(CommandsForPhase(plan.actions, IsBefore), CommandsForPhase(plan.actions, IsAfter),
                   host.launch(LaunchOf(agentEnv, plan.keepAlive)))
    else if r.role == Llm && KindOf(r) == "ollama" then FixedCommand("serve")
    else if r.role == Browser && KindOf(r) == "playwright"
        then FixedCommand("npx playwright run-server --host 0.0.0.0 --port 3000")
    else NoCommand
  }

  /** The argument of stable_local_hash in local_resource_desired_hash; the plan's agent is its last resource. */
  function LocalShape(host: Host, t: Tables, plan: Plan, r: Resource): Shape
    requires plan.resources != []
  {
    var env := ComposeEnv(host, ServicesOf(t, plan), r);
    Shape(ImageOf(host, r), if r.role == Agent then StableEnv(env) else env,
          CommandOf(host, plan, plan.resources[|plan.resources| - 1].podInput.env, r),
          if r.role == Agent then PortsOf(host, r.podInput.env) else [], MountOf(t.unicode, r))
  }

  // ---------------------------------------------------------------------------------------------
  // Two runs of one deployment

  /** The same variables with the same values, the transient ones aside. */
  ghost predicate Alike(a: map<string, string>, b: map<string, string>) {
    forall k :: !Transient(k) ==> (k in a <==> k in b) && (k in a ==> a[k] == b[k])
  }

  lemma {:induction false} AlikeUnder(base: map<string, string>, a: map<string, string>, b: map<string, string>,
                                      top: map<string, string>)
    requires Alike(a, b)
    ensures Alike(base + a, base + b) && Alike(a + top, b + top)
  {
  }

  lemma {:induction false} RunVariablesAlike(d: Deployment, a: RunInputs, b: RunInputs)
    ensures Alike(RunVariables(d, a), RunVariables(d, b))
  {
  }

  ghost predicate ContractsAlike(a: Contract, b: Contract) {
    Alike(a.env, b.env) && a.secrets == b.secrets && a.ports == b.ports && a.files == b.files
        && a.commands == b.commands
  }

  lemma {:induction false} AgentContractsAlike(d: Deployment, a: RunInputs, b: RunInputs)
    ensures ContractsAlike(AgentContract(d, a), AgentContract(d, b))
  {
    RunVariablesAlike(d, a, b);
    var m, k := MergedContract(d).env, KeepAliveEnv(d.keepAlive);
    AlikeUnder(m, RunVariables(d, a), RunVariables(d, b), k);
    AlikeUnder(map[], m + RunVariables(d, a), m + RunVariables(d, b), k);
  }

  /** Resources that differ in transient variables of the agent and in what is named after the workflow. */
  ghost predicate ResourcesAlike(a: Resource, b: Resource) {
    && Alike(a.podInput.env, b.podInput.env)
    && (a.role != Agent ==> a.podInput.env == b.podInput.env)
    && b == a.(name := b.name,
               podInput := a.podInput.(name := b.podInput.name, env := b.podInput.env,
                                       privateName := b.podInput.privateName))
  }

  lemma {:induction false} PodInputsAlike(templateId: string, n: string, m: string, role: Role, nodeId: Option<string>,
                                          hash: string, a: Contract, b: Contract, storage: Option<Storage>,
                                          imageName: string)
    requires ContractsAlike(a, b)
    ensures var p, q := MakePodInput(templateId, n, role, nodeId, hash, a, storage, imageName),
                        MakePodInput(templateId, m, role, nodeId, hash, b, storage, imageName);
            && Alike(p.env, q.env) && (a == b ==> p.env == q.env)
            && q == p.(name := q.name, env := q.env, privateName := q.privateName)
  {
    AlikeUnder(map[], a.env, b.env, SecretEnv(a.secrets));
    AlikeUnder(map[], CreationEnv(a), CreationEnv(b), PodVariables(role, nodeId, hash));
  }

  lemma {:induction false} AgentsAlike(t: Tables, d: Deployment, a: RunInputs, b: RunInputs)
    ensures ResourcesAlike(AgentResource(t, d, a), AgentResource(t, d, b))
  {
    AgentContractsAlike(d, a, b);
    var hash := Take(t.hash(d.agent.spec), 12);
    var n := ManagedName(t.unicode, a.workflowHash, RoleText(Agent), d.agent.nodeId, hash);
    var m := ManagedName(t.unicode, b.workflowHash, RoleText(Agent), d.agent.nodeId, hash);
    var ports := MergeAll(LocalContracts(d)).ports;
    PodInputsAlike(d.agent.templateId, n, m, Agent, d.agent.nodeId, hash, AgentContract(d, a).(ports := ports),
                   AgentContract(d, b).(ports := ports), d.storage, d.agent.imageName);
  }

  lemma {:induction false} SameContract(c: Contract)
    ensures ContractsAlike(c, c)
  {
  }

  lemma {:induction false} DependencyAlike(t: Tables, a: RunInputs, b: RunInputs, role: Role, dep: Dependency)
    ensures ResourcesAlike(DependencyResource(t, a, role, dep), DependencyResource(t, b, role, dep))
  {
    var hash, c := Take(t.hash(dep.spec), 12), DependencyPodContract(role, dep.contract);
    var n := ManagedName(t.unicode, a.workflowHash, RoleText(role), dep.nodeId, hash);
    var m := ManagedName(t.unicode, b.workflowHash, RoleText(role), dep.nodeId, hash);
    SameContract(c);
    PodInputsAlike(dep.templateId, n, m, role, dep.nodeId, hash, c, c, dep.storage, "");
  }

  /** Two plans that differ in nothing but transient variables and names. */
  ghost predicate PlansAlike(p: Plan, q: Plan) {
    && |p.resources| == |q.resources| && p.resources != [] && p.keepAlive == q.keepAlive
    && CommandsForPhase(p.actions, IsBefore) == CommandsForPhase(q.actions, IsBefore)
    && CommandsForPhase(p.actions, IsAfter) == CommandsForPhase(q.actions, IsAfter)
    && forall i :: 0 <= i < |p.resources| ==> ResourcesAlike(p.resources[i], q.resources[i])
  }

  lemma {:induction false} SameCommands(t: Tables, d: Deployment, a: RunInputs, b: RunInputs)
    ensures CommandsForPhase(Build(t, d, a).actions, IsBefore) == CommandsForPhase(Build(t, d, b).actions, IsBefore)
    ensures CommandsForPhase(Build(t, d, a).actions, IsAfter) == CommandsForPhase(Build(t, d, b).actions, IsAfter)
  {
    AgentContractsAlike(d, a, b);
    PlannedPhases(t, d, a);
    PlannedPhases(t, d, b);
  }

  lemma {:induction false} PlannedPhases(t: Tables, d: Deployment, inputs: RunInputs)
    ensures CommandsForPhase(Build(t, d, inputs).actions, IsBefore)
            == Group(AgentContract(d, inputs).commands, d.chain, IsBefore)
    ensures CommandsForPhase(Build(t, d, inputs).actions, IsAfter)
            == Group(AgentContract(d, inputs).commands, d.chain, IsAfter)
  {
    var contract := AgentContract(d, inputs).commands;
    PlanCommands(DependencyResources(t, inputs, OwnPodDependencies(d)), AgentResource(t, d, inputs).name, contract,
                 d.chain, d.keepAlive);
    PlanGroups(contract, d.chain);
    SelectGroups(Group(contract, d.chain, IsBefore), Group(contract, d.chain, IsAfter), TeardownGroup(d.chain));
    PhaseIsFilter(Build(t, d, inputs).actions, IsBefore);
    PhaseIsFilter(Build(t, d, inputs).actions, IsAfter);
  }

  lemma {:induction false} BuiltAlike(t: Tables, d: Deployment, a: RunInputs, b: RunInputs)
    ensures PlansAlike(Build(t, d, a), Build(t, d, b))
  {
    var p, q := Build(t, d, a), Build(t, d, b);
    SameCommands(t, d, a, b);
    forall i | 0 <= i < |p.resources|
      ensures |p.resources| == |q.resources| && ResourcesAlike(p.resources[i], q.resources[i])
    {
      ResourceAt(t, d, a, i);
      ResourceAt(t, d, b, i);
      if i < |OwnPodDependencies(d)| {
        DependencyAlike(t, a, b, OwnPodDependencies(d)[i].0, OwnPodDependencies(d)[i].1);
      } else {
        AgentsAlike(t, d, a, b);
      }
    }
  }

  lemma {:induction false} NamedAlike(p: seq<Resource>, q: seq<Resource>)
    requires |p| == |q| && forall i :: 0 <= i < |p| ==> ResourcesAlike(p[i], q[i])
    ensures NamedResources(p) == NamedResources(q)
  {
  }

  // ---------------------------------------------------------------------------------------------
  // What a shape consists of

  lemma {:induction false} ReadAlike(a: map<string, string>, b: map<string, string>, key: string)
    requires Alike(a, b) && !Transient(key)
    ensures EnvGet(a, key) == EnvGet(b, key) && forall other :: EnvOr(a, key, other) == EnvOr(b, key, other)
  {
  }

  lemma {:induction false} LaunchAlike(a: map<string, string>, b: map<string, string>, k: Option<KeepAlive>)
    requires Alike(a, b)
    ensures LaunchOf(a, k) == LaunchOf(b, k)
  {
    ReadAlike(a, b, "WORKSPACE_DIR");
    ReadAlike(a, b, "AGENT_STARTUP_MODE");
    ReadAlike(a, b, "AGENT_HARNESS");
    ReadAlike(a, b, "CRAG_AGENT_LAUNCH_COMMAND");
  }

  lemma {:induction false} PortsAlike(host: Host, a: map<string, string>, b: map<string, string>)
    requires Alike(a, b)
    ensures PortsOf(host, a) == PortsOf(host, b)
  {
    ReadAlike(a, b, "CRAG_WEB_TERMINAL");
    ReadAlike(a, b, "CRAG_WEB_TERMINAL_PORT");
    ReadAlike(a, b, "CRAG_WEB_TERMINAL_HOST_PORT");
  }

  /** The environment that goes into a shape. */
  function HashedEnv(host: Host, services: Placeholders.Services, r: Resource): map<string, string> {
    var env := ComposeEnv(host, services, r);
    if r.role == Agent then StableEnv(env) else env
  }

  /** For alike plans only the environment and the mount can differ. */
  lemma {:induction false} ShapesAlike(host: Host, t: Tables, p: Plan, q: Plan, i: nat)
    requires PlansAlike(p, q) && i < |p.resources|
    ensures LocalShape(host, t, p, p.resources[i]) == LocalShape(host, t, q, q.resources[i])
            <==>
            var s1, s2 := ServicesOf(t, p), ServicesOf(t, q);
            && HashedEnv(host, s1, p.resources[i]) == HashedEnv(host, s2, q.resources[i])
            && MountOf(t.unicode, p.resources[i]) == MountOf(t.unicode, q.resources[i])
  {
    hide ImageOf, CommandOf, LaunchOf, PortsOf, MountOf, ServicesOf, ComposeEnv, CommandsForPhase, Alike;
    var a, b, n := p.resources[i], q.resources[i], |p.resources| - 1;
    assert ResourcesAlike(p.resources[n], q.resources[n]);
    LaunchAlike(p.resources[n].podInput.env, q.resources[n].podInput.env, p.keepAlive);
    PortsAlike(host, a.podInput.env, b.podInput.env);
    ImageAlike(host, a, b);
    SameCommandOf(host, p, q, a, b);
  }

  lemma {:induction false} ImageAlike(host: Host, a: Resource, b: Resource)
    requires ResourcesAlike(a, b)
    ensures ImageOf(host, a) == ImageOf(host, b) && KindOf(a) == KindOf(b)
  {
  }

  lemma {:induction false} SameCommandOf(host: Host, p: Plan, q: Plan, a: Resource, b: Resource)
    requires PlansAlike(p, q) && ResourcesAlike(a, b)
    requires var n := |p.resources| - 1;
             LaunchOf(p.resources[n].podInput.env, p.keepAlive) == LaunchOf(q.resources[n].podInput.env, q.keepAlive)
    ensures var n := |p.resources| - 1;
            CommandOf(host, p, p.resources[n].podInput.env, a) == CommandOf(host, q, q.resources[n].podInput.env, b)
  {
    hide LaunchOf, KindOf, CommandsForPhase;
    ImageAlike(host, a, b);
  }

  // ---------------------------------------------------------------------------------------------
  // The hash

  ghost predicate Injective(hash: Shape -> string) {
    forall a, b :: hash(a) == hash(b) ==> a == b
  }

  function LocalHashes(hash: Shape -> string, host: Host, t: Tables, plan: Plan): (r: seq<(Role, string)>)
    requires plan.resources != []
    ensures |r| == |plan.resources|
    ensures forall i :: 0 <= i < |r| ==>
              r[i] == (plan.resources[i].role, hash(LocalShape(host, t, plan, plan.resources[i])))
  {
    seq(|plan.resources|, i requires 0 <= i < |plan.resources| =>
      (plan.resources[i].role, hash(LocalShape(host, t, plan, plan.resources[i]))))
  }

  lemma {:induction false} StageDepends(value: string, k: nat, s1: Placeholders.Services, s2: Placeholders.Services)
    requires k < Placeholders.ROWS && forall role :: s1(role) == s2(role)
    ensures Placeholders.Stage(value, k, s1) == Placeholders.Stage(value, k, s2)
  {
  }

  /** The substitution depends on the services only through their answers. */
  lemma {:induction false} StagesDepend(value: string, k: nat, s1: Placeholders.Services, s2: Placeholders.Services)
    requires k <= Placeholders.ROWS && forall role :: s1(role) == s2(role)
    ensures Placeholders.Stages(value, k, s1) == Placeholders.Stages(value, k, s2)
    decreases k
  {
    hide Placeholders.Stage;
    if k > 0 {
      StagesDepend(value, k - 1, s1, s2);
      StageDepends(Placeholders.Stages(value, k - 1, s1), k - 1, s1, s2);
      Placeholders.StagesNext(value, k - 1, s1);
      Placeholders.StagesNext(value, k - 1, s2);
    }
  }

  lemma {:induction false} SameServices(t: Tables, p: Plan, q: Plan, role: Role)
    requires PlansAlike(p, q) && p.workflowHash == q.workflowHash
    requires forall i :: 0 <= i < |p.resources| ==> p.resources[i].name == q.resources[i].name
    ensures ServicesOf(t, p)(role) == ServicesOf(t, q)(role)
  {
    hide FirstServiceForRole;
    NamedAlike(p.resources, q.resources);
    var found := FirstServiceForRole(t.unicode, p.workflowHash, NamedResources(p.resources), RoleText(role));
    if found.Some? {
      assert p.resources[found.value].name == q.resources[found.value].name;
    }
  }

  lemma {:induction false} SameHashedEnv(host: Host, s1: Placeholders.Services, s2: Placeholders.Services, a: Resource,
                                         b: Resource)
    requires ResourcesAlike(a, b) && forall role :: s1(role) == s2(role)
    ensures HashedEnv(host, s1, a) == HashedEnv(host, s2, b)
  {
    forall value ensures Resolved(host, s1, value) == Resolved(host, s2, value) {
      StagesDepend(value, Placeholders.ROWS, s1, s2);
    }
    var e, f := ResolvedEnv(host, s1, a.podInput.env), ResolvedEnv(host, s2, b.podInput.env);
    if a.role == Agent {
      assert StableEnv(e) == StableEnv(f);
    } else {
      assert e == f;
    }
  }

  ghost predicate SameNames(u: Unicode, r: Resource, s: Resource) {
    r.name == s.name && MountOf(u, r) == MountOf(u, s)
  }

  lemma {:induction false} SameAgentNames(t: Tables, d: Deployment, a: RunInputs, b: RunInputs)
    requires a.workflowHash == b.workflowHash
    ensures SameNames(t.unicode, AgentResource(t, d, a), AgentResource(t, d, b))
  {
    hide AgentContract, CreationEnv, PodVariables, EnsureSshPort, ManagedName;
  }

  lemma {:induction false} SameDependency(t: Tables, a: RunInputs, b: RunInputs, role: Role, dep: Dependency)
    requires a.workflowHash == b.workflowHash
    ensures DependencyResource(t, a, role, dep) == DependencyResource(t, b, role, dep)
  {
    hide MakePodInput, ManagedName, DependencyPodContract;
  }

  /** With the same workflow hash, everything is named and mounted alike. */
  lemma {:induction false} SameNamesAt(t: Tables, d: Deployment, a: RunInputs, b: RunInputs, i: nat)
    requires a.workflowHash == b.workflowHash && i < |Build(t, d, a).resources|
    ensures i < |Build(t, d, b).resources|
    ensures SameNames(t.unicode, Build(t, d, a).resources[i], Build(t, d, b).resources[i])
  {
    hide AgentResource, DependencyResource, MountOf;
    ResourceAt(t, d, a, i);
    ResourceAt(t, d, b, |OwnPodDependencies(d)|);
    ResourceAt(t, d, b, i);
    if i < |OwnPodDependencies(d)| {
      SameDependency(t, a, b, OwnPodDependencies(d)[i].0, OwnPodDependencies(d)[i].1);
    } else {
      SameAgentNames(t, d, a, b);
    }
  }

  /** Two runs of one deployment and workflow, with any prompts and run ids, look for the same containers. */
  lemma {:induction false} TransientInputsIgnored(hash: Shape -> string, host: Host, t: Tables, d: Deployment,
                                                  a: RunInputs, b: RunInputs)
    requires a.workflowHash == b.workflowHash
    ensures LocalHashes(hash, host, t, Build(t, d, a)) == LocalHashes(hash, host, t, Build(t, d, b))
  {
    hide SameNames, PlanActions, DependencyResources, AgentResource, ResourcesAlike;
    var p, q := Build(t, d, a), Build(t, d, b);
    BuiltAlike(t, d, a, b);
    forall i | 0 <= i < |p.resources| ensures SameNames(t.unicode, p.resources[i], q.resources[i]) {
      SameNamesAt(t, d, a, b, i);
    }
    HashesAlike(hash, host, t, p, q);
  }

  lemma {:induction false} HashesAlike(hash: Shape -> string, host: Host, t: Tables, p: Plan, q: Plan)
    requires PlansAlike(p, q) && p.workflowHash == q.workflowHash
    requires forall i :: 0 <= i < |p.resources| ==> SameNames(t.unicode, p.resources[i], q.resources[i])
    ensures LocalHashes(hash, host, t, p) == LocalHashes(hash, host, t, q)
  {
    hide LocalHashes, LocalShape, HashedEnv, MountOf, ServicesOf, CommandsForPhase, Alike;
    var h1, h2 := LocalHashes(hash, host, t, p), LocalHashes(hash, host, t, q);
    forall role ensures ServicesOf(t, p)(role) == ServicesOf(t, q)(role) {
      assert forall i :: 0 <= i < |p.resources| ==> SameNames(t.unicode, p.resources[i], q.resources[i]);
      SameServices(t, p, q, role);
    }
    forall i | 0 <= i < |h1| ensures h1[i] == h2[i] {
      assert ResourcesAlike(p.resources[i], q.resources[i]);
      SameHashedEnv(host, ServicesOf(t, p), ServicesOf(t, q), p.resources[i], q.resources[i]);
      ShapesAlike(host, t, p, q, i);
    }
  }

  function Lookup(env: map<string, string>, key: string): Option<string> {
    if key in env then Some(env[key]) else None
  }

  /** Nothing else is ignored: two agents get one hash exactly if they agree in the image, every variable but the three
      transient ones as it resolves, the commands of both phase groups with their policies, the launcher, the ports and
      the mount. */
  lemma {:induction false} OnlyTransientIgnored(hash: Shape -> string, host: Host, t: Tables, p: Plan, q: Plan,
                                                r: Resource, s: Resource)
    requires Injective(hash) && p.resources != [] && q.resources != [] && r.role == Agent && s.role == Agent
    ensures hash(LocalShape(host, t, p, r)) == hash(LocalShape(host, t, q, s))
            <==> (&& ImageOf(host, r) == ImageOf(host, s)
                  && (forall k :: k != "CRAG_RUN_ID" && k != "AGENT_PROMPT" && k != "CRAG_WORKFLOW_HASH" ==>
                        Lookup(ResolvedEnv(host, ServicesOf(t, p), r.podInput.env), k)
                        == Lookup(ResolvedEnv(host, ServicesOf(t, q), s.podInput.env), k))
                  && CommandsForPhase(p.actions, IsBefore) == CommandsForPhase(q.actions, IsBefore)
                  && CommandsForPhase(p.actions, IsAfter) == CommandsForPhase(q.actions, IsAfter)
                  && host.launch(LaunchOf(p.resources[|p.resources| - 1].podInput.env, p.keepAlive))
                     == host.launch(LaunchOf(q.resources[|q.resources| - 1].podInput.env, q.keepAlive))
                  && PortsOf(host, r.podInput.env) == PortsOf(host, s.podInput.env)
                  && MountOf(t.unicode, r) == MountOf(t.unicode, s))
  {
    var x, y := LocalShape(host, t, p, r), LocalShape(host, t, q, s);
    assert hash(x) == hash(y) <==> x == y;
    StableByVariable(ResolvedEnv(host, ServicesOf(t, p), r.podInput.env),
                     ResolvedEnv(host, ServicesOf(t, q), s.podInput.env));
  }

  /** A variable that is missing gets the value of another one, or "app" if that is missing too. */
  ghost predicate Defaulted(env: map<string, string>, got: map<string, string>, key: string, from: string) {
    Lookup(got, key) == if key in env then Some(env[key]) else if from in env then Some(env[from]) else Some("app")
  }

  /** The databases get the variables their images ask for, from the general ones; everything else stays. */
  lemma {:induction false} SqlVariables(host: Host, services: Placeholders.Services, r: Resource)
    ensures var env, got := ResolvedEnv(host, services, r.podInput.env), ComposeEnv(host, services, r);
            var kind := Lookup(env, "DATABASE_KIND");
            if r.role == Sql && kind == Some("postgres") then
              && Defaulted(env, got, "POSTGRES_DB", "DATABASE_NAME")
              && Defaulted(env, got, "POSTGRES_USER", "DATABASE_USER")
              && Defaulted(env, got, "POSTGRES_PASSWORD", "DATABASE_PASSWORD")
              && got.Keys == env.Keys + {"POSTGRES_DB", "POSTGRES_USER", "POSTGRES_PASSWORD"}
              && forall k :: k in env ==> got[k] == env[k]
            else if r.role == Sql && kind == Some("mysql") then
              && Defaulted(env, got, "MYSQL_DATABASE", "DATABASE_NAME")
              && Defaulted(env, got, "MYSQL_USER", "DATABASE_USER")
              && Defaulted(env, got, "MYSQL_PASSWORD", "DATABASE_PASSWORD")
              && Defaulted(env, got, "MYSQL_ROOT_PASSWORD", "DATABASE_PASSWORD")
              && got.Keys == env.Keys + {"MYSQL_DATABASE", "MYSQL_USER", "MYSQL_PASSWORD", "MYSQL_ROOT_PASSWORD"}
              && forall k :: k in env ==> got[k] == env[k]
            else got == env
  {
    hide ResolvedEnv, WithDefaults;
    var env, got := ResolvedEnv(host, services, r.podInput.env), ComposeEnv(host, services, r);
    if r.role == Sql && EnvGet(env, "DATABASE_KIND") == "postgres" {
      var a, b := Default("POSTGRES_DB", "DATABASE_NAME"), Default("POSTGRES_USER", "DATABASE_USER");
      ThreeDefaults(env, a, b, Default("POSTGRES_PASSWORD", "DATABASE_PASSWORD"));
    } else if r.role == Sql && EnvGet(env, "DATABASE_KIND") == "mysql" {
      var a, b := Default("MYSQL_DATABASE", "DATABASE_NAME"), Default("MYSQL_USER", "DATABASE_USER");
      FourDefaults(env, a, b, Default("MYSQL_PASSWORD", "DATABASE_PASSWORD"),
                   Default("MYSQL_ROOT_PASSWORD", "DATABASE_PASSWORD"));
    } else {
      NoDefaults(env);
    }
  }

  /** No two of them set one variable, and none takes its value from a variable that another one sets. */
  predicate Separate(defaults: seq<Default>) {
    && (forall i, j :: 0 <= i < j < |defaults| ==> defaults[i].key != defaults[j].key)
    && (forall i, j :: 0 <= i < |defaults| && 0 <= j < |defaults| ==> defaults[i].from != defaults[j].key)
  }

  lemma {:induction false} DefaultNone(env: map<string, string>, defaults: seq<Default>, key: string)
    requires forall i :: 0 <= i < |defaults| ==> defaults[i].key != key
    ensures Lookup(WithDefaults(env, defaults), key) == Lookup(env, key)
    decreases |defaults|
  {
    if defaults != [] {
      DefaultNone(env, defaults[..|defaults| - 1], key);
    }
  }

  lemma {:induction false} DefaultAt(env: map<string, string>, defaults: seq<Default>, i: nat)
    requires Separate(defaults) && i < |defaults|
    ensures Defaulted(env, WithDefaults(env, defaults), defaults[i].key, defaults[i].from)
    decreases |defaults|
  {
    var m := |defaults| - 1;
    var rest := defaults[..m];
    if i < m {
      DefaultAt(env, rest, i);
    } else {
      DefaultNone(env, rest, defaults[m].key);
      DefaultNone(env, rest, defaults[m].from);
    }
  }

  lemma {:induction false} NoDefaults(env: map<string, string>)
    ensures WithDefaults(env, []) == env
  {
  }

  lemma {:induction false} ThreeDefaults(env: map<string, string>, a: Default, b: Default, c: Default)
    requires Separate([a, b, c])
    ensures var got := WithDefaults(env, [a, b, c]);
            && got.Keys == env.Keys + {a.key, b.key, c.key} && (forall k :: k in env ==> got[k] == env[k])
            && Defaulted(env, got, a.key, a.from) && Defaulted(env, got, b.key, b.from)
            && Defaulted(env, got, c.key, c.from)
  {
    hide WithDefaults;
    var all, keys := [a, b, c], {a.key, b.key, c.key};
    DefaultAt(env, all, 0);
    DefaultAt(env, all, 1);
    DefaultAt(env, all, 2);
    forall k | k !in keys
      ensures Lookup(WithDefaults(env, all), k) == Lookup(env, k)
    {
      DefaultNone(env, all, k);
    }
    LookupKeys(env, WithDefaults(env, all), keys);
  }

  /** Two sets of variables that differ at most in some that the second one has. */
  lemma {:induction false} LookupKeys(env: map<string, string>, got: map<string, string>, keys: set<string>)
    requires forall k :: k !in keys ==> Lookup(got, k) == Lookup(env, k)
    requires forall k :: k in keys ==> k in got && (k in env ==> got[k] == env[k])
    ensures got.Keys == env.Keys + keys && forall k :: k in env ==> got[k] == env[k]
  {
    forall k
      ensures k in got <==> k in env || k in keys
    {
      assert k !in keys ==> Lookup(got, k) == Lookup(env, k);
    }
    forall k | k in env
      ensures got[k] == env[k]
    {
      assert k !in keys ==> Lookup(got, k) == Lookup(env, k);
    }
  }

  lemma {:induction false} FourDefaults(env: map<string, string>, a: Default, b: Default, c: Default, d: Default)
    requires Separate([a, b, c, d])
    ensures var got := WithDefaults(env, [a, b, c, d]);
            && got.Keys == env.Keys + {a.key, b.key, c.key, d.key} && (forall k :: k in env ==> got[k] == env[k])
            && Defaulted(env, got, a.key, a.from) && Defaulted(env, got, b.key, b.from)
            && Defaulted(env, got, c.key, c.from) && Defaulted(env, got, d.key, d.from)
  {
    hide WithDefaults;
    var all, keys := [a, b, c, d], {a.key, b.key, c.key, d.key};
    DefaultAt(env, all, 0);
    DefaultAt(env, all, 1);
    DefaultAt(env, all, 2);
    DefaultAt(env, all, 3);
    forall k | k !in keys
      ensures Lookup(WithDefaults(env, all), k) == Lookup(env, k)
    {
      DefaultNone(env, all, k);
    }
    LookupKeys(env, WithDefaults(env, all), keys);
  }

  lemma {:induction false} StableByVariable(e: map<string, string>, f: map<string, string>)
    ensures StableEnv(e) == StableEnv(f) <==> forall k :: !Transient(k) ==> Lookup(e, k) == Lookup(f, k)
  {
    assert forall k :: !Transient(k) ==> (k in StableEnv(e) <==> k in e) && (k in e ==> StableEnv(e)[k] == e[k]);
    assert forall k :: !Transient(k) ==> (k in StableEnv(f) <==> k in f) && (k in f ==> StableEnv(f)[k] == f[k]);
    if StableEnv(e) == StableEnv(f) {
      forall k | !Transient(k) ensures Lookup(e, k) == Lookup(f, k) {
      }
    } else {
      var k :| (k in StableEnv(e) && (k !in StableEnv(f) || StableEnv(e)[k] != StableEnv(f)[k]))
          || (k in StableEnv(f) && k !in StableEnv(e));
      assert !Transient(k) && Lookup(e, k) != Lookup(f, k);
    }
  }

  // ---------------------------------------------------------------------------------------------
  // The workflow hash is not ignored

  /** The network storage that a resource mounts. */
  function StorageOf(d: Deployment, i: nat): Option<Storage> {
    if i < |OwnPodDependencies(d)| then OwnPodDependencies(d)[i].1.storage else d.storage
  }

  /** A new volume without a name of its own: it is called after the resource, and so after the workflow. */
  predicate MountsUnnamed(s: Option<Storage>) {
    s.Some? && s.value.volumeId == "" && s.value.name == "" && s.value.mountPath != ""
  }

  /** A variable that counts holds a placeholder of a role that has a service. */
  predicate NamesService(r: Resource, services: Placeholders.Services) {
    exists k :: k in r.podInput.env && (r.role == Agent ==> !Transient(k))
        && PlaceholderResults.Holds(r.podInput.env[k], services)
  }

  /** The pod mounts the storage: an existing volume by its id, a new one with its name, size and place. */
  predicate Stored(r: Resource, s: Option<Storage>) {
    var p, isNew := r.podInput, s.Some? && s.value.volumeId == "";
    && r.name != "" && r.retention == (if s.None? then "" else s.value.retention)
    && p.privateSize == (if isNew then s.value.sizeGb else 0)
    && p.privateCenter == (if isNew then s.value.dataCenter else "")
    && p.volumeId == (if s.None? then "" else s.value.volumeId)
    && p.mountPath == (if s.None? then "" else s.value.mountPath)
    && p.privateName == (if !isNew then "" else if s.value.name == "" then r.name else s.value.name)
  }

  lemma {:induction false} PodStored(templateId: string, name: string, role: Role, nodeId: Option<string>, hash: string,
                                     c: Contract, storage: Option<Storage>, imageName: string, r: Resource)
    requires r.podInput == MakePodInput(templateId, name, role, nodeId, hash, c, storage, imageName)
    requires r.name == name != "" && r.retention == if storage.None? then "" else storage.value.retention
    ensures Stored(r, storage)
  {
  }

  lemma {:induction false} StoredAt(t: Tables, d: Deployment, inputs: RunInputs, i: nat)
    requires i < |Build(t, d, inputs).resources|
    ensures Stored(Build(t, d, inputs).resources[i], StorageOf(d, i))
  {
    ResourceAt(t, d, inputs, i);
    var r := Build(t, d, inputs).resources[i];
    if i < |OwnPodDependencies(d)| {
      var role, dep := OwnPodDependencies(d)[i].0, OwnPodDependencies(d)[i].1;
      PodStored(dep.templateId, r.name, role, dep.nodeId, Take(t.hash(dep.spec), 12),
                DependencyPodContract(role, dep.contract), dep.storage, "", r);
    } else {
      PodStored(d.agent.templateId, r.name, Agent, d.agent.nodeId, Take(t.hash(d.agent.spec), 12),
                AgentContract(d, inputs).(ports := MergeAll(LocalContracts(d)).ports), d.storage, d.agent.imageName, r);
    }
  }

  /** The mount tells two workflows apart exactly for an unnamed new volume. */
  lemma {:induction false} MountTells(u: Unicode, r: Resource, q: Resource, s: Option<Storage>)
    requires Stored(r, s) && Stored(q, s)
    requires ComposeName(u, r.name) != ComposeName(u, q.name)
    ensures MountOf(u, r) == MountOf(u, q) <==> !MountsUnnamed(s)
  {
  }

  lemma {:induction false} ManagedIsService(u: Unicode, w: string, role: Role, node: Option<string>, hash: string)
    requires LowersParts(u) && Lowered(Take(w, 12))
    ensures Placeholders.ServiceOk(ComposeName(u, ManagedName(u, w, RoleText(role), node, hash)))
  {
    hide ManagedName, RoleText, ComposeName, LowersParts, Lowered;
    var text := RoleText(role);
    RoleTextLowered(role);
    var tail := ManagedInCompose(u, w, text, node, hash);
    var v, c := Take(w, 12), "crag";
    assert Head(v, text) + tail == (c + ['-']) + (v + (['-'] + text) + tail);
    assert c + ['-'] == "crag-" && !NameChar(':');
  }

  /** What the replacements put for the services of a built plan: names that begin "crag-" and hold no colon. */
  lemma {:induction false} BuiltServicesOk(t: Tables, d: Deployment, inputs: RunInputs)
    requires LowersParts(t.unicode) && Lowered(Take(inputs.workflowHash, 12))
    ensures Placeholders.ServicesOk(ServicesOf(t, Build(t, d, inputs)))
  {
    hide Build, ManagedName, RoleText, ComposeName, LowersParts, Lowered, FirstServiceForRole, Placeholders.ServiceOk;
    var p, services := Build(t, d, inputs), ServicesOf(t, Build(t, d, inputs));
    PlanResources(t, d, inputs);
    forall role | services(role).Some? ensures Placeholders.ServiceOk(services(role).value) {
      var found := FirstServiceForRole(t.unicode, p.workflowHash, NamedResources(p.resources), RoleText(role));
      var r := p.resources[found.value];
      assert NamedBy(t, inputs, r);
      ManagedIsService(t.unicode, inputs.workflowHash, r.role, r.nodeId, r.desiredHash);
    }
  }

  /** Compose names that differ before their last four characters. */
  ghost predicate NameTells(u: Unicode, a: string, b: string) {
    && Placeholders.ServiceOk(ComposeName(u, a)) && Placeholders.ServiceOk(ComposeName(u, b))
    && PlaceholderResults.Apart(ComposeName(u, a), ComposeName(u, b))
  }

  ghost predicate NamesTell(u: Unicode, p: Plan, q: Plan) {
    && |p.resources| == |q.resources|
    && forall i :: 0 <= i < |p.resources| ==> NameTells(u, p.resources[i].name, q.resources[i].name)
  }

  /** A hash as the planner truncates it: twelve letters or digits. */
  predicate PlainHash(w: string) {
    |w| == 12 && Lowered(w)
  }

  lemma {:induction false} HeadsApart(v: string, w: string, role: string, a: string, b: string)
    requires PlainHash(v) && PlainHash(w) && v != w && |role| >= 3
    requires Head(v, role) <= a && Head(w, role) <= b
    ensures "crag-" <= a && "crag-" <= b && PlaceholderResults.Apart(a, b)
  {
    var i :| 0 <= i < 12 && v[i] != w[i];
    var c := "crag";
    assert Head(v, role) == (c + ['-']) + (v + (['-'] + role)) && Head(w, role) == (c + ['-']) + (w + (['-'] + role));
    assert c + ['-'] == "crag-";
    assert a[5 + i] == Head(v, role)[5 + i] == v[i] && b[5 + i] == Head(w, role)[5 + i] == w[i];
  }

  /** Compose tells the managed names of two workflows apart, whatever the node ids and hashes. */
  lemma {:induction false} ManagedNamesTell(u: Unicode, v: string, w: string, role: Role, node: Option<string>,
                                            hash: string)
    requires LowersParts(u) && PlainHash(v) && PlainHash(w) && v != w
    ensures NameTells(u, ManagedName(u, v, RoleText(role), node, hash), ManagedName(u, w, RoleText(role), node, hash))
  {
    hide ManagedName, RoleText, ComposeName, Head, LowersParts, Lowered;
    var text := RoleText(role);
    RoleTextLowered(role);
    assert Take(v, 12) == v && Take(w, 12) == w;
    var a := ManagedInCompose(u, v, text, node, hash);
    var b := ManagedInCompose(u, w, text, node, hash);
    HeadsApart(v, w, text, Head(v, text) + a, Head(w, text) + b);
    assert !NameChar(':');
  }

  lemma {:induction false} PlansTell(t: Tables, d: Deployment, a: RunInputs, b: RunInputs)
    requires LowersParts(t.unicode) && PlainHash(a.workflowHash) && PlainHash(b.workflowHash)
    requires a.workflowHash != b.workflowHash
    ensures NamesTell(t.unicode, Build(t, d, a), Build(t, d, b))
  {
    hide Build, NameTells, ManagedName, PlainHash, LowersParts, Alike;
    var p, q := Build(t, d, a), Build(t, d, b);
    BuiltAlike(t, d, a, b);
    PlanResources(t, d, a);
    PlanResources(t, d, b);
    forall i | 0 <= i < |p.resources| ensures NameTells(t.unicode, p.resources[i].name, q.resources[i].name) {
      var r, s := p.resources[i], q.resources[i];
      assert ResourcesAlike(r, s) && NamedBy(t, a, r) && NamedBy(t, b, s);
      ManagedNamesTell(t.unicode, a.workflowHash, b.workflowHash, r.role, r.nodeId, r.desiredHash);
    }
  }

  /** What FirstServiceExact says of the position that is found. */
  ghost predicate IsFirst(u: Unicode, rs: seq<Named>, role: string, r: Option<nat>) {
    && (r.None? <==> forall i :: 0 <= i < |rs| ==> !Answers(u, rs[i], role))
    && (r.Some? ==> r.value < |rs| && Answers(u, rs[r.value], role))
    && (r.Some? ==> forall i :: 0 <= i < r.value && i < |rs| ==> !Answers(u, rs[i], role))
  }

  lemma {:induction false} FirstIsFirst(u: Unicode, w: string, rs: seq<Named>, role: string)
    requires u.Sane() && PlainHash(w) && DashFree(role) && |role| < 12
    requires forall i :: 0 <= i < |rs| ==> DashFree(rs[i].role) && DashFree(Take(rs[i].desiredHash, 12))
    ensures IsFirst(u, rs, role, FirstServiceForRole(u, w, rs, role))
  {
    hide FirstServiceForRole;
    FirstServiceExact(u, w, rs, role);
  }

  lemma {:induction false} OneFirst(u: Unicode, rs: seq<Named>, role: string, r: Option<nat>, s: Option<nat>)
    requires IsFirst(u, rs, role, r) && IsFirst(u, rs, role, s)
    ensures r == s
  {
    hide Answers;
  }

  lemma {:induction false} RoleTextShort(r: Role)
    ensures 3 <= |RoleText(r)| < 12
  {
  }

  ghost predicate TellsAt(s1: Placeholders.Services, s2: Placeholders.Services, role: Role) {
    && (s1(role).Some? <==> s2(role).Some?)
    && (s1(role).Some? ==> Placeholders.ServiceOk(s1(role).value) && Placeholders.ServiceOk(s2(role).value)
                           && PlaceholderResults.Apart(s1(role).value, s2(role).value))
  }

  lemma {:induction false} TellsAll(s1: Placeholders.Services, s2: Placeholders.Services)
    requires forall role :: TellsAt(s1, s2, role)
    ensures Placeholders.ServicesOk(s1) && Placeholders.ServicesOk(s2) && PlaceholderResults.AllApart(s1, s2)
  {
    forall r: Role ensures TellsAt(s1, s2, r) {
    }
    assert forall r :: s1(r).Some? ==> TellsAt(s1, s2, r);
    assert forall r :: s2(r).Some? ==> TellsAt(s1, s2, r);
  }

  lemma {:induction false} SameFound(u: Unicode, v: string, w: string, p: seq<Resource>, role: Role)
    requires u.Sane() && PlainHash(v) && PlainHash(w)
    requires forall i :: 0 <= i < |p| ==> DashFree(Take(p[i].desiredHash, 12))
    ensures FirstServiceForRole(u, v, NamedResources(p), RoleText(role))
            == FirstServiceForRole(u, w, NamedResources(p), RoleText(role))
  {
    hide FirstServiceForRole, RoleText, IsFirst;
    var rs := NamedResources(p);
    forall i | 0 <= i < |rs| ensures DashFree(rs[i].role) && DashFree(Take(rs[i].desiredHash, 12)) {
      RoleTextPlain(p[i].role);
    }
    RoleTextPlain(role);
    RoleTextShort(role);
    FirstIsFirst(u, v, rs, RoleText(role));
    FirstIsFirst(u, w, rs, RoleText(role));
    OneFirst(u, rs, RoleText(role), FirstServiceForRole(u, v, rs, RoleText(role)),
             FirstServiceForRole(u, w, rs, RoleText(role)));
  }

  lemma {:induction false} RoleTells(t: Tables, p: Plan, q: Plan, role: Role)
    requires PlansAlike(p, q) && NamesTell(t.unicode, p, q) && t.unicode.Sane() && PlainHash(p.workflowHash)
             && PlainHash(q.workflowHash)
    requires forall i :: 0 <= i < |p.resources| ==> DashFree(Take(p.resources[i].desiredHash, 12))
    ensures TellsAt(ServicesOf(t, p), ServicesOf(t, q), role)
  {
    hide FirstServiceForRole, RoleText, NameTells, ResourcesAlike, CommandsForPhase;
    NamedAlike(p.resources, q.resources);
    SameFound(t.unicode, p.workflowHash, q.workflowHash, p.resources, role);
    var found := FirstServiceForRole(t.unicode, p.workflowHash, NamedResources(p.resources), RoleText(role));
    if found.Some? {
      NameTold(t.unicode, p.resources[found.value].name, q.resources[found.value].name);
    }
  }

  lemma {:induction false} NameTold(u: Unicode, a: string, b: string)
    requires NameTells(u, a, b)
    ensures Placeholders.ServiceOk(ComposeName(u, a)) && Placeholders.ServiceOk(ComposeName(u, b))
    ensures PlaceholderResults.Apart(ComposeName(u, a), ComposeName(u, b))
  {
  }

  lemma {:induction false} ServicesTell(t: Tables, p: Plan, q: Plan)
    requires PlansAlike(p, q) && NamesTell(t.unicode, p, q) && t.unicode.Sane() && PlainHash(p.workflowHash)
             && PlainHash(q.workflowHash)
    requires forall i :: 0 <= i < |p.resources| ==> DashFree(Take(p.resources[i].desiredHash, 12))
    ensures Placeholders.ServicesOk(ServicesOf(t, p)) && Placeholders.ServicesOk(ServicesOf(t, q))
    ensures PlaceholderResults.AllApart(ServicesOf(t, p), ServicesOf(t, q))
  {
    hide TellsAt;
    forall role: Role ensures TellsAt(ServicesOf(t, p), ServicesOf(t, q), role) {
      RoleTells(t, p, q, role);
    }
    TellsAll(ServicesOf(t, p), ServicesOf(t, q));
  }

  /** Secrets replace whole values of the form {{ RUNPOD_SECRET_NAME }}, in which there is no dash. */
  ghost predicate SecretsPlain(host: Host) {
    forall v: string :: '-' in v ==> host.secretValue(v) == v
  }

  lemma {:induction false} ResolvedTells(host: Host, s1: Placeholders.Services, s2: Placeholders.Services,
                                         value: string)
    requires SecretsPlain(host) && Placeholders.ServicesOk(s1) && Placeholders.ServicesOk(s2)
             && PlaceholderResults.AllApart(s1, s2)
    ensures Resolved(host, s1, value) == Resolved(host, s2, value) <==> !PlaceholderResults.Holds(value, s1)
  {
    hide Placeholders.Stages;
    PlaceholderResults.ValueTells(value, s1, s2);
    PlaceholderResults.SameHolds(value, s1, s2);
    if PlaceholderResults.Holds(value, s1) {
      PlaceholderResults.HeldHasDash(value, s1);
      PlaceholderResults.HeldHasDash(value, s2);
    }
  }

  lemma {:induction false} DefaultsKeep(env: map<string, string>, defaults: seq<Default>)
    ensures forall k :: k in env ==> k in WithDefaults(env, defaults) && WithDefaults(env, defaults)[k] == env[k]
    decreases |defaults|
  {
    if defaults != [] {
      DefaultsKeep(env, defaults[..|defaults| - 1]);
    }
  }

  lemma {:induction false} ComposedByVariable(host: Host, s1: Placeholders.Services, s2: Placeholders.Services,
                                              r: Resource, q: Resource)
    requires r.role == q.role != Agent && r.podInput.env == q.podInput.env
    ensures ComposeEnv(host, s1, r) == ComposeEnv(host, s2, q)
            <==> forall k :: k in r.podInput.env ==>
                   Resolved(host, s1, r.podInput.env[k]) == Resolved(host, s2, r.podInput.env[k])
  {
    var env := r.podInput.env;
    var e, f := ResolvedEnv(host, s1, env), ResolvedEnv(host, s2, env);
    DefaultsKeep(e, SqlDefaults(EnvGet(e, "DATABASE_KIND")));
    DefaultsKeep(f, SqlDefaults(EnvGet(f, "DATABASE_KIND")));
    var c, g := ComposeEnv(host, s1, r), ComposeEnv(host, s2, q);
    assert forall k :: k in env ==> k in c && c[k] == Resolved(host, s1, env[k]);
    assert forall k :: k in env ==> k in g && g[k] == Resolved(host, s2, env[k]);
    if forall k :: k in env ==> Resolved(host, s1, env[k]) == Resolved(host, s2, env[k]) {
      assert e == f;
    }
  }

  lemma {:induction false} StableResolved(host: Host, s1: Placeholders.Services, s2: Placeholders.Services, r: Resource,
                                          q: Resource)
    requires r.role == q.role == Agent && Alike(r.podInput.env, q.podInput.env)
    ensures HashedEnv(host, s1, r) == HashedEnv(host, s2, q)
            <==> forall k :: k in r.podInput.env && !Transient(k) ==>
                   Resolved(host, s1, r.podInput.env[k]) == Resolved(host, s2, r.podInput.env[k])
  {
    var a, b := r.podInput.env, q.podInput.env;
    var e, f := ResolvedEnv(host, s1, a), ResolvedEnv(host, s2, b);
    StableByVariable(e, f);
    forall k | !Transient(k)
      ensures Lookup(e, k) == Lookup(f, k) <==> (k in a ==> Resolved(host, s1, a[k]) == Resolved(host, s2, a[k]))
    {
    }
  }

  lemma {:induction false} EnvTells(host: Host, s1: Placeholders.Services, s2: Placeholders.Services, r: Resource,
                                    q: Resource)
    requires SecretsPlain(host) && Placeholders.ServicesOk(s1) && Placeholders.ServicesOk(s2)
             && PlaceholderResults.AllApart(s1, s2)
    requires ResourcesAlike(r, q)
    ensures HashedEnv(host, s1, r) == HashedEnv(host, s2, q) <==> !NamesService(r, s1)
  {
    var env := r.podInput.env;
    forall k | k in env
      ensures Resolved(host, s1, env[k]) == Resolved(host, s2, env[k]) <==> !PlaceholderResults.Holds(env[k], s1)
    {
      ResolvedTells(host, s1, s2, env[k]);
    }
    if r.role == Agent {
      StableResolved(host, s1, s2, r, q);
    } else {
      ComposedByVariable(host, s1, s2, r, q);
    }
  }

  /** The variable CRAG_WORKFLOW_HASH is dropped, but the hash comes back through names. For every resource of every
      deployment, another workflow hash keeps its local hash exactly if none of its variables (but the transient ones of
      the agent) holds a placeholder of a role that has a service, and it mounts no new volume without a name. */
  lemma {:induction false} WorkflowHashLeaks(hash: Shape -> string, host: Host, t: Tables, d: Deployment, a: RunInputs,
                                             b: RunInputs, i: nat)
    requires Injective(hash) && SecretsPlain(host) && t.unicode.Sane() && forall spec :: DashFree(t.hash(spec))
    requires LowersParts(t.unicode) && PlainHash(a.workflowHash) && PlainHash(b.workflowHash)
    requires a.workflowHash != b.workflowHash && i < |Build(t, d, a).resources|
    ensures var p, q := Build(t, d, a), Build(t, d, b);
            LocalHashes(hash, host, t, p)[i] == LocalHashes(hash, host, t, q)[i]
            <==> !NamesService(p.resources[i], ServicesOf(t, p)) && !MountsUnnamed(StorageOf(d, i))
  {
    var p, q := Build(t, d, a), Build(t, d, b);
    BuiltAlike(t, d, a, b);
    PlansTell(t, d, a, b);
    PlanHashesPlain(t, d, a);
    ServicesTell(t, p, q);
    assert NameTells(t.unicode, p.resources[i].name, q.resources[i].name);
    StoredAt(t, d, a, i);
    StoredAt(t, d, b, i);
    LeakAt(hash, host, t, p, q, i, StorageOf(d, i));
  }

  lemma {:induction false} PlanHashesPlain(t: Tables, d: Deployment, inputs: RunInputs)
    requires forall spec :: DashFree(t.hash(spec))
    ensures forall i :: 0 <= i < |Build(t, d, inputs).resources| ==>
              DashFree(Take(Build(t, d, inputs).resources[i].desiredHash, 12))
  {
    hide Build;
    forall i | 0 <= i < |Build(t, d, inputs).resources|
      ensures DashFree(Take(Build(t, d, inputs).resources[i].desiredHash, 12))
    {
      HashOfResource(t, d, inputs, i);
      var deps := OwnPodDependencies(d);
      assert DashFree(t.hash(if i < |deps| then deps[i].1.spec else d.agent.spec));
    }
  }

  lemma {:induction false} LeakAt(hash: Shape -> string, host: Host, t: Tables, p: Plan, q: Plan, i: nat,
                                  s: Option<Storage>)
    requires Injective(hash) && SecretsPlain(host) && PlansAlike(p, q) && i < |p.resources|
    requires Placeholders.ServicesOk(ServicesOf(t, p)) && Placeholders.ServicesOk(ServicesOf(t, q))
    requires PlaceholderResults.AllApart(ServicesOf(t, p), ServicesOf(t, q))
    requires Stored(p.resources[i], s) && Stored(q.resources[i], s)
             && NameTells(t.unicode, p.resources[i].name, q.resources[i].name)
    ensures LocalHashes(hash, host, t, p)[i] == LocalHashes(hash, host, t, q)[i]
            <==> !NamesService(p.resources[i], ServicesOf(t, p)) && !MountsUnnamed(s)
  {
    var r, u := p.resources[i], q.resources[i];
    assert ResourcesAlike(r, u);
    ShapesAlike(host, t, p, q, i);
    EnvTells(host, ServicesOf(t, p), ServicesOf(t, q), r, u);
    MountTells(t.unicode, r, u, s);
    var x, y := LocalShape(host, t, p, r), LocalShape(host, t, q, u);
    assert hash(x) == hash(y) <==> x == y;
  }

  /** One way: the agent mounts a new volume without a name. */
  lemma {:induction false} UnnamedVolumeLeaks(hash: Shape -> string, host: Host, t: Tables, d: Deployment, a: RunInputs,
                                              b: RunInputs)
    requires Injective(hash) && SecretsPlain(host) && t.unicode.Sane() && forall spec :: DashFree(t.hash(spec))
    requires LowersParts(t.unicode) && PlainHash(a.workflowHash) && PlainHash(b.workflowHash)
    requires a.workflowHash != b.workflowHash
    requires d.storage == Some(Storage("", "", 20, "EU-RO-1", "/workspace", "preserve"))
    ensures var p, q := Build(t, d, a), Build(t, d, b);
            LocalHashes(hash, host, t, p)[|p.resources| - 1] != LocalHashes(hash, host, t, q)[|p.resources| - 1]
  {
    hide PlanActions, AgentResource, DependencyResource, DependencyResources, NamesService, LocalHashes, ServicesOf;
    var n := |Build(t, d, a).resources| - 1;
    ResourceAt(t, d, a, n);
    WorkflowHashLeaks(hash, host, t, d, a, b, n);
  }

  /** The other way: a variable holds the placeholder of a service. */
  lemma {:induction false} PlaceholderLeaks(hash: Shape -> string, host: Host, t: Tables, d: Deployment, a: RunInputs,
                                            b: RunInputs, i: nat, key: string)
    requires Injective(hash) && SecretsPlain(host) && t.unicode.Sane() && forall spec :: DashFree(t.hash(spec))
    requires LowersParts(t.unicode) && PlainHash(a.workflowHash) && PlainHash(b.workflowHash)
    requires a.workflowHash != b.workflowHash
    requires i < |Build(t, d, a).resources| && ServicesOf(t, Build(t, d, a))(Llm).Some? && !Transient(key)
    requires var env := Build(t, d, a).resources[i].podInput.env;
             key in env && env[key] == Placeholders.EnginePattern(Placeholders.Ollama)
    ensures var p, q := Build(t, d, a), Build(t, d, b);
            LocalHashes(hash, host, t, p)[i] != LocalHashes(hash, host, t, q)[i]
  {
    hide PlanActions, AgentResource, DependencyResources;
    OllamaHolds(ServicesOf(t, Build(t, d, a)));
    WorkflowHashLeaks(hash, host, t, d, a, b, i);
  }

  lemma {:induction false} OllamaHolds(services: Placeholders.Services)
    requires services(Llm).Some?
    ensures PlaceholderResults.Holds(Placeholders.EnginePattern(Placeholders.Ollama), services)
  {
    hide Placeholders.RowAt, Placeholders.EngineText, Placeholders.ServiceFor, PlaceholderResults.EndpointRowOf;
    var value := Placeholders.EnginePattern(Placeholders.Ollama);
    OllamaRow(services);
    assert value + "" == value && value != "";
    PlaceholderResults.EndpointMatch(Placeholders.Ollama, "");
  }

  lemma {:induction false} OllamaRow(services: Placeholders.Services)
    ensures PlaceholderResults.EndpointRowOf(Placeholders.Ollama, "") == 7
            && Placeholders.ServiceFor(7, services) == services(Llm)
    ensures Placeholders.RoleOf(Placeholders.Ollama) == Llm && Placeholders.EnginePattern(Placeholders.Ollama) != ""
  {
  }
}
