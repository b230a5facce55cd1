/** What of a deployment and a run gets into a plan: commands, variables, ports and actions, told from the pod inputs
    and the action list alone. */
module PlanInputs {
  import opened Options
  import opened Text
  import opened Roles
  import opened Names
  import opened Commands
  import opened Contracts
  import opened Planner

  // ---------------------------------------------------------------------------------------------
  // Commands

  lemma {:induction false} FilterCount(s: seq<Command>, p: Command -> bool, c: Command)
    ensures multiset(Filter(s, p))[c] == if p(c) then multiset(s)[c] else 0
    decreases |s|
  {
    if s != [] {
      FilterCount(s[1..], p, c);
      assert s == [s[0]] + s[1..];
    }
  }

  lemma {:induction false} GroupCount(contract: seq<Command>, chain: Option<seq<Command>>, p: Command -> bool,
                                      c: Command)
    ensures multiset(Group(contract, chain, p))[c]
            == if p(c) then multiset(contract)[c] + multiset(Chained(chain))[c] else 0
  {
    SortSorted(Filter(contract, p));
    SortSorted(Chained(chain));
    FilterCount(contract, p, c);
    FilterCount(Sort(Chained(chain)), p, c);
  }

  /** No command is lost or doubled: a plan runs every command of the chain, and every command of the merged contracts
      but those of the teardown phase, exactly as often as it is there. */
  lemma {:induction false} NoCommandLost(t: Tables, d: Deployment, inputs: RunInputs, c: Command)
    ensures var contract := AgentContract(d, inputs).commands;
            multiset(CommandsOf(Build(t, d, inputs).actions))[c]
            == (if c.phase == Teardown then 0 else multiset(contract)[c])
               + (if d.chain.None? then 0 else multiset(d.chain.value)[c])
  {
    hide Group, TeardownGroup, PlanActions, DependencyResources, AgentResource, AgentContract;
    var contract := AgentContract(d, inputs).commands;
    var b, a := Group(contract, d.chain, IsBefore), Group(contract, d.chain, IsAfter);
    var down := TeardownGroup(d.chain);
    PlanCommands(DependencyResources(t, inputs, OwnPodDependencies(d)), AgentResource(t, d, inputs).name, contract,
                 d.chain, d.keepAlive);
    GroupCount(contract, d.chain, IsBefore, c);
    GroupCount(contract, d.chain, IsAfter, c);
    TeardownCount(d.chain, c);
    assert multiset(b + (a + down)) == multiset(b) + (multiset(a) + multiset(down));
  }

  lemma {:induction false} TeardownCount(chain: Option<seq<Command>>, c: Command)
    ensures multiset(TeardownGroup(chain))[c] == if c.phase == Teardown then multiset(Chained(chain))[c] else 0
  {
    SortSorted(Chained(chain));
    FilterCount(Sort(Chained(chain)), IsTeardown, c);
  }

  // ---------------------------------------------------------------------------------------------
  // Contracts

  /** The contract of a service that has a pod of its own, or of one in the agent's pod. */
  function ContractIf(d: Option<Dependency>, ownPod: bool): Option<Contract> {
    if d.Some? && d.value.ownPod == ownPod then Some(d.value.contract) else None
  }

  /** Whose variables count, from the weakest on: the agent, what shares its pod, the two external services, and then
      the services with pods of their own. */
  function Ranked(d: Deployment): seq<Option<Contract>> {
    [Some(d.agent.contract), ContractIf(d.browser, false), ContractIf(d.llm, false), ContractIf(d.sql, false),
     ContractIf(d.vector, false), d.llmApi, d.s3]
    + [ContractIf(d.llm, true), ContractIf(d.sql, true), ContractIf(d.vector, true), ContractIf(d.browser, true)]
  }

  lemma {:induction false} MapGroups(a: map<string, string>, b: map<string, string>, c: map<string, string>)
    ensures (a + b) + c == a + (b + c) && a + map[] == a && map[] + a == a
  {
  }

  lemma {:induction false} SeqGroups<T>(a: seq<T>, b: seq<T>, c: seq<T>)
    ensures (a + b) + c == a + (b + c) && a + [] == a && [] + a == a
  {
  }

  lemma {:induction false} MergeGroups(a: Contract, b: Contract, c: Contract)
    ensures Merge2(Merge2(a, b), c) == Merge2(a, Merge2(b, c)) && Merge2(a, EMPTY) == a && Merge2(EMPTY, a) == a
  {
    MapGroups(a.env, b.env, c.env);
    MapGroups(a.files, b.files, c.files);
    SeqGroups(a.secrets, b.secrets, c.secrets);
    SeqGroups(a.ports, b.ports, c.ports);
    SeqGroups(a.commands, b.commands, c.commands);
  }

  lemma {:induction false} MergeConcat(a: seq<Option<Contract>>, b: seq<Option<Contract>>)
    ensures MergeAll(a + b) == Merge2(MergeAll(a), MergeAll(b))
    decreases |b|
  {
    hide Merge2;
    if b == [] {
      assert a + b == a;
      MergeGroups(MergeAll(a), EMPTY, EMPTY);
    } else {
      var m := |b| - 1;
      MergeConcat(a, b[..m]);
      assert (a + b)[..|a| + m] == a + b[..m];
      if b[m].Some? {
        MergeGroups(MergeAll(a), MergeAll(b[..m]), b[m].value);
      }
    }
  }

  lemma {:induction false} ContractsConcat(a: seq<(Role, Dependency)>, b: seq<(Role, Dependency)>)
    ensures DependencyContracts(a + b) == DependencyContracts(a) + DependencyContracts(b)
    decreases |b|
  {
    if b == [] {
      assert a + b == a;
    } else {
      var m := |b| - 1;
      ContractsConcat(a, b[..m]);
      assert (a + b)[..|a| + m] == a + b[..m];
    }
  }

  lemma {:induction false} OwnPodMerged(role: Role, d: Option<Dependency>)
    ensures MergeAll(DependencyContracts(OwnPod(role, d))) == MergeAll([ContractIf(d, true)])
  {
    var c := ContractIf(d, true);
    assert [c][..0] == [];
    if c.Some? {
      assert [(role, d.value)][..0] == [];
      assert DependencyContracts(OwnPod(role, d)) == [] + [c] == [c];
    }
  }

  lemma {:induction false} MergeFour(a: seq<Option<Contract>>, b: seq<Option<Contract>>, c: seq<Option<Contract>>,
                                     e: seq<Option<Contract>>)
    ensures MergeAll(((a + b) + c) + e)
            == Merge2(Merge2(Merge2(MergeAll(a), MergeAll(b)), MergeAll(c)), MergeAll(e))
  {
    MergeConcat((a + b) + c, e);
    MergeConcat(a + b, c);
    MergeConcat(a, b);
  }

  /** The contracts are merged in this order, so of several that set a variable the last one counts. */
  lemma {:induction false} ContractsAreRanked(d: Deployment)
    ensures MergedContract(d) == MergeAll(Ranked(d))
  {
    hide MergeAll, Merge2;
    var a, b := OwnPod(Llm, d.llm), OwnPod(Sql, d.sql);
    var c, e := OwnPod(Vector, d.vector), OwnPod(Browser, d.browser);
    var w, x := [ContractIf(d.llm, true)], [ContractIf(d.sql, true)];
    var y, z := [ContractIf(d.vector, true)], [ContractIf(d.browser, true)];
    ContractsConcat((a + b) + c, e);
    ContractsConcat(a + b, c);
    ContractsConcat(a, b);
    MergeFour(DependencyContracts(a), DependencyContracts(b), DependencyContracts(c), DependencyContracts(e));
    OwnPodMerged(Llm, d.llm);
    OwnPodMerged(Sql, d.sql);
    OwnPodMerged(Vector, d.vector);
    OwnPodMerged(Browser, d.browser);
    MergeFour(w, x, y, z);
    assert ((w + x) + y) + z
        == [ContractIf(d.llm, true), ContractIf(d.sql, true), ContractIf(d.vector, true), ContractIf(d.browser, true)];
    MergeConcat(LocalContracts(d), ((w + x) + y) + z);
    assert Ranked(d) == LocalContracts(d) + (((w + x) + y) + z);
  }

  // ---------------------------------------------------------------------------------------------
  // Variables

  /** No secret is put into this variable. */
  predicate NoSecret(secrets: seq<Secret>, key: string) {
    forall i :: 0 <= i < |secrets| ==> secrets[i].envVar != key
  }

  lemma {:induction false} NoSecretNoVariable(secrets: seq<Secret>, key: string)
    requires NoSecret(secrets, key)
    ensures key !in SecretEnv(secrets)
    decreases |secrets|
  {
    if secrets != [] {
      NoSecretNoVariable(secrets[..|secrets| - 1], key);
    }
  }

  /** A pod sees the placeholder of the last secret for a variable, and no value of its own then. */
  lemma {:induction false} LastSecretWins(c: Contract, i: nat)
    requires i < |c.secrets| && forall j :: i < j < |c.secrets| ==> c.secrets[j].envVar != c.secrets[i].envVar
    ensures var key := c.secrets[i].envVar; key in CreationEnv(c) && CreationEnv(c)[key] == c.secrets[i].placeholder
    decreases |c.secrets|
  {
    var m := |c.secrets| - 1;
    if i < m {
      LastSecretWins(c.(secrets := c.secrets[..m]), i);
    }
  }

  predicate Has(env: map<string, string>, key: string, value: string) {
    key in env && env[key] == value
  }

  /** The four variables that every pod gets last of all. */
  predicate PodKey(key: string) {
    key == "RUNPOD_MANAGED_BY" || key == "CRAG_NODE_ID" || key == "CRAG_ROLE" || key == "CRAG_DESIRED_HASH"
  }

  /** What _pod_input puts into every pod, whatever its contract. */
  predicate SaysWhatItIs(p: PodInput, templateId: string, name: string, role: Role, nodeId: Option<string>,
                         hash: string) {
    && Has(p.env, "RUNPOD_MANAGED_BY", "comfyui-runpod-agentic")
    && Has(p.env, "CRAG_NODE_ID", if nodeId.Some? then nodeId.value else "")
    && Has(p.env, "CRAG_ROLE", RoleText(role)) && Has(p.env, "CRAG_DESIRED_HASH", hash)
    && p.name == name && p.templateId == templateId
  }

  lemma {:induction false} PodInputSays(templateId: string, name: string, role: Role, nodeId: Option<string>,
                                        hash: string, c: Contract, storage: Option<Storage>, imageName: string)
    ensures var p := MakePodInput(templateId, name, role, nodeId, hash, c, storage, imageName);
            && SaysWhatItIs(p, templateId, name, role, nodeId, hash)
            && p.ports == EnsureSshPort(c.ports) && p.imageName == imageName
            && forall key :: !PodKey(key) ==>
                 && (key in p.env <==> key in CreationEnv(c))
                 && (key in p.env ==> p.env[key] == CreationEnv(c)[key])
  {
    hide CreationEnv, RoleText, EnsureSshPort, PodVariables;
    EnvSum(CreationEnv(c), role, nodeId, hash);
  }

  lemma {:induction false} EnvSum(given: map<string, string>, role: Role, nodeId: Option<string>, hash: string)
    ensures var env := given + PodVariables(role, nodeId, hash);
            && Has(env, "RUNPOD_MANAGED_BY", "comfyui-runpod-agentic")
            && Has(env, "CRAG_NODE_ID", if nodeId.Some? then nodeId.value else "")
            && Has(env, "CRAG_ROLE", RoleText(role)) && Has(env, "CRAG_DESIRED_HASH", hash)
            && forall key :: !PodKey(key) ==> (key in env <==> key in given) && (key in env ==> env[key] == given[key])
  {
    hide RoleText;
    assert PodVariables(role, nodeId, hash).Keys
        == {"RUNPOD_MANAGED_BY", "CRAG_NODE_ID", "CRAG_ROLE", "CRAG_DESIRED_HASH"};
  }

  /** The service that a deployment has for a role. */
  function ServiceOf(d: Deployment, role: Role): Option<Dependency> {
    match role
    case Llm => d.llm
    case Sql => d.sql
    case Vector => d.vector
    case Browser => d.browser
    case Agent => None
  }

  lemma {:induction false} OwnPodIs(d: Deployment, role: Role, dep: Dependency)
    ensures (role, dep) in OwnPodDependencies(d) <==> ServiceOf(d, role) == Some(dep) && dep.ownPod
  {
  }

  /** A resource is made after this service. */
  predicate MadeAfter(t: Tables, r: Resource, role: Role, dep: Dependency) {
    && r.role == role && r.nodeId == dep.nodeId && r.templateId == dep.templateId
    && r.desiredHash == Take(t.hash(dep.spec), 12)
  }

  /** The services with pods of their own, and no others, have a resource each, made after them; the last resource is
      the agent's. */
  lemma {:induction false} ServicesHavePods(t: Tables, d: Deployment, inputs: RunInputs, role: Role, dep: Dependency)
    ensures var rs := Build(t, d, inputs).resources;
            && rs != []
            && (ServiceOf(d, role) == Some(dep) && dep.ownPod ==>
                  exists i :: 0 <= i < |rs| - 1 && MadeAfter(t, rs[i], role, dep))
            && (forall i :: 0 <= i < |rs| - 1 ==>
                  && ServiceOf(d, rs[i].role).Some? && ServiceOf(d, rs[i].role).value.ownPod
                  && MadeAfter(t, rs[i], rs[i].role, ServiceOf(d, rs[i].role).value))
            && rs[|rs| - 1].role == Agent && rs[|rs| - 1].nodeId == d.agent.nodeId
            && rs[|rs| - 1].templateId == d.agent.templateId
            && rs[|rs| - 1].desiredHash == Take(t.hash(d.agent.spec), 12)
  {
    hide Build, OwnPodDependencies, MakePodInput, ManagedName, DependencyPodContract, ServiceOf;
    var rs, deps := Build(t, d, inputs).resources, OwnPodDependencies(d);
    BuiltResources(t, d, inputs);
    ResourceAt(t, d, inputs, |deps|);
    OwnPodIs(d, role, dep);
    if (role, dep) in deps {
      var i :| 0 <= i < |deps| && deps[i] == (role, dep);
      ResourceAt(t, d, inputs, i);
      assert MadeAfter(t, rs[i], role, dep);
    }
    forall i | 0 <= i < |rs| - 1
      ensures && ServiceOf(d, rs[i].role).Some? && ServiceOf(d, rs[i].role).value.ownPod
              && MadeAfter(t, rs[i], rs[i].role, ServiceOf(d, rs[i].role).value)
    {
      ResourceAt(t, d, inputs, i);
      OwnPodIs(d, deps[i].0, deps[i].1);
      assert deps[i] in deps && deps[i] == (deps[i].0, deps[i].1);
    }
  }

  /** Every pod of a plan says what it is. */
  lemma {:induction false} PodsSayWhatTheyAre(t: Tables, d: Deployment, inputs: RunInputs, i: nat)
    requires i < |Build(t, d, inputs).resources|
    ensures var r := Build(t, d, inputs).resources[i];
            SaysWhatItIs(r.podInput, r.templateId, r.name, r.role, r.nodeId, r.desiredHash)
  {
    hide AgentContract, DependencyPodContract, ManagedName, MergeAll, PlanActions, MakePodInput, SaysWhatItIs;
    ResourceAt(t, d, inputs, i);
    var r := Build(t, d, inputs).resources[i];
    if i < |OwnPodDependencies(d)| {
      var role, dep := OwnPodDependencies(d)[i].0, OwnPodDependencies(d)[i].1;
      PodInputSays(r.templateId, r.name, role, r.nodeId, r.desiredHash, DependencyPodContract(role, dep.contract),
                   dep.storage, "");
    } else {
      PodInputSays(r.templateId, r.name, Agent, r.nodeId, r.desiredHash,
                   AgentContract(d, inputs).(ports := MergeAll(LocalContracts(d)).ports), d.storage, d.agent.imageName);
    }
  }

  /** What of the agent's contract gets into its pod. */
  lemma {:induction false} AgentSees(t: Tables, d: Deployment, inputs: RunInputs, key: string)
    requires !PodKey(key) && NoSecret(AgentContract(d, inputs).secrets, key)
    ensures var r, env := AgentResource(t, d, inputs), AgentContract(d, inputs).env;
            (key in r.podInput.env <==> key in env) && (key in env ==> r.podInput.env[key] == env[key])
  {
    hide AgentContract, ManagedName, MergeAll;
    NoSecretNoVariable(AgentContract(d, inputs).secrets, key);
  }

  /** The keep-alive policy has no numeric limit under this name; its own three variables have other names. */
  predicate NotALimit(k: Option<KeepAlive>, key: string) {
    && key != "CRAG_KEEP_ALIVE_MODE" && key != "CRAG_KEEP_ALIVE_ACTION" && key != "CRAG_KEEP_ALIVE_ENFORCEMENT"
    && (k.Some? ==> key !in k.value.limitEnv)
  }

  lemma {:induction false} NotALimitNotSet(k: Option<KeepAlive>, key: string)
    requires NotALimit(k, key)
    ensures key !in KeepAliveEnv(k)
  {
  }

  /** The agent's pod has the prompt, the run id, the workflow hash and the directories of the run in the variables that
      the agent reads, whatever the contracts set, unless a secret or a limit is called so. */
  lemma {:induction false} AgentVariables(t: Tables, d: Deployment, inputs: RunInputs, key: string)
    requires NoSecret(AgentContract(d, inputs).secrets, key) && NotALimit(d.keepAlive, key)
    ensures var env := AgentResource(t, d, inputs).podInput.env;
            && (key == "AGENT_PROMPT" ==> Has(env, key, inputs.prompt))
            && (key == "CRAG_RUN_ID" ==> Has(env, key, inputs.runId))
            && (key == "CRAG_WORKFLOW_HASH" ==> Has(env, key, inputs.workflowHash))
            && (key == "WORKSPACE_DIR" ==> Has(env, key, d.agent.workspace))
            && (key == "CRAG_RUNTIME_DIR" ==> Has(env, key, RStrip(d.agent.workspace, '/') + "/.runpod_agentic"))
  {
    hide AgentResource;
    NotALimitNotSet(d.keepAlive, key);
    if !PodKey(key) {
      AgentSees(t, d, inputs, key);
    }
    RunVariablesAre(d, inputs);
  }

  lemma {:induction false} RunVariablesAre(d: Deployment, inputs: RunInputs)
    ensures var env := RunVariables(d, inputs);
            && Has(env, "AGENT_PROMPT", inputs.prompt) && Has(env, "CRAG_RUN_ID", inputs.runId)
            && Has(env, "CRAG_WORKFLOW_HASH", inputs.workflowHash) && Has(env, "WORKSPACE_DIR", d.agent.workspace)
            && Has(env, "CRAG_RUNTIME_DIR", RStrip(d.agent.workspace, '/') + "/.runpod_agentic")
  {
  }

  /** The text of a policy in variables. */
  predicate SaysPolicy(env: map<string, string>, k: KeepAlive, key: string) {
    && (key == "CRAG_KEEP_ALIVE_MODE" ==>
          Has(env, key, if k.mode == TimeMode then "time" else if k.mode == TurnsMode then "turns" else "cost"))
    && (key == "CRAG_KEEP_ALIVE_ACTION" ==> Has(env, key, if k.action == TerminatePod then "terminate" else "stop"))
    && (key == "CRAG_KEEP_ALIVE_ENFORCEMENT" ==>
          Has(env, key,
            if k.serverSide && k.podSide then "both" else if k.serverSide then "server_side" else "pod_side"))
  }

  /** The agent's pod knows its keep-alive policy, unless that is manual. */
  lemma {:induction false} AgentKnowsPolicy(t: Tables, d: Deployment, inputs: RunInputs, key: string)
    requires d.keepAlive.Some? && d.keepAlive.value.mode != ManualMode
    requires NoSecret(AgentContract(d, inputs).secrets, key) && key !in d.keepAlive.value.limitEnv
    ensures SaysPolicy(AgentResource(t, d, inputs).podInput.env, d.keepAlive.value, key)
  {
    hide AgentResource;
    if !PodKey(key) {
      AgentSees(t, d, inputs, key);
    }
    PolicyText(d.keepAlive.value, key);
  }

  lemma {:induction false} PolicyText(k: KeepAlive, key: string)
    requires k.mode != ManualMode && key !in k.limitEnv
    ensures SaysPolicy(KeepAliveEnv(Some(k)), k, key)
  {
  }

  /** The endpoint that a service answers on is not shown to its own pod, and an Ollama server listens on all
      interfaces; every other variable of the contract is there. */
  lemma {:induction false} DependencyVariables(t: Tables, inputs: RunInputs, role: Role, dep: Dependency, key: string)
    requires role != Agent && !PodKey(key) && NoSecret(dep.contract.secrets, key)
    ensures var env, given := DependencyResource(t, inputs, role, dep).podInput.env, dep.contract.env;
            var provider := if "LLM_PROVIDER" in given then given["LLM_PROVIDER"] else "";
            if (role == Sql && key == "DATABASE_URL") || (role == Vector && key == "VECTOR_URL")
                || (role == Browser && (key == "NEKO_URL" || key == "PLAYWRIGHT_WS_ENDPOINT"))
                || (role == Llm && (provider == "ollama" || provider == "vllm") && key == "OPENAI_BASE_URL")
            then key !in env
            else if role == Llm && provider == "ollama" && key == "OLLAMA_HOST" then Has(env, key, "0.0.0.0:11434")
            else (key in env <==> key in given) && (key in env ==> env[key] == given[key])
  {
    hide ManagedName, RoleText, MakePodInput, DependencyPodContract, SecretEnv;
    var r, c := DependencyResource(t, inputs, role, dep), DependencyPodContract(role, dep.contract);
    PodInputSays(dep.templateId, r.name, role, dep.nodeId, r.desiredHash, c, dep.storage, "");
    PodContractIs(role, dep.contract, key);
    NoSecretNoVariable(dep.contract.secrets, key);
  }

  lemma {:induction false} PodContractIs(role: Role, c: Contract, key: string)
    requires role != Agent
    ensures var env, given := DependencyPodContract(role, c).env, c.env;
            var provider := if "LLM_PROVIDER" in given then given["LLM_PROVIDER"] else "";
            if (role == Sql && key == "DATABASE_URL") || (role == Vector && key == "VECTOR_URL")
                || (role == Browser && (key == "NEKO_URL" || key == "PLAYWRIGHT_WS_ENDPOINT"))
                || (role == Llm && (provider == "ollama" || provider == "vllm") && key == "OPENAI_BASE_URL")
            then key !in env
            else if role == Llm && provider == "ollama" && key == "OLLAMA_HOST" then Has(env, key, "0.0.0.0:11434")
            else (key in env <==> key in given) && (key in env ==> env[key] == given[key])
    ensures DependencyPodContract(role, c) == c.(env := DependencyPodContract(role, c).env)
  {
  }

  /** The ports that are asked for, and one for SSH if there is none among them. */
  ghost predicate SshPorts(asked: seq<Port>, ports: seq<Port>) {
    if exists i :: 0 <= i < |asked| && asked[i].containerPort == 22 then ports == asked
    else ports == asked + [Port("ssh", 22, "tcp", true)]
  }

  /** Every pod can be reached by SSH, and has the ports of its contract besides. */
  lemma {:induction false} PodsHaveSsh(t: Tables, d: Deployment, inputs: RunInputs, i: nat)
    requires i < |Build(t, d, inputs).resources|
    ensures SshPorts(if i < |OwnPodDependencies(d)| then OwnPodDependencies(d)[i].1.contract.ports
                     else MergeAll(LocalContracts(d)).ports, Build(t, d, inputs).resources[i].podInput.ports)
  {
    hide AgentContract, DependencyPodContract, ManagedName, MergeAll, PlanActions, MakePodInput, EnsureSshPort,
        SshPorts;
    ResourceAt(t, d, inputs, i);
    var r := Build(t, d, inputs).resources[i];
    if i < |OwnPodDependencies(d)| {
      var role, dep := OwnPodDependencies(d)[i].0, OwnPodDependencies(d)[i].1;
      var c := DependencyPodContract(role, dep.contract);
      PodInputSays(r.templateId, r.name, role, r.nodeId, r.desiredHash, c, dep.storage, "");
      OwnPodsNoAgent(d, i);
      PodContractIs(role, dep.contract, "");
      SshAdded(dep.contract.ports);
    } else {
      var ports := MergeAll(LocalContracts(d)).ports;
      PodInputSays(r.templateId, r.name, Agent, r.nodeId, r.desiredHash, AgentContract(d, inputs).(ports := ports),
                   d.storage, d.agent.imageName);
      SshAdded(ports);
    }
  }

  lemma {:induction false} OwnPodsNoAgent(d: Deployment, i: nat)
    requires i < |OwnPodDependencies(d)|
    ensures OwnPodDependencies(d)[i].0 != Agent
  {
    OwnPodsDistinct(d);
  }

  lemma {:induction false} SshAdded(ports: seq<Port>)
    ensures SshPorts(ports, EnsureSshPort(ports))
  {
  }

  // ---------------------------------------------------------------------------------------------
  // The opening actions

  lemma {:induction false} CreatedAt(deps: seq<Resource>, i: nat)
    requires i < |deps|
    ensures |CreateAll(deps)| == |WaitAll(deps)| == |deps| == |NamesOf(deps)|
    ensures CreateAll(deps)[i] == CreateOrResume(deps[i].role, deps[i].name)
    ensures WaitAll(deps)[i] == WaitReady(deps[i].role, deps[i].name) && NamesOf(deps)[i] == deps[i].name
    decreases |deps|
  {
    var m := |deps| - 1;
    if m > 0 {
      CreatedAt(deps[..m], if i < m then i else 0);
    }
  }

  /** A plan creates its services, waits for each, resolves their contracts, creates the agent and waits for SSH. */
  lemma {:induction false} PlanOpens(t: Tables, d: Deployment, inputs: RunInputs, i: nat)
    requires i < |OwnPodDependencies(d)|
    ensures var n, actions, r := |OwnPodDependencies(d)|, Build(t, d, inputs).actions, Build(t, d, inputs).resources;
            && |actions| > 2 * n + 2 && |r| == n + 1
            && actions[i] == CreateOrResume(r[i].role, r[i].name)
            && actions[n + i] == WaitReady(r[i].role, r[i].name)
            && actions[2 * n].ResolveContracts? && |actions[2 * n].names| == n && actions[2 * n].names[i] == r[i].name
            && actions[2 * n + 1] == CreateOrResume(Agent, r[n].name) && actions[2 * n + 2] == WaitSsh(r[n].name)
  {
    hide AgentResource, DependencyResource, RunAll, Group, TeardownGroup, Closing, CreateAll, WaitAll, NamesOf;
    var deps, agent := DependencyResources(t, inputs, OwnPodDependencies(d)), AgentResource(t, d, inputs).name;
    CreatedAt(deps, i);
    OpeningAt(deps, agent, i);
    var opening := Opening(deps, agent);
    var actions := Build(t, d, inputs).actions;
    assert |actions| >= |opening| && forall k :: 0 <= k < |opening| ==> actions[k] == opening[k];
  }

  lemma {:induction false} OpeningAt(deps: seq<Resource>, agent: string, i: nat)
    requires i < |deps| == |CreateAll(deps)| == |WaitAll(deps)|
    ensures var opening, n := Opening(deps, agent), |deps|;
            && |opening| == 2 * n + 3
            && opening[i] == CreateAll(deps)[i] && opening[n + i] == WaitAll(deps)[i]
            && opening[2 * n] == ResolveContracts(NamesOf(deps))
            && opening[2 * n + 1] == CreateOrResume(Agent, agent) && opening[2 * n + 2] == WaitSsh(agent)
  {
    hide CreateAll, WaitAll, NamesOf;
  }

  lemma {:induction false} NoMonitor(deps: seq<Resource>, agent: string, contract: seq<Command>,
                                     chain: Option<seq<Command>>, keepAlive: Option<KeepAlive>)
    ensures MonitorKeepAlive in PlanActions(deps, agent, contract, chain, keepAlive) <==> keepAlive.Some?
  {
    hide Group, TeardownGroup;
    Monitorless(deps, agent);
    RunsMonitorless(Group(contract, chain, IsBefore));
    RunsMonitorless(Group(contract, chain, IsAfter));
    RunsMonitorless(TeardownGroup(chain));
    hide Opening, RunAll;
  }

  lemma {:induction false} RunsMonitorless(commands: seq<Command>)
    ensures MonitorKeepAlive !in RunAll(commands)
    decreases |commands|
  {
    if commands != [] {
      RunsMonitorless(commands[..|commands| - 1]);
    }
  }

  lemma {:induction false} Monitorless(deps: seq<Resource>, agent: string)
    ensures MonitorKeepAlive !in Opening(deps, agent)
  {
    CreatesMonitorless(deps);
    hide CreateAll, WaitAll, NamesOf;
  }

  lemma {:induction false} CreatesMonitorless(deps: seq<Resource>)
    ensures MonitorKeepAlive !in CreateAll(deps) && MonitorKeepAlive !in WaitAll(deps)
    decreases |deps|
  {
    if deps != [] {
      CreatesMonitorless(deps[..|deps| - 1]);
    }
  }

  /** A run follows the reuse and the keep-alive policy of the deployment, and its plan announces the latter. */
  lemma {:induction false} PlanFollowsPolicies(t: Tables, d: Deployment, inputs: RunInputs)
    ensures var plan := Build(t, d, inputs);
            && plan.reuse == d.reuse && plan.keepAlive == d.keepAlive
            && plan.runId == inputs.runId && plan.workflowHash == inputs.workflowHash && plan.prompt == inputs.prompt
            && (MonitorKeepAlive in plan.actions <==> d.keepAlive.Some?)
  {
    hide PlanActions, AgentResource, DependencyResources;
    NoMonitor(DependencyResources(t, inputs, OwnPodDependencies(d)), AgentResource(t, d, inputs).name,
              AgentContract(d, inputs).commands, d.chain, d.keepAlive);
  }
}
