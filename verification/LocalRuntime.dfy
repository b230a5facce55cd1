/** The local runtime: applying a plan to a compose project, call by call. */
module LocalRuntime {
  import opened Options
  import opened Roles
  import opened Names
  import opened Planner
  import opened ComposeNames
  import opened LocalEngine
  import LocalHash

  /** What `ps` does not show unless asked for all containers. */
  function Hidden(onlyRunning: bool): Container -> bool {
    (c: Container) => onlyRunning && !c.running
  }

  class LocalRuntimeClient {
    const answers: Answers
    var containers: seq<Container>
    var calls: nat
    var log: seq<ComposeCommand>

    constructor (answers: Answers, containers: seq<Container>)
      ensures this.answers == answers && State() == Engine(containers, 0, [])
    {
      this.answers, this.containers, this.calls, this.log := answers, containers, 0, [];
    }

    function State(): Engine
      reads this
    {
      Engine(containers, calls, log)
    }

    /** `ps`: the containers, or nothing when it fails. */
    method Ps(onlyRunning: bool) returns (listed: seq<Container>)
      modifies this`calls
      ensures calls == old(calls) + 1
      ensures listed == if answers.ps(old(calls)) then Rest(containers, Hidden(onlyRunning)) else []
    {
      listed := if answers.ps(calls) then Rest(containers, Hidden(onlyRunning)) else [];
      calls := calls + 1;
    }

    /** find_local_runtime_container and find_local_runtime_project_container */
    method FindContainer(p: Project, s: Service, onlyRunning: bool) returns (found: bool)
      modifies this`calls
      ensures (found, State()) == Find(answers, old(State()), p, s, onlyRunning)
    {
      ghost var working := answers.ps(calls);
      var listed := Ps(onlyRunning);
      found := false;
      for i := 0 to |listed|
        invariant forall j :: 0 <= j < i ==> !p.Fits(listed[j], s, onlyRunning)
      {
        if p.Named(listed[i]) && listed[i].role == Some(s.role) && listed[i].hash == s.hash {
          FoundAmongListed(p, s, containers, listed, onlyRunning, i);
          return true;
        }
      }
      if working {
        NotAmongListed(p, s, containers, listed, onlyRunning);
      }
    }

    /** all_local_runtime_resources_running and all_local_runtime_resources_exist */
    method FindAllContainers(p: Project, onlyRunning: bool) returns (all: bool)
      modifies this`calls
      ensures (all, State()) == FindAll(answers, old(State()), p, p.services, onlyRunning)
    {
      ghost var start := State();
      for i := 0 to |p.services|
        invariant containers == old(containers) && log == old(log)
        invariant FindAll(answers, start, p, p.services, onlyRunning)
                  == FindAll(answers, State(), p, p.services[i..], onlyRunning)
      {
        assert p.services[i..][1..] == p.services[i + 1..];
        var found := FindContainer(p, p.services[i], onlyRunning);
        if !found {
          return false;
        }
      }
      all := true;
    }

    /** list_local_runtime_project_containers: whether there are any */
    method HasContainers(p: Project) returns (any: bool)
      modifies this`calls
      ensures (any, State()) == ListAny(answers, old(State()), p)
    {
      ghost var working := answers.ps(calls);
      var listed := Ps(false);
      any := false;
      for i := 0 to |listed|
        invariant forall j :: 0 <= j < i ==> !p.Named(listed[j])
      {
        if p.Named(listed[i]) {
          AnyAmongListed(p, containers, listed, i);
          return true;
        }
      }
      if working {
        NoneAmongListed(p, containers, listed);
      }
    }

    /** A compose command, or `exec`, or watching the startup. */
    method RunCommand(p: Project, c: ComposeCommand) returns (code: int)
      modifies this
      ensures (code, State()) == Issue(answers, old(State()), p, c)
    {
      code := answers.code(calls);
      containers := if code == 0 || Harmless(c) then Effect(containers, p, c) else answers.broken(calls);
      calls, log := calls + 1, log + [c];
    }

    /** reconcile_stale_local_runtime_project */
    method ReconcileStale(p: Project) returns (cleanup: Option<int>)
      modifies this
      ensures (cleanup, State()) == Reconcile(answers, old(State()), p)
    {
      var any := HasContainers(p);
      if !any {
        return None;
      }
      var running := FindAllContainers(p, true);
      if running {
        return None;
      }
      var code := RunCommand(p, Down);
      cleanup := Some(code);
    }

    /** The second half of apply_local_runtime_plan. */
    method ReconcileAndUp(p: Project, wait: bool) returns (code: int, ghost path: Path)
      modifies this
      ensures Outcome(code, path, State()) == BringUp(answers, old(State()), p, wait)
    {
      var cleanup := ReconcileStale(p);
      if cleanup.Some? && cleanup.value != 0 {
        return cleanup.value, DownFailed;
      }
      path := WentUp(cleanup.Some?);
      code := RunCommand(p, Up);
      if code == 0 && wait {
        code := RunCommand(p, AwaitStartup);
      }
    }

    /** The resume_stopped branch. */
    method ResumeOrUp(p: Project, wait: bool) returns (code: int, ghost path: Path)
      requires p.services != []
      modifies this
      ensures Outcome(code, path, State()) == ResumeOr(answers, old(State()), p, wait)
    {
      var exist := FindAllContainers(p, false);
      if exist {
        code := RunCommand(p, Start);
        if code != 0 {
          return code, StartFailed;
        }
        var agent := FindContainer(p, p.services[|p.services| - 1], true);
        if agent {
          path := Resumed;
          code := RunCommand(p, ExecAgent);
          return;
        }
      }
      code, path := ReconcileAndUp(p, wait);
    }

    /** apply_local_runtime_plan for the actions apply and apply_and_wait */
    method ApplyLocalRuntimePlan(p: Project, reuse: ReusePolicy, wait: bool) returns (code: int, ghost path: Path)
      requires p.services != []
      modifies this
      ensures Outcome(code, path, State()) == ApplyPlan(answers, old(State()), p, reuse, wait)
    {
      if reuse != AlwaysCreate {
        var agent := FindAllContainers(p, true);
        if agent {
          agent := FindContainer(p, p.services[|p.services| - 1], true);
        }
        if agent {
          path := Reused;
          code := RunCommand(p, ExecAgent);
          return;
        }
        if reuse == ResumeStopped {
          code, path := ResumeOrUp(p, wait);
          return;
        }
      }
      code, path := ReconcileAndUp(p, wait);
    }
  }

  lemma {:induction false} ListedAt(cs: seq<Container>, listed: seq<Container>, drop: Container -> bool, c: Container)
    requires listed == Rest(cs, drop)
    ensures c in listed <==> c in cs && !drop(c)
  {
  }

  lemma {:induction false} FoundAmongListed(p: Project, s: Service, cs: seq<Container>, listed: seq<Container>,
                                            onlyRunning: bool, i: nat)
    requires listed == Rest(cs, Hidden(onlyRunning)) || listed == []
    requires i < |listed| && p.Named(listed[i]) && listed[i].role == Some(s.role) && listed[i].hash == s.hash
    ensures p.Found(cs, s, onlyRunning)
  {
    var c := listed[i];
    assert c in listed;
    ListedAt(cs, listed, Hidden(onlyRunning), c);
    var j :| 0 <= j < |cs| && cs[j] == c;
    assert p.Fits(cs[j], s, onlyRunning);
  }

  lemma {:induction false} NotAmongListed(p: Project, s: Service, cs: seq<Container>, listed: seq<Container>,
                                          onlyRunning: bool)
    requires listed == Rest(cs, Hidden(onlyRunning))
    requires forall j :: 0 <= j < |listed| ==> !p.Fits(listed[j], s, onlyRunning)
    ensures !p.Found(cs, s, onlyRunning)
  {
    forall i | 0 <= i < |cs| ensures !p.Fits(cs[i], s, onlyRunning) {
      ListedAt(cs, listed, Hidden(onlyRunning), cs[i]);
    }
  }

  lemma {:induction false} AnyAmongListed(p: Project, cs: seq<Container>, listed: seq<Container>, i: nat)
    requires listed == Rest(cs, Hidden(false)) || listed == []
    requires i < |listed| && p.Named(listed[i])
    ensures p.Any(cs)
  {
    assert listed[i] in listed;
    ListedAt(cs, listed, Hidden(false), listed[i]);
  }

  lemma {:induction false} NoneAmongListed(p: Project, cs: seq<Container>, listed: seq<Container>)
    requires listed == Rest(cs, Hidden(false))
    requires forall j :: 0 <= j < |listed| ==> !p.Named(listed[j])
    ensures !p.Any(cs)
  {
    forall i | 0 <= i < |cs| ensures !p.Named(cs[i]) {
      ListedAt(cs, listed, Hidden(false), cs[i]);
    }
  }

  // ---------------------------------------------------------------------------------------------
  // Plans of the planner

  /** The project that a plan describes: one service per resource, the agent's last. */
  function ProjectOf(name: string, hash: LocalHash.Shape -> string, host: LocalHash.Host, t: Tables,
                     plan: Plan): (p: Project)
    requires plan.resources != []
    ensures |p.services| == |plan.resources|
  {
    var labels := LocalHash.LocalHashes(hash, host, t, plan);
    Project(name, seq(|plan.resources|, i requires 0 <= i < |plan.resources| =>
      Service(ComposeName(t.unicode, plan.resources[i].name), labels[i].0, labels[i].1)))
  }

  /** The services of a plan have the roles of its resources, their local hashes, and pairwise different names. */
  lemma {:induction false} ProjectServices(name: string, hash: LocalHash.Shape -> string, host: LocalHash.Host,
                                           t: Tables, d: Deployment, inputs: RunInputs, i: nat, j: nat)
    requires LowersParts(t.unicode) && Lowered(Take(inputs.workflowHash, 12))
    requires i < |Build(t, d, inputs).resources| && j < |Build(t, d, inputs).resources|
    ensures var plan := Build(t, d, inputs);
            var services := ProjectOf(name, hash, host, t, plan).services;
            && services[i].role == plan.resources[i].role
            && services[i].hash == hash(LocalHash.LocalShape(host, t, plan, plan.resources[i]))
            && (i != j ==> services[i].name != services[j].name)
            && (services[i].role == Agent <==> i == |services| - 1)
  {
    hide Build, LocalHash.LocalShape, ComposeName, Lowered, LowersParts, Head;
    PlanResources(t, d, inputs);
    if i < j {
      ServicesDistinct(t, d, inputs, i, j);
    } else if j < i {
      ServicesDistinct(t, d, inputs, j, i);
    }
  }

  lemma {:induction false} SameProject(name: string, hash: LocalHash.Shape -> string, host: LocalHash.Host, t: Tables,
                                       d: Deployment, a: RunInputs, b: RunInputs)
    requires a.workflowHash == b.workflowHash
    ensures ProjectOf(name, hash, host, t, Build(t, d, a)) == ProjectOf(name, hash, host, t, Build(t, d, b))
  {
    hide PlanActions, AgentResource, DependencyResources;
    var p, q := Build(t, d, a), Build(t, d, b);
    LocalHash.TransientInputsIgnored(hash, host, t, d, a, b);
    assert |LocalHash.LocalHashes(hash, host, t, p)| == |p.resources|;
    assert |LocalHash.LocalHashes(hash, host, t, q)| == |q.resources|;
    forall i | 0 <= i < |p.resources| ensures p.resources[i].name == q.resources[i].name {
      LocalHash.SameNamesAt(t, d, a, b, i);
    }
  }

  /** A second apply with a new prompt: if the first one succeeded and the containers stay up, it reuses them and issues
      no compose command. */
  lemma {:induction false} NewPromptReuses(name: string, hash: LocalHash.Shape -> string, host: LocalHash.Host,
                                           t: Tables, d: Deployment, first: RunInputs, second: RunInputs, a: Answers,
                                           e: Engine, b: Answers, f: Engine, wait: bool, r: Outcome, q: Outcome)
    requires first.workflowHash == second.workflowHash && d.reuse == ReuseMatching
    requires r == ApplyPlan(a, e, ProjectOf(name, hash, host, t, Build(t, d, first)), d.reuse, wait) && r.code == 0
    requires f.containers == r.engine.containers && Reliable(b)
    requires q == ApplyPlan(b, f, ProjectOf(name, hash, host, t, Build(t, d, second)), d.reuse, wait)
    ensures q.path == Reused && q.engine.log == f.log + [ExecAgent] && q.engine.containers == f.containers
  {
    var p := ProjectOf(name, hash, host, t, Build(t, d, first));
    SameProject(name, hash, host, t, d, first, second);
    ApplyConverges(a, e, p, d.reuse, wait, r);
    MatchingNeverResumes(a, e, p, wait, r);
    ConvergedIsReused(b, f, p, d.reuse, wait, q);
  }

  lemma {:induction false} MatchingNeverResumes(a: Answers, e: Engine, p: Project, wait: bool, r: Outcome)
    requires p.services != [] && r == ApplyPlan(a, e, p, ReuseMatching, wait)
    ensures r.path != Resumed
  {
  }
}
