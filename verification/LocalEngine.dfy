/** The local container engine, seen through `ps` and four compose commands, and the reconciliation of a project with a
    plan. Pure specification; the methods of LocalRuntime are proved to follow it. */
module LocalEngine {
  import opened Options
  import opened Roles
  import opened Planner

  /** A container with its name, the compose project that owns it, and the two labels it is recognized by. */
  datatype Container = Container(name: string, project: string, role: Option<Role>, hash: string, running: bool)

  /** What a plan wants: a service with its labels. */
  datatype Service = Service(name: string, role: Role, hash: string)

  datatype ComposeCommand = Up | Start | Down | ExecAgent | AwaitStartup

  /** Answers by number of calls made so far: whether `ps` works, return codes, and what a failed command leaves. */
  datatype Answers = Answers(ps: nat -> bool, code: nat -> int, broken: nat -> seq<Container>)

  datatype Engine = Engine(containers: seq<Container>, calls: nat, log: seq<ComposeCommand>)

  /** A project as a plan describes it; the agent's service is the last. */
  datatype Project = Project(name: string, services: seq<Service>) {
    predicate Named(c: Container) {
      name + "-" <= c.name
    }

    predicate Owns(c: Container) {
      c.project == name
    }

    predicate Fits(c: Container, s: Service, onlyRunning: bool) {
      Named(c) && c.role == Some(s.role) && c.hash == s.hash && (onlyRunning ==> c.running)
    }

    predicate Found(cs: seq<Container>, s: Service, onlyRunning: bool) {
      exists i :: 0 <= i < |cs| && Fits(cs[i], s, onlyRunning)
    }

    predicate Any(cs: seq<Container>) {
      exists i :: 0 <= i < |cs| && Named(cs[i])
    }

    function Made(s: Service): Container {
      Container(name + "-" + s.name, name, Some(s.role), s.hash, true)
    }

    /** Every service of the plan runs with its role and hash. */
    ghost predicate Converged(cs: seq<Container>) {
      forall i :: 0 <= i < |services| ==> Found(cs, services[i], true)
    }

    /** A container of the project itself, by name, owner and labels. */
    predicate Own(cs: seq<Container>, s: Service, onlyRunning: bool) {
      exists i :: 0 <= i < |cs| && Owns(cs[i]) && Fits(cs[i], s, onlyRunning)
    }

    /** Every service of the plan has a container of the project, running if asked for. */
    ghost predicate OwnsAll(cs: seq<Container>, onlyRunning: bool) {
      forall i :: 0 <= i < |services| ==> Own(cs, services[i], onlyRunning)
    }

    /** A fitting container that runs already or that `start` would start, because the project owns it. */
    predicate CanRun(cs: seq<Container>, s: Service) {
      exists i :: 0 <= i < |cs| && Fits(cs[i], s, false) && (Owns(cs[i]) || cs[i].running)
    }

    ghost predicate AllCanRun(cs: seq<Container>) {
      forall i :: 0 <= i < |services| ==> CanRun(cs, services[i])
    }

    /** No other project's containers have names that look like this project's. */
    ghost predicate Separate(cs: seq<Container>) {
      forall i :: 0 <= i < |cs| ==> Named(cs[i]) ==> Owns(cs[i])
    }

    /** The project's containers are exactly its services', running. */
    ghost predicate NoStale(cs: seq<Container>) {
      forall i :: 0 <= i < |cs| && Owns(cs[i]) ==> exists j :: 0 <= j < |services| && cs[i] == Made(services[j])
    }
  }

  // ---------------------------------------------------------------------------------------------
  // Queries

  /** find_local_runtime_container, and its variant over all containers: one `ps`, then the labels. */
  function Find(a: Answers, e: Engine, p: Project, s: Service, onlyRunning: bool): (bool, Engine) {
    (a.ps(e.calls) && p.Found(e.containers, s, onlyRunning), e.(calls := e.calls + 1))
  }

  /** all(find(...) for resource in plan.resources), which stops at the first that is not found. */
  function FindAll(a: Answers, e: Engine, p: Project, services: seq<Service>, onlyRunning: bool): (bool, Engine)
    decreases |services|
  {
    if services == [] then (true, e)
    else
      var first := Find(a, e, p, services[0], onlyRunning);
      if !first.0 then first else FindAll(a, first.1, p, services[1..], onlyRunning)
  }

  /** list_local_runtime_project_containers: whether it lists anything. */
  function ListAny(a: Answers, e: Engine, p: Project): (bool, Engine) {
    (a.ps(e.calls) && p.Any(e.containers), e.(calls := e.calls + 1))
  }

  // ---------------------------------------------------------------------------------------------
  // Commands

  function Rest(cs: seq<Container>, drop: Container -> bool): (r: seq<Container>)
    ensures forall c :: c in r <==> c in cs && !drop(c)
  {
    if cs == [] then []
    else Rest(cs[..|cs| - 1], drop) + (if drop(cs[|cs| - 1]) then [] else [cs[|cs| - 1]])
  }

  function MadeAll(p: Project, services: seq<Service>): (r: seq<Container>)
    ensures |r| == |services|
    ensures forall i :: 0 <= i < |r| ==> r[i] == p.Made(services[i])
  {
    if services == [] then [] else MadeAll(p, services[..|services| - 1]) + [p.Made(services[|services| - 1])]
  }

  function Started(cs: seq<Container>, p: Project): (r: seq<Container>)
    ensures |r| == |cs|
    ensures forall i :: 0 <= i < |r| ==> r[i] == if p.Owns(cs[i]) then cs[i].(running := true) else cs[i]
  {
    if cs == [] then []
    else
      var c := cs[|cs| - 1];
      Started(cs[..|cs| - 1], p) + [if p.Owns(c) then c.(running := true) else c]
  }

  predicate IsService(p: Project, c: Container) {
    p.Owns(c) && exists i :: 0 <= i < |p.services| && c.name == p.name + "-" + p.services[i].name
  }

  /** What a successful command does: `up` replaces the containers of the services and leaves orphans, `start` starts
      what the project has, `down --remove-orphans` removes all of it. */
  function Effect(cs: seq<Container>, p: Project, c: ComposeCommand): seq<Container> {
    match c
    case Up => Rest(cs, x => IsService(p, x)) + MadeAll(p, p.services)
    case Start => Started(cs, p)
    case Down => Rest(cs, x => p.Owns(x))
    case ExecAgent => cs
    case AwaitStartup => cs
  }

  /** Running something in the agent's container, or watching its logs, changes no container even if it fails. */
  predicate Harmless(c: ComposeCommand) {
    c == ExecAgent || c == AwaitStartup
  }

  function Issue(a: Answers, e: Engine, p: Project, c: ComposeCommand): (int, Engine) {
    var code := a.code(e.calls);
    var containers := if code == 0 || Harmless(c) then Effect(e.containers, p, c) else a.broken(e.calls);
    (code, Engine(containers, e.calls + 1, e.log + [c]))
  }

  // ---------------------------------------------------------------------------------------------
  // Applying a plan

  datatype Path = Reused | Resumed | StartFailed | DownFailed | WentUp(cleaned: bool)

  datatype Outcome = Outcome(code: int, path: Path, engine: Engine)

  /** reconcile_stale_local_runtime_project: None when there is nothing to clean, else the code of `down`. */
  function Reconcile(a: Answers, e: Engine, p: Project): (Option<int>, Engine) {
    var listed := ListAny(a, e, p);
    if !listed.0 then (None, listed.1)
    else
      var running := FindAll(a, listed.1, p, p.services, true);
      if running.0 then (None, running.1)
      else
        var down := Issue(a, running.1, p, Down);
        (Some(down.0), down.1)
  }

  /** `up`, and waiting for the startup if the plan asks for it. */
  function GoUp(a: Answers, e: Engine, p: Project, wait: bool, cleaned: bool): Outcome {
    var up := Issue(a, e, p, Up);
    if up.0 == 0 && wait then
      var started := Issue(a, up.1, p, AwaitStartup);
      Outcome(started.0, WentUp(cleaned), started.1)
    else Outcome(up.0, WentUp(cleaned), up.1)
  }

  /** From reconciliation on: `down` if needed, then `up`. */
  function BringUp(a: Answers, e: Engine, p: Project, wait: bool): Outcome {
    var cleanup := Reconcile(a, e, p);
    if cleanup.0.Some? && cleanup.0.value != 0 then Outcome(cleanup.0.value, DownFailed, cleanup.1)
    else GoUp(a, cleanup.1, p, wait, cleanup.0.Some?)
  }

  function ExecIn(a: Answers, e: Engine, p: Project, path: Path): Outcome {
    var r := Issue(a, e, p, ExecAgent);
    Outcome(r.0, path, r.1)
  }

  /** The attempt to resume: start what exists and look for the agent. */
  function ResumeOr(a: Answers, e: Engine, p: Project, wait: bool): Outcome
    requires p.services != []
  {
    var exist := FindAll(a, e, p, p.services, false);
    if !exist.0 then BringUp(a, exist.1, p, wait)
    else
      var start := Issue(a, exist.1, p, Start);
      if start.0 != 0 then Outcome(start.0, StartFailed, start.1)
      else
        var agent := Find(a, start.1, p, p.services[|p.services| - 1], true);
        if agent.0 then ExecIn(a, agent.1, p, Resumed) else BringUp(a, agent.1, p, wait)
  }

  /** The agent's running container, looked up only when everything runs. */
  function FindReusable(a: Answers, e: Engine, p: Project): (bool, Engine)
    requires p.services != []
  {
    var running := FindAll(a, e, p, p.services, true);
    if running.0 then Find(a, running.1, p, p.services[|p.services| - 1], true) else running
  }

  /** apply_local_runtime_plan for the apply actions */
  function ApplyPlan(a: Answers, e: Engine, p: Project, reuse: ReusePolicy, wait: bool): Outcome
    requires p.services != []
  {
    if reuse == AlwaysCreate then BringUp(a, e, p, wait)
    else
      var reusable := FindReusable(a, e, p);
      if reusable.0 then ExecIn(a, reusable.1, p, Reused)
      else if reuse == ResumeStopped then ResumeOr(a, reusable.1, p, wait)
      else BringUp(a, reusable.1, p, wait)
  }

  // ---------------------------------------------------------------------------------------------
  // Convergence

  ghost predicate Reliable(a: Answers) {
    forall n: nat :: a.ps(n)
  }

  lemma {:induction false} FindAllFound(a: Answers, e: Engine, p: Project, services: seq<Service>, onlyRunning: bool,
                                        r: (bool, Engine))
    requires r == FindAll(a, e, p, services, onlyRunning)
    ensures r.1.containers == e.containers && r.1.log == e.log
    ensures r.0 ==> forall i :: 0 <= i < |services| ==> p.Found(e.containers, services[i], onlyRunning)
    ensures Reliable(a) && (forall i :: 0 <= i < |services| ==> p.Found(e.containers, services[i], onlyRunning)) ==> r.0
    decreases |services|
  {
    if services != [] {
      var first := Find(a, e, p, services[0], onlyRunning);
      if first.0 {
        FindAllFound(a, first.1, p, services[1..], onlyRunning, r);
        assert forall i :: 0 <= i < |services| - 1 ==> services[1..][i] == services[i + 1];
        assert forall i :: 1 <= i < |services| ==> services[i] == services[1..][i - 1];
      }
    }
  }

  lemma {:induction false} MadeIsOwn(p: Project, cs: seq<Container>, i: nat)
    requires i < |p.services|
    ensures p.Own(cs + MadeAll(p, p.services), p.services[i], true)
  {
    var all := cs + MadeAll(p, p.services);
    var c := all[|cs| + i];
    assert c == p.Made(p.services[i]);
    assert c.name == (p.name + "-") + p.services[i].name;
    assert p.Fits(c, p.services[i], true);
  }

  /** A successful `up` leaves every service running with its labels, in a container of the project. */
  lemma {:induction false} UpConverges(p: Project, cs: seq<Container>)
    ensures p.OwnsAll(Effect(cs, p, Up), true)
  {
    forall i | 0 <= i < |p.services| ensures p.Own(Effect(cs, p, Up), p.services[i], true) {
      MadeIsOwn(p, Rest(cs, x => IsService(p, x)), i);
    }
  }

  lemma {:induction false} OwnedConverges(p: Project, cs: seq<Container>)
    requires p.OwnsAll(cs, true)
    ensures p.Converged(cs)
  {
    forall i | 0 <= i < |p.services| ensures p.Found(cs, p.services[i], true) {
      assert p.Own(cs, p.services[i], true);
    }
  }

  lemma {:induction false} GoUpEffect(a: Answers, e: Engine, p: Project, wait: bool, cleaned: bool, r: Outcome)
    requires r == GoUp(a, e, p, wait, cleaned)
    ensures r.path == WentUp(cleaned) && (r.code == 0 ==> r.engine.containers == Effect(e.containers, p, Up))
  {
  }

  lemma {:induction false} BringUpConverges(a: Answers, e: Engine, p: Project, wait: bool, r: Outcome)
    requires r == BringUp(a, e, p, wait) && r.code == 0
    ensures p.OwnsAll(r.engine.containers, true) && r.path.WentUp?
  {
    var cleanup := Reconcile(a, e, p);
    UpConverges(p, cleanup.1.containers);
    GoUpEffect(a, cleanup.1, p, wait, cleanup.0.Some?, r);
  }

  /** What `start` makes run: exactly the services that have a container which runs or belongs to the project. */
  lemma {:induction false} StartedFound(p: Project, cs: seq<Container>, s: Service)
    ensures p.Found(Started(cs, p), s, true) <==> p.CanRun(cs, s)
    ensures p.Own(Started(cs, p), s, true) <==> p.Own(cs, s, false)
  {
    var started := Started(cs, p);
    forall i | 0 <= i < |cs|
      ensures p.Fits(started[i], s, true) <==> p.Fits(cs[i], s, false) && (p.Owns(cs[i]) || cs[i].running)
      ensures p.Owns(started[i]) <==> p.Owns(cs[i])
    {
    }
  }

  lemma {:induction false} StartedAll(p: Project, cs: seq<Container>)
    ensures p.Converged(Started(cs, p)) <==> p.AllCanRun(cs)
    ensures p.OwnsAll(Started(cs, p), true) <==> p.OwnsAll(cs, false)
  {
    forall i | 0 <= i < |p.services|
      ensures p.Found(Started(cs, p), p.services[i], true) <==> p.CanRun(cs, p.services[i])
      ensures p.Own(Started(cs, p), p.services[i], true) <==> p.Own(cs, p.services[i], false)
    {
      StartedFound(p, cs, p.services[i]);
    }
  }

  /** What every way through an apply leaves behind when it returns 0. */
  ghost predicate Leaves(p: Project, before: seq<Container>, r: Outcome) {
    match r.path
    case Reused => r.engine.containers == before && p.Converged(before)
    case Resumed => r.engine.containers == Started(before, p)
    case StartFailed => false
    case DownFailed => false
    case WentUp(_) => p.OwnsAll(r.engine.containers, true)
  }

  /** An attempt to resume that returns 0 has resumed the project, or goes on from the engine `left` with its containers
      as they were or, when the agent is not found after it, started. */
  lemma {:induction false} ResumeOrElse(a: Answers, e: Engine, p: Project, wait: bool, r: Outcome)
      returns (left: Engine)
    requires p.services != [] && r == ResumeOr(a, e, p, wait) && r.code == 0
    ensures r.path == Resumed ==> r.engine.containers == Started(e.containers, p)
    ensures r.path == Resumed ==> forall i :: 0 <= i < |p.services| ==> p.Found(e.containers, p.services[i], false)
    ensures r.path != Resumed ==> r == BringUp(a, left, p, wait)
    ensures r.path != Resumed ==>
              left.containers == e.containers ||
              (left.containers == Started(e.containers, p) &&
               (Reliable(a) ==> !p.Found(left.containers, p.services[|p.services| - 1], true)))
  {
    hide BringUp, FindAll, Started;
    var exist := FindAll(a, e, p, p.services, false);
    FindAllFound(a, e, p, p.services, false, exist);
    left := exist.1;
    if exist.0 {
      var start := Issue(a, exist.1, p, Start);
      left := Find(a, start.1, p, p.services[|p.services| - 1], true).1;
    }
    BringUpGoesUp(a, left, p, wait);
  }

  lemma {:induction false} BringUpGoesUp(a: Answers, e: Engine, p: Project, wait: bool)
    ensures BringUp(a, e, p, wait).path != Resumed
  {
  }

  lemma {:induction false} ResumeLeaves(a: Answers, e: Engine, p: Project, wait: bool, r: Outcome)
    requires p.services != [] && r == ResumeOr(a, e, p, wait) && r.code == 0
    ensures Leaves(p, e.containers, r)
    ensures r.path == Resumed ==> forall i :: 0 <= i < |p.services| ==> p.Found(e.containers, p.services[i], false)
  {
    var left := ResumeOrElse(a, e, p, wait, r);
    if r.path != Resumed {
      BringUpConverges(a, left, p, wait, r);
    }
  }

  lemma {:induction false} ApplyLeaves(a: Answers, e: Engine, p: Project, reuse: ReusePolicy, wait: bool, r: Outcome)
    requires p.services != [] && r == ApplyPlan(a, e, p, reuse, wait) && r.code == 0
    ensures Leaves(p, e.containers, r)
    ensures r.path == Resumed ==> forall i :: 0 <= i < |p.services| ==> p.Found(e.containers, p.services[i], false)
  {
    if reuse == AlwaysCreate {
      BringUpConverges(a, e, p, wait, r);
    } else {
      var running := FindAll(a, e, p, p.services, true);
      FindAllFound(a, e, p, p.services, true, running);
      var reusable := FindReusable(a, e, p);
      if !reusable.0 {
        if reuse == ResumeStopped {
          ResumeLeaves(a, reusable.1, p, wait, r);
        } else {
          BringUpConverges(a, reusable.1, p, wait, r);
        }
      }
    }
  }

  /** After an apply that returns 0, every service of the plan runs under the project's name with its role and hash, on
      every path but the resume path; there it does exactly if every service had a fitting container that ran already or
      that `start` could start. The code looks for containers of any owner, but `start` starts the project's own. */
  lemma {:induction false} ApplyConverges(a: Answers, e: Engine, p: Project, reuse: ReusePolicy, wait: bool, r: Outcome)
    requires p.services != [] && r == ApplyPlan(a, e, p, reuse, wait) && r.code == 0
    ensures p.Converged(r.engine.containers) <==> (r.path == Resumed ==> p.AllCanRun(e.containers))
  {
    ApplyLeaves(a, e, p, reuse, wait, r);
    StartedAll(p, e.containers);
    if r.path.WentUp? {
      OwnedConverges(p, r.engine.containers);
    }
  }

  /** When the running containers are also the project's own: always after `up`; on the other two paths exactly if the
      containers that were reused or resumed belonged to the project before. */
  lemma {:induction false} ApplyOwns(a: Answers, e: Engine, p: Project, reuse: ReusePolicy, wait: bool, r: Outcome)
    requires p.services != [] && r == ApplyPlan(a, e, p, reuse, wait) && r.code == 0
    ensures p.OwnsAll(r.engine.containers, true)
            <==> r.path.WentUp? || p.OwnsAll(e.containers, r.path == Reused)
  {
    ApplyLeaves(a, e, p, reuse, wait, r);
    StartedAll(p, e.containers);
  }

  /** With names kept apart, both hold on every path. */
  lemma {:induction false} SeparateConverges(a: Answers, e: Engine, p: Project, reuse: ReusePolicy, wait: bool,
                                             r: Outcome)
    requires p.services != [] && r == ApplyPlan(a, e, p, reuse, wait) && r.code == 0
    requires p.Separate(e.containers)
    ensures p.Converged(r.engine.containers) && p.OwnsAll(r.engine.containers, true)
  {
    ApplyLeaves(a, e, p, reuse, wait, r);
    ApplyOwns(a, e, p, reuse, wait, r);
    if !r.path.WentUp? {
      forall i | 0 <= i < |p.services| ensures p.Own(e.containers, p.services[i], r.path == Reused) {
        assert p.Found(e.containers, p.services[i], r.path == Reused);
      }
    }
    OwnedConverges(p, r.engine.containers);
  }

  // ---------------------------------------------------------------------------------------------
  // Stale containers

  lemma {:induction false} UpAfterDown(p: Project, cs: seq<Container>)
    ensures p.NoStale(Effect(Effect(cs, p, Down), p, Up))
  {
    var down := Effect(cs, p, Down);
    var rest, made := Rest(down, x => IsService(p, x)), MadeAll(p, p.services);
    assert forall c :: c in rest ==> c in down && !p.Owns(c);
    assert forall i :: 0 <= i < |rest| ==> rest[i] in rest;
    forall i | |rest| <= i < |rest + made|
      ensures exists j :: 0 <= j < |p.services| && (rest + made)[i] == p.Made(p.services[j])
    {
      assert (rest + made)[i] == made[i - |rest|];
    }
  }

  /** What reconciliation does when `ps` works. */
  lemma {:induction false} ReconcileWhen(a: Answers, e: Engine, p: Project, r: (Option<int>, Engine))
    requires r == Reconcile(a, e, p)
    ensures r.0.Some? && r.0.value == 0 ==> r.1.containers == Effect(e.containers, p, Down)
    ensures Reliable(a) && p.Any(e.containers) && !p.Converged(e.containers) ==> r.0.Some?
  {
    var listed := ListAny(a, e, p);
    FindAllFound(a, listed.1, p, p.services, true, FindAll(a, listed.1, p, p.services, true));
  }

  lemma {:induction false} BringUpCleans(a: Answers, e: Engine, p: Project, wait: bool, r: Outcome)
    requires r == BringUp(a, e, p, wait)
    ensures r.code == 0 && r.path == WentUp(true) ==> p.NoStale(r.engine.containers)
    ensures Reliable(a) && p.Any(e.containers) && !p.Converged(e.containers)
            ==> r.path == DownFailed || r.path == WentUp(true)
  {
    var cleanup := Reconcile(a, e, p);
    ReconcileWhen(a, e, p, cleanup);
    UpAfterDown(p, e.containers);
    GoUpEffect(a, cleanup.1, p, wait, cleanup.0.Some?, GoUp(a, cleanup.1, p, wait, cleanup.0.Some?));
  }

  /** The project has containers, but not every service runs with its hash. */
  ghost predicate Outdated(p: Project, cs: seq<Container>) {
    p.Any(cs) && !p.Converged(cs)
  }

  /** A project whose agent does not run after `start` is still listed and still not converged. */
  lemma {:induction false} StillOutdated(p: Project, cs: seq<Container>)
    requires p.services != [] && p.Any(cs) && !p.Found(Started(cs, p), p.services[|p.services| - 1], true)
    ensures Outdated(p, Started(cs, p))
  {
    var i :| 0 <= i < |cs| && p.Named(cs[i]);
    assert p.Named(Started(cs, p)[i]);
  }

  lemma {:induction false} ResumeCleans(a: Answers, e: Engine, p: Project, wait: bool, r: Outcome)
    requires p.services != [] && r == ResumeOr(a, e, p, wait) && r.code == 0
    ensures r.path == WentUp(true) ==> p.NoStale(r.engine.containers)
    ensures Reliable(a) && Outdated(p, e.containers) && r.path != Resumed ==> p.NoStale(r.engine.containers)
  {
    var left := ResumeOrElse(a, e, p, wait, r);
    if r.path != Resumed {
      BringUpCleans(a, left, p, wait, r);
      if Reliable(a) && Outdated(p, e.containers) && left.containers != e.containers {
        StillOutdated(p, e.containers);
      }
    }
  }

  /** After an apply that cleaned up, the project holds no stale container; and with a working `ps` that is so after
      every successful apply that found the project outdated and did not resume it, whatever other projects there
      are. */
  lemma {:induction false} NothingStaleStays(a: Answers, e: Engine, p: Project, reuse: ReusePolicy, wait: bool,
                                             r: Outcome)
    requires p.services != [] && r == ApplyPlan(a, e, p, reuse, wait) && r.code == 0
    ensures r.path == WentUp(true) ==> p.NoStale(r.engine.containers)
    ensures Reliable(a) && Outdated(p, e.containers) && r.path != Resumed ==> p.NoStale(r.engine.containers)
  {
    if reuse == AlwaysCreate {
      BringUpCleans(a, e, p, wait, r);
    } else {
      var running := FindAll(a, e, p, p.services, true);
      FindAllFound(a, e, p, p.services, true, running);
      var reusable := FindReusable(a, e, p);
      if !reusable.0 {
        if reuse == ResumeStopped {
          ResumeCleans(a, reusable.1, p, wait, r);
        } else {
          BringUpCleans(a, reusable.1, p, wait, r);
        }
      }
    }
  }

  // ---------------------------------------------------------------------------------------------
  // Reuse

  /** A converged project is reused: the agent's script is run again and no compose command is issued. */
  lemma {:induction false} ConvergedIsReused(a: Answers, e: Engine, p: Project, reuse: ReusePolicy, wait: bool,
                                             r: Outcome)
    requires p.services != [] && r == ApplyPlan(a, e, p, reuse, wait) && reuse != AlwaysCreate
    requires Reliable(a) && p.Converged(e.containers)
    ensures r.path == Reused && r.engine.log == e.log + [ExecAgent] && r.engine.containers == e.containers
  {
    FindAllFound(a, e, p, p.services, true, FindAll(a, e, p, p.services, true));
  }

  // ---------------------------------------------------------------------------------------------
  // The commands issued

  /** An apply issued these commands as the given calls; all but the last answered 0, and the last gives its code. */
  ghost predicate Issued(a: Answers, e: Engine, r: Outcome, commands: seq<ComposeCommand>, at: seq<nat>) {
    && r.engine.log == e.log + commands && |at| == |commands| > 0
    && (forall j :: 0 <= j < |at| ==> e.calls <= at[j] < r.engine.calls)
    && (forall j, k :: 0 <= j < k < |at| ==> at[j] < at[k])
    && (forall j :: 0 <= j < |at| - 1 ==> a.code(at[j]) == 0) && r.code == a.code(at[|at| - 1])
  }

  /** When watching was asked for it is left out only if the command before it failed. */
  predicate WatchedIf(wait: bool, code: int, commands: seq<ComposeCommand>, first: seq<ComposeCommand>) {
    if wait then commands == first + [AwaitStartup] || (commands == first && code != 0) else commands == first
  }

  /** `down` if the project was outdated, `up`, and watching the startup if `up` answered 0 and that is asked for. */
  predicate Raised(path: Path, wait: bool, code: int, commands: seq<ComposeCommand>) {
    match path
    case DownFailed => commands == [Down] && code != 0
    case WentUp(false) => WatchedIf(wait, code, commands, [Up])
    case WentUp(true) => WatchedIf(wait, code, commands, [Down, Up])
    case _ => false
  }

  lemma {:induction false} IssuedOne(a: Answers, e: Engine, p: Project, c: ComposeCommand, r: Outcome, before: Engine)
    requires (r.code, r.engine) == Issue(a, e, p, c) && before.log == e.log && before.calls <= e.calls
    ensures Issued(a, before, r, [c], [e.calls])
  {
  }

  /** Another command after one that answered 0. */
  lemma {:induction false} IssuedBefore(a: Answers, e: Engine, p: Project, c: ComposeCommand, before: Engine,
                                        after: Engine, r: Outcome, commands: seq<ComposeCommand>, at: seq<nat>)
    requires Issue(a, e, p, c).0 == 0 && before.log == e.log && before.calls <= e.calls
    requires after.log == Issue(a, e, p, c).1.log && after.calls > e.calls && Issued(a, after, r, commands, at)
    ensures Issued(a, before, r, [c] + commands, [e.calls] + at)
  {
    assert (e.log + [c]) + commands == e.log + ([c] + commands);
  }

  lemma {:induction false} FindAllQuiet(a: Answers, e: Engine, p: Project, services: seq<Service>, onlyRunning: bool)
    ensures var r := FindAll(a, e, p, services, onlyRunning).1; r.log == e.log && r.calls >= e.calls
    decreases |services|
  {
    if services != [] {
      FindAllQuiet(a, Find(a, e, p, services[0], onlyRunning).1, p, services[1..], onlyRunning);
    }
  }

  lemma {:induction false} GoUpIssues(a: Answers, e: Engine, p: Project, wait: bool, cleaned: bool, r: Outcome)
      returns (commands: seq<ComposeCommand>, at: seq<nat>)
    requires r == GoUp(a, e, p, wait, cleaned)
    ensures Issued(a, e, r, commands, at) && r.path == WentUp(cleaned)
    ensures WatchedIf(wait, r.code, commands, [Up])
  {
    var up := Issue(a, e, p, Up);
    if up.0 == 0 && wait {
      IssuedOne(a, up.1, p, AwaitStartup, r, up.1);
      IssuedBefore(a, e, p, Up, e, up.1, r, [AwaitStartup], [up.1.calls]);
      commands, at := [Up] + [AwaitStartup], [e.calls] + [up.1.calls];
    } else {
      IssuedOne(a, e, p, Up, r, e);
      commands, at := [Up], [e.calls];
    }
  }

  lemma {:induction false} IssuedFrom(a: Answers, e: Engine, later: Engine, r: Outcome, commands: seq<ComposeCommand>,
                                      at: seq<nat>)
    requires Issued(a, later, r, commands, at) && later.log == e.log && later.calls >= e.calls
    ensures Issued(a, e, r, commands, at)
  {
  }

  lemma {:induction false} BringUpIssues(a: Answers, e: Engine, p: Project, wait: bool, r: Outcome)
      returns (commands: seq<ComposeCommand>, at: seq<nat>)
    requires r == BringUp(a, e, p, wait)
    ensures Issued(a, e, r, commands, at) && Raised(r.path, wait, r.code, commands)
  {
    hide Issued, GoUp, FindAll;
    var listed := ListAny(a, e, p);
    var cleanup := Reconcile(a, e, p);
    FindAllQuiet(a, listed.1, p, p.services, true);
    var running := FindAll(a, listed.1, p, p.services, true);
    if cleanup.0.None? {
      commands, at := GoUpIssues(a, cleanup.1, p, wait, false, r);
      IssuedFrom(a, e, cleanup.1, r, commands, at);
    } else if cleanup.0.value != 0 {
      IssuedOne(a, running.1, p, Down, r, e);
      commands, at := [Down], [running.1.calls];
    } else {
      commands, at := GoUpIssues(a, cleanup.1, p, wait, true, r);
      IssuedBefore(a, running.1, p, Down, e, cleanup.1, r, commands, at);
      commands, at := [Down] + commands, [running.1.calls] + at;
    }
  }

  /** What an apply issues on its way, after `start` if it tried to resume the project first. */
  predicate IssuesOn(path: Path, reuse: ReusePolicy, wait: bool, code: int, commands: seq<ComposeCommand>) {
    match path
    case Reused => reuse != AlwaysCreate && commands == [ExecAgent]
    case Resumed => reuse == ResumeStopped && commands == [Start, ExecAgent]
    case StartFailed => reuse == ResumeStopped && commands == [Start] && code != 0
    case _ =>
      || Raised(path, wait, code, commands)
      || (reuse == ResumeStopped && |commands| > 0 && commands[0] == Start && Raised(path, wait, code, commands[1..]))
  }

  lemma {:induction false} ResumeIssues(a: Answers, e: Engine, p: Project, wait: bool, r: Outcome)
      returns (commands: seq<ComposeCommand>, at: seq<nat>)
    requires p.services != [] && r == ResumeOr(a, e, p, wait)
    ensures Issued(a, e, r, commands, at) && IssuesOn(r.path, ResumeStopped, wait, r.code, commands)
  {
    hide Issued, Reconcile, GoUp, Raised, FindAll;
    var exist := FindAll(a, e, p, p.services, false);
    FindAllQuiet(a, e, p, p.services, false);
    if !exist.0 {
      commands, at := BringUpIssues(a, exist.1, p, wait, r);
      IssuedFrom(a, e, exist.1, r, commands, at);
      RaisedPath(r.path, wait, r.code, commands);
    } else {
      var start := Issue(a, exist.1, p, Start);
      if start.0 != 0 {
        IssuedOne(a, exist.1, p, Start, r, e);
        commands, at := [Start], [exist.1.calls];
      } else {
        var agent := Find(a, start.1, p, p.services[|p.services| - 1], true);
        if agent.0 {
          IssuedOne(a, agent.1, p, ExecAgent, r, agent.1);
          commands, at := [ExecAgent], [agent.1.calls];
        } else {
          commands, at := BringUpIssues(a, agent.1, p, wait, r);
          RaisedPath(r.path, wait, r.code, commands);
        }
        IssuedBefore(a, exist.1, p, Start, e, agent.1, r, commands, at);
        assert ([Start] + commands)[1..] == commands;
        commands, at := [Start] + commands, [exist.1.calls] + at;
      }
    }
  }

  lemma {:induction false} RaisedPath(path: Path, wait: bool, code: int, commands: seq<ComposeCommand>)
    requires Raised(path, wait, code, commands)
    ensures path != Reused && path != Resumed && path != StartFailed
  {
  }

  /** For every outcome: which commands were issued, path by path. Its code is 0 exactly if each of them answered 0. */
  lemma {:induction false} ApplyIssues(a: Answers, e: Engine, p: Project, reuse: ReusePolicy, wait: bool, r: Outcome)
      returns (commands: seq<ComposeCommand>, at: seq<nat>)
    requires p.services != [] && r == ApplyPlan(a, e, p, reuse, wait)
    ensures Issued(a, e, r, commands, at) && IssuesOn(r.path, reuse, wait, r.code, commands)
    ensures r.code == 0 <==> forall j :: 0 <= j < |at| ==> a.code(at[j]) == 0
  {
    hide Issued, Reconcile, GoUp, Raised, FindAll, ResumeOr;
    if reuse == AlwaysCreate {
      commands, at := BringUpIssues(a, e, p, wait, r);
      RaisedPath(r.path, wait, r.code, commands);
    } else {
      FindAllQuiet(a, e, p, p.services, true);
      var left := FindReusable(a, e, p);
      if left.0 {
        IssuedOne(a, left.1, p, ExecAgent, r, e);
        commands, at := [ExecAgent], [left.1.calls];
      } else {
        if reuse == ResumeStopped {
          commands, at := ResumeIssues(a, left.1, p, wait, r);
        } else {
          commands, at := BringUpIssues(a, left.1, p, wait, r);
          RaisedPath(r.path, wait, r.code, commands);
        }
        IssuedFrom(a, e, left.1, r, commands, at);
      }
    }
    CodeOfIssued(a, e, r, commands, at);
  }

  lemma {:induction false} CodeOfIssued(a: Answers, e: Engine, r: Outcome, commands: seq<ComposeCommand>, at: seq<nat>)
    requires Issued(a, e, r, commands, at)
    ensures r.code == 0 <==> forall j :: 0 <= j < |at| ==> a.code(at[j]) == 0
  {
    assert r.code == a.code(at[|at| - 1]);
  }

  ghost predicate AllExist(p: Project, cs: seq<Container>) {
    forall i :: 0 <= i < |p.services| ==> p.Found(cs, p.services[i], false)
  }

  lemma {:induction false} BringUpTakes(a: Answers, e: Engine, p: Project, wait: bool, r: Outcome)
    requires Reliable(a) && r == BringUp(a, e, p, wait)
    ensures r.path == DownFailed || r.path.WentUp?
    ensures r.path == DownFailed || r.path == WentUp(true) <==> Outdated(p, e.containers)
  {
    var listed := ListAny(a, e, p);
    FindAllFound(a, listed.1, p, p.services, true, FindAll(a, listed.1, p, p.services, true));
  }

  lemma {:induction false} ResumeTakes(a: Answers, e: Engine, p: Project, wait: bool, r: Outcome)
    requires p.services != [] && Reliable(a) && r == ResumeOr(a, e, p, wait)
    ensures r.path != Reused
    ensures AllExist(p, e.containers) ==> |r.engine.log| > |e.log| && r.engine.log[|e.log|] == Start
    ensures !AllExist(p, e.containers) ==>
              && (r.path == DownFailed || r.path.WentUp?)
              && (r.path == DownFailed || r.path == WentUp(true) <==> Outdated(p, e.containers))
  {
    hide Issued, Outdated, BringUp, FindAll;
    var exist := FindAll(a, e, p, p.services, false);
    FindAllFound(a, e, p, p.services, false, exist);
    if exist.0 {
      var start := Issue(a, exist.1, p, Start);
      var agent := Find(a, start.1, p, p.services[|p.services| - 1], true);
      BringUpTakes(a, agent.1, p, wait, BringUp(a, agent.1, p, wait));
      var commands, at := BringUpIssues(a, agent.1, p, wait, BringUp(a, agent.1, p, wait));
      IssuedLog(a, agent.1, BringUp(a, agent.1, p, wait), commands, at);
    } else {
      BringUpTakes(a, exist.1, p, wait, r);
    }
  }

  lemma {:induction false} IssuedLog(a: Answers, e: Engine, r: Outcome, commands: seq<ComposeCommand>, at: seq<nat>)
    requires Issued(a, e, r, commands, at)
    ensures r.engine.log == e.log + commands
  {
  }

  /** With a working `ps` the containers decide the way: the project is reused exactly if its services all run; it is
      started first, under resume_stopped, exactly if they all exist but do not all run; and without that it is taken
      down exactly if it is outdated. */
  lemma {:induction false} ApplyTakes(a: Answers, e: Engine, p: Project, reuse: ReusePolicy, wait: bool, r: Outcome)
    requires p.services != [] && Reliable(a) && r == ApplyPlan(a, e, p, reuse, wait)
    ensures r.path == Reused <==> reuse != AlwaysCreate && p.Converged(e.containers)
    ensures reuse == ResumeStopped && !p.Converged(e.containers) && AllExist(p, e.containers) ==>
              |r.engine.log| > |e.log| && r.engine.log[|e.log|] == Start
    ensures r.path != Reused && (reuse != ResumeStopped || !AllExist(p, e.containers)) ==>
              && (r.path == DownFailed || r.path.WentUp?)
              && (r.path == DownFailed || r.path == WentUp(true) <==> Outdated(p, e.containers))
  {
    hide BringUp, ResumeOr, Outdated, FindAll;
    if reuse == AlwaysCreate {
      BringUpTakes(a, e, p, wait, r);
    } else {
      var running := FindAll(a, e, p, p.services, true);
      FindAllFound(a, e, p, p.services, true, running);
      var left := FindReusable(a, e, p);
      if !left.0 {
        if reuse == ResumeStopped {
          ResumeTakes(a, left.1, p, wait, r);
        } else {
          BringUpTakes(a, left.1, p, wait, r);
        }
      }
    }
  }

  // ---------------------------------------------------------------------------------------------
  // Where the lookup by name prefix goes wrong

  /** The container that project "a-b" has for a service, if its own service is called alike. */
  function Foreign(p: Project, other: string, s: Service, running: bool): Container {
    Container((p.name + "-" + other) + "-" + s.name, p.name + "-" + other, Some(s.role), s.hash, running)
  }

  lemma {:induction false} ForeignFits(p: Project, other: string, s: Service, running: bool)
    ensures var c := Foreign(p, other, s, running); p.Fits(c, s, false) && !p.Owns(c)
  {
    var c := Foreign(p, other, s, running);
    assert c.name == (p.name + "-") + (other + "-" + s.name);
    assert |c.project| > |p.name|;
  }

  /** With a running container of project "a-b", an apply of project "a" returns 0 without making a container. */
  lemma {:induction false} ForeignIsReused(a: Answers, p: Project, other: string, s: Service, wait: bool, r: Outcome)
    requires Reliable(a) && a.code == ((n: nat) => 0) && p.services == [s]
    requires r == ApplyPlan(a, Engine([Foreign(p, other, s, true)], 0, []), p, ReuseMatching, wait)
    ensures r.code == 0 && r.path == Reused && !p.OwnsAll(r.engine.containers, false)
  {
    var cs := [Foreign(p, other, s, true)];
    ForeignFits(p, other, s, true);
    assert p.Fits(cs[0], s, true);
    ConvergedIsReused(a, Engine(cs, 0, []), p, ReuseMatching, wait, r);
    assert !p.Own(cs, p.services[0], false);
  }

  lemma {:induction false} NotReusable(a: Answers, e: Engine, p: Project, running: (bool, Engine))
    requires p.services != [] && !p.Converged(e.containers) && running == FindReusable(a, e, p)
    ensures !running.0 && running.1.containers == e.containers
  {
    FindAllFound(a, e, p, p.services, true, FindAll(a, e, p, p.services, true));
  }

  lemma {:induction false} ResumeSucceeds(a: Answers, e: Engine, p: Project, wait: bool)
    requires Reliable(a) && a.code == ((n: nat) => 0) && p.services != []
    requires p.CanRun(e.containers, p.services[|p.services| - 1])
    requires forall i :: 0 <= i < |p.services| ==> p.Found(e.containers, p.services[i], false)
    ensures ResumeOr(a, e, p, wait).code == 0 && ResumeOr(a, e, p, wait).path == Resumed
  {
    FindAllFound(a, e, p, p.services, false, FindAll(a, e, p, p.services, false));
    StartedFound(p, e.containers, p.services[|p.services| - 1]);
  }

  /** With a working engine, resume_stopped resumes a project that is not running, exists, and whose agent can run. */
  lemma {:induction false} ResumesWhen(a: Answers, e: Engine, p: Project, wait: bool, r: Outcome)
    requires Reliable(a) && a.code == ((n: nat) => 0) && p.services != []
    requires r == ApplyPlan(a, e, p, ResumeStopped, wait)
    requires !p.Converged(e.containers) && p.CanRun(e.containers, p.services[|p.services| - 1])
    requires forall i :: 0 <= i < |p.services| ==> p.Found(e.containers, p.services[i], false)
    ensures r.code == 0 && r.path == Resumed
  {
    var running := FindReusable(a, e, p);
    NotReusable(a, e, p, running);
    ResumeSucceeds(a, running.1, p, wait);
  }

  /** With a stopped container of project "a-b" for a service and its own stopped agent, project "a" is resumed: the
      apply returns 0, but the service does not run. */
  lemma {:induction false} ForeignIsNotStarted(a: Answers, p: Project, other: string, s: Service, agent: Service,
                                               wait: bool, cs: seq<Container>, r: Outcome)
    requires Reliable(a) && a.code == ((n: nat) => 0) && p.services == [s, agent] && s.role != agent.role
    requires cs == [Foreign(p, other, s, false), p.Made(agent).(running := false)]
    requires r == ApplyPlan(a, Engine(cs, 0, []), p, ResumeStopped, wait)
    ensures r.code == 0 && r.path == Resumed && !p.Converged(r.engine.containers)
  {
    ForeignFits(p, other, s, false);
    assert cs[1].name == (p.name + "-") + agent.name;
    assert p.Fits(cs[0], s, false) && p.Fits(cs[1], agent, false);
    assert !p.Found(cs, p.services[0], true) && !p.CanRun(cs, p.services[0]);
    ResumesWhen(a, Engine(cs, 0, []), p, wait, r);
    ApplyConverges(a, Engine(cs, 0, []), p, ResumeStopped, wait, r);
  }
}
