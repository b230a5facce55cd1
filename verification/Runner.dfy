/** The remote runner: one run over the cloud and the ledger, with cleanup on any exception. */
module Runner {
  import opened Options
  import opened Text
  import opened Roles
  import opened Names
  import opened Commands
  import opened Planner
  import opened Cloud
  import opened StateStore
  import opened Reuse
  import opened Steps
  import opened Progress
  import opened Session
  import opened Visits
  import Volumes
  import History
  import Shell

  class RunpodRunner {
    const world: World
    const store: Store
    const progress: ComfyProgress
    const session: AgentSession

    ghost predicate Valid()
      reads this, store, progress, session
    {
      && store.Valid() && progress.Valid()
      && session.world == world && session.store == store && session.progress == progress
    }

    constructor (world: World, store: Store, progress: ComfyProgress)
      requires store.Valid() && progress.Valid()
      ensures this.world == world && this.store == store && this.progress == progress && Valid()
    {
      this.world, this.store, this.progress := world, store, progress;
      this.session := new AgentSession(world, store, progress);
    }

    // -------------------------------------------------------------------------------------------
    // Pods

    /** _matching_existing_resource */
    method MatchingExistingResource(reuse: ReusePolicy, hash: string) returns (podId: Option<string>)
      requires store.Valid()
      ensures podId == Existing(reuse, store.resources, hash)
    {
      if reuse == AlwaysCreate {
        return None;
      }
      var rows := store.ListResources();
      assert store.resources[..|rows|] == store.resources;
      for i := 0 to |rows|
        invariant Newest(store.resources, hash) == Newest(store.resources[..|rows| - i], hash)
      {
        NewestStep(store.resources, hash, |rows| - i);
        if rows[i].hash == hash && rows[i].podId.Some? {
          return rows[i].podId;
        }
      }
      podId := None;
    }

    /** Asking for a new pod, and noting how that went. */
    method CreatePodFor(run: Run, r: Resource, rowId: string, ghost n: nat, ghost before: seq<Call>)
        returns (pod: Option<Pod>, ghost a: Acquired)
      requires |world.log| == n + |before|
      modifies world, store`events
      ensures a == Create(world.oracle, n, run, r, rowId, before) && pod == a.pod
      ensures world.log == old(world.log) + [CreatePod(r.podInput)] && store.events == old(store.events) + a.events
    {
      a := Create(world.oracle, n, run, r, rowId, before);
      store.AddEvent(run.runId, PodCreateRequest, Some(rowId), r.name);
      pod := world.AskPod(CreatePod(r.podInput));
      if pod.None? {
        store.AddEvent(run.runId, PodCreateFailed, Some(rowId), r.name);
      } else {
        store.AddEvent(run.runId, PodCreated, Some(rowId), pod.value.id);
      }
    }

    /** _reuse_or_create_pod; None when it raises */
    method ReuseOrCreatePod(run: Run, r: Resource, rowId: string) returns (pod: Option<Pod>, ghost a: Acquired)
      requires store.Valid()
      modifies world, store`events
      ensures a == Acquire(world.oracle, |old(world.log)|, run, store.resources, r, rowId) && pod == a.pod
      ensures world.log == old(world.log) + a.calls && store.events == old(store.events) + a.events
    {
      ghost var n := |world.log|;
      if Unresolved(r.templateId) {
        return None, Acquired([], [], None);
      }
      var existing := MatchingExistingResource(run.reuse, r.desiredHash);
      ghost var before: seq<Call> := [];
      if existing.Some? {
        var podId := existing.value;
        pod := world.AskPod(GetPod(podId));
        before := [GetPod(podId)];
        if pod.None? {
          return None, Acquired(before, [], None);
        }
        if run.reuse == ReuseMatching && pod.value.status.Live? {
          store.AddEvent(run.runId, PodReused, Some(rowId), podId);
          return pod, Acquired(before, [Note(run, PodReused, rowId, podId)], pod);
        }
        if run.reuse == ResumeStopped && (pod.value.status.Stopped? || pod.value.status.Exited?) {
          a := Reuse.Resume(world.oracle, n, run, rowId, podId, pod.value);
          var answer := world.AskPod(ResumePod(podId));
          if answer.None? {
            return None, a;
          }
          store.AddEvent(run.runId, PodResumed, Some(rowId), podId);
          return Some(Resumed(pod.value, answer.value)), a;
        }
      }
      pod, a := CreatePodFor(run, r, rowId, n, before);
    }

    // -------------------------------------------------------------------------------------------
    // The resource loop

    /** The world and the ledger are where a gathering, begun with this log and these events, has got to. */
    ghost predicate At(g: Gathering, log: seq<Call>, events: seq<Event>)
      reads this, world, store
    {
      && world.log == log + g.calls && store.resources == g.rows
      && store.events == events + g.events && store.clock == g.clock
    }

    /** The part of a turn that follows the acquisition: record the pod and wait for it; None when it raises. */
    method SettleResource(run: Run, r: Resource, got: Option<Pod>, ghost ctx: Ctx, ghost g: Gathering,
                          ghost a: Acquired, ghost log: seq<Call>, ghost events: seq<Event>)
        returns (pod: Option<Pod>, ghost q: Gathering)
      requires Valid() && a.pod == got && ctx.runId == run.runId && ctx.rowId == RowId(run.runId)
      requires world.log == log + (g.calls + a.calls) && store.events == events + (g.events + a.events)
      requires store.resources == Pending(ctx, g, r) && store.clock == g.clock + 1
      requires g.ok && a == ctx.acquire(|log| + |g.calls|, Pending(ctx, g, r), r)
      modifies world, store`resources, store`clock, progress
      ensures Valid() && progress.total == old(progress.total)
      ensures progress.updates <= old(progress.updates) + (if r.role == Agent then 0 else 1)
      ensures q == GatherOne(world.oracle, |log|, ctx, g, r) && At(q, log, events)
      ensures pod.Some? == q.ok && (q.ok ==> q.pods == g.pods + [pod.value])
    {
      pod, q := got, Settle(world.oracle, |log|, ctx, g, r, Pending(ctx, g, r), a);
      OneTurn(world.oracle, |log|, ctx, g, r, Pending(ctx, g, r), a, q);
      SettleOutcome(world.oracle, |log|, ctx, g, r, Pending(ctx, g, r), a, q);
      hide Settle, GatherOne, Pending, LedgerId, RoleText;
      if pod.None? {
        return;
      }
      var rowId := store.RecordResource(run.runId, r, Some(pod.value.id), Reported(pod.value.status));
      if r.role != Agent {
        progress.Update();
        var call := AwaitReady(pod.value.id);
        Regroup(log, g.calls + a.calls, [call]);
        var ready := world.Do(call);
        if !ready {
          pod := None;
        }
      }
    }

    /** One turn of the resource loop of _apply; None when it raises */
    method GatherTurn(run: Run, r: Resource, ghost g: Gathering, ghost log: seq<Call>, ghost events: seq<Event>)
      returns (pod: Option<Pod>, ghost q: Gathering)
      requires Valid() && g.ok && At(g, log, events)
      modifies world, store`events, store`resources, store`clock, progress
      ensures Valid() && progress.total == old(progress.total)
      ensures progress.updates <= old(progress.updates) + (if r.role == Agent then 1 else 2)
      ensures q == GatherOne(world.oracle, |log|, CtxOf(world.oracle, run), g, r) && At(q, log, events)
      ensures pod.Some? == q.ok && (q.ok ==> q.pods == g.pods + [pod.value])
    {
      ghost var ctx, m := CtxOf(world.oracle, run), |log| + |g.calls|;
      progress.Update();
      var rowId := store.RecordResource(run.runId, r, None, Creating);
      ghost var pending, a := Pending(ctx, g, r), Acquired([], [], None);
      assert store.resources == pending && |world.log| == m;
      var got;
      got, a := ReuseOrCreatePod(run, r, rowId);
      Regroup(log, g.calls, a.calls);
      Regroup(events, g.events, a.events);
      AcquiredInCtx(world.oracle, run, ctx, m, pending, r, a);
      pod, q := SettleResource(run, r, got, ctx, g, a, log, events);
    }

    /** The resource loop of _apply; not ok when it raises */
    method GatherPods(run: Run, resources: seq<Resource>) returns (ok: bool, pods: seq<Pod>, ghost g: Gathering)
      requires Valid()
      modifies world, store`events, store`resources, store`clock, progress
      ensures Valid() && progress.total == old(progress.total)
      ensures progress.updates <= old(progress.updates) + TurnUpdates(resources)
      ensures g == Gather(world.oracle, |old(world.log)|, CtxOf(world.oracle, run), old(store.resources),
                          old(store.clock), resources)
      ensures At(g, old(world.log), old(store.events)) && ok == g.ok && (ok ==> pods == g.pods)
    {
      ghost var o, n, ctx := world.oracle, |world.log|, CtxOf(world.oracle, run);
      ghost var rows, clock := store.resources, store.clock;
      ghost var log, events := world.log, store.events;
      g := Gathering([], rows, [], clock, [], true);
      ok, pods := true, [];
      assert log + [] == log && events + [] == events;
      for i := 0 to |resources|
        invariant Valid() && progress.total == old(progress.total)
        invariant progress.updates <= old(progress.updates) + TurnUpdates(resources[..i])
        invariant g == Gather(o, n, ctx, rows, clock, resources[..i]) && g.ok && pods == g.pods
        invariant At(g, log, events)
      {
        GatherNext(o, n, ctx, rows, clock, resources, i);
        TurnUpdatesNext(resources, i);
        var pod;
        pod, g := GatherTurn(run, resources[i], g, log, events);
        if pod.None? {
          FailureStays(o, n, ctx, rows, clock, resources, i + 1);
          return false, [], g;
        }
        pods := pods + [pod.value];
      }
      assert resources[..|resources|] == resources;
    }

    /** _cleanup_created: a failing call is noted and does not stop the rest. */
    method CleanupCreated(runId: string, terminate: bool)
      requires Valid()
      modifies world, store`events
      ensures Valid() && world.log == old(world.log) + CleanupCalls(store.resources, runId, terminate)
      ensures Mirrors(world.log[|old(world.log)|..], RunPods(store.resources, runId), terminate)
      ensures PodsOfEvents(store.events) == PodsOfEvents(old(store.events))
    {
      hide PodsOfEvents, CleanupCalls, CleanupOf, RunPods, Mirrors;
      var rows := store.ListResources();
      ghost var all, log, made := store.resources, world.log, [];
      CleaningStart(all, runId, terminate);
      for i := 0 to |rows|
        invariant store.resources == all && world.log == log + made
        invariant PodsOfEvents(store.events) == PodsOfEvents(old(store.events))
        invariant Cleaning(all, runId, terminate, |rows| - i, made)
      {
        CleaningNext(all, runId, terminate, |rows| - i, made);
        CleanUpRow(runId, terminate, rows[i]);
        Regroup(log, made, CleanupOf(rows[i], runId, terminate));
        made := made + CleanupOf(rows[i], runId, terminate);
      }
      CleaningEnd(all, runId, terminate, made);
      CleanupReversesRunPods(all, runId, terminate);
    }

    method CleanUpRow(runId: string, terminate: bool, row: ResourceRow)
      requires Valid()
      modifies world, store`events
      ensures Valid() && world.log == old(world.log) + CleanupOf(row, runId, terminate)
      ensures PodsOfEvents(store.events) == PodsOfEvents(old(store.events))
    {
      if row.runId != Some(runId) || row.podId.None? {
        return;
      }
      var ok := world.Do(EndCall(terminate, row.podId.value));
      if !ok {
        NoPodEvents(store.events, [Event(runId, CleanupFailed, Some(row.id), row.podId.value)]);
        store.AddEvent(runId, CleanupFailed, Some(row.id), row.podId.value);
      }
    }

    /** reconcile_managed_pods; false when it raises */
    method ReconcileManagedPods() returns (ok: bool, ghost pods: seq<Pod>)
      requires Valid()
      modifies world, store`resources, store`clock
      ensures Valid() && world.log == old(world.log) + [ListPods]
      ensures var listing := world.oracle.listing(|old(world.log)|);
              ok == listing.Some? && (ok ==> pods == listing.value)
      ensures ok ==> (store.resources, store.clock) == Reconciled(old(store.resources), old(store.clock), pods)
      ensures !ok ==> store.resources == old(store.resources) && store.clock == old(store.clock)
    {
      var listing := world.AskListing();
      if listing.None? {
        return false, [];
      }
      ok, pods := true, listing.value;
      for i := 0 to |listing.value|
        invariant world.log == old(world.log) + [ListPods]
        invariant Valid() && (store.resources, store.clock)
                  == Reconciled(old(store.resources), old(store.clock), pods[..i])
      {
        var pod := listing.value[i];
        ReconciledNext(old(store.resources), old(store.clock), pods, i);
        if Managed(pod) {
          var rowId := store.RecordRemoteResource(pod, None);
        }
      }
      assert pods[..|pods|] == pods;
    }

    // -------------------------------------------------------------------------------------------
    // After the pods are there

    /** _schedule_time_keep_alive; false when it raises */
    method ScheduleTimeKeepAlive(keepAlive: Option<KeepAlive>, podId: string) returns (ok: bool)
      requires Valid()
      modifies world, progress
      ensures Valid() && progress.total == old(progress.total)
      ensures world.log == old(world.log) + ScheduleCalls(keepAlive, podId)
      ensures var due := keepAlive.Some? && keepAlive.value.mode == TimeMode && keepAlive.value.seconds > 0
                         && keepAlive.value.serverSide;
              world.log == if due then old(world.log) + [Schedule(podId)] else old(world.log)
      ensures progress.updates <= old(progress.updates) + (if Timed(keepAlive) then 1 else 0)
    {
      ok := true;
      if keepAlive.None? || keepAlive.value.mode != TimeMode || keepAlive.value.seconds == 0
          || !keepAlive.value.serverSide {
        return;
      }
      progress.Update();
      ok := world.Do(Schedule(podId));
    }

    /** _enforce_response_keep_alive: `collected` tells whether a response came, `bill` what the pod has cost so far;
        false when it raises */
    method EnforceResponseKeepAlive(runId: string, keepAlive: Option<KeepAlive>, podId: string, collected: bool,
                                    bill: Bill) returns (ok: bool)
      requires Valid()
      modifies world, progress, store`counters
      ensures Valid() && progress.total == old(progress.total)
      ensures world.log == old(world.log)
                           + EnforceCalls(keepAlive, podId, TurnsAfter(old(store.counters), runId, collected), bill)
      ensures var known := old(store.counters);
              var turns := if !collected then 0 else if runId in known then known[runId] + 1 else 1;
              && (store.counters == if collected && CountsTurns(keepAlive) then known[runId := turns] else known)
              && world.log == old(world.log)
                              + if !Due(keepAlive, turns, bill) then []
                                else if keepAlive.value.action == TerminatePod then [TerminatePodCall(podId)]
                                else [StopPodCall(podId)]
      ensures progress.updates <= old(progress.updates) + (if keepAlive.Some? && !Timed(keepAlive) then 1 else 0)
    {
      ok := true;
      if keepAlive.None? || keepAlive.value.mode == ManualMode || keepAlive.value.mode == TimeMode
          || !keepAlive.value.serverSide {
        return;
      }
      var due := false;
      if keepAlive.value.mode == TurnsMode {
        var turns := 0;
        if collected {
          turns := store.IncrementCounter(runId);
        }
        due := keepAlive.value.turnLimit > 0 && turns >= keepAlive.value.turnLimit;
      } else {
        var estimated := (bill.uptime / 3600.0) * bill.perHour;
        due := keepAlive.value.costLimit != 0.0 && estimated >= keepAlive.value.costLimit;
      }
      if due {
        progress.Update();
        ok := world.Do(EndCall(keepAlive.value.action == TerminatePod, podId));
      }
    }

    /** Waiting until the agent's pod can be reached; false when it raises */
    method ReachAgent(keepAlive: Option<KeepAlive>, podId: string) returns (ok: bool, ghost front: seq<Call>)
      requires Valid()
      modifies world, progress
      ensures Valid() && progress.total == old(progress.total)
      ensures world.log == old(world.log) + front && front <= ReachCalls(keepAlive, podId)
              && (ok ==> front == ReachCalls(keepAlive, podId))
      ensures ok && !Timed(keepAlive) ==> world.log == old(world.log) + [AwaitEndpoint(podId), AwaitSsh]
      ensures ok && Timed(keepAlive) && keepAlive.value.seconds > 0 && keepAlive.value.serverSide ==>
                world.log == old(world.log) + [Schedule(podId), AwaitEndpoint(podId), AwaitSsh]
      ensures progress.updates <= old(progress.updates) + 1 + (if Timed(keepAlive) then 1 else 0)
    {
      ghost var log, scheduled := world.log, ScheduleCalls(keepAlive, podId);
      front := scheduled;
      ok := ScheduleTimeKeepAlive(keepAlive, podId);
      if !ok {
        return;
      }
      progress.Update();
      ok := world.Do(AwaitEndpoint(podId));
      front := scheduled + [AwaitEndpoint(podId)];
      Regroup(log, scheduled, [AwaitEndpoint(podId)]);
      if !ok {
        return;
      }
      ok := world.Do(AwaitSsh);
      front := scheduled + [AwaitEndpoint(podId), AwaitSsh];
    }

    /** The rest of _apply, once every resource has its pod; false when it raises */
    method WorkOnAgent(runId: string, plan: Plan, site: Site, pod: Pod, rowId: string, wait: bool, collected: bool,
                       bill: Bill) returns (ok: bool, ghost work: Work)
      requires Valid()
      modifies world, progress, store`commands, store`events, store`counters
      ensures Valid() && progress.total == old(progress.total)
      ensures world.log == old(world.log) + WorkCalls(site, work) && NoCreates(WorkCalls(site, work))
      ensures Orderly(world.oracle, site, plan, |old(world.log)|, wait, work, ok)
      ensures work.front <= ReachCalls(plan.keepAlive, pod.id)
              && (work.began ==> work.front == ReachCalls(plan.keepAlive, pod.id))
      ensures ok ==> work.ended == EnforceCalls(plan.keepAlive, pod.id,
                                                TurnsAfter(old(store.counters), runId, collected), bill)
      ensures store.commands == old(store.commands) + CommandEntries(runId, Some(rowId), work.steps)
      ensures PodsOfEvents(store.events) == PodsOfEvents(old(store.events))
      ensures progress.updates <= old(progress.updates) + |Jobs(plan.actions)| + 2
              + (if plan.keepAlive.Some? then 1 else 0)
    {
      hide PodsOfEvents, Orderly, WorkCalls, NoCreates, Quiet, ReachCalls, EnforceCalls, Jobs, Due,
          CountsTurns, TurnsAfter;
      ghost var log, o, n, front := world.log, world.oracle, |world.log|, [];
      ok, front := ReachAgent(plan.keepAlive, pod.id);
      work := Work(front, false, [], [], [], []);
      ReachQuiet(plan.keepAlive, pod.id, front);
      if !ok {
        NotBegun(o, site, plan, n, wait, work);
        return;
      }
      ok, work := WorkOverSsh(runId, plan, site, rowId, wait, log, front);
      if !ok {
        SessionFailed(o, site, plan, n, wait, work);
        return;
      }
      ghost var begun, copied := work, ImageCalls(wait, site);
      ok := CopyImage(runId, site, wait);
      work := begun.(copied := copied);
      NoImageCreates(wait, site);
      WorkEnded(log, site, begun, work);
      FollowedBy(o, site, plan, n, wait, begun, work, ok);
      if !ok {
        return;
      }
      ghost var counters := store.counters;
      ok := EnforceResponseKeepAlive(runId, plan.keepAlive, pod.id, collected, bill);
      ghost var ended := EnforceCalls(plan.keepAlive, pod.id, TurnsAfter(counters, runId, collected), bill);
      EnforceQuiet(plan.keepAlive, pod.id, TurnsAfter(counters, runId, collected), bill, ended);
      work := begun.(copied := copied, ended := ended);
      WorkEnded(log, site, begun, work);
      FollowedBy(o, site, plan, n, wait, begun, work, ok);
    }

    /** _copy_remote_image_file, when a path is given and the response was waited for; false when the command raises. */
    method CopyImage(runId: string, site: Site, wait: bool) returns (ok: bool)
      modifies world, store`events
      ensures world.log == old(world.log) + ImageCalls(wait, site)
      ensures |world.log| == |old(world.log)| + if wait && site.image != "" then 1 else 0
      ensures PodsOfEvents(store.events) == PodsOfEvents(old(store.events))
    {
      ok := true;
      if wait && site.image != "" {
        var outcome := world.RunCommand(ImageCommand(site.image));
        if outcome.Raised? {
          return false;
        }
        if outcome.code == 0 {
          NoPodEvents(store.events, [Event(runId, ImageCollected, None, site.image)]);
          store.AddEvent(runId, ImageCollected, None, site.image);
        }
      }
    }

    /** The steps of the session; false when one raises */
    method WorkOverSsh(runId: string, plan: Plan, site: Site, rowId: string, wait: bool, ghost log: seq<Call>,
                       ghost front: seq<Call>) returns (ok: bool, ghost work: Work)
      requires Valid() && world.log == log + front && Quiet(front) && NoCreates(front)
      modifies world, progress, store`commands, store`events
      ensures Valid() && progress.total == old(progress.total)
      ensures work.front == front && InSession(world.oracle, site, plan, |log|, wait, work)
              && (ok ==> AllWent(work.steps))
      ensures world.log == log + WorkCalls(site, work) && NoCreates(WorkCalls(site, work))
      ensures store.commands == old(store.commands) + CommandEntries(runId, Some(rowId), work.steps)
      ensures PodsOfEvents(store.events) == PodsOfEvents(old(store.events))
      ensures progress.updates <= old(progress.updates) + |Jobs(plan.actions)| + 1
    {
      hide PodsOfEvents, Walk, Flat, CommandEntries, NoCreates, Jobs;
      ghost var m, steps := |log| + |front|, [];
      assert |world.log| == m;
      ok, steps := session.RunAgentSshSteps(site, runId, plan.actions, Some(rowId), wait);
      StepsFit(world.oracle, site, plan.actions, m, steps);
      work := Work(front, true, steps, ResponseCalls(wait, steps), [], []);
      WorkRegroup(log, site, work);
      BegunNoCreates(site, work);
    }

    /** _apply once the volumes are there; false when it raises */
    method ApplyOn(run: Run, plan: Plan, resources: seq<Resource>, site: Site, wait: bool, collected: bool, bill: Bill)
      returns (ok: bool, ghost work: Work, ghost loop: Turning)
      requires Valid() && Honest(world.oracle) && Ready(CtxOf(world.oracle, run), store.resources, resources)
      modifies world, store, progress
      ensures Valid() && progress.total == old(progress.total) && store.runs == old(store.runs)
      ensures progress.updates <= old(progress.updates) + TurnUpdates(resources) + |Jobs(plan.actions)| + 2
              + (if plan.keepAlive.Some? then 1 else 0)
      ensures world.log == old(world.log) + WorkCalls(site, work)
      ensures Covered(world.oracle, |old(world.log)|, run.runId, old(store.resources), store.resources,
                      WorkCalls(site, work))
      ensures loop == Turning(|old(world.log)|, old(store.clock), resources)
      ensures LoopRan(world.oracle, run, old(store.resources), store.resources, loop, |old(world.log)|,
                      WorkCalls(site, work))
      ensures PodsOfEvents(store.events) == PodsOfEvents(old(store.events)) + RunPods(store.resources, run.runId)
      ensures Orderly(world.oracle, site, plan, |old(world.log)|, wait, work, ok)
    {
      hide PodsOfEvents, Orderly, Quiet, NoCreates, Jobs, FreshRun, DistinctRows, Gather, TurnUpdates, RunPods,
          CreatedIds;
      ghost var o, n, log, rows, clock := world.oracle, |world.log|, world.log, store.resources, store.clock;
      ghost var ctx, events := CtxOf(o, run), store.events;
      ghost var g;
      var pods;
      loop := Turning(n, clock, resources);
      ok, pods, g := GatherPods(run, resources);
      GatheredCovers(o, run, ctx, n, rows, resources, clock, g);
      GatherQuiet(o, run, n, ctx, rows, clock, resources, g);
      PodsConcat(events, g.events);
      ghost var calls := g.calls;
      work := Work(calls, false, [], [], [], []);
      if !ok {
        NotBegun(o, site, plan, n, wait, work);
        return;
      }
      LastPod(o, n, ctx, rows, clock, resources, g);
      ghost var rest;
      var rowId := RowId(run.runId)(resources[|resources| - 1]);
      ghost var m := |world.log|;
      assert m == n + |calls|;
      ok, rest := WorkOnAgent(run.runId, plan, site, pods[|pods| - 1], rowId, wait, collected, bill);
      RestCovered(o, n, run.runId, rows, g.rows, calls, WorkCalls(site, rest));
      work := After(calls, rest);
      OrderlyAfter(o, site, plan, n, m, wait, calls, rest, ok);
      Regroup(log, calls, WorkCalls(site, rest));
    }

    /** _apply; false when it raises.  `loop` is the resource loop, with no resources when the volumes were refused. */
    method Apply(run: Run, plan: Plan, site: Site, wait: bool, collected: bool, bill: Bill)
      returns (ok: bool, ghost work: Work, ghost loop: Turning)
      requires Valid() && Honest(world.oracle) && Ready(CtxOf(world.oracle, run), store.resources, plan.resources)
      modifies world, store, progress
      ensures Valid() && progress.total == old(progress.total) && store.runs == old(store.runs)
      ensures progress.updates <= old(progress.updates) + TurnUpdates(plan.resources) + |Jobs(plan.actions)| + 2
              + (if plan.keepAlive.Some? then 1 else 0)
      ensures world.log == old(world.log) + WorkCalls(site, work)
      ensures Covered(world.oracle, |old(world.log)|, run.runId, old(store.resources), store.resources,
                      WorkCalls(site, work))
      ensures PlannedLoop(plan.resources, loop, ok)
      ensures LoopRan(world.oracle, run, old(store.resources), store.resources, loop, |old(world.log)|,
                      WorkCalls(site, work))
      ensures PodsOfEvents(store.events) == PodsOfEvents(old(store.events)) + RunPods(store.resources, run.runId)
      ensures Orderly(world.oracle, site, plan, |old(world.log)|, wait, work, ok)
    {
      hide PodsOfEvents, Orderly, Quiet, NoCreates, Jobs, FreshRun, DistinctRows, Gather, TurnUpdates, RunPods,
          CreatedIds;
      ghost var o, n, log, rows, calls := world.oracle, |world.log|, world.log, store.resources, [];
      var resources;
      resources, calls := Volumes.MaterializeNetworkVolumes(world, store, run.runId, plan.resources);
      VolumesCreateNoPods(o.volume, n, plan.resources, calls, resources);
      work := Work(calls, false, [], [], [], []);
      if resources.None? {
        loop := Turning(n, store.clock, []);
        NothingYetCovered(o, n, run.runId, rows, calls);
        NothingGathered(o, run, rows, loop, n, calls);
        FreshRunNoPods(CtxOf(o, run), rows, plan.resources);
        NotBegun(o, site, plan, n, wait, work);
        return false, work, loop;
      }
      SettledReady(o, run, CtxOf(o, run), rows, plan.resources, resources.value);
      ghost var m, rest := |world.log|, work;
      assert m == n + |calls|;
      ok, rest, loop := ApplyOn(run, plan, resources.value, site, wait, collected, bill);
      CoveredAfter(o, n, m, run.runId, rows, store.resources, calls, WorkCalls(site, rest));
      LoopRanAfter(o, run, rows, store.resources, loop, n, m, calls, WorkCalls(site, rest));
      work := After(calls, rest);
      OrderlyAfter(o, site, plan, n, m, wait, calls, rest, ok);
      Regroup(log, calls, WorkCalls(site, rest));
    }

    // -------------------------------------------------------------------------------------------
    // Stopping and terminating

    /** The loop of _run_teardown_commands; false when a command raises */
    method RunTeardown(runId: string, down: seq<Command>, rowId: string) returns (ok: bool, ghost rans: seq<Ran>)
      requires Valid()
      modifies world, progress, store`commands, store`events
      ensures Valid()
      ensures ok ==> world.log == old(world.log) + RunCalls(rans) && Complete(rans, down)
    {
      hide PodsOfEvents, CommandEvents, CommandEntry, RunCalls, Repeat, ExitOf;
      rans := [];
      ghost var log := world.log;
      NoRunCalls();
      assert log + [] == log;
      for i := 0 to |down|
        invariant Valid() && world.log == log + RunCalls(rans) && Complete(rans, down[..i])
      {
        ghost var ran;
        ok, ran := session.RunSshCommandAction(runId, down[i], Some(rowId));
        if !ok {
          return;
        }
        RunCallsNext(rans, ran);
        Regroup(log, RunCalls(rans), Repeat(Ssh(ran.command.command), ran.runs));
        rans := rans + [ran];
      }
      assert down[..|down|] == down;
      ok := true;
    }

    /** One row of _lifecycle: teardown commands for the agent, then the lifecycle call; false when it raises */
    method VisitRow(runId: string, down: seq<Command>, row: ResourceRow, terminate: bool)
        returns (ok: bool, ghost visit: Visit)
      requires Valid() && row.podId.Some?
      modifies world, progress, store`commands, store`events
      ensures Valid()
      ensures ok ==> world.log == old(world.log) + VisitCalls(terminate, visit) && Conforms(visit, row, down)
      ensures ok && terminate ==> world.log[|world.log| - 1] == TerminatePodCall(row.podId.value)
      ensures ok && !terminate ==> world.log[|world.log| - 1] == StopPodCall(row.podId.value)
    {
      var podId := row.podId.value;
      ghost var log, opening, rans := world.log, [], [];
      visit := Visit(podId, row.role == Some(Agent) && down != [], []);
      if row.role == Some(Agent) && down != [] {
        var pod := world.AskPod(GetPod(podId));
        if pod.None? {
          return false, visit;
        }
        ok := world.Do(AwaitEndpoint(podId));
        if !ok {
          return;
        }
        ok := world.Do(AwaitSsh);
        if !ok {
          return;
        }
        opening := [GetPod(podId), AwaitEndpoint(podId), AwaitSsh];
        assert world.log == log + opening;
        ok, rans := RunTeardown(runId, down, row.id);
        if !ok {
          return;
        }
        visit := visit.(rans := rans);
        Regroup(log, opening, RunCalls(rans));
        opening := opening + RunCalls(rans);
      }
      ok := world.Do(EndCall(terminate, podId));
      Regroup(log, opening, [EndCall(terminate, podId)]);
    }

    /** One turn of the loop of _lifecycle: visit the row and mark it; false when it raises */
    method DealWith(runId: string, row: ResourceRow, down: seq<Command>, terminate: bool, ghost s: Stop,
                    ghost log: seq<Call>, ghost visited: seq<ResourceRow>, ghost visits: seq<Visit>,
                    ghost calls: seq<Call>) returns (ok: bool, ghost visits': seq<Visit>, ghost calls': seq<Call>)
      requires Valid() && row.podId.Some? && down == s.down && terminate == s.terminate && UniqueIds(s.before)
      requires world.log == log + calls && Dealt(s, visited, visits, calls, store.resources)
      modifies world, progress, store`commands, store`events, store`resources, store`clock
      ensures Valid()
      ensures ok ==> world.log == log + calls' && Dealt(s, visited + [row], visits', calls', store.resources)
    {
      ghost var visit;
      visits', calls' := visits, calls;
      ok, visit := VisitRow(runId, down, row, terminate);
      if !ok {
        return;
      }
      ghost var now, clock := store.resources, store.clock;
      store.MarkResourceStatus(row.id, StatusOf(terminate));
      DealtNext(s, visited, visits, calls, now, visit, row, clock, store.resources);
      Regroup(log, calls, VisitCalls(terminate, visit));
      visits', calls' := visits + [visit], calls + VisitCalls(terminate, visit);
    }

    /** _lifecycle; false when it raises */
    method Lifecycle(plan: Plan, terminate: bool) returns (ok: bool, ghost visits: seq<Visit>, ghost calls: seq<Call>)
      requires Valid()
      modifies world, progress, store`commands, store`events, store`resources, store`clock
      ensures Valid()
      ensures ok ==> world.log == old(world.log) + calls
      ensures ok ==> Dealt(StopOf(plan, old(store.resources), terminate),
                           Visited(Reversed(old(store.resources)), HashesOf(plan.resources)), visits, calls,
                           store.resources)
      ensures ok ==> OnlyEnds(terminate, calls)
    {
      hide OnlyEnds, Dealt, HashesOf;
      var rows := store.ListResources();
      var hashes := HashesOf(plan.resources);
      var down := Filter(CommandsOf(plan.actions), IsTeardown);
      ghost var log, s := world.log, StopOf(plan, store.resources, terminate);
      ghost var visited: seq<ResourceRow> := [];
      visits, calls := [], [];
      assert log + [] == log;
      DealtStart(s);
      for i := 0 to |rows|
        invariant Valid() && world.log == log + calls
        invariant visited == Visited(rows[..i], hashes) && Dealt(s, visited, visits, calls, store.resources)
      {
        VisitedNext(rows, hashes, i);
        if rows[i].hash in hashes && rows[i].podId.Some? {
          ok, visits, calls := DealWith(plan.runId, rows[i], down, terminate, s, log, visited, visits, calls);
          if !ok {
            return;
          }
          visited := visited + [rows[i]];
        } else {
          assert visited + [] == visited;
        }
      }
      assert rows[..|rows|] == rows;
      StopOnlyEnds(s, visited, visits, calls, store.resources);
      ok := true;
    }

    // -------------------------------------------------------------------------------------------
    // A run

    /** What a run does when its body raised: note it, and clean up unless told to leave pods running. */
    method HandleFailure(plan: Plan, mode: RunMode, onError: OnError)
      requires Valid()
      modifies world, store`clock, store`runs, store`events
      ensures Valid() && plan.runId in store.runs && store.runs[plan.runId].status == RunBroken
      ensures SameRun(old(store.runs), store.runs, plan.runId)
      ensures onError == LeaveRunning ==> world.log == old(world.log)
      ensures onError != LeaveRunning ==>
                world.log == old(world.log) + CleanupCalls(store.resources, plan.runId, onError == TerminateCreated)
      ensures onError == StopCreated ==>
                Mirrors(world.log[|old(world.log)|..], RunPods(store.resources, plan.runId), false)
      ensures onError == TerminateCreated ==>
                Mirrors(world.log[|old(world.log)|..], RunPods(store.resources, plan.runId), true)
      ensures PodsOfEvents(store.events) == PodsOfEvents(old(store.events))
    {
      NoPodEvents(store.events, [Event(plan.runId, RunFailed, None, "")]);
      store.AddEvent(plan.runId, RunFailed, None, "");
      store.RecordRun(plan.runId, plan.workflowHash, mode, RunBroken);
      if onError != LeaveRunning {
        CleanupReversesRunPods(store.resources, plan.runId, onError == TerminateCreated);
        CleanupCreated(plan.runId, onError == TerminateCreated);
      }
    }

    /** RunpodRunner.run, from the plan on; false when it raises. `cut` is the length of the log where the body of the
        run ended, and `started` tells whether it began at all. */
    method Run(plan: Plan, site: Site, mode: RunMode, onError: OnError, collected: bool, bill: Bill)
      returns (ok: bool, ghost started: bool, ghost cut: nat, ghost work: Work, ghost h: History.HistoryRun)
      requires Valid() && Honest(world.oracle) && Announced(plan)
      requires Ready(CtxOf(world.oracle, Reuse.Run(plan.runId, plan.reuse)), store.resources, plan.resources)
      requires var listing := world.oracle.listing(|world.log|);
               listing.Some? ==> Foreign(CtxOf(world.oracle, Reuse.Run(plan.runId, plan.reuse)), plan.resources,
                                         listing.value)
      modifies world, store, progress
      ensures Valid()
      ensures mode.ApplyMode? ==> progress.updates <= progress.total == |plan.resources| + |plan.actions| + 2
      ensures !started ==> !ok && world.log == old(world.log) + [ListPods]
      ensures started ==>
                && plan.runId in store.runs
                && store.runs[plan.runId].status
                   == if !ok then RunBroken else if mode.ApplyMode? then RunCompleted else RunStarted
      ensures started && plan.runId !in old(store.runs) ==> store.runs[plan.runId].workflowHash == plan.workflowHash
      ensures forall id :: id in old(store.runs) && id != plan.runId ==>
                id in store.runs && store.runs[id] == old(store.runs)[id]
      ensures mode.ApplyMode? && started ==>
                && |old(world.log)| <= cut <= |world.log| && world.log[..cut] == old(world.log) + WorkCalls(site, work)
                && Orderly(world.oracle, site, plan, |old(world.log)|, mode.wait, work, ok)
      ensures mode.ApplyMode? && started ==>
                && IsRun(h, world.oracle, plan, world.oracle.listing(|old(world.log)|), old(store.clock), ok)
                && Accounted(h, |old(world.log)|, old(store.resources), store.resources, WorkCalls(site, work))
                && PodsOfEvents(store.events) == PodsOfEvents(old(store.events)) + RunPods(store.resources, plan.runId)
      ensures mode.ApplyMode? && started && !ok && onError != LeaveRunning ==>
                Cleaned(world.oracle, plan.runId, onError == TerminateCreated, |old(world.log)|, cut, world.log,
                        store.resources)
      ensures mode.ApplyMode? && (ok || onError == LeaveRunning) ==> cut == |world.log|
      ensures !mode.ApplyMode? && ok ==> cut <= |world.log|
      ensures !mode.ApplyMode? && ok ==> OnlyEnds(mode == TerminateMode, world.log[cut..])
      ensures !mode.ApplyMode? && ok ==>
                StopTrace(plan, mode.TerminateMode?, old(store.resources), old(store.clock),
                          world.oracle.listing(|old(world.log)|), world.log[cut..], store.resources)
    {
      hide PodsOfEvents, RunPods, CreatedIds, Orderly, Cleaned, StopTrace, PlannedLoop, Accounted, Announced,
          Reconciled;
      ghost var o, log, start := world.oracle, world.log, |world.log|;
      var run := Reuse.Run(plan.runId, plan.reuse);
      ghost var pods, rows, clock := [], store.resources, store.clock;
      progress.SetTotal(|plan.resources| + |plan.actions| + 2);
      ok, pods := ReconcileManagedPods();
      started, cut, work := ok, |world.log|, Work([], false, [], [], [], []);
      h := History.HistoryRun(o, run, clock, pods, Turning(start, clock, []));
      if !ok {
        return;
      }
      ReconciledReady(rows, clock, pods, CtxOf(o, run), plan.resources);
      store.RecordRun(plan.runId, plan.workflowHash, mode, RunStarted);
      if mode.ApplyMode? {
        ghost var loop;
        ok, cut, work, loop := ApplyAndRecord(run, plan, site, mode, onError, collected, bill, log);
        h := h.(loop := loop);
        RunAccounted(h, start, rows, store.resources, WorkCalls(site, work));
      } else {
        ok := StopAndRecord(plan, mode, onError, rows, clock, o.listing(start), pods);
      }
    }

    /** The body of an apply run, and its handler; the log before the run is given. */
    method ApplyAndRecord(run: Run, plan: Plan, site: Site, mode: RunMode, onError: OnError, collected: bool,
                          bill: Bill, ghost log: seq<Call>)
        returns (ok: bool, ghost cut: nat, ghost work: Work, ghost loop: Turning)
      requires Valid() && Honest(world.oracle) && Announced(plan) && mode.ApplyMode?
               && run == Reuse.Run(plan.runId, plan.reuse)
      requires Ready(CtxOf(world.oracle, run), store.resources, plan.resources) && world.log == log + [ListPods]
      requires progress.updates == 0 && progress.total == |plan.resources| + |plan.actions| + 2
      modifies world, store, progress
      ensures Valid() && progress.updates <= progress.total == old(progress.total)
      ensures plan.runId in store.runs && store.runs[plan.runId].status == if ok then RunCompleted else RunBroken
      ensures SameRun(old(store.runs), store.runs, plan.runId)
      ensures |log| <= cut <= |world.log| && world.log[..cut] == log + WorkCalls(site, work)
      ensures Orderly(world.oracle, site, plan, |log|, mode.wait, work, ok)
      ensures !ok && onError != LeaveRunning ==>
                Cleaned(world.oracle, plan.runId, onError == TerminateCreated, |log|, cut, world.log, store.resources)
      ensures ok || onError == LeaveRunning ==> cut == |world.log|
      ensures PlannedLoop(plan.resources, loop, ok)
      ensures LoopRan(world.oracle, run, old(store.resources), store.resources, loop, |log|, WorkCalls(site, work))
      ensures PodsOfEvents(store.events) == PodsOfEvents(old(store.events)) + RunPods(store.resources, plan.runId)
    {
      hide PodsOfEvents, Orderly, Quiet, Jobs, FreshRun, DistinctRows, Gather, TurnUpdates, RunPods, CreatedIds,
          PlannedLoop;
      ghost var o, before, rest := world.oracle, store.resources, Work([], false, [], [], [], []);
      ok, rest, loop := Apply(run, plan, site, mode.wait, collected, bill);
      ListingNoCreates();
      LoopRanAfter(o, run, before, store.resources, loop, |log|, |log| + 1, [ListPods], WorkCalls(site, rest));
      work := After([ListPods], rest);
      OrderlyAfter(o, site, plan, |log|, |log| + 1, mode.wait, [ListPods], rest, ok);
      Regroup(log, [ListPods], WorkCalls(site, rest));
      ghost var ended := world.log;
      cut := |ended|;
      if ok {
        store.RecordRun(plan.runId, plan.workflowHash, mode, RunCompleted);
        progress.Update();
      } else {
        HandleFailure(plan, mode, onError);
        CleanedUp(o, plan.runId, onError == TerminateCreated, log, before, store.resources, WorkCalls(site, rest),
                  ended, world.log, onError);
      }
    }

    /** The body of a stop or terminate run, and its handler. */
    method StopAndRecord(plan: Plan, mode: RunMode, onError: OnError, ghost rows: Rows, ghost clock: nat,
                         ghost listing: Option<seq<Pod>>, ghost pods: seq<Pod>) returns (ok: bool)
      requires Valid() && !mode.ApplyMode? && listing == Some(pods)
               && store.resources == Reconciled(rows, clock, pods).0
      requires plan.runId in store.runs && store.runs[plan.runId].status == RunStarted
      modifies world, store, progress
      ensures Valid() && plan.runId in store.runs
              && store.runs[plan.runId].status == if ok then RunStarted else RunBroken
      ensures SameRun(old(store.runs), store.runs, plan.runId)
      ensures ok ==> |old(world.log)| <= |world.log|
      ensures ok ==> OnlyEnds(mode == TerminateMode, world.log[|old(world.log)|..])
      ensures ok ==>
                StopTrace(plan, mode.TerminateMode?, rows, clock, listing, world.log[|old(world.log)|..],
                          store.resources)
    {
      ghost var before, visits, calls := store.resources, [], [];
      ok, visits, calls := Lifecycle(plan, mode.TerminateMode?);
      if ok {
        StoppedBy(plan, mode.TerminateMode?, rows, clock, listing, pods, before, visits, calls,
                  world.log[|old(world.log)|..], store.resources);
      } else {
        HandleFailure(plan, mode, onError);
      }
    }
  }

  /** The calls of an apply: up to the session, the steps of the session (if it began), waiting for the response,
      copying the image, and what the keep-alive policy asks for. */
  datatype Work = Work(front: seq<Call>, began: bool, steps: seq<Done>, waited: seq<Call>, copied: seq<Call>,
                       ended: seq<Call>)

  function WorkCalls(site: Site, w: Work): seq<Call> {
    w.front + (Flat(CallsIn(site), w.steps) + (w.waited + (w.copied + w.ended)))
  }

  /** f"test -s {shell_env(path)} && base64 -w 0 {shell_env(path)}" */
  function ImageCommand(path: string): string {
    "test -s " + Shell.ShellEnv(path) + " && base64 -w 0 " + Shell.ShellEnv(path)
  }

  lemma {:induction false} TwoParts(a: Shell.Part, b: Shell.Part)
    ensures Shell.PartsLine([a, b]) == " " + Shell.PartText(a) + (" " + Shell.PartText(b))
    ensures Shell.Words([a, b]) == [Shell.Word(Shell.PartWord(a)), Shell.Word(Shell.PartWord(b))]
  {
    hide Shell.PartText, Shell.PartWord;
    Shell.PartsLineCons(a, [b]);
    Shell.PartsLineCons(b, []);
    assert [a] + [b] == [a, b] && [b] + [] == [b];
  }

  lemma {:induction false} ThreeParts(a: Shell.Part, b: Shell.Part, c: Shell.Part)
    ensures Shell.PartsLine([a, b, c])
            == " " + Shell.PartText(a) + (" " + Shell.PartText(b) + (" " + Shell.PartText(c)))
    ensures Shell.Words([a, b, c])
            == [Shell.Word(Shell.PartWord(a)), Shell.Word(Shell.PartWord(b)), Shell.Word(Shell.PartWord(c))]
  {
    hide Shell.PartText, Shell.PartWord, Shell.PartsLine, Shell.Words;
    TwoParts(b, c);
    Shell.PartsLineCons(a, [b, c]);
    assert [a] + [b, c] == [a, b, c];
  }

  lemma {:induction false} ImageText(quoted: string)
    ensures "test -s " + quoted + " && base64 -w 0 " + quoted
            == "test" + ((" " + "-s" + (" " + quoted))
                         + (" && " + ("base64" + (" " + "-w" + (" " + "0" + (" " + quoted))))))
  {
    assert "test -s " == "test" + (" " + "-s" + " ");
    assert " && base64 -w 0 " == " && " + ("base64" + (" " + "-w" + (" " + "0" + " ")));
  }

  lemma {:induction false} PartIs(text: string, value: string)
    ensures Shell.PartText(Shell.Unquoted(text)) == text && Shell.PartWord(Shell.Unquoted(text)) == text
    ensures Shell.PartText(Shell.Affixed("", value)) == Shell.ShellEnv(value)
            && Shell.PartWord(Shell.Affixed("", value)) == value
    ensures Shell.PartOk(Shell.Affixed("", value))
  {
    hide Shell.ShellEnv;
    assert "" + Shell.ShellEnv(value) == Shell.ShellEnv(value);
  }

  lemma {:induction false} ImageWordsOk()
    ensures Shell.PartOk(Shell.Unquoted("test")) && Shell.PartOk(Shell.Unquoted("-s"))
    ensures Shell.PartOk(Shell.Unquoted("base64")) && Shell.PartOk(Shell.Unquoted("-w"))
    ensures Shell.PartOk(Shell.Unquoted("0"))
  {
  }

  /** The shell tests that the file is there and not empty, and only then encodes it, whatever its path looks like. */
  lemma {:induction false} ImageCommandReads(path: string)
    ensures Shell.Read(ImageCommand(path))
            == [Shell.SimpleCommand([Shell.Word("test")] + [Shell.Word("-s"), Shell.Word(path)]
                                    + [Shell.Op('&'), Shell.Op('&')]
                                    + ([Shell.Word("base64")]
                                       + [Shell.Word("-w"), Shell.Word("0"), Shell.Word(path)]), [])]
  {
    hide Shell.Read, Shell.ShellEnv, Shell.PartsLine, Shell.Words, Shell.PartText, Shell.PartWord, Shell.PartOk;
    var s, w, z, p := Shell.Unquoted("-s"), Shell.Unquoted("-w"), Shell.Unquoted("0"), Shell.Affixed("", path);
    PartIs("test", path);
    PartIs("-s", path);
    PartIs("base64", path);
    PartIs("-w", path);
    PartIs("0", path);
    ImageWordsOk();
    TwoParts(s, p);
    ThreeParts(w, z, p);
    ImageText(Shell.ShellEnv(path));
    Shell.AndRoundTrip(Shell.Unquoted("test"), [s, p], Shell.Unquoted("base64"), [w, z, p]);
  }

  function ImageCalls(wait: bool, site: Site): seq<Call> {
    if wait && site.image != "" then [Ssh(ImageCommand(site.image))] else []
  }

  function ScheduleCalls(keepAlive: Option<KeepAlive>, podId: string): seq<Call> {
    if Timed(keepAlive) && keepAlive.value.seconds > 0 && keepAlive.value.serverSide then [Schedule(podId)] else []
  }

  function ReachCalls(keepAlive: Option<KeepAlive>, podId: string): seq<Call> {
    ScheduleCalls(keepAlive, podId) + [AwaitEndpoint(podId), AwaitSsh]
  }

  function ResponseCalls(wait: bool, steps: seq<Done>): seq<Call> {
    if wait && AllWent(steps) && Launched(steps) then [AwaitResponse] else []
  }

  function TurnsAfter(counters: map<string, nat>, runId: string, collected: bool): nat {
    if collected then (if runId in counters then counters[runId] else 0) + 1 else 0
  }

  /** What the cloud says of the agent's pod: the seconds it has been up and its price per hour. */
  datatype Bill = Bill(uptime: real, perHour: real)

  function EstimatedCost(bill: Bill): real {
    (bill.uptime / 3600.0) * bill.perHour
  }

  predicate CountsTurns(keepAlive: Option<KeepAlive>) {
    keepAlive.Some? && keepAlive.value.serverSide && keepAlive.value.mode == TurnsMode
  }

  /** A limit enforced by the server has been reached: of the turns that got a response, or of the dollars that the pod
      has cost by the hour since it came up. */
  predicate Due(keepAlive: Option<KeepAlive>, turns: nat, bill: Bill) {
    && keepAlive.Some? && keepAlive.value.serverSide
    && match keepAlive.value.mode
       case TurnsMode => 0 < keepAlive.value.turnLimit <= turns
       case CostMode =>
         keepAlive.value.costLimit != 0.0 && bill.uptime * bill.perHour >= keepAlive.value.costLimit * 3600.0
       case TimeMode => false
       case ManualMode => false
  }

  /** The pod is stopped or terminated when a turn or cost limit enforced by the server has been reached. */
  function EnforceCalls(keepAlive: Option<KeepAlive>, podId: string, turns: nat, bill: Bill): seq<Call> {
    if keepAlive.Some? && keepAlive.value.serverSide
       && ((keepAlive.value.mode == TurnsMode && keepAlive.value.turnLimit > 0 && turns >= keepAlive.value.turnLimit)
           || (keepAlive.value.mode == CostMode && keepAlive.value.costLimit != 0.0
               && EstimatedCost(bill) >= keepAlive.value.costLimit))
    then [EndCall(keepAlive.value.action == TerminatePod, podId)]
    else []
  }

  /** No commands and no files over SSH. */
  predicate Quiet(calls: seq<Call>) {
    forall i :: 0 <= i < |calls| ==> !calls[i].Ssh? && !calls[i].WriteFile?
  }

  /** Over SSH an apply does nothing but walk through the actions of the plan and then copy the image, and nothing after
      a step that failed. */
  ghost predicate Orderly(o: Oracle, site: Site, plan: Plan, n: nat, wait: bool, w: Work, ok: bool) {
    && Quiet(w.front) && Quiet(w.waited) && Quiet(w.ended)
    && (if w.began then w.steps == Walk(PerformerOf(o, site), CallsIn(site), plan.actions, n + |w.front|)
        else w.steps == [] && w.waited == [] && w.copied == [] && w.ended == [] && !ok)
    && (w.began ==> w.waited == ResponseCalls(wait, w.steps))
    && (w.copied == [] || w.copied == ImageCalls(wait, site)) && (ok ==> w.copied == ImageCalls(wait, site))
    && (!AllWent(w.steps) ==> w.copied == [] && w.ended == [] && !ok)
  }

  lemma {:induction false} ReachQuiet(keepAlive: Option<KeepAlive>, podId: string, front: seq<Call>)
    requires front <= ReachCalls(keepAlive, podId)
    ensures Quiet(front) && NoCreates(front)
  {
    var all := ReachCalls(keepAlive, podId);
    assert forall i :: 0 <= i < |front| ==> front[i] == all[i];
  }

  lemma {:induction false} EnforceQuiet(keepAlive: Option<KeepAlive>, podId: string, turns: nat, bill: Bill,
                                        ended: seq<Call>)
    requires ended == EnforceCalls(keepAlive, podId, turns, bill)
    ensures Quiet(ended) && NoCreates(ended)
  {
  }

  lemma {:induction false} NotBegun(o: Oracle, site: Site, plan: Plan, n: nat, wait: bool, w: Work)
    requires !w.began && w.steps == [] && w.waited == [] && w.copied == [] && w.ended == [] && Quiet(w.front)
    ensures Orderly(o, site, plan, n, wait, w, false)
    ensures WorkCalls(site, w) == w.front
  {
    assert w.front + ([] + ([] + ([] + []))) == w.front;
  }

  lemma {:induction false} StepsFit(o: Oracle, site: Site, actions: seq<Action>, n: nat, steps: seq<Done>)
    requires steps == Walk(PerformerOf(o, site), CallsIn(site), actions, n)
    ensures |steps| <= |Jobs(actions)| && NoCreates(Flat(CallsIn(site), steps))
  {
    PerformFits(o, site);
    WalkFollows(PerformerOf(o, site), CallsIn(site), actions, n, steps);
    FlatCreatesNothing(site, steps);
  }

  lemma {:induction false} NoImageCreates(wait: bool, site: Site)
    ensures NoCreates(ImageCalls(wait, site)) && NoCreates([]) && Quiet([])
  {
  }

  /** A session that has begun, before the image is copied. */
  ghost predicate InSession(o: Oracle, site: Site, plan: Plan, n: nat, wait: bool, w: Work) {
    && w.began && Quiet(w.front) && w.copied == [] && w.ended == [] && w.waited == ResponseCalls(wait, w.steps)
    && w.steps == Walk(PerformerOf(o, site), CallsIn(site), plan.actions, n + |w.front|)
  }

  lemma {:induction false} SessionFailed(o: Oracle, site: Site, plan: Plan, n: nat, wait: bool, w: Work)
    requires InSession(o, site, plan, n, wait, w)
    ensures Orderly(o, site, plan, n, wait, w, false)
  {
  }

  lemma {:induction false} BegunNoCreates(site: Site, w: Work)
    requires NoCreates(w.front) && NoCreates(Flat(CallsIn(site), w.steps)) && w.copied == [] && w.ended == []
    requires w.waited == [] || w.waited == [AwaitResponse]
    ensures NoCreates(WorkCalls(site, w))
  {
  }

  /** What follows a session all of whose steps went well. */
  lemma {:induction false} FollowedBy(o: Oracle, site: Site, plan: Plan, n: nat, wait: bool, w: Work, all: Work,
                                      ok: bool)
    requires InSession(o, site, plan, n, wait, w) && AllWent(w.steps)
    requires all == w.(copied := ImageCalls(wait, site), ended := all.ended) && Quiet(all.ended)
    ensures Orderly(o, site, plan, n, wait, all, ok)
  {
  }

  lemma {:induction false} WorkRegroup(log: seq<Call>, site: Site, w: Work)
    requires w.copied == [] && w.ended == []
    ensures (log + w.front) + Flat(CallsIn(site), w.steps) + w.waited == log + WorkCalls(site, w)
  {
  }

  lemma {:induction false} WorkEnded(log: seq<Call>, site: Site, w: Work, all: Work)
    requires w.copied == [] && w.ended == [] && all == w.(copied := all.copied, ended := all.ended)
    ensures (log + WorkCalls(site, w)) + all.copied + all.ended == log + WorkCalls(site, all)
    ensures NoCreates(WorkCalls(site, w)) && NoCreates(all.copied) && NoCreates(all.ended)
            ==> NoCreates(WorkCalls(site, all))
  {
    WorkJoin(w.front, Flat(CallsIn(site), w.steps), w.waited, all.copied, all.ended);
    Regroup(log, WorkCalls(site, w), all.copied + all.ended);
    Regroup(log + WorkCalls(site, w), all.copied, all.ended);
  }

  lemma {:induction false} WorkJoin(a: seq<Call>, b: seq<Call>, c: seq<Call>, d: seq<Call>, e: seq<Call>)
    ensures (a + (b + (c + ([] + [])))) + (d + e) == a + (b + (c + (d + e)))
  {
  }

  function After(calls: seq<Call>, w: Work): Work {
    w.(front := calls + w.front)
  }

  lemma {:induction false} OrderlyAfter(o: Oracle, site: Site, plan: Plan, n: nat, m: nat, wait: bool, calls: seq<Call>,
                                        w: Work, ok: bool)
    requires Quiet(calls) && m == n + |calls| && Orderly(o, site, plan, m, wait, w, ok)
    ensures Orderly(o, site, plan, n, wait, After(calls, w), ok)
    ensures WorkCalls(site, After(calls, w)) == calls + WorkCalls(site, w)
  {
    assert n + |calls + w.front| == m + |w.front|;
  }

  // The resource loop uses no SSH.

  ghost predicate AllQuiet(ctx: Ctx) {
    forall n: nat, rows: Rows, r: Resource :: Quiet(ctx.acquire(n, rows, r).calls)
  }

  lemma {:induction false} AcquisitionsQuiet(o: Oracle, run: Run)
    ensures AllQuiet(CtxOf(o, run))
  {
    forall n: nat, rows: Rows, r: Resource ensures Quiet(CtxOf(o, run).acquire(n, rows, r).calls) {
      AcquireQuiet(o, n, run, rows, r, RowId(run.runId)(r));
    }
  }

  lemma {:induction false} AcquireQuiet(o: Oracle, n: nat, run: Run, rows: Rows, r: Resource, rowId: string)
    ensures Quiet(Acquire(o, n, run, rows, r, rowId).calls)
  {
  }

  lemma {:induction false} GatherAllQuiet(o: Oracle, n: nat, ctx: Ctx, rows: Rows, clock: nat, resources: seq<Resource>,
                                          g: Gathering)
    requires AllQuiet(ctx) && g == Gather(o, n, ctx, rows, clock, resources)
    ensures Quiet(g.calls)
    decreases |resources|
  {
    if resources != [] {
      var m := |resources| - 1;
      var h := Gather(o, n, ctx, rows, clock, resources[..m]);
      GatherAllQuiet(o, n, ctx, rows, clock, resources[..m], h);
      TurnQuiet(o, n, ctx, h, resources[m], g);
    }
  }

  lemma {:induction false} TurnQuiet(o: Oracle, n: nat, ctx: Ctx, g: Gathering, r: Resource, q: Gathering)
    requires AllQuiet(ctx) && Quiet(g.calls) && q == GatherOne(o, n, ctx, g, r)
    ensures Quiet(q.calls)
  {
    if g.ok {
      var a := ctx.acquire(n + |g.calls|, Pending(ctx, g, r), r);
      assert Quiet(a.calls);
      assert q == Settle(o, n, ctx, g, r, Pending(ctx, g, r), a);
    }
  }

  lemma {:induction false} GatherQuiet(o: Oracle, run: Run, n: nat, ctx: Ctx, rows: Rows, clock: nat,
                                       resources: seq<Resource>, g: Gathering)
    requires ctx == CtxOf(o, run) && g == Gather(o, n, ctx, rows, clock, resources)
    ensures Quiet(g.calls)
  {
    AcquisitionsQuiet(o, run);
    GatherAllQuiet(o, n, ctx, rows, clock, resources, g);
  }

  datatype OnError = StopCreated | TerminateCreated | LeaveRunning

  /** The announced number of steps is enough for the updates of an apply run. */
  predicate Announced(plan: Plan) {
    TurnUpdates(plan.resources) + |Jobs(plan.actions)| + 3 + (if plan.keepAlive.Some? then 1 else 0)
        <= |plan.resources| + |plan.actions| + 2
  }

  /** After the body of the run ended at `cut`, exactly the pods in the rows of the run were stopped or terminated,
      newest first; and every pod created by the run is among them. */
  ghost predicate Cleaned(o: Oracle, runId: string, terminate: bool, start: nat, cut: nat, log: seq<Call>, rows: Rows) {
    && start <= cut <= |log|
    && Mirrors(log[cut..], RunPods(rows, runId), terminate)
    && forall id :: id in CreatedIds(o, start, log[start..cut]) ==>
         (if terminate then TerminatePodCall(id) else StopPodCall(id)) in log[cut..]
  }

  /** Nothing is stopped by a run that terminates, and nothing terminated by one that stops. */
  predicate OnlyEnds(terminate: bool, calls: seq<Call>) {
    forall i :: 0 <= i < |calls| ==> if terminate then !calls[i].StopPodCall? else !calls[i].TerminatePodCall?
  }

  lemma {:induction false} StopOnlyEnds(s: Stop, visited: seq<ResourceRow>, visits: seq<Visit>, calls: seq<Call>,
                                        now: Rows)
    requires UniqueIds(s.before) && visited == Visited(Reversed(s.before), s.hashes)
             && Dealt(s, visited, visits, calls, now)
    ensures OnlyEnds(s.terminate, calls)
  {
    StopIsExact(s, visited, visits, calls, now);
  }

  /** A stop or terminate run that ended normally, as a change of the reconciled ledger and a trace of calls. */
  ghost predicate StopTrace(plan: Plan, terminate: bool, rows: Rows, clock: nat, listing: Option<seq<Pod>>,
                            calls: seq<Call>, now: Rows) {
    && listing.Some?
    && var before := Reconciled(rows, clock, listing.value).0;
       exists visits ::
         Dealt(StopOf(plan, before, terminate), Visited(Reversed(before), HashesOf(plan.resources)), visits, calls, now)
  }

  lemma {:induction false} StoppedBy(plan: Plan, terminate: bool, rows: Rows, clock: nat, listing: Option<seq<Pod>>,
                                     pods: seq<Pod>, before: Rows, visits: seq<Visit>, calls: seq<Call>, all: seq<Call>,
                                     now: Rows)
    requires listing == Some(pods) && before == Reconciled(rows, clock, pods).0 && all == calls
    requires Dealt(StopOf(plan, before, terminate), Visited(Reversed(before), HashesOf(plan.resources)), visits, calls,
             now)
    ensures StopTrace(plan, terminate, rows, clock, listing, all, now)
  {
  }

  /** What such a run has done, row by row of the reconciled ledger: the pods of exactly the rows with a pod and a hash
      of the plan were stopped, or terminated, newest first, and these rows say so. */
  lemma {:induction false} StopRunIsExact(plan: Plan, terminate: bool, rows: Rows, clock: nat,
                                          listing: Option<seq<Pod>>, calls: seq<Call>, now: Rows, before: Rows)
      returns (visited: seq<ResourceRow>)
    requires StopTrace(plan, terminate, rows, clock, listing, calls, now)
    requires before == Reconciled(rows, clock, listing.value).0 && UniqueIds(before)
    ensures EndsOf(EndCalls(calls), visited, terminate) && OnlyEnds(terminate, calls)
    ensures forall row :: row in visited <==>
              row in before && row.podId.Some? && exists r :: r in plan.resources && r.desiredHash == row.hash
    ensures |now| == |before|
    ensures forall k :: 0 <= k < |now| ==>
              now[k] == if before[k] in visited
                        then before[k].(status := if terminate then MarkedTerminate else MarkedStop,
                                        lastSeen := now[k].lastSeen)
                        else before[k]
  {
    hide Dealt, EndsOf, EndCalls, Reconciled;
    visited := Visited(Reversed(before), HashesOf(plan.resources));
    var visits :| Dealt(StopOf(plan, before, terminate), visited, visits, calls, now);
    StopIsExact(StopOf(plan, before, terminate), visited, visits, calls, now);
    assert forall hash: string ::
        hash in HashesOf(plan.resources) <==> exists r :: r in plan.resources && r.desiredHash == hash;
  }

  lemma {:induction false} ReconciledReady(rows: Rows, clock: nat, pods: seq<Pod>, ctx: Ctx, resources: seq<Resource>)
    requires Ready(ctx, rows, resources) && Foreign(ctx, resources, pods)
    ensures Ready(ctx, Reconciled(rows, clock, pods).0, resources)
  {
    ReconciledFresh(rows, clock, pods, ctx, resources);
  }

  lemma {:induction false} ListingNoCreates()
    ensures NoCreates([ListPods]) && Quiet([ListPods])
  {
  }

  /** The run as an element of a history. */
  ghost predicate IsRun(h: History.HistoryRun, o: Oracle, plan: Plan, listing: Option<seq<Pod>>, clock: nat, ok: bool) {
    && h.o == o && h.run == Reuse.Run(plan.runId, plan.reuse) && Some(h.listed) == listing && h.listedAt == clock
    && PlannedLoop(plan.resources, h.loop, ok)
  }

  /** The ledger has gone one step of the history, and what the calls of the run created is what that step makes. */
  ghost predicate Accounted(h: History.HistoryRun, start: nat, before: Rows, after: Rows, calls: seq<Call>) {
    && after == History.Loop(before, h).rows
    && CreatedIds(h.o, start, calls) == History.IdsMade(History.MadeByRun(before, h))
  }

  lemma {:induction false} RunAccounted(h: History.HistoryRun, start: nat, before: Rows, after: Rows, calls: seq<Call>)
    requires Honest(h.o) && LoopRan(h.o, h.run, History.Ledger(before, h), after, h.loop, start, calls)
    ensures Accounted(h, start, before, after, calls)
  {
    AcquisitionsTraced(h.o, h.run);
    History.MadeAreCreated(h.o, h.loop.n, CtxOf(h.o, h.run), History.Ledger(before, h), h.loop.clock, h.loop.resources,
                           History.Loop(before, h));
  }

  lemma {:induction false} LogParts(log: seq<Call>, first: seq<Call>, calls: seq<Call>, tail: seq<Call>)
    ensures var ended := (log + first) + calls;
            (ended + tail)[|log|..|ended|] == first + calls && (ended + tail)[|ended|..] == tail
  {
  }

  lemma {:induction false} CleanedUp(o: Oracle, runId: string, terminate: bool, log: seq<Call>, before: Rows,
                                     after: Rows, calls: seq<Call>, ended: seq<Call>, final: seq<Call>,
                                     onError: OnError)
    requires ended == (log + [ListPods]) + calls && Covered(o, |log| + 1, runId, before, after, calls)
    requires final == ended + (if onError == LeaveRunning then [] else CleanupCalls(after, runId, terminate))
    ensures onError != LeaveRunning ==> Cleaned(o, runId, terminate, |log|, |ended|, final, after)
    ensures onError == LeaveRunning ==> |final| == |ended|
    ensures |ended| <= |final| && final[..|ended|] == ended
  {
    CoveredAfter(o, |log|, |log| + 1, runId, before, after, [ListPods], calls);
    if onError != LeaveRunning {
      LogParts(log, [ListPods], calls, CleanupCalls(after, runId, terminate));
      CleanupReversesRunPods(after, runId, terminate);
      forall id | id in CreatedIds(o, |log|, [ListPods] + calls)
        ensures EndCall(terminate, id) in CleanupCalls(after, runId, terminate)
      {
        CleanupReaches(after, runId, terminate, id);
      }
    }
  }

  ghost function StopOf(plan: Plan, rows: Rows, terminate: bool): Stop {
    Stop(rows, HashesOf(plan.resources), Filter(CommandsOf(plan.actions), IsTeardown), terminate)
  }

  /** {item.desired_hash for item in plan.resources} */
  function HashesOf(resources: seq<Resource>): set<string> {
    set r | r in resources :: r.desiredHash
  }

  /** What _apply needs of a plan and the ledger: rows of their own for its resources, the agent's last. */
  ghost predicate Ready(ctx: Ctx, rows: Rows, resources: seq<Resource>) {
    && FreshRun(rows, ctx, resources) && DistinctRows(ctx, resources)
    && resources != [] && resources[|resources| - 1].role == Agent
  }

  /** Every pod created by the calls is in a row of the run, and no earlier row has changed. */
  ghost predicate Covered(o: Oracle, n: nat, runId: string, before: Rows, after: Rows, calls: seq<Call>) {
    && (forall id :: id in CreatedIds(o, n, calls) ==> id in RunPods(after, runId))
    && |after| >= |before| && after[..|before|] == before
  }

  /** The ledger is where the resource loop has taken it, and what the calls create is what the loop creates. */
  ghost predicate LoopRan(o: Oracle, run: Run, before: Rows, after: Rows, loop: Turning, start: nat, calls: seq<Call>) {
    var g := Gather(o, loop.n, CtxOf(o, run), before, loop.clock, loop.resources);
    after == g.rows && CreatedIds(o, start, calls) == CreatedIds(o, loop.n, g.calls)
  }

  /** The loop goes through the planned resources with their volumes settled, or never began. */
  ghost predicate PlannedLoop(planned: seq<Resource>, loop: Turning, ok: bool) {
    || (loop.resources == [] && !ok)
    || exists ids: seq<string> :: |ids| == |planned| && loop.resources == Volumes.AllSettled(planned, ids)
  }

  lemma {:induction false} FreshRunNoPods(ctx: Ctx, rows: Rows, resources: seq<Resource>)
    requires Ready(ctx, rows, resources)
    ensures RunPods(rows, ctx.runId) == []
  {
    NoPodsOfOthers(rows, ctx.runId);
  }

  lemma {:induction false} NothingGathered(o: Oracle, run: Run, rows: Rows, loop: Turning, n: nat, calls: seq<Call>)
    requires loop.resources == [] && NoCreates(calls)
    ensures LoopRan(o, run, rows, rows, loop, n, calls)
  {
    NoCreatesNoIds(o, n, calls);
  }

  lemma {:induction false} LoopRanAfter(o: Oracle, run: Run, before: Rows, after: Rows, loop: Turning, n: nat, m: nat,
                                        first: seq<Call>, calls: seq<Call>)
    requires m == n + |first| && NoCreates(first) && LoopRan(o, run, before, after, loop, m, calls)
    ensures LoopRan(o, run, before, after, loop, n, first + calls)
  {
    CreatedAround(o, n, first, calls, []);
  }

  lemma {:induction false} NoCreatesNoIds(o: Oracle, n: nat, calls: seq<Call>)
    requires NoCreates(calls)
    ensures CreatedIds(o, n, calls) == []
    decreases |calls|
  {
    if calls != [] {
      NoCreatesNoIds(o, n, calls[..|calls| - 1]);
    }
  }

  lemma {:induction false} AskedNoCreates(calls: seq<Volumes.Key>)
    ensures NoCreates(Volumes.Asked(calls)) && Quiet(Volumes.Asked(calls))
  {
  }

  lemma {:induction false} VolumesCreateNoPods(volume: nat -> Option<string>, n: nat, resources: seq<Resource>,
                                               calls: seq<Call>, out: Option<seq<Resource>>)
    requires Volumes.Materialized(volume, n, resources, calls, out)
    ensures NoCreates(calls) && Quiet(calls)
    ensures out.Some? ==>
              exists ids: seq<string> :: |ids| == |resources| && out.value == Volumes.AllSettled(resources, ids)
  {
    AskedNoCreates(Volumes.Walk(volume, n, Volumes.WantsOf(resources)).calls);
  }

  lemma {:induction false} NothingYetCovered(o: Oracle, n: nat, runId: string, rows: Rows, calls: seq<Call>)
    requires NoCreates(calls)
    ensures Covered(o, n, runId, rows, rows, calls)
  {
    NoCreatesNoIds(o, n, calls);
  }

  lemma {:induction false} CreatedAround(o: Oracle, n: nat, before: seq<Call>, calls: seq<Call>, after: seq<Call>)
    ensures NoCreates(after) ==> CreatedIds(o, n, calls + after) == CreatedIds(o, n, calls)
    ensures NoCreates(before) ==> CreatedIds(o, n, before + calls) == CreatedIds(o, n + |before|, calls)
  {
    CreatedConcat(o, n, calls, after);
    CreatedConcat(o, n, before, calls);
    var x, y := CreatedIds(o, n, calls), CreatedIds(o, n + |before|, calls);
    assert x + [] == x && [] + y == y;
    if NoCreates(after) {
      NoCreatesNoIds(o, n + |calls|, after);
    }
    if NoCreates(before) {
      NoCreatesNoIds(o, n, before);
    }
  }

  lemma {:induction false} RestCovered(o: Oracle, n: nat, runId: string, before: Rows, after: Rows, calls: seq<Call>,
                                       rest: seq<Call>)
    requires Covered(o, n, runId, before, after, calls) && NoCreates(rest)
    ensures Covered(o, n, runId, before, after, calls + rest)
            && CreatedIds(o, n, calls + rest) == CreatedIds(o, n, calls)
  {
    CreatedAround(o, n, [], calls, rest);
  }

  lemma {:induction false} CoveredAfter(o: Oracle, n: nat, m: nat, runId: string, before: Rows, after: Rows,
                                        volumes: seq<Call>, calls: seq<Call>)
    requires m == n + |volumes| && Covered(o, m, runId, before, after, calls) && NoCreates(volumes)
    ensures Covered(o, n, runId, before, after, volumes + calls)
  {
    CreatedAround(o, n, volumes, calls, []);
  }

  lemma {:induction false} SettledSame(resources: seq<Resource>, ids: seq<string>, i: nat)
    requires i < |resources| == |ids|
    ensures var r, s := resources[i], Volumes.AllSettled(resources, ids)[i];
            s.role == r.role && s.nodeId == r.nodeId && s.desiredHash == r.desiredHash && s.name == r.name
  {
    Volumes.SettledAtIndex(resources, ids, i);
  }

  /** Resources that differ in nothing the ledger's keys depend on. */
  ghost predicate SameKeys(a: seq<Resource>, b: seq<Resource>) {
    |a| == |b| && forall i :: 0 <= i < |a| ==> a[i].role == b[i].role && a[i].desiredHash == b[i].desiredHash
  }

  lemma {:induction false} SameKeysSameRows(runId: string, a: seq<Resource>, b: seq<Resource>, i: nat)
    requires SameKeys(a, b) && i < |a|
    ensures RowId(runId)(a[i]) == RowId(runId)(b[i])
  {
  }

  lemma {:induction false} SettledReady(o: Oracle, run: Run, ctx: Ctx, rows: Rows, resources: seq<Resource>,
                                        settled: seq<Resource>)
    requires ctx == CtxOf(o, run) && Ready(ctx, rows, resources)
    requires exists ids: seq<string> :: |ids| == |resources| && settled == Volumes.AllSettled(resources, ids)
    ensures Ready(ctx, rows, settled) && TurnUpdates(settled) == TurnUpdates(resources)
  {
    var ids: seq<string> :| |ids| == |resources| && settled == Volumes.AllSettled(resources, ids);
    forall i | 0 <= i < |resources|
      ensures settled[i].role == resources[i].role && settled[i].desiredHash == resources[i].desiredHash
    {
      SettledSame(resources, ids, i);
    }
    ReadySame(o, run, ctx, rows, resources, settled);
    UpdatesSame(resources, settled);
  }

  lemma {:induction false} ReadySame(o: Oracle, run: Run, ctx: Ctx, rows: Rows, a: seq<Resource>, b: seq<Resource>)
    requires ctx == CtxOf(o, run) && Ready(ctx, rows, a) && SameKeys(a, b)
    ensures Ready(ctx, rows, b)
  {
    forall i | 0 <= i < |a| ensures ctx.rowId(b[i]) == ctx.rowId(a[i]) {
      SameKeysSameRows(run.runId, a, b, i);
    }
    forall j | 0 <= j < |b| ensures NoRowYet(rows, ctx, b[j]) {
      assert NoRowYet(rows, ctx, a[j]);
    }
  }

  lemma {:induction false} UpdatesSame(a: seq<Resource>, b: seq<Resource>)
    requires SameKeys(a, b)
    ensures TurnUpdates(a) == TurnUpdates(b)
    decreases |a|
  {
    if a != [] {
      UpdatesSame(a[..|a| - 1], b[..|b| - 1]);
    }
  }

  lemma {:induction false} GatheredCovers(o: Oracle, run: Run, ctx: Ctx, n: nat, rows: Rows, resources: seq<Resource>,
                                          clock: nat, g: Gathering)
    requires ctx == CtxOf(o, run) && Honest(o) && Ready(ctx, rows, resources)
             && g == Gather(o, n, ctx, rows, clock, resources)
    ensures Covered(o, n, run.runId, rows, g.rows, g.calls) && RunPods(g.rows, run.runId) == PodsOfEvents(g.events)
  {
    AcquisitionsTraced(o, run);
    NothingLost(o, n, ctx, rows, clock, resources, g);
  }

  lemma {:induction false} LastPod(o: Oracle, n: nat, ctx: Ctx, rows: Rows, clock: nat, resources: seq<Resource>,
                                   g: Gathering)
    requires Ready(ctx, rows, resources) && g == Gather(o, n, ctx, rows, clock, resources) && g.ok
    ensures |g.pods| == |resources|
  {
    assert resources[..|resources|] == resources;
    GatherRecorded(o, n, ctx, rows, clock, resources, |resources|, g);
  }

  predicate Timed(keepAlive: Option<KeepAlive>) {
    keepAlive.Some? && keepAlive.value.mode == TimeMode
  }

  predicate NoCreates(calls: seq<Call>) {
    forall i :: 0 <= i < |calls| ==> !calls[i].CreatePod?
  }

  lemma {:induction false} RepeatCreatesNothing(c: Call, k: nat)
    requires !c.CreatePod?
    ensures NoCreates(Repeat(c, k))
  {
    if k > 0 {
      RepeatCreatesNothing(c, k - 1);
    }
  }

  lemma {:induction false} WritesCreateNothing(paths: seq<string>)
    ensures NoCreates(WriteCalls(paths))
    decreases |paths|
  {
    if paths != [] {
      WritesCreateNothing(paths[..|paths| - 1]);
    }
  }

  lemma {:induction false} StepCreatesNothing(site: Site, d: Done)
    ensures NoCreates(CallsOf(site, d))
  {
    match d
    case DidRun(ran) => RepeatCreatesNothing(Ssh(ran.command.command), ran.runs);
    case DidWrite(count, _) => WritesCreateNothing(if count <= |site.paths| then site.paths[..count] else site.paths);
    case _ =>
  }

  lemma {:induction false} FlatCreatesNothing(site: Site, steps: seq<Done>)
    ensures NoCreates(Flat(CallsIn(site), steps))
    decreases |steps|
  {
    if steps != [] {
      FlatCreatesNothing(site, steps[..|steps| - 1]);
      StepCreatesNothing(site, steps[|steps| - 1]);
    }
  }

  /** An upper bound of the progress updates of the resource loop. */
  function TurnUpdates(resources: seq<Resource>): nat {
    if resources == [] then 0
    else TurnUpdates(resources[..|resources| - 1]) + (if resources[|resources| - 1].role == Agent then 1 else 2)
  }

  lemma {:induction false} TurnUpdatesNext(resources: seq<Resource>, i: nat)
    requires i < |resources|
    ensures TurnUpdates(resources[..i + 1])
            == TurnUpdates(resources[..i]) + (if resources[i].role == Agent then 1 else 2)
    ensures TurnUpdates(resources[..i + 1]) <= TurnUpdates(resources)
    decreases |resources|
  {
    assert resources[..i + 1][..i] == resources[..i];
    var m := |resources| - 1;
    if i < m {
      TurnUpdatesNext(resources[..m], i);
      assert resources[..m][..i + 1] == resources[..i + 1];
    } else {
      assert resources[..i + 1] == resources;
    }
  }

  /** How far a settled turn has got, in its three ways of ending. */
  lemma {:induction false} SettleOutcome(o: Oracle, n: nat, ctx: Ctx, g: Gathering, r: Resource, pending: Rows,
                                         a: Acquired, q: Gathering)
    requires q == Settle(o, n, ctx, g, r, pending, a)
    ensures q.events == g.events + a.events && (a.pod.None? || r.role == Agent ==> q.calls == g.calls + a.calls)
    ensures a.pod.None? ==> q.rows == pending && q.clock == g.clock + 1 && !q.ok
    ensures a.pod.Some? ==>
              var pod := a.pod.value;
              var row := ResourceEntry(ctx.rowId(r), ctx.runId, r, Some(pod.id), Reported(pod.status), g.clock + 1);
              && q.rows == Upsert(pending, row)
              && q.clock == g.clock + 2 && q.pods == g.pods + [pod]
    ensures a.pod.Some? && r.role == Agent ==> q.ok
    ensures a.pod.Some? && r.role != Agent ==>
              var call := AwaitReady(a.pod.value.id);
              q.calls == g.calls + a.calls + [call] && q.ok == o.done(n + |g.calls + a.calls|, call)
  {
  }

  lemma {:induction false} OneTurn(o: Oracle, n: nat, ctx: Ctx, g: Gathering, r: Resource, pending: Rows, a: Acquired,
                                   q: Gathering)
    requires g.ok && pending == Pending(ctx, g, r) && a == ctx.acquire(n + |g.calls|, pending, r)
             && q == Settle(o, n, ctx, g, r, pending, a)
    ensures q == GatherOne(o, n, ctx, g, r)
  {
  }

  lemma {:induction false} AcquiredInCtx(o: Oracle, run: Run, ctx: Ctx, m: nat, rows: Rows, r: Resource, a: Acquired)
    requires ctx == CtxOf(o, run) && a == Acquire(o, m, run, rows, r, RowId(run.runId)(r))
    ensures a == ctx.acquire(m, rows, r)
  {
  }

  lemma {:induction false} NewestStep(rows: Rows, hash: string, k: nat)
    requires 0 < k <= |rows|
    ensures var last := rows[k - 1];
            Newest(rows[..k], hash)
            == if last.hash == hash && last.podId.Some? then last.podId else Newest(rows[..k - 1], hash)
  {
    assert rows[..k][..k - 1] == rows[..k - 1];
  }

  // ---------------------------------------------------------------------------------------------
  // Plans of the planner meet what a run needs

  lemma {:induction false} JobsAtMost(actions: seq<Action>)
    ensures |Jobs(actions)| <= |actions|
  {
    if actions != [] {
      JobsAtMost(actions[1..]);
    }
  }

  lemma {:induction false} OpeningLength(deps: seq<Resource>, agentName: string)
    ensures |Opening(deps, agentName)| >= 2 * |deps| + 2
  {
    CreateLength(deps);
  }

  lemma {:induction false} CreateLength(deps: seq<Resource>)
    ensures |CreateAll(deps)| == |deps| == |WaitAll(deps)|
    decreases |deps|
  {
    if deps != [] {
      CreateLength(deps[..|deps| - 1]);
    }
  }

  lemma {:induction false} JobsLeaveClosing(front: seq<Action>, closing: seq<Action>, back: seq<Action>)
    requires NoJobs(closing)
    ensures |Jobs(front + (closing + back))| <= |front| + |back|
  {
    JobsConcat(front, closing + back);
    JobsConcat(closing, back);
    JobsOfNoJobs(closing);
    JobsAtMost(front);
    JobsAtMost(back);
  }

  lemma {:induction false} FivePartJobs(o: seq<Action>, b: seq<Action>, m: seq<Action>, a: seq<Action>, k: seq<Action>,
                                        t: seq<Action>)
    requires NoJobs(o) && NoJobs(k)
    ensures |Jobs(o + (b + (m + (a + (k + t)))))| <= |b| + |m| + |a| + |t|
  {
    JobsConcat(o, b + (m + (a + (k + t))));
    JobsOfNoJobs(o);
    assert b + (m + (a + (k + t))) == (b + (m + a)) + (k + t);
    JobsLeaveClosing(b + (m + a), k, t);
  }

  /** Of the actions of a plan, the opening ones and the keep-alive monitor are no steps over SSH. */
  lemma {:induction false} PlanJobsFit(deps: seq<Resource>, agentName: string, contract: seq<Command>,
                                       chain: Option<seq<Command>>, keepAlive: Option<KeepAlive>)
    ensures var actions := PlanActions(deps, agentName, contract, chain, keepAlive);
            |Jobs(actions)| + 2 * |deps| + 2 + (if keepAlive.Some? then 1 else 0) <= |actions|
  {
    OpeningNoJobs(deps, agentName);
    OpeningLength(deps, agentName);
    FivePartJobs(Opening(deps, agentName), RunAll(Group(contract, chain, IsBefore)), [WriteRuntime, LaunchAgent],
                 RunAll(Group(contract, chain, IsAfter)), Closing(keepAlive), RunAll(TeardownGroup(chain)));
  }

  lemma {:induction false} DependencyUpdates(deps: seq<Resource>)
    requires NoAgent(deps)
    ensures TurnUpdates(deps) == 2 * |deps|
    decreases |deps|
  {
    if deps != [] {
      DependencyUpdates(deps[..|deps| - 1]);
    }
  }

  lemma {:induction false} WithAgentUpdates(deps: seq<Resource>, agent: Resource)
    requires NoAgent(deps) && agent.role == Agent
    ensures TurnUpdates(deps + [agent]) == 2 * |deps| + 1
  {
    DependencyUpdates(deps);
    assert (deps + [agent])[..|deps|] == deps;
  }

  /** For any dependencies, commands and keep-alive policy, the announced total covers the updates of an apply run. */
  lemma {:induction false} BuiltIsAnnounced(t: Tables, d: Deployment, inputs: RunInputs)
    ensures Announced(Build(t, d, inputs))
  {
    var deps, agent := DependencyResources(t, inputs, OwnPodDependencies(d)), AgentResource(t, d, inputs);
    DependenciesDistinct(t, d, inputs);
    AgentNamed(t, d, inputs);
    WithAgentUpdates(deps, agent);
    PlanJobsFit(deps, agent.name, AgentContract(d, inputs).commands, d.chain, d.keepAlive);
  }

  /** A plan of the planner is ready to be run on any ledger that its run id is new to. */
  lemma {:induction false} BuiltIsReady(o: Oracle, t: Tables, d: Deployment, inputs: RunInputs, rows: Rows, ctx: Ctx)
    requires t.unicode.Sane() && DashFree(Take(inputs.workflowHash, 12))
    requires ctx == CtxOf(o, Reuse.Run(inputs.runId, d.reuse)) && FreshRun(rows, ctx, Build(t, d, inputs).resources)
    ensures Ready(ctx, rows, Build(t, d, inputs).resources)
  {
    var rs := Build(t, d, inputs).resources;
    PlanResources(t, d, inputs);
    forall i, j | 0 <= i < j < |rs| ensures ctx.rowId(rs[i]) != ctx.rowId(rs[j]) {
      NamesDistinct(t, d, inputs, i, j);
    }
  }
}
