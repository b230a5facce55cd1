/** The runner's side of an SSH session: its methods follow the specification of the steps. */
module Session {
  import opened Options
  import opened Text
  import opened Commands
  import opened Planner
  import opened Cloud
  import opened StateStore
  import opened Steps
  import opened Progress

  class AgentSession {
    const world: World
    const store: Store
    const progress: ComfyProgress

    constructor (world: World, store: Store, progress: ComfyProgress)
      ensures this.world == world && this.store == store && this.progress == progress
    {
      this.world, this.store, this.progress := world, store, progress;
    }

    /** The attempt loop of _run_ssh_command_action: run, and run again while the policy and the count allow. */
    method RunWithRetries(runId: string, c: Command) returns (ran: Ran)
      modifies world, store`events
      ensures ran == RunOf(ExitOf(world.oracle, c), c, |old(world.log)|)
      ensures world.log == old(world.log) + Repeat(Ssh(c.command), ran.runs)
      ensures store.events == old(store.events) + Repeat(Event(runId, CommandRetried, None, c.command), ran.runs - 1)
    {
      ghost var n, exit := |world.log|, ExitOf(world.oracle, c);
      var attempts := if c.retryCount > 0 then c.retryCount + 1 else 1;
      var attempt := 0;
      var outcome := world.RunCommand(c.command);
      while !Final(outcome) && c.policy == Retry && attempt < attempts - 1
        invariant attempt < Limit(c) && NoneFinal(exit, n, n + attempt) && outcome == exit(n + attempt)
        invariant world.log == old(world.log) + Repeat(Ssh(c.command), attempt + 1)
        invariant store.events == old(store.events) + Repeat(Event(runId, CommandRetried, None, c.command), attempt)
      {
        store.AddEvent(runId, CommandRetried, None, c.command);
        attempt := attempt + 1;
        outcome := world.RunCommand(c.command);
      }
      RunsAreUnique(exit, n, Limit(c), attempt + 1);
      ran := Ran(c, attempt + 1, outcome);
    }

    /** _run_ssh_command_action; false when it raises */
    method RunSshCommandAction(runId: string, c: Command, resourceId: Option<string>) returns (ok: bool, ghost ran: Ran)
      requires progress.Valid()
      modifies world, store`commands, store`events, progress
      ensures progress.Valid() && progress.updates == old(progress.updates) + 1 && progress.total == old(progress.total)
      ensures ran == RunOf(ExitOf(world.oracle, c), c, |old(world.log)|) && ok == Accepted(ran)
      ensures ok <==> ran.outcome.Exit? && (ran.outcome.code == 0 || c.policy == Continue)
      ensures world.log == old(world.log) + Repeat(Ssh(c.command), ran.runs)
      ensures store.commands == old(store.commands) + [CommandEntry(runId, resourceId, ran)]
      ensures store.commands[|old(store.commands)|]
              == match ran.outcome
                 case Raised => CommandRow(runId, resourceId, c, Running, None)
                 case Exit(code) =>
                   CommandRow(runId, resourceId, c, if code == 0 then Completed else Failed, Some(code))
      ensures store.events == old(store.events) + CommandEvents(runId, ran)
      ensures PodsOfEvents(store.events) == PodsOfEvents(old(store.events))
    {
      hide PodsOfEvents;
      progress.Update();
      var handle := store.StartCommand(runId, resourceId, c);
      var result := RunWithRetries(runId, c);
      ran := result;
      CommandEventsPlain(runId, ran, old(store.events));
      if result.outcome.Raised? {
        return false, ran;
      }
      var code := result.outcome.code;
      store.FinishCommand(handle, PhaseStatus(code), code);
      store.AddEvent(runId, CommandEnded, None, c.command);
      ok := code == 0 || c.policy == Continue;
    }

    /** _write_runtime_files; false when it raises */
    method WriteRuntimeFiles(runId: string, paths: seq<string>) returns (ok: bool, ghost count: nat)
      modifies world, store`events
      ensures count == WritesFrom(world.oracle.done, |old(world.log)|, paths)
              && ok == WritesAll(world.oracle.done, |old(world.log)|, paths)
      ensures world.log == old(world.log) + WriteCalls(paths[..count])
      ensures store.events == old(store.events) + if ok then [Event(runId, FilesWritten, None, "")] else []
      ensures PodsOfEvents(store.events) == PodsOfEvents(old(store.events))
    {
      hide PodsOfEvents;
      ghost var n, done := |world.log|, world.oracle.done;
      WritingStart(done, n, paths);
      for i := 0 to |paths|
        invariant world.log == old(world.log) + WriteCalls(paths[..i])
        invariant store.events == old(store.events)
        invariant Writing(done, n, paths, i)
      {
        WriteCallsNext(paths, i);
        WritingOn(done, n, paths, i);
        var written := world.Do(WriteFile(paths[i]));
        if !written {
          return false, i + 1;
        }
      }
      WritingEnd(done, n, paths);
      NoPodEvents(old(store.events), [Event(runId, FilesWritten, None, "")]);
      store.AddEvent(runId, FilesWritten, None, "");
      ok, count := true, |paths|;
    }

    /** One turn of the loop of _run_agent_ssh_steps; no step when the action is not for the agent's session. */
    method PerformStep(site: Site, runId: string, a: Action, resourceId: Option<string>)
        returns (ok: bool, ghost step: Option<Done>)
      requires progress.Valid()
      modifies world, store`commands, store`events, progress
      ensures progress.Valid() && progress.total == old(progress.total)
      ensures progress.updates <= old(progress.updates) + if step.Some? then 1 else 0
      ensures step == PerformerOf(world.oracle, site)(a, |old(world.log)|) && ok == Proceeds(step)
      ensures world.log == old(world.log) + CallsMade(CallsIn(site), step)
      ensures store.commands == old(store.commands) + EntryOf(runId, resourceId, step)
      ensures PodsOfEvents(store.events) == PodsOfEvents(old(store.events))
      ensures step.Some? ==> (step.value.DidLaunch? <==> a.LaunchAgent? && site.launch != "")
      ensures step.None? ==> !a.LaunchAgent?
    {
      hide PodsOfEvents, CommandEvents, WritesFrom, WritesAll;
      ok, step := true, None;
      match a
      case RunSsh(c) =>
        if c.phase != Teardown {
          ghost var ran;
          ok, ran := RunSshCommandAction(runId, c, resourceId);
          step := Some(DidRun(ran));
        }
      case WriteRuntime =>
        progress.Update();
        ghost var count;
        ok, count := WriteRuntimeFiles(runId, site.paths);
        step := Some(DidWrite(count, ok));
      case LaunchAgent =>
        if site.launch == "" {
          NoPodEvents(old(store.events), [Event(runId, LaunchSkipped, None, "")]);
          store.AddEvent(runId, LaunchSkipped, None, "");
          step := Some(DidSkipLaunch);
        } else {
          progress.Update();
          var outcome := world.RunCommand(site.launch);
          step := Some(DidLaunch(outcome));
          if outcome.Raised? {
            return false, step;
          }
          NoPodEvents(old(store.events), [Event(runId, AgentLaunched, None, "")]);
          store.AddEvent(runId, AgentLaunched, None, "");
          ok := outcome.code == 0;
        }
      case _ =>
    }

    /** _run_agent_ssh_steps; false when it raises */
    method RunAgentSshSteps(site: Site, runId: string, actions: seq<Action>, resourceId: Option<string>, wait: bool)
      returns (ok: bool, ghost steps: seq<Done>)
      requires progress.Valid()
      modifies world, store`commands, store`events, progress
      ensures progress.Valid() && progress.total == old(progress.total)
      ensures progress.updates <= old(progress.updates) + |steps| + 1
      ensures steps == Walk(PerformerOf(world.oracle, site), CallsIn(site), actions, |old(world.log)|)
      ensures var waited := wait && AllWent(steps) && Launched(steps);
              && world.log == old(world.log) + Flat(CallsIn(site), steps) + (if waited then [AwaitResponse] else [])
              && (ok ==> AllWent(steps)) && (AllWent(steps) && !ok ==> waited)
      ensures ok && wait && Launched(steps) ==> world.oracle.done(|world.log| - 1, AwaitResponse)
      ensures ok ==> forall i :: 0 <= i < |steps| ==>
                match steps[i]
                case DidRun(ran) => ran.outcome.Exit? && (ran.outcome.code == 0 || ran.command.policy == Continue)
                case DidWrite(_, complete) => complete
                case DidSkipLaunch => true
                case DidLaunch(outcome) => outcome == Exit(0)
      ensures store.commands == old(store.commands) + CommandEntries(runId, resourceId, steps)
      ensures PodsOfEvents(store.events) == PodsOfEvents(old(store.events))
    {
      hide PodsOfEvents;
      ghost var n, perform, calls := |world.log|, PerformerOf(world.oracle, site), CallsIn(site);
      steps := [];
      var launched := false;
      WalkingStart(perform, calls, actions, n);
      for i := 0 to |actions|
        invariant progress.Valid() && progress.total == old(progress.total)
                  && progress.updates <= old(progress.updates) + |steps|
        invariant Walking(perform, calls, actions, n, i, steps) && launched == Launched(steps)
        invariant world.log == old(world.log) + Flat(calls, steps)
        invariant store.commands == old(store.commands) + CommandEntries(runId, resourceId, steps)
        invariant PodsOfEvents(store.events) == PodsOfEvents(old(store.events))
      {
        ok, steps := TakeStep(site, runId, actions, i, resourceId, n, steps, old(world.log), old(store.commands));
        if !ok {
          return;
        }
        launched := launched || (actions[i].LaunchAgent? && site.launch != "");
      }
      WalkingEnd(perform, calls, actions, n, steps);
      ok := AwaitResponseIf(wait && launched);
    }

    /** One turn of that loop, from a walk that has dealt with the first i actions. */
    method TakeStep(site: Site, runId: string, actions: seq<Action>, i: nat, resourceId: Option<string>, ghost n: nat,
                    ghost steps: seq<Done>, ghost log: seq<Call>, ghost commands: seq<CommandRow>)
        returns (ok: bool, ghost more: seq<Done>)
      requires progress.Valid() && i < |actions| && |log| == n
      requires Walking(PerformerOf(world.oracle, site), CallsIn(site), actions, n, i, steps)
      requires world.log == log + Flat(CallsIn(site), steps)
               && store.commands == commands + CommandEntries(runId, resourceId, steps)
      modifies world, store`commands, store`events, progress
      ensures progress.Valid() && progress.total == old(progress.total)
              && progress.updates + |steps| <= old(progress.updates) + |more|
      ensures world.log == log + Flat(CallsIn(site), more)
              && store.commands == commands + CommandEntries(runId, resourceId, more)
      ensures if ok then Walking(PerformerOf(world.oracle, site), CallsIn(site), actions, n, i + 1, more)
              else more == Walk(PerformerOf(world.oracle, site), CallsIn(site), actions, n) && !AllWent(more)
      ensures Launched(more) <==> Launched(steps) || (actions[i].LaunchAgent? && site.launch != "")
      ensures PodsOfEvents(store.events) == PodsOfEvents(old(store.events))
    {
      hide PodsOfEvents, Flat, Walk, Walking, PerformerOf, CommandEntries, Launched, CallsMade;
      ghost var perform, calls, step := PerformerOf(world.oracle, site), CallsIn(site), None;
      ghost var m := n + |Flat(calls, steps)|;
      assert |world.log| == m;
      ok, step := PerformStep(site, runId, actions[i], resourceId);
      more := Extended(steps, step);
      WalkOnce(perform, calls, actions, n, i, steps, step, more);
      FlatExtended(calls, steps, step);
      Regroup(log, Flat(calls, steps), CallsMade(calls, step));
      EntriesExtended(runId, resourceId, steps, step);
      Regroup(commands, CommandEntries(runId, resourceId, steps), EntryOf(runId, resourceId, step));
      LaunchedExtended(site, steps, actions[i], step);
    }

    method AwaitResponseIf(wanted: bool) returns (ok: bool)
      requires progress.Valid()
      modifies world, progress
      ensures progress.Valid() && progress.total == old(progress.total) && progress.updates <= old(progress.updates) + 1
      ensures world.log == old(world.log) + (if wanted then [AwaitResponse] else [])
      ensures !ok ==> wanted
      ensures ok && wanted ==> world.oracle.done(|world.log| - 1, AwaitResponse)
    {
      ok := true;
      if wanted {
        progress.Update();
        ok := world.Do(AwaitResponse);
      }
    }
  }

  lemma {:induction false} RepeatedPlain(e: Event, k: nat)
    requires !PodEvent(e)
    ensures forall i :: 0 <= i < |Repeat(e, k)| ==> !PodEvent(Repeat(e, k)[i])
    decreases k
  {
    if k > 0 {
      RepeatedPlain(e, k - 1);
    }
  }

  lemma {:induction false} CommandEventsPlain(runId: string, ran: Ran, events: seq<Event>)
    requires ran.runs >= 1
    ensures PodsOfEvents(events + CommandEvents(runId, ran)) == PodsOfEvents(events)
  {
    RepeatedPlain(Event(runId, CommandRetried, None, ran.command.command), ran.runs - 1);
    NoPodEvents(events, CommandEvents(runId, ran));
  }

  lemma {:induction false} LaunchedSnoc(steps: seq<Done>, d: Done)
    ensures Launched(steps + [d]) <==> Launched(steps) || d.DidLaunch?
  {
    if Launched(steps) {
      var i :| 0 <= i < |steps| && steps[i].DidLaunch?;
      assert (steps + [d])[i].DidLaunch?;
    }
    if d.DidLaunch? {
      assert (steps + [d])[|steps|].DidLaunch?;
    }
  }

  lemma {:induction false} LaunchedExtended(site: Site, steps: seq<Done>, a: Action, step: Option<Done>)
    requires step.Some? ==> (step.value.DidLaunch? <==> a.LaunchAgent? && site.launch != "")
    requires step.None? ==> !a.LaunchAgent?
    ensures Launched(Extended(steps, step)) <==> Launched(steps) || (a.LaunchAgent? && site.launch != "")
  {
    if step.Some? {
      LaunchedSnoc(steps, step.value);
    }
  }

  /** The first i files have been written. */
  ghost predicate Writing(done: (nat, Call) -> bool, n: nat, paths: seq<string>, i: nat) {
    && i <= |paths| && WritesFrom(done, n, paths) == i + WritesFrom(done, n + i, paths[i..])
    && WritesAll(done, n, paths[..i])
  }

  lemma {:induction false} WritingStart(done: (nat, Call) -> bool, n: nat, paths: seq<string>)
    ensures Writing(done, n, paths, 0)
  {
    assert paths[0..] == paths;
  }

  lemma {:induction false} WritingOn(done: (nat, Call) -> bool, n: nat, paths: seq<string>, i: nat)
    requires i < |paths| && Writing(done, n, paths, i)
    ensures done(n + i, WriteFile(paths[i])) ==> Writing(done, n, paths, i + 1)
    ensures !done(n + i, WriteFile(paths[i])) ==> WritesFrom(done, n, paths) == i + 1 && !WritesAll(done, n, paths)
  {
    assert paths[i..][1..] == paths[i + 1..];
  }

  lemma {:induction false} WritingEnd(done: (nat, Call) -> bool, n: nat, paths: seq<string>)
    requires Writing(done, n, paths, |paths|)
    ensures WritesFrom(done, n, paths) == |paths| && WritesAll(done, n, paths) && paths[..|paths|] == paths
  {
    assert paths[..|paths|] == paths;
  }

  lemma {:induction false} WriteCallsNext(paths: seq<string>, i: nat)
    requires i < |paths|
    ensures WriteCalls(paths[..i + 1]) == WriteCalls(paths[..i]) + [WriteFile(paths[i])]
  {
    assert paths[..i + 1][..i] == paths[..i];
  }
}
