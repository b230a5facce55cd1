/** The steps a run takes on the agent over SSH: commands with their failure policies, the runtime files, the launch.
    Pure specification; the runner's methods are proved to follow it. */
module Steps {
  import opened Options
  import opened Commands
  import opened Planner
  import opened Cloud
  import opened StateStore

  // ---------------------------------------------------------------------------------------------
  // One command

  predicate Final(outcome: Outcome) {
    outcome.Raised? || outcome.code == 0
  }

  /** How often a command may be run: max(1, retry_count + 1) under the retry policy, once otherwise. */
  function Limit(c: Command): (r: nat)
    ensures r >= 1
  {
    if c.policy == Retry && c.retryCount > 0 then c.retryCount + 1 else 1
  }

  /** Number of runs, when the run at log length m comes out as exit(m). */
  function RunsFrom(exit: nat -> Outcome, n: nat, left: nat): (k: nat)
    requires left >= 1
    ensures 1 <= k <= left
    decreases left
  {
    if left == 1 || Final(exit(n)) then 1 else 1 + RunsFrom(exit, n + 1, left - 1)
  }

  /** Every run in between exits with a code other than 0. */
  ghost predicate NoneFinal(exit: nat -> Outcome, n: nat, end: int) {
    forall m: nat :: n <= m < end ==> exit(m).Exit? && exit(m).code != 0
  }

  /** The runs stop at the first success (or exception), or when the attempts are used up. */
  lemma {:induction false} RunsAreMinimal(exit: nat -> Outcome, n: nat, left: nat)
    requires left >= 1
    ensures var k := RunsFrom(exit, n, left);
            NoneFinal(exit, n, n + k - 1) && (k < left ==> exit(n + k - 1) == Raised || exit(n + k - 1) == Exit(0))
    decreases left
  {
    if left != 1 && !Final(exit(n)) {
      RunsAreMinimal(exit, n + 1, left - 1);
    }
  }

  /** ... and nothing else has that property. */
  lemma {:induction false} RunsAreUnique(exit: nat -> Outcome, n: nat, left: nat, k: nat)
    requires 1 <= k <= left && NoneFinal(exit, n, n + k - 1)
    requires k < left ==> exit(n + k - 1) == Raised || exit(n + k - 1) == Exit(0)
    ensures k == RunsFrom(exit, n, left)
    decreases left
  {
    if left != 1 && !Final(exit(n)) {
      RunsAreUnique(exit, n + 1, left - 1, k - 1);
    }
  }

  datatype Ran = Ran(command: Command, runs: nat, outcome: Outcome)

  function ExitOf(o: Oracle, c: Command): nat -> Outcome {
    (n: nat) => o.exit(n, Ssh(c.command))
  }

  /** _run_ssh_command_action: how often the command is run from log length n on, and how the last run ends. */
  function RunOf(exit: nat -> Outcome, c: Command, n: nat): (r: Ran)
    ensures r.runs >= 1
  {
    var k := RunsFrom(exit, n, Limit(c));
    Ran(c, k, exit(n + k - 1))
  }

  /** A command is run once unless its policy is retry; under retry it is run until the first success (or exception), at
      most retry_count + 1 times. */
  lemma {:induction false} RetryCount(exit: nat -> Outcome, c: Command, n: nat)
    ensures var r := RunOf(exit, c, n);
            && (c.policy != Retry || c.retryCount < 0 ==> r.runs == 1)
            && (c.policy == Retry && c.retryCount >= 0 ==> r.runs <= c.retryCount + 1)
            && (c.policy == Retry && r.runs < c.retryCount + 1 ==> r.outcome == Raised || r.outcome == Exit(0))
            && (forall m: nat :: n <= m < n + r.runs - 1 ==> exit(m).Exit? && exit(m).code != 0)
            && r.outcome == exit(n + r.runs - 1)
  {
    RunsAreMinimal(exit, n, Limit(c));
  }

  /** It raises unless the last exit code is zero or the policy is to continue. */
  predicate Accepted(r: Ran) {
    r.outcome.Exit? && (r.outcome.code == 0 || r.command.policy == Continue)
  }

  /** The ledger row: running until the loop ends with an exit code, then completed or failed with that code. */
  function CommandEntry(runId: string, resourceId: Option<string>, r: Ran): CommandRow {
    if r.outcome.Raised? then CommandRow(runId, resourceId, r.command, Running, None)
    else CommandRow(runId, resourceId, r.command, PhaseStatus(r.outcome.code), Some(r.outcome.code))
  }

  function Repeat<T>(x: T, k: nat): (r: seq<T>)
    ensures |r| == k && forall i :: 0 <= i < k ==> r[i] == x
  {
    if k == 0 then [] else Repeat(x, k - 1) + [x]
  }

  /** One retry event less than there were runs, and one for the end unless it raised. */
  function CommandEvents(runId: string, r: Ran): seq<Event>
    requires r.runs >= 1
  {
    Repeat(Event(runId, CommandRetried, None, r.command.command), r.runs - 1)
    + (if r.outcome.Raised? then [] else [Event(runId, CommandEnded, None, r.command.command)])
  }

  // ---------------------------------------------------------------------------------------------
  // All steps

  /** What a run brings to the agent's pod: the paths of the runtime files, the launch line, empty when the agent is
      started by hand, and the path of the image to copy back, empty when there is none. */
  datatype Site = Site(paths: seq<string>, launch: string, image: string)

  datatype Done =
    | DidRun(ran: Ran)
    | DidWrite(count: nat, complete: bool)
    | DidSkipLaunch
    | DidLaunch(outcome: Outcome)

  predicate Went(d: Done) {
    match d
    case DidRun(ran) => Accepted(ran)
    case DidWrite(_, complete) => complete
    case DidSkipLaunch => true
    case DidLaunch(outcome) => outcome == Exit(0)
  }

  function WriteCalls(paths: seq<string>): (r: seq<Call>)
    ensures |r| == |paths|
  {
    if paths == [] then [] else WriteCalls(paths[..|paths| - 1]) + [WriteFile(paths[|paths| - 1])]
  }

  /** Files are written in order up to and including the first failure. */
  function WritesFrom(done: (nat, Call) -> bool, n: nat, paths: seq<string>): (count: nat)
    ensures count <= |paths|
    decreases |paths|
  {
    if paths == [] then 0
    else if !done(n, WriteFile(paths[0])) then 1
    else 1 + WritesFrom(done, n + 1, paths[1..])
  }

  predicate WritesAll(done: (nat, Call) -> bool, n: nat, paths: seq<string>) {
    forall i :: 0 <= i < |paths| ==> done(n + i, WriteFile(paths[i]))
  }

  /** The calls that a step makes. */
  function CallsOf(site: Site, d: Done): seq<Call> {
    match d
    case DidRun(ran) => Repeat(Ssh(ran.command.command), ran.runs)
    case DidWrite(count, _) => WriteCalls(if count <= |site.paths| then site.paths[..count] else site.paths)
    case DidSkipLaunch => []
    case DidLaunch(_) => [Ssh(site.launch)]
  }

  type Caller = Done -> seq<Call>

  function CallsIn(site: Site): Caller {
    (d: Done) => CallsOf(site, d)
  }

  function Flat(calls: Caller, steps: seq<Done>): seq<Call> {
    if steps == [] then [] else Flat(calls, steps[..|steps| - 1]) + calls(steps[|steps| - 1])
  }

  /** What becomes of an action when the log has a given length; None when it is none of the agent's steps. */
  type Performer = (Action, nat) -> Option<Done>

  function Perform(o: Oracle, site: Site, a: Action, n: nat): Option<Done> {
    match a
    case RunSsh(c) => if c.phase == Teardown then None else Some(DidRun(RunOf(ExitOf(o, c), c, n)))
    case WriteRuntime => Some(DidWrite(WritesFrom(o.done, n, site.paths), WritesAll(o.done, n, site.paths)))
    case LaunchAgent => if site.launch == "" then Some(DidSkipLaunch) else Some(DidLaunch(o.exit(n, Ssh(site.launch))))
    case _ => None
  }

  function PerformerOf(o: Oracle, site: Site): Performer {
    (a: Action, n: nat) => Perform(o, site, a, n)
  }

  /** The loop of _run_agent_ssh_steps: every action in turn, until one raises. */
  function Walk(perform: Performer, calls: Caller, actions: seq<Action>, n: nat): seq<Done> {
    if actions == [] then []
    else
      var d := perform(actions[0], n);
      if d.None? then Walk(perform, calls, actions[1..], n)
      else if !Went(d.value) then [d.value]
      else [d.value] + Walk(perform, calls, actions[1..], n + |calls(d.value)|)
  }

  predicate AllWent(steps: seq<Done>) {
    forall i :: 0 <= i < |steps| ==> Went(steps[i])
  }

  predicate Launched(steps: seq<Done>) {
    exists i :: 0 <= i < |steps| && steps[i].DidLaunch?
  }

  function EntryOf(runId: string, resourceId: Option<string>, step: Option<Done>): seq<CommandRow> {
    if step.Some? && step.value.DidRun? then [CommandEntry(runId, resourceId, step.value.ran)] else []
  }

  /** The ledger rows of the commands among the steps. */
  function CommandEntries(runId: string, resourceId: Option<string>, steps: seq<Done>): seq<CommandRow> {
    if steps == [] then []
    else CommandEntries(runId, resourceId, steps[..|steps| - 1]) + EntryOf(runId, resourceId, Some(steps[|steps| - 1]))
  }

  lemma {:induction false} EntriesExtended(runId: string, resourceId: Option<string>, steps: seq<Done>,
                                           step: Option<Done>)
    ensures CommandEntries(runId, resourceId, Extended(steps, step))
            == CommandEntries(runId, resourceId, steps) + EntryOf(runId, resourceId, step)
  {
    if step.Some? {
      assert (steps + [step.value])[..|steps|] == steps;
    } else {
      assert CommandEntries(runId, resourceId, steps) + [] == CommandEntries(runId, resourceId, steps);
    }
  }

  /** The walk has dealt with the first i actions, all of which went well. */
  ghost predicate Walking(perform: Performer, calls: Caller, actions: seq<Action>, n: nat, i: nat, steps: seq<Done>) {
    && i <= |actions| && AllWent(steps)
    && Walk(perform, calls, actions, n) == steps + Walk(perform, calls, actions[i..], n + |Flat(calls, steps)|)
  }

  lemma {:induction false} WalkingStart(perform: Performer, calls: Caller, actions: seq<Action>, n: nat)
    ensures Walking(perform, calls, actions, n, 0, []) && Flat(calls, []) == []
  {
    assert actions[0..] == actions;
    var w := Walk(perform, calls, actions, n);
    assert [] + w == w;
  }

  lemma {:induction false} FlatSnoc(calls: Caller, steps: seq<Done>, d: Done)
    ensures Flat(calls, steps + [d]) == Flat(calls, steps) + calls(d)
  {
    assert (steps + [d])[..|steps|] == steps;
  }

  lemma {:induction false} WalkHead(perform: Performer, calls: Caller, actions: seq<Action>, i: nat, m: nat)
    requires i < |actions|
    ensures var d := perform(actions[i], m);
            Walk(perform, calls, actions[i..], m) ==
              if d.None? then Walk(perform, calls, actions[i + 1..], m)
              else if !Went(d.value) then [d.value]
              else [d.value] + Walk(perform, calls, actions[i + 1..], m + |calls(d.value)|)
  {
    assert actions[i..][1..] == actions[i + 1..] && actions[i..][0] == actions[i];
  }

  lemma {:induction false} MoveOver<T>(a: seq<T>, x: T, b: seq<T>)
    ensures a + ([x] + b) == (a + [x]) + b
  {
  }

  lemma {:induction false} WalkingSkip(perform: Performer, calls: Caller, actions: seq<Action>, n: nat, i: nat,
                                       steps: seq<Done>, m: nat)
    requires i < |actions| && Walking(perform, calls, actions, n, i, steps) && m == n + |Flat(calls, steps)|
    requires perform(actions[i], m).None?
    ensures Walking(perform, calls, actions, n, i + 1, steps)
  {
    WalkHead(perform, calls, actions, i, m);
  }

  lemma {:induction false} WalkingFailed(perform: Performer, calls: Caller, actions: seq<Action>, n: nat, i: nat,
                                         steps: seq<Done>, m: nat, d: Done)
    requires i < |actions| && Walking(perform, calls, actions, n, i, steps) && m == n + |Flat(calls, steps)|
    requires perform(actions[i], m) == Some(d) && !Went(d)
    ensures Walk(perform, calls, actions, n) == steps + [d] && !AllWent(steps + [d])
  {
    WalkHead(perform, calls, actions, i, m);
    assert (steps + [d])[|steps|] == d;
  }

  lemma {:induction false} WalkingOn(perform: Performer, calls: Caller, actions: seq<Action>, n: nat, i: nat,
                                     steps: seq<Done>, m: nat, d: Done)
    requires i < |actions| && Walking(perform, calls, actions, n, i, steps) && m == n + |Flat(calls, steps)|
    requires perform(actions[i], m) == Some(d) && Went(d)
    ensures Walking(perform, calls, actions, n, i + 1, steps + [d])
  {
    hide Walk, Flat, Went;
    WalkHead(perform, calls, actions, i, m);
    FlatSnoc(calls, steps, d);
    MoveOver(steps, d, Walk(perform, calls, actions[i + 1..], m + |calls(d)|));
  }

  function Extended(steps: seq<Done>, step: Option<Done>): seq<Done> {
    if step.None? then steps else steps + [step.value]
  }

  predicate Proceeds(step: Option<Done>) {
    step.None? || Went(step.value)
  }

  function CallsMade(calls: Caller, step: Option<Done>): seq<Call> {
    if step.None? then [] else calls(step.value)
  }

  lemma {:induction false} FlatExtended(calls: Caller, steps: seq<Done>, step: Option<Done>)
    ensures Flat(calls, Extended(steps, step)) == Flat(calls, steps) + CallsMade(calls, step)
  {
    if step.None? {
      assert Flat(calls, steps) + [] == Flat(calls, steps);
    } else {
      FlatSnoc(calls, steps, step.value);
    }
  }

  lemma {:induction false} WalkOnce(perform: Performer, calls: Caller, actions: seq<Action>, n: nat, i: nat,
                                    steps: seq<Done>, step: Option<Done>, more: seq<Done>)
    requires i < |actions| && Walking(perform, calls, actions, n, i, steps)
             && step == perform(actions[i], n + |Flat(calls, steps)|)
    requires more == Extended(steps, step)
    ensures if Proceeds(step) then Walking(perform, calls, actions, n, i + 1, more)
            else more == Walk(perform, calls, actions, n) && !AllWent(more)
  {
    var m := n + |Flat(calls, steps)|;
    if step.None? {
      WalkingSkip(perform, calls, actions, n, i, steps, m);
    } else if Went(step.value) {
      WalkingOn(perform, calls, actions, n, i, steps, m, step.value);
    } else {
      WalkingFailed(perform, calls, actions, n, i, steps, m, step.value);
    }
  }

  lemma {:induction false} WalkingEnd(perform: Performer, calls: Caller, actions: seq<Action>, n: nat, steps: seq<Done>)
    requires Walking(perform, calls, actions, n, |actions|, steps)
    ensures Walk(perform, calls, actions, n) == steps && AllWent(steps)
  {
    assert actions[|actions|..] == [];
    assert steps + [] == steps;
  }

  // ---------------------------------------------------------------------------------------------
  // Order of the steps

  predicate IsJob(a: Action) {
    (a.RunSsh? && a.command.phase != Teardown) || a.WriteRuntime? || a.LaunchAgent?
  }

  function Jobs(actions: seq<Action>): seq<Action> {
    if actions == [] then [] else if IsJob(actions[0]) then [actions[0]] + Jobs(actions[1..]) else Jobs(actions[1..])
  }

  predicate Fits(d: Done, a: Action) {
    match a
    case RunSsh(c) => d.DidRun? && d.ran.command == c
    case WriteRuntime => d.DidWrite?
    case LaunchAgent => d.DidLaunch? || d.DidSkipLaunch?
    case _ => false
  }

  ghost predicate Fitting(perform: Performer) {
    forall a: Action, n: nat ::
      if IsJob(a) then perform(a, n).Some? && Fits(perform(a, n).value, a) else perform(a, n).None?
  }

  lemma {:induction false} PerformFits(o: Oracle, site: Site)
    ensures Fitting(PerformerOf(o, site))
  {
  }

  /** The steps taken match the jobs of the plan one by one; all but the last went well, and they end early only at one
      that did not. */
  ghost predicate Follows(steps: seq<Done>, jobs: seq<Action>) {
    && |steps| <= |jobs|
    && (forall i :: 0 <= i < |steps| ==> Fits(steps[i], jobs[i]))
    && (forall i :: 0 <= i < |steps| - 1 ==> Went(steps[i]))
    && (|steps| < |jobs| ==> steps != [] && !Went(steps[|steps| - 1]))
  }

  lemma {:induction false} FollowsCons(d: Done, steps: seq<Done>, a: Action, jobs: seq<Action>)
    requires Fits(d, a) && Went(d) && Follows(steps, jobs)
    ensures Follows([d] + steps, [a] + jobs)
  {
  }

  lemma {:induction false} WalkFollows(perform: Performer, calls: Caller, actions: seq<Action>, n: nat,
                                       steps: seq<Done>)
    requires Fitting(perform) && steps == Walk(perform, calls, actions, n)
    ensures Follows(steps, Jobs(actions))
    decreases |actions|
  {
    if actions != [] {
      var d := perform(actions[0], n);
      if d.None? {
        WalkFollows(perform, calls, actions[1..], n, steps);
      } else if Went(d.value) {
        var m := n + |calls(d.value)|;
        WalkFollows(perform, calls, actions[1..], m, Walk(perform, calls, actions[1..], m));
        FollowsCons(d.value, Walk(perform, calls, actions[1..], m), actions[0], Jobs(actions[1..]));
      }
    }
  }

  function RanCommands(steps: seq<Done>): seq<Command> {
    if steps == [] then []
    else if steps[0].DidRun? then [steps[0].ran.command] + RanCommands(steps[1..])
    else RanCommands(steps[1..])
  }

  lemma {:induction false} JobCommands(actions: seq<Action>)
    ensures CommandsOf(Jobs(actions)) == Filter(CommandsOf(actions), NotTeardown)
  {
    if actions != [] {
      JobCommands(actions[1..]);
      var rest, later := Jobs(actions[1..]), CommandsOf(actions[1..]);
      assert ([actions[0]] + rest)[1..] == rest;
      if actions[0].RunSsh? {
        assert ([actions[0].command] + later)[1..] == later;
      }
    }
  }

  lemma {:induction false} RanArePrefix(steps: seq<Done>, jobs: seq<Action>)
    requires |steps| <= |jobs| && forall i :: 0 <= i < |steps| ==> Fits(steps[i], jobs[i])
    ensures RanCommands(steps) <= CommandsOf(jobs)
    ensures |steps| == |jobs| ==> RanCommands(steps) == CommandsOf(jobs)
    decreases |steps|
  {
    if steps != [] {
      assert forall i :: 0 <= i < |steps| - 1 ==> steps[1..][i] == steps[i + 1] && jobs[1..][i] == jobs[i + 1];
      RanArePrefix(steps[1..], jobs[1..]);
      assert Fits(steps[0], jobs[0]);
    }
  }

  /** The commands a run executes form a prefix of plan order with teardown left out; every step before the last went
      well, and the prefix is the whole list unless the last step did not. */
  lemma {:induction false} CommandsArePrefix(perform: Performer, calls: Caller, actions: seq<Action>, n: nat,
                                             steps: seq<Done>)
    requires Fitting(perform) && steps == Walk(perform, calls, actions, n)
    ensures RanCommands(steps) <= Filter(CommandsOf(actions), NotTeardown)
    ensures forall i :: 0 <= i < |steps| - 1 && steps[i].DidRun? ==>
              && steps[i].ran.outcome.Exit?
              && (steps[i].ran.outcome.code == 0 || steps[i].ran.command.policy == Continue)
    ensures forall i :: 0 <= i < |steps| - 1 && steps[i].DidWrite? ==> steps[i].complete
    ensures forall i :: 0 <= i < |steps| - 1 && steps[i].DidLaunch? ==> steps[i].outcome == Exit(0)
    ensures RanCommands(steps) == Filter(CommandsOf(actions), NotTeardown) ||
            (steps != [] &&
             match steps[|steps| - 1]
             case DidRun(ran) =>
               || ran.outcome == Raised
               || (ran.outcome != Exit(0) && (ran.command.policy == Fail || ran.command.policy == Retry))
             case DidWrite(_, complete) => !complete
             case DidSkipLaunch => false
             case DidLaunch(outcome) => outcome != Exit(0))
  {
    WalkFollows(perform, calls, actions, n, steps);
    RanArePrefix(steps, Jobs(actions));
    JobCommands(actions);
  }

  // ---------------------------------------------------------------------------------------------
  // The launch gate

  lemma {:induction false} JobsConcat(a: seq<Action>, b: seq<Action>)
    ensures Jobs(a + b) == Jobs(a) + Jobs(b)
    decreases |a|
  {
    if a == [] {
      assert a + b == b;
    } else {
      assert (a + b)[1..] == a[1..] + b;
      JobsConcat(a[1..], b);
    }
  }

  predicate NoJobs(actions: seq<Action>) {
    forall i :: 0 <= i < |actions| ==> !IsJob(actions[i])
  }

  lemma {:induction false} JobsOfNoJobs(actions: seq<Action>)
    requires NoJobs(actions)
    ensures Jobs(actions) == []
    decreases |actions|
  {
    if actions != [] {
      JobsOfNoJobs(actions[1..]);
    }
  }

  lemma {:induction false} CreateAndWaitNoJobs(deps: seq<Resource>)
    ensures NoJobs(CreateAll(deps)) && NoJobs(WaitAll(deps))
    decreases |deps|
  {
    if deps != [] {
      CreateAndWaitNoJobs(deps[..|deps| - 1]);
    }
  }

  lemma {:induction false} OpeningNoJobs(deps: seq<Resource>, agentName: string)
    ensures NoJobs(Opening(deps, agentName))
  {
    CreateAndWaitNoJobs(deps);
  }

  lemma {:induction false} RunAllAt(commands: seq<Command>, i: nat)
    requires i < |commands|
    ensures |RunAll(commands)| == |commands| && RunAll(commands)[i] == RunSsh(commands[i])
    decreases |commands|
  {
    var m := |commands| - 1;
    if i < m {
      RunAllAt(commands[..m], i);
    } else if m > 0 {
      RunAllAt(commands[..m], 0);
    }
  }

  /** The jobs of a plan start with its before_start commands, the files and the launch. */
  lemma {:induction false} PlanJobs(deps: seq<Resource>, agentName: string, contract: seq<Command>,
                                    chain: Option<seq<Command>>, keepAlive: Option<KeepAlive>)
    ensures var tail := RunAll(Group(contract, chain, IsAfter)) + (Closing(keepAlive) + RunAll(TeardownGroup(chain)));
            Jobs(PlanActions(deps, agentName, contract, chain, keepAlive))
            == Jobs(RunAll(Group(contract, chain, IsBefore))) + ([WriteRuntime, LaunchAgent] + Jobs(tail))
  {
    var tail := RunAll(Group(contract, chain, IsAfter)) + (Closing(keepAlive) + RunAll(TeardownGroup(chain)));
    var b := RunAll(Group(contract, chain, IsBefore));
    OpeningNoJobs(deps, agentName);
    JobsOfNoJobs(Opening(deps, agentName));
    JobsConcat(Opening(deps, agentName), b + ([WriteRuntime, LaunchAgent] + tail));
    JobsConcat(b, [WriteRuntime, LaunchAgent] + tail);
    JobsConcat([WriteRuntime, LaunchAgent], tail);
    TwoJobs();
  }

  lemma {:induction false} TwoJobs()
    ensures Jobs([WriteRuntime, LaunchAgent]) == [WriteRuntime, LaunchAgent]
  {
    assert [WriteRuntime, LaunchAgent][1..] == [LaunchAgent] && [LaunchAgent][1..] == [];
  }

  lemma {:induction false} AllJobs(actions: seq<Action>)
    requires forall i :: 0 <= i < |actions| ==> IsJob(actions[i])
    ensures Jobs(actions) == actions
    decreases |actions|
  {
    if actions != [] {
      AllJobs(actions[1..]);
      assert actions == [actions[0]] + actions[1..];
    }
  }

  lemma {:induction false} RunAllIsJobs(commands: seq<Command>)
    requires AllAre(commands, IsBefore)
    ensures Jobs(RunAll(commands)) == RunAll(commands) && |RunAll(commands)| == |commands|
    ensures forall i :: 0 <= i < |commands| ==> RunAll(commands)[i] == RunSsh(commands[i])
  {
    if commands != [] {
      RunAllAt(commands, 0);
    }
    forall i | 0 <= i < |commands| ensures RunAll(commands)[i] == RunSsh(commands[i]) && IsBefore(commands[i]) {
      RunAllAt(commands, i);
      assert commands[i] in commands;
    }
    AllJobs(RunAll(commands));
  }

  predicate OnlyAfterJobs(jobs: seq<Action>) {
    forall i :: 0 <= i < |jobs| ==> jobs[i].RunSsh?
  }

  lemma {:induction false} RunsAreOnlyRuns(commands: seq<Command>)
    ensures OnlyAfterJobs(Jobs(RunAll(commands)))
    decreases |commands|
  {
    if commands != [] {
      var m := |commands| - 1;
      RunsAreOnlyRuns(commands[..m]);
      JobsConcat(RunAll(commands[..m]), [RunSsh(commands[m])]);
      assert [RunSsh(commands[m])][1..] == [];
    }
  }

  lemma {:induction false} TailJobs(after: seq<Command>, keepAlive: Option<KeepAlive>, down: seq<Command>)
    ensures OnlyAfterJobs(Jobs(RunAll(after) + (Closing(keepAlive) + RunAll(down))))
  {
    JobsConcat(RunAll(after), Closing(keepAlive) + RunAll(down));
    JobsConcat(Closing(keepAlive), RunAll(down));
    JobsOfNoJobs(Closing(keepAlive));
    RunsAreOnlyRuns(after);
    RunsAreOnlyRuns(down);
  }

  /** What must hold of the steps taken so far when the agent is launched at step i. */
  ghost predicate Gated(steps: seq<Done>, before: seq<Command>, i: nat) {
    && i == |before| + 1 && |steps| > i
    && steps[|before|].DidWrite? && steps[|before|].complete
    && forall j :: 0 <= j < |before| ==>
         && steps[j].DidRun? && steps[j].ran.command == before[j] && steps[j].ran.outcome.Exit?
         && (steps[j].ran.outcome.code == 0 || before[j].policy == Continue)
  }

  lemma {:induction false} JobShape(before: seq<Command>, jobs: seq<Action>, tail: seq<Action>)
    requires jobs == RunAll(before) + ([WriteRuntime, LaunchAgent] + tail) && OnlyAfterJobs(tail)
    requires |RunAll(before)| == |before| && forall j :: 0 <= j < |before| ==> RunAll(before)[j] == RunSsh(before[j])
    ensures |jobs| == |before| + 2 + |tail| && jobs[|before|] == WriteRuntime
    ensures forall k :: 0 <= k < |jobs| && k != |before| && k != |before| + 1 ==> jobs[k].RunSsh?
    ensures forall k :: 0 <= k < |before| ==> jobs[k] == RunSsh(before[k])
  {
    var b := |before|;
    forall k | 0 <= k < |tail| ensures jobs[b + 2 + k] == tail[k] && tail[k].RunSsh? {
    }
    forall k | b + 2 <= k < |jobs| ensures jobs[k].RunSsh? {
      assert jobs[k] == tail[k - (b + 2)];
    }
  }

  lemma {:induction false} GateOfJobs(steps: seq<Done>, before: seq<Command>, jobs: seq<Action>, tail: seq<Action>,
                                      i: nat)
    requires Follows(steps, jobs) && jobs == RunAll(before) + ([WriteRuntime, LaunchAgent] + tail)
             && OnlyAfterJobs(tail)
    requires |RunAll(before)| == |before| && forall j :: 0 <= j < |before| ==> RunAll(before)[j] == RunSsh(before[j])
    requires i < |steps| && (steps[i].DidLaunch? || steps[i].DidSkipLaunch?)
    ensures Gated(steps, before, i)
  {
    var b := |before|;
    JobShape(before, jobs, tail);
    assert Fits(steps[i], jobs[i]);
    assert i == b + 1;
    assert Fits(steps[b], jobs[b]) && Went(steps[b]);
    forall j | 0 <= j < b ensures steps[j].DidRun? && steps[j].ran.command == before[j] && Accepted(steps[j].ran) {
      assert jobs[j] == RunSsh(before[j]);
      assert Fits(steps[j], jobs[j]) && Went(steps[j]);
    }
  }

  /** Under every sequence of outcomes: the agent is launched only after all runtime files were written and every
      before_start command of the plan was run, in order, and ended with exit code 0 or is to be continued from. */
  lemma {:induction false} LaunchIsGated(perform: Performer, calls: Caller, t: Tables, d: Deployment, inputs: RunInputs,
                                         n: nat, steps: seq<Done>, i: nat)
    requires Fitting(perform) && steps == Walk(perform, calls, Build(t, d, inputs).actions, n)
    requires i < |steps| && (steps[i].DidLaunch? || steps[i].DidSkipLaunch?)
    ensures Gated(steps, Group(AgentContract(d, inputs).commands, d.chain, IsBefore), i)
  {
    var contract := AgentContract(d, inputs).commands;
    var actions := Build(t, d, inputs).actions;
    var before, after := Group(contract, d.chain, IsBefore), Group(contract, d.chain, IsAfter);
    var down := TeardownGroup(d.chain);
    WalkFollows(perform, calls, actions, n, steps);
    PlanJobs(DependencyResources(t, inputs, OwnPodDependencies(d)), AgentResource(t, d, inputs).name, contract, d.chain,
             d.keepAlive);
    PlanGroups(contract, d.chain);
    RunAllIsJobs(before);
    TailJobs(after, d.keepAlive, down);
    GateOfJobs(steps, before, Jobs(actions), Jobs(RunAll(after) + (Closing(d.keepAlive) + RunAll(down))), i);
  }

  // ---------------------------------------------------------------------------------------------
  // The log of a session up to the launch

  /** The calls of commands that are run one after the other, each as often as `runs` says. */
  function RunsOf(commands: seq<Command>, runs: seq<nat>): seq<Call>
    requires |runs| == |commands|
  {
    if commands == [] then []
    else
      var m := |commands| - 1;
      RunsOf(commands[..m], runs[..m]) + Repeat(Ssh(commands[m].command), runs[m])
  }

  lemma {:induction false} RunsUpTo(commands: seq<Command>, runs: seq<nat>, j: nat)
    requires |runs| == |commands| && j < |commands|
    ensures RunsOf(commands[..j + 1], runs[..j + 1])
            == RunsOf(commands[..j], runs[..j]) + Repeat(Ssh(commands[j].command), runs[j])
  {
    assert commands[..j + 1][..j] == commands[..j] && runs[..j + 1][..j] == runs[..j];
  }

  lemma {:induction false} FlatUpTo(calls: Caller, steps: seq<Done>, j: nat)
    requires j < |steps|
    ensures Flat(calls, steps[..j + 1]) == Flat(calls, steps[..j]) + calls(steps[j])
  {
    assert steps[..j + 1][..j] == steps[..j];
  }

  lemma {:induction false} FlatFrom(calls: Caller, steps: seq<Done>, j: nat)
    requires j <= |steps|
    ensures Flat(calls, steps) == Flat(calls, steps[..j]) + Flat(calls, steps[j..])
    decreases |steps|
  {
    if j == |steps| {
      assert steps[..j] == steps && steps[j..] == [];
      assert Flat(calls, steps) + [] == Flat(calls, steps);
    } else {
      var m := |steps| - 1;
      FlatFrom(calls, steps[..m], j);
      assert steps[..m][..j] == steps[..j] && steps[j..][..m - j] == steps[..m][j..] && steps[j..][m - j] == steps[m];
      assert Flat(calls, steps[j..]) == Flat(calls, steps[..m][j..]) + calls(steps[m]);
    }
  }

  lemma {:induction false} FlatCons(calls: Caller, d: Done, steps: seq<Done>)
    ensures Flat(calls, [d] + steps) == calls(d) + Flat(calls, steps)
  {
    FlatFrom(calls, [d] + steps, 1);
    assert ([d] + steps)[..1] == [d] && ([d] + steps)[1..] == steps && [d][..0] == [];
    assert [] + calls(d) == calls(d);
  }

  /** Every step is what its job comes to at the place in the log that it has reached. */
  ghost predicate TimedAt(perform: Performer, calls: Caller, steps: seq<Done>, jobs: seq<Action>, n: nat, j: nat) {
    j < |steps| && j < |jobs| && perform(jobs[j], n + |Flat(calls, steps[..j])|) == Some(steps[j])
  }

  lemma {:induction false} WalkIsTimed(perform: Performer, calls: Caller, actions: seq<Action>, n: nat,
                                       steps: seq<Done>, j: nat)
    requires Fitting(perform) && steps == Walk(perform, calls, actions, n) && j < |steps|
    ensures TimedAt(perform, calls, steps, Jobs(actions), n, j)
    decreases |actions|
  {
    var d := perform(actions[0], n);
    if d.None? {
      WalkIsTimed(perform, calls, actions[1..], n, steps, j);
    } else if j == 0 {
      assert steps[..0] == [] && steps[0] == d.value;
    } else {
      var m := n + |calls(d.value)|;
      var rest := Walk(perform, calls, actions[1..], m);
      WalkIsTimed(perform, calls, actions[1..], m, rest, j - 1);
      FlatCons(calls, d.value, rest[..j - 1]);
      assert steps[..j] == [d.value] + rest[..j - 1] && steps[j] == rest[j - 1];
    }
  }

  lemma {:induction false} AllWritten(done: (nat, Call) -> bool, n: nat, paths: seq<string>)
    requires WritesAll(done, n, paths)
    ensures WritesFrom(done, n, paths) == |paths|
    decreases |paths|
  {
    if paths != [] {
      assert done(n + 0, WriteFile(paths[0]));
      assert forall i :: 0 <= i < |paths| - 1 ==> done((n + 1) + i, WriteFile(paths[1..][i])) by {
        forall i | 0 <= i < |paths| - 1 ensures done((n + 1) + i, WriteFile(paths[1..][i])) {
          assert done(n + (i + 1), WriteFile(paths[i + 1]));
        }
      }
      AllWritten(done, n + 1, paths[1..]);
    }
  }

  function RunCounts(steps: seq<Done>): (r: seq<nat>)
    requires forall j :: 0 <= j < |steps| ==> steps[j].DidRun?
    ensures |r| == |steps| && forall j :: 0 <= j < |r| ==> r[j] == steps[j].ran.runs
  {
    seq(|steps|, j requires 0 <= j < |steps| => steps[j].ran.runs)
  }

  lemma {:induction false} FlatIsRuns(site: Site, steps: seq<Done>, commands: seq<Command>, runs: seq<nat>, k: nat)
    requires k <= |commands| == |runs| && k <= |steps|
    requires forall j :: 0 <= j < k ==>
               steps[j].DidRun? && steps[j].ran.command == commands[j] && steps[j].ran.runs == runs[j]
    ensures Flat(CallsIn(site), steps[..k]) == RunsOf(commands[..k], runs[..k])
    decreases k
  {
    if k > 0 {
      FlatIsRuns(site, steps, commands, runs, k - 1);
      FlatUpTo(CallsIn(site), steps, k - 1);
      RunsUpTo(commands, runs, k - 1);
    }
  }

  /** How the last run of command j ends, when the runs begin at log length n. */
  function LastOutcome(o: Oracle, n: nat, commands: seq<Command>, runs: seq<nat>, j: nat): Outcome
    requires |runs| == |commands| && j < |commands| && runs[j] >= 1
  {
    o.exit(n + |RunsOf(commands[..j], runs[..j])| + runs[j] - 1, Ssh(commands[j].command))
  }

  lemma {:induction false} RunEndsSo(o: Oracle, site: Site, steps: seq<Done>, jobs: seq<Action>, n: nat,
                                     commands: seq<Command>, runs: seq<nat>, j: nat)
    requires |runs| == |commands| && j < |commands| && j < |steps|
    requires TimedAt(PerformerOf(o, site), CallsIn(site), steps, jobs, n, j) && jobs[j] == RunSsh(commands[j])
    requires steps[j].DidRun? && runs[j] == steps[j].ran.runs
    requires Flat(CallsIn(site), steps[..j]) == RunsOf(commands[..j], runs[..j])
    ensures runs[j] >= 1 && steps[j].ran.outcome == LastOutcome(o, n, commands, runs, j)
  {
    hide RunsFrom, Flat, RunsOf;
  }

  lemma {:induction false} FourParts(a: seq<Call>, b: seq<Call>, c: seq<Call>, d: seq<Call>)
    ensures ((a + b) + c) + d == a + (b + (c + d))
  {
  }

  /** The log up to the launch: the runs of the before_start commands, the files, the launch line. */
  lemma {:induction false} LogOfGated(o: Oracle, site: Site, steps: seq<Done>, jobs: seq<Action>, n: nat,
                                      before: seq<Command>, runs: seq<nat>)
    requires Gated(steps, before, |before| + 1) && |jobs| >= |steps|
    requires forall j :: 0 <= j < |steps| ==> TimedAt(PerformerOf(o, site), CallsIn(site), steps, jobs, n, j)
    requires jobs[|before|] == WriteRuntime && jobs[|before| + 1] == LaunchAgent && steps[|before| + 1].DidLaunch?
    requires |runs| == |before| && forall j :: 0 <= j < |before| ==> runs[j] == steps[j].ran.runs
    ensures var b := |before|;
            && Flat(CallsIn(site), steps)
               == RunsOf(before, runs)
                  + (WriteCalls(site.paths) + ([Ssh(site.launch)] + Flat(CallsIn(site), steps[b + 2..])))
            && WritesAll(o.done, n + |RunsOf(before, runs)|, site.paths)
            && steps[b + 1].outcome == o.exit(n + |RunsOf(before, runs)| + |site.paths|, Ssh(site.launch))
  {
    hide RunsFrom, WritesFrom, WriteCalls, Flat, RunsOf;
    var b, calls := |before|, CallsIn(site);
    FlatIsRuns(site, steps, before, runs, b);
    assert before[..b] == before && runs[..b] == runs;
    var n1 := n + |RunsOf(before, runs)|;
    assert TimedAt(PerformerOf(o, site), calls, steps, jobs, n, b);
    assert steps[b] == DidWrite(WritesFrom(o.done, n1, site.paths), WritesAll(o.done, n1, site.paths));
    AllWritten(o.done, n1, site.paths);
    assert site.paths[..|site.paths|] == site.paths;
    FlatUpTo(calls, steps, b);
    FlatUpTo(calls, steps, b + 1);
    FlatFrom(calls, steps, b + 2);
    assert TimedAt(PerformerOf(o, site), calls, steps, jobs, n, b + 1);
    FourParts(RunsOf(before, runs), WriteCalls(site.paths), [Ssh(site.launch)], Flat(calls, steps[b + 2..]));
  }

  /** For every plan of the planner and every sequence of answers, a session that launches the agent has this log: the
      runs of the before_start commands, in order, the last run of each exiting with 0, or with any code when the
      command may be continued from; then all runtime files, each written; then the launch line; and what follows that,
      only if it exited with 0. */
  lemma {:induction false} LaunchInLog(o: Oracle, site: Site, t: Tables, d: Deployment, inputs: RunInputs, n: nat,
                                       steps: seq<Done>, i: nat) returns (runs: seq<nat>, more: seq<Call>)
    requires steps == Walk(PerformerOf(o, site), CallsIn(site), Build(t, d, inputs).actions, n)
    requires i < |steps| && steps[i].DidLaunch?
    ensures var before := Group(AgentContract(d, inputs).commands, d.chain, IsBefore);
            && |runs| == |before|
            && Flat(CallsIn(site), steps)
               == RunsOf(before, runs) + (WriteCalls(site.paths) + ([Ssh(site.launch)] + more))
            && (forall j :: 0 <= j < |before| ==>
                  && runs[j] >= 1
                  && var end := LastOutcome(o, n, before, runs, j);
                     end == Exit(0) || (end.Exit? && before[j].policy == Continue))
            && (forall k :: 0 <= k < |site.paths| ==>
                  o.done(n + |RunsOf(before, runs)| + k, WriteFile(site.paths[k])))
            && (more != [] ==> o.exit(n + |RunsOf(before, runs)| + |site.paths|, Ssh(site.launch)) == Exit(0))
  {
    hide Walk, Flat, RunsOf, Group, WriteCalls, PlanActions, DependencyResources, AgentResource, AgentContract;
    var before := Group(AgentContract(d, inputs).commands, d.chain, IsBefore);
    var actions := Build(t, d, inputs).actions;
    var jobs := Jobs(actions);
    PerformFits(o, site);
    LaunchIsGated(PerformerOf(o, site), CallsIn(site), t, d, inputs, n, steps, i);
    WalkFollows(PerformerOf(o, site), CallsIn(site), actions, n, steps);
    JobsOfBuilt(t, d, inputs);
    forall j | 0 <= j < |steps| ensures TimedAt(PerformerOf(o, site), CallsIn(site), steps, jobs, n, j) {
      WalkIsTimed(PerformerOf(o, site), CallsIn(site), actions, n, steps, j);
    }
    assert |before| + 1 == i;
    runs := RunCounts(steps[..|before|]);
    more := Flat(CallsIn(site), steps[i + 1..]);
    LogOfGated(o, site, steps, jobs, n, before, runs);
    forall j | 0 <= j < |before|
      ensures runs[j] >= 1 && LastOutcome(o, n, before, runs, j) == steps[j].ran.outcome
    {
      FlatIsRuns(site, steps, before, runs, j);
      RunEndsSo(o, site, steps, jobs, n, before, runs, j);
    }
    if more != [] {
      assert |steps| > i + 1 by {
        NoFlat(site, steps[i + 1..]);
      }
      assert Went(steps[i]);
    }
  }

  lemma {:induction false} NoFlat(site: Site, steps: seq<Done>)
    ensures steps == [] ==> Flat(CallsIn(site), steps) == []
  {
  }

  /** The jobs of a built plan begin with the before_start commands, the files and the launch. */
  lemma {:induction false} JobsOfBuilt(t: Tables, d: Deployment, inputs: RunInputs)
    ensures var before, jobs := Group(AgentContract(d, inputs).commands, d.chain, IsBefore),
                                Jobs(Build(t, d, inputs).actions);
            && |jobs| >= |before| + 2 && jobs[|before|] == WriteRuntime && jobs[|before| + 1] == LaunchAgent
            && forall j :: 0 <= j < |before| ==> jobs[j] == RunSsh(before[j])
  {
    hide Group, PlanActions, DependencyResources, AgentResource, AgentContract;
    var contract := AgentContract(d, inputs).commands;
    var before, after := Group(contract, d.chain, IsBefore), Group(contract, d.chain, IsAfter);
    PlanJobs(DependencyResources(t, inputs, OwnPodDependencies(d)), AgentResource(t, d, inputs).name, contract, d.chain,
             d.keepAlive);
    PlanGroups(contract, d.chain);
    RunAllIsJobs(before);
    TailJobs(after, d.keepAlive, TeardownGroup(d.chain));
    JobShape(before, Jobs(Build(t, d, inputs).actions),
             Jobs(RunAll(after) + (Closing(d.keepAlive) + RunAll(TeardownGroup(d.chain)))));
  }

  lemma {:induction false} CallsOfFlat(site: Site, steps: seq<Done>, c: Call)
    requires c in Flat(CallsIn(site), steps)
    ensures exists i :: 0 <= i < |steps| && c in CallsOf(site, steps[i])
    decreases |steps|
  {
    var m := |steps| - 1;
    if c in CallsOf(site, steps[m]) {
    } else {
      CallsOfFlat(site, steps[..m], c);
    }
  }

  lemma {:induction false} WritesAreWrites(paths: seq<string>)
    ensures forall c :: c in WriteCalls(paths) ==> c.WriteFile?
    decreases |paths|
  {
    if paths != [] {
      WritesAreWrites(paths[..|paths| - 1]);
    }
  }

  /** A session whose log holds the launch line launched the agent, unless a command it ran has the same text. */
  lemma {:induction false} LaunchLineTells(site: Site, steps: seq<Done>)
    requires Ssh(site.launch) in Flat(CallsIn(site), steps)
    requires forall i :: 0 <= i < |steps| && steps[i].DidRun? ==> steps[i].ran.command.command != site.launch
    ensures Launched(steps)
  {
    CallsOfFlat(site, steps, Ssh(site.launch));
    var i :| 0 <= i < |steps| && Ssh(site.launch) in CallsOf(site, steps[i]);
    match steps[i]
    case DidWrite(count, _) => WritesAreWrites(if count <= |site.paths| then site.paths[..count] else site.paths);
    case _ =>
  }
}
