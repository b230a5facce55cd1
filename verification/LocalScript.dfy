/** The run script of the local runtime and the command files that its lines name. The script counts positions within
    phases; the file writer counts positions over all commands. */
module LocalScript {
  import opened Text
  import opened Commands
  import opened Planner

  /** The fixed words of the script and of the file names: "local-runtime/commands/", the four phase words, ".sh" and
      the first line of the files. */
  datatype Words = Words(directory: string, before: string, after: string, ready: string, teardown: string,
                         suffix: string,
                         shebang: string)
  {
    function Phase(p: Phase): string {
      match p
      case BeforeStart => before
      case AfterStart => after
      case AfterReady => ready
      case Teardown => teardown
    }

    /** local_runtime_command_filename; the phase words need no sanitizing. */
    function FileName(index: nat, c: Command): string {
      Padded(index) + ['-'] + (Phase(c.phase) + suffix)
    }

    function Path(index: nat, c: Command): string {
      directory + FileName(index, c)
    }

    function FileText(command: string): string {
      shebang + command + "\n"
    }
  }

  /** The arguments of one `run_crag_command` line, before they are quoted. */
  datatype ScriptLine = ScriptLine(title: string, policy: Policy, retries: int, path: string)

  function LineFor(w: Words, c: Command, index: nat, fileIndex: nat): ScriptLine {
    var fallback := w.Phase(c.phase) + ":" + Decimal(index);
    var title := if c.source.Some? && c.source.value != "" then c.source.value else fallback;
    ScriptLine(title, c.policy, c.retryCount, w.Path(fileIndex, c))
  }

  /** What enumerate() gives a line of: the command and its position. */
  type Printer = (Command, nat) -> ScriptLine

  function Printed(commands: seq<Command>, line: Printer): (r: seq<ScriptLine>)
    ensures |r| == |commands|
  {
    if commands == [] then []
    else var n := |commands| - 1; Printed(commands[..n], line) + [line(commands[n], n)]
  }

  lemma {:induction false} PrintedAt(commands: seq<Command>, line: Printer, i: nat)
    requires i < |commands|
    ensures Printed(commands, line)[i] == line(commands[i], i)
    decreases |commands|
  {
    var n := |commands| - 1;
    if i < n {
      PrintedAt(commands[..n], line, i);
    }
  }

  function LineFrom(w: Words, start: nat): Printer {
    (c: Command, i: nat) => LineFor(w, c, i, start + i)
  }

  /** One line per command of a phase group whose files are numbered from `start`. */
  function Lines(w: Words, commands: seq<Command>, start: nat): (r: seq<ScriptLine>)
    ensures |r| == |commands|
  {
    Printed(commands, LineFrom(w, start))
  }

  /** local_runtime_commands_for_phase */
  function CommandsForPhase(actions: seq<Action>, p: Command -> bool): seq<Command> {
    if actions == [] then []
    else if actions[0].RunSsh? && p(actions[0].command) then [actions[0].command] + CommandsForPhase(actions[1..], p)
    else CommandsForPhase(actions[1..], p)
  }

  lemma {:induction false} PhaseIsFilter(actions: seq<Action>, p: Command -> bool)
    ensures CommandsForPhase(actions, p) == Filter(CommandsOf(actions), p)
  {
    if actions != [] {
      PhaseIsFilter(actions[1..], p);
      if actions[0].RunSsh? {
        var c, rest := actions[0].command, CommandsOf(actions[1..]);
        assert ([c] + rest)[1..] == rest;
      }
    }
  }

  method PrintLines(commands: seq<Command>, line: Printer) returns (lines: seq<ScriptLine>)
    ensures lines == Printed(commands, line)
  {
    lines := [];
    for index := 0 to |commands|
      invariant lines == Printed(commands[..index], line)
    {
      assert commands[..index + 1][..index] == commands[..index];
      lines := lines + [line(commands[index], index)];
    }
    assert commands[..|commands|] == commands;
  }

  /** The two command blocks of agent_run_script. */
  method RunScriptLines(w: Words, actions: seq<Action>) returns (before: seq<ScriptLine>, after: seq<ScriptLine>)
    ensures var b := CommandsForPhase(actions, IsBefore);
            before == Lines(w, b, 0) && after == Lines(w, CommandsForPhase(actions, IsAfter), |b|)
  {
    var beforeCommands := CommandsForPhase(actions, IsBefore);
    var afterCommands := CommandsForPhase(actions, IsAfter);
    before := PrintLines(beforeCommands, LineFrom(w, 0));
    after := PrintLines(afterCommands, LineFrom(w, |beforeCommands|));
  }

  type Naming = (Command, nat) -> string

  function FilesBy(path: Naming, text: Command -> string, files: map<string, string>,
                   commands: seq<Command>): map<string, string> {
    if commands == [] then files
    else var n := |commands| - 1; FilesBy(path, text, files, commands[..n])[path(commands[n], n) := text(commands[n])]
  }

  function CommandFiles(w: Words, files: map<string, string>, commands: seq<Command>): map<string, string> {
    FilesBy(PathOf(w), TextOf(w), files, commands)
  }

  function PathOf(w: Words): Naming {
    (c: Command, i: nat) => w.Path(i, c)
  }

  function TextOf(w: Words): Command -> string {
    (c: Command) => w.FileText(c.command)
  }

  method WriteFiles(path: Naming, text: Command -> string, start: map<string, string>, commands: seq<Command>)
    returns (files: map<string, string>)
    ensures files == FilesBy(path, text, start, commands)
  {
    files := start;
    for index := 0 to |commands|
      invariant files == FilesBy(path, text, start, commands[..index])
    {
      assert commands[..index + 1][..index] == commands[..index];
      files := files[path(commands[index], index) := text(commands[index])];
    }
    assert commands[..|commands|] == commands;
  }

  /** The last loop of local_runtime_file_contents: one file per command, teardown included. */
  method WriteCommandFiles(w: Words, start: map<string, string>, actions: seq<Action>)
      returns (files: map<string, string>)
    ensures files == CommandFiles(w, start, CommandsOf(actions))
  {
    files := WriteFiles(PathOf(w), TextOf(w), start, CommandsOf(actions));
  }

  lemma {:induction false} FileNameIndex(w: Words, i: nat, c: Command)
    ensures Split(w.FileName(i, c), '-') == [Padded(i)] + Split(w.Phase(c.phase) + w.suffix, '-')
  {
    assert '-' !in Padded(i);
    SplitCut(Padded(i), '-', w.Phase(c.phase) + w.suffix);
  }

  /** Different positions have different files, whatever the phases. */
  lemma {:induction false} PathsDiffer(w: Words, i: nat, c: Command, j: nat, e: Command)
    requires w.Path(i, c) == w.Path(j, e)
    ensures i == j
  {
    SameHead(w.directory, w.FileName(i, c), w.FileName(j, e));
    FileNameIndex(w, i, c);
    FileNameIndex(w, j, e);
    assert Padded(i) == Split(w.FileName(i, c), '-')[0] == Padded(j);
    PaddedValue(i);
    PaddedValue(j);
  }

  /** With different files for different positions, every file keeps what was written for its command. */
  lemma {:induction false} WrittenAt(path: Naming, text: Command -> string, files: map<string, string>,
                                     commands: seq<Command>, i: nat)
    requires i < |commands|
    requires forall c, j, d, k :: path(c, j) == path(d, k) ==> j == k
    ensures var p := path(commands[i], i);
            p in FilesBy(path, text, files, commands) && FilesBy(path, text, files, commands)[p] == text(commands[i])
    decreases |commands|
  {
    var n := |commands| - 1;
    if i < n {
      WrittenAt(path, text, files, commands[..n], i);
    }
  }

  /** Every file keeps the command it was written for. */
  lemma {:induction false} FileAt(w: Words, files: map<string, string>, commands: seq<Command>, i: nat)
    requires i < |commands|
    ensures var path := w.Path(i, commands[i]);
            path in CommandFiles(w, files, commands)
                && CommandFiles(w, files, commands)[path] == w.FileText(commands[i].command)
  {
    var path := PathOf(w);
    forall c: Command, j: nat, d: Command, k: nat | path(c, j) == path(d, k) ensures j == k {
      PathsDiffer(w, j, c, k, d);
    }
    WrittenAt(path, TextOf(w), files, commands, i);
  }

  lemma {:induction false} ConcatAt<T>(x: seq<T>, y: seq<T>, i: nat)
    requires i < |x| + |y|
    ensures i < |x| ==> (x + y)[i] == x[i]
  {
  }

  lemma {:induction false} LineFromAt(w: Words, start: nat, commands: seq<Command>, i: nat)
    requires i < |commands|
    ensures Lines(w, commands, start)[i] == LineFor(w, commands[i], i, start + i)
  {
    PrintedAt(commands, LineFrom(w, start), i);
  }

  lemma {:induction false} ScriptLineBefore(w: Words, b: seq<Command>, a: seq<Command>, i: nat)
    requires i < |b|
    ensures (Lines(w, b, 0) + Lines(w, a, |b|))[i] == LineFor(w, (b + a)[i], i, i)
  {
    ConcatAt(Lines(w, b, 0), Lines(w, a, |b|), i);
    ConcatAt(b, a, i);
    LineFromAt(w, 0, b, i);
  }

  lemma {:induction false} ConcatPast<T>(x: seq<T>, y: seq<T>, j: nat)
    requires j < |y|
    ensures (x + y)[|x| + j] == y[j]
  {
  }

  lemma {:induction false} ScriptLineAfter(w: Words, b: seq<Command>, a: seq<Command>, i: nat, j: nat)
    requires j < |a| && i == |b| + j
    ensures (Lines(w, b, 0) + Lines(w, a, |b|))[i] == LineFor(w, (b + a)[i], j, i)
  {
    ConcatPast(Lines(w, b, 0), Lines(w, a, |b|), j);
    ConcatPast(b, a, j);
    LineFromAt(w, |b|, a, j);
  }

  lemma {:induction false} InFront(b: seq<Command>, a: seq<Command>, t: seq<Command>, i: nat)
    requires i < |b| + |a|
    ensures (b + (a + t))[i] == (b + a)[i]
  {
  }

  /** A line of the script, the text of the file that it names, the command of both, and its place in its group. */
  ghost predicate Tells(w: Words, line: ScriptLine, text: string, c: Command, index: nat) {
    && text == w.shebang + c.command + "\n"
    && line.policy == c.policy && line.retries == c.retryCount
    && line.title == if c.source.Some? && c.source.value != "" then c.source.value
                     else w.Phase(c.phase) + ":" + Decimal(index)
  }

  /** For any list that holds its before_start commands first and its after commands next, a line of the script names
      the file of the command with the same place among the two groups. */
  lemma {:induction false} LineNamesFile(w: Words, files: map<string, string>, b: seq<Command>, a: seq<Command>,
                                         t: seq<Command>, i: nat)
    requires i < |b| + |a|
    ensures var line, written := (Lines(w, b, 0) + Lines(w, a, |b|))[i], CommandFiles(w, files, b + (a + t));
            line.path in written && Tells(w, line, written[line.path], (b + a)[i], if i < |b| then i else i - |b|)
  {
    FileAt(w, files, b + (a + t), i);
    if i < |b| {
      ScriptLineBefore(w, b, a, i);
    } else {
      ScriptLineAfter(w, b, a, i, i - |b|);
    }
    InFront(b, a, t, i);
  }

  lemma {:induction false} WithoutTeardown(b: seq<Command>, a: seq<Command>, t: seq<Command>)
    requires AllAre(b, IsBefore) && AllAre(a, IsAfter) && AllAre(t, IsTeardown)
    ensures Filter(b + (a + t), NotTeardown) == b + a
  {
    SelectOne(b, a, t, NotTeardown);
    FilterAll(b, NotTeardown);
    FilterAll(a, NotTeardown);
    FilterNone(t, NotTeardown);
    assert b + (a + []) == b + a;
  }

  /** The commands of a built plan, split the three ways its readers split them. */
  lemma {:induction false} PlanSplit(t: Tables, d: Deployment, inputs: RunInputs)
    ensures var plan := Build(t, d, inputs);
            var b, a := CommandsForPhase(plan.actions, IsBefore), CommandsForPhase(plan.actions, IsAfter);
            && CommandsOf(plan.actions) == b + (a + TeardownGroup(d.chain))
            && Filter(CommandsOf(plan.actions), NotTeardown) == b + a
  {
    var plan := Build(t, d, inputs);
    var contract := AgentContract(d, inputs).commands;
    var b, a, down := Group(contract, d.chain, IsBefore), Group(contract, d.chain, IsAfter), TeardownGroup(d.chain);
    PlanCommands(DependencyResources(t, inputs, OwnPodDependencies(d)), AgentResource(t, d, inputs).name, contract,
                 d.chain, d.keepAlive);
    PlanGroups(contract, d.chain);
    SelectGroups(b, a, down);
    WithoutTeardown(b, a, down);
    PhaseIsFilter(plan.actions, IsBefore);
    PhaseIsFilter(plan.actions, IsAfter);
  }

  /** For every plan the planner can build and whatever files were written before: the script runs, line by line,
      exactly the commands that the SSH runner runs, in the same order and with the same policy, and each line names the
      file that holds that very command. */
  lemma {:induction false} ScriptNamesRightFiles(w: Words, t: Tables, d: Deployment, inputs: RunInputs,
                                                 files: map<string, string>, i: nat)
    requires i < |Filter(CommandsOf(Build(t, d, inputs).actions), NotTeardown)|
    ensures var plan := Build(t, d, inputs);
            var b, a := CommandsForPhase(plan.actions, IsBefore), CommandsForPhase(plan.actions, IsAfter);
            var lines, written := Lines(w, b, 0) + Lines(w, a, |b|), CommandFiles(w, files, CommandsOf(plan.actions));
            var command := Filter(CommandsOf(plan.actions), NotTeardown)[i];
            && |lines| == |Filter(CommandsOf(plan.actions), NotTeardown)|
            && lines[i].path in written
            && Tells(w, lines[i], written[lines[i].path], command, if i < |b| then i else i - |b|)
  {
    hide Tells, Decimal;
    var plan := Build(t, d, inputs);
    var b, a := CommandsForPhase(plan.actions, IsBefore), CommandsForPhase(plan.actions, IsAfter);
    PlanSplit(t, d, inputs);
    LineNamesFile(w, files, b, a, TeardownGroup(d.chain), i);
  }

  /** The order matters: when a teardown command stands before an after_start command, the script line of the latter
      names a file that was never written. */
  lemma {:induction false} OrderMatters(w: Words, down: Command, up: Command)
    requires down.phase == Teardown && up.phase == AfterStart && |w.teardown| != |w.after|
    ensures var commands := [down, up];
            var b, a := Filter(commands, IsBefore), Filter(commands, IsAfter);
            && (Lines(w, b, 0) + Lines(w, a, |b|)) == [LineFor(w, up, 0, 0)]
            && w.Path(0, up) !in CommandFiles(w, map[], commands)
  {
    TwoFilters(down, up);
    assert [up][..0] == [];
    assert Lines(w, [], 0) + Lines(w, [up], 0) == [LineFor(w, up, 0, 0)];
    TwoFiles(w, down, up);
    PathLengths(w, down, up);
  }

  lemma {:induction false} TwoFilters(down: Command, up: Command)
    requires down.phase == Teardown && up.phase == AfterStart
    ensures Filter([down, up], IsBefore) == [] && Filter([down, up], IsAfter) == [up]
  {
    FilterNone([down, up], IsBefore);
    assert [down, up] == [down] + [up];
    FilterConcat([down], [up], IsAfter);
    FilterNone([down], IsAfter);
    FilterAll([up], IsAfter);
    assert [] + [up] == [up];
  }

  lemma {:induction false} OneMoreFile(path: Naming, text: Command -> string, files: map<string, string>,
                                       front: seq<Command>, c: Command)
    ensures FilesBy(path, text, files, front + [c]) == FilesBy(path, text, files, front)[path(c, |front|) := text(c)]
  {
    assert (front + [c])[..|front|] == front;
  }

  lemma {:induction false} TwoFiles(w: Words, c: Command, d: Command)
    ensures CommandFiles(w, map[], [c, d]).Keys == {w.Path(0, c), w.Path(1, d)}
  {
    OneMoreFile(PathOf(w), TextOf(w), map[], [], c);
    OneMoreFile(PathOf(w), TextOf(w), map[], [c], d);
    assert [] + [c] == [c] && [c] + [d] == [c, d];
  }

  lemma {:induction false} PathLengths(w: Words, down: Command, up: Command)
    requires down.phase == Teardown && up.phase == AfterStart && |w.teardown| != |w.after|
    ensures w.Path(0, up) != w.Path(0, down) && w.Path(0, up) != w.Path(1, up)
  {
    if w.Path(0, up) == w.Path(1, up) {
      PathsDiffer(w, 0, up, 1, up);
    }
    assert |w.Path(0, up)| - |w.Path(0, down)| == |w.after| - |w.teardown|;
  }
}
