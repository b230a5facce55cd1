/** The pasteable startup script: one outer here-document for bash, holding inner here-documents that write the runtime
    files and run the before_start commands. */
module StartupScript {
  import opened Text
  import opened Shell
  import opened ShellLines
  import opened SessionEnv
  import opened Commands

  datatype File = File(path: string, content: string)

  /** What the script is generated from.  JSON bodies and the fixed scripts are given as text. */
  datatype Runtime = Runtime(
    workspace: string,
    env: seq<Item>,                  // the runtime environment, in sorted order
    resourcesJson: string,
    commandsJson: string,
    contractFiles: seq<File>,
    subagentFiles: seq<File>,
    piFiles: seq<File>,
    launcherFiles: seq<File>,
    commands: seq<Command>,          // every RUN_SSH_COMMAND of the plan, in plan order
    manual: bool,
    timer: string,                   // the keep-alive script, empty when there is none
    launcher: string,                // the configured launcher, empty when there is none
    harness: string)

  const OUTER := "CRAG_STARTUP"

  function LStrip(s: string, c: char): string {
    if s != "" && s[0] == c then LStrip(s[1..], c) else s
  }

  function Base(rt: Runtime): string {
    RStrip(rt.workspace, '/') + "/.runpod_agentic"
  }

  function Lookup(env: seq<Item>, key: string): string {
    if env == [] then "" else if env[0].0 == key then env[0].1 else Lookup(env[1..], key)
  }

  function Optional(rt: Runtime, name: string, key: string): seq<File> {
    var value := Lookup(rt.env, key);
    if value == "" then [] else [File(Base(rt) + name, value)]
  }

  function Under(prefix: string, files: seq<File>): seq<File> {
    if files == [] then [] else [File(prefix + files[0].path, files[0].content)] + Under(prefix, files[1..])
  }

  function Stripped(files: seq<File>): seq<File> {
    if files == [] then []
    else [File(RStrip(LStrip(files[0].path, '/'), '/'), files[0].content)] + Stripped(files[1..])
  }

  /** The runtime files in the order in which they are written, over SSH and by the script alike. */
  function RuntimeFiles(rt: Runtime): seq<File> {
    var base := Base(rt);
    [File(base + "/resources.json", rt.resourcesJson), File(base + "/session.env", SessionEnv.SessionEnv(rt.env)),
     File(base + "/commands.json", rt.commandsJson)]
    + Optional(rt, SYSTEM_PROMPT_FILE, "AGENT_SYSTEM_PROMPT") + Optional(rt, PROMPT_FILE, "AGENT_PROMPT")
    + Optional(rt, MCP_FILE, "MCP_SERVERS_JSON") + Optional(rt, SUBAGENTS_FILE, "CRAG_SUBAGENTS_JSON")
    + Under("/", Stripped(rt.contractFiles)) + Under(base + "/", rt.subagentFiles)
    + Under(base + "/", rt.piFiles) + Under(base + "/", rt.launcherFiles)
  }

  // ---------------------------------------------------------------------------------------------
  // The lines

  type PathHash = string -> nat

  function FileMarker(hash: PathHash, path: string): string {
    "CRAG_FILE_" + Decimal(hash(path))
  }

  /** crag_command_{index}, upper-cased */
  function CommandMarker(index: nat): string {
    "CRAG_COMMAND_" + Decimal(index)
  }

  // The fixed text of the ordinary lines.
  const PROMPT_FILE: RawText := "/prompt.txt"
  const SYSTEM_PROMPT_FILE: RawText := "/system_prompt.txt"
  const MCP_FILE: RawText := "/mcp_servers.json"
  const SUBAGENTS_FILE: RawText := "/subagents.json"
  const LINKS_FILE: RawText := "/launcher.d/20-harness-links.sh"
  const MKDIR_PARENT: RawText := "mkdir -p $(dirname "
  const CLOSE: RawText := ")"
  const STRICT: RawText := "set -euo pipefail"
  const SET_WORKSPACE: RawText := "workspace="
  const MKDIR: RawText := "mkdir -p "
  const REMOVE: RawText := "rm -f "
  const CD: RawText := "cd "
  const WORKSPACE_VAR: RawText := "WORKSPACE_DIR="
  const RUNTIME_VAR: RawText := " CRAG_RUNTIME_DIR="
  const PROMPT_VAR: RawText := " AGENT_PROMPT_FILE="
  const SYSTEM_PROMPT_VAR: RawText := " AGENT_SYSTEM_PROMPT_FILE="
  const MCP_VAR: RawText := " MCP_SERVERS_FILE="
  const SUBAGENTS_VAR: RawText := " CRAG_SUBAGENTS_FILE="
  const THEN_BASH: RawText := " bash "
  const MAKE_RUNTIME: RawText := " && mkdir -p .runpod_agentic && "
  const TIMER_OPEN: RawText := "(nohup bash -lc "
  const TIMER_LOG: RawText := " > .runpod_agentic/keepalive.log"
  const TIMER_CLOSE: RawText := " 2>&1 &)"
  const LAUNCH_BASH: RawText := " && nohup bash -lc "
  const LAUNCH_LOG: RawText := " > .runpod_agentic/agent.log 2>&1 &"
  const CHMOD: RawText := " && chmod +x "
  const LAUNCHER: RawText := ".runpod_agentic/launcher.sh "
  const LAUNCHER_PARTS: RawText := ".runpod_agentic/launcher.d/*.sh "
  const LAUNCHER_DIR: RawText := ".runpod_agentic/launcher.d/"
  const HARNESSES: RawText := "harnesses/*.sh "
  const IGNORE_ERRORS: RawText := "2>/dev/null || true && "
  const LAUNCH_DEFAULT: RawText := "nohup .runpod_agentic/launcher.sh "
  const THEN_RUNTIME: RawText := " && mkdir -p .runpod_agentic"
  const ECHO: RawText := "echo "
  const TOUCH: RawText := "touch "
  const RUNTIME_DIR: DoubleText := "$workspace/.runpod_agentic"
  const READY_FILE: DoubleText := "$workspace/.runpod_agentic/startup.ready"
  const WORKSPACE: DoubleText := "$workspace"

  function MkdirLine(path: string): seq<Piece> {
    [Raw(MKDIR_PARENT), Quoted(path), Raw(CLOSE)]
  }

  function FileLines(hash: PathHash, f: File): seq<string> {
    var marker := FileMarker(hash, f.path);
    [Render(MkdirLine(f.path)), CatLine(f.path, marker), f.content, marker]
  }

  function AllFileLines(hash: PathHash, files: seq<File>): seq<string> {
    if files == [] then []
    else AllFileLines(hash, files[..|files| - 1]) + FileLines(hash, files[|files| - 1])
  }

  function ScriptLines(index: nat, command: string): seq<string> {
    [BashLine(CommandMarker(index)), command, CommandMarker(index)]
  }

  function CommandLines(commands: seq<Command>): seq<string> {
    if commands == [] then []
    else
      var n := |commands| - 1;
      CommandLines(commands[..n])
      + if commands[n].phase == BeforeStart then ScriptLines(n, commands[n].command) else []
  }

  function Preamble(rt: Runtime): seq<seq<Piece>> {
    [[Raw(STRICT)],
     [Raw(SET_WORKSPACE), Quoted(rt.workspace)],
     [Raw(MKDIR), DoubleQuoted(RUNTIME_DIR)],
     [Raw(REMOVE), DoubleQuoted(READY_FILE)],
     [Raw(CD), DoubleQuoted(WORKSPACE)]]
  }

  function LinksLine(rt: Runtime): seq<Piece> {
    var base := Base(rt);
    [Raw(WORKSPACE_VAR), Quoted(rt.workspace), Raw(RUNTIME_VAR), Quoted(base),
     Raw(PROMPT_VAR), Quoted(base + PROMPT_FILE),
     Raw(SYSTEM_PROMPT_VAR), Quoted(base + SYSTEM_PROMPT_FILE),
     Raw(MCP_VAR), Quoted(base + MCP_FILE),
     Raw(SUBAGENTS_VAR), Quoted(base + SUBAGENTS_FILE),
     Raw(THEN_BASH), Quoted(base + LINKS_FILE)]
  }

  function TimerPieces(rt: Runtime): seq<Piece> {
    if rt.timer == "" then []
    else [Raw(MAKE_RUNTIME), Raw(TIMER_OPEN), Quoted(rt.timer),
          Raw(TIMER_LOG), Raw(TIMER_CLOSE)]
  }

  function StartPieces(rt: Runtime): seq<Piece> {
    if rt.launcher != "" then
      [Raw(LAUNCH_BASH), Quoted(rt.launcher), Raw(LAUNCH_LOG)]
    else
      [Raw(CHMOD), Raw(LAUNCHER), Raw(LAUNCHER_PARTS),
       Raw(LAUNCHER_DIR), Raw(HARNESSES), Raw(IGNORE_ERRORS),
       Raw(LAUNCH_DEFAULT), Quoted(rt.harness), Raw(LAUNCH_LOG)]
  }

  function WorkspacePieces(rt: Runtime): seq<Piece> {
    [Raw(CD), Quoted(rt.workspace), Raw(THEN_RUNTIME)]
  }

  /** launch_command_for_plan; no pieces means the empty command. */
  function LaunchPieces(rt: Runtime): seq<Piece> {
    if rt.manual then if rt.timer == "" then [] else WorkspacePieces(rt) + TimerPieces(rt)
    else WorkspacePieces(rt) + TimerPieces(rt) + StartPieces(rt)
  }

  function LaunchLine(rt: Runtime): seq<Piece> {
    if LaunchPieces(rt) == [] then [Raw(ECHO), Quoted("CRAG startup mode is manual; launcher not started.")]
    else LaunchPieces(rt)
  }

  function Ending(rt: Runtime): seq<seq<Piece>> {
    [LaunchLine(rt), [Raw(TOUCH), DoubleQuoted(READY_FILE)]]
  }

  function RenderAll(lines: seq<seq<Piece>>): seq<string> {
    if lines == [] then [] else [Render(lines[0])] + RenderAll(lines[1..])
  }

  function InnerLines(rt: Runtime, hash: PathHash): seq<string> {
    RenderAll(Preamble(rt)) + (AllFileLines(hash, RuntimeFiles(rt))
      + (RenderAll([LinksLine(rt)]) + (CommandLines(rt.commands) + RenderAll(Ending(rt)))))
  }

  /** Everything between the outer markers. */
  function Body(rt: Runtime, hash: PathHash): string {
    Join(InnerLines(rt, hash), "\n")
  }

  function StartupScript(rt: Runtime, hash: PathHash): string {
    Join([BashLine(OUTER)] + InnerLines(rt, hash) + [OUTER], "\n")
  }

  lemma {:induction false} FileLinesUpTo(hash: PathHash, files: seq<File>, i: nat)
    requires i < |files|
    ensures AllFileLines(hash, files[..i + 1]) == AllFileLines(hash, files[..i]) + FileLines(hash, files[i])
  {
    assert files[..i + 1][..i] == files[..i];
  }

  lemma {:induction false} CommandLinesUpTo(commands: seq<Command>, i: nat)
    requires i < |commands|
    ensures CommandLines(commands[..i + 1])
            == CommandLines(commands[..i])
               + if commands[i].phase == BeforeStart then ScriptLines(i, commands[i].command) else []
  {
    assert commands[..i + 1][..i] == commands[..i];
  }

  method AppendFiles(hash: PathHash, files: seq<File>, before: seq<string>) returns (lines: seq<string>)
    ensures lines == before + AllFileLines(hash, files)
  {
    lines := before;
    for i := 0 to |files|
      invariant lines == before + AllFileLines(hash, files[..i])
    {
      FileLinesUpTo(hash, files, i);
      lines := lines + FileLines(hash, files[i]);
    }
    assert files[..|files|] == files;
  }

  method AppendCommands(commands: seq<Command>, before: seq<string>) returns (lines: seq<string>)
    ensures lines == before + CommandLines(commands)
  {
    lines := before;
    for i := 0 to |commands|
      invariant lines == before + CommandLines(commands[..i])
    {
      CommandLinesUpTo(commands, i);
      if commands[i].phase == BeforeStart {
        lines := lines + ScriptLines(i, commands[i].command);
      }
    }
    assert commands[..|commands|] == commands;
  }

  lemma {:induction false} LinesRegroup(h: seq<string>, a: seq<string>, b: seq<string>, c: seq<string>, d: seq<string>,
                                        e: seq<string>, t: seq<string>)
    ensures (((((h + a) + b) + c) + d) + e) + t == h + (a + (b + (c + (d + e)))) + t
  {
  }

  /** startup_script_for_plan: the list of lines is extended file by file and command by command. */
  method BuildStartupScript(rt: Runtime, hash: PathHash) returns (script: string)
    ensures script == StartupScript(rt, hash)
  {
    var lines := [BashLine(OUTER)] + RenderAll(Preamble(rt));
    lines := AppendFiles(hash, RuntimeFiles(rt), lines);
    lines := lines + RenderAll([LinksLine(rt)]);
    lines := AppendCommands(rt.commands, lines);
    lines := (lines + RenderAll(Ending(rt))) + [OUTER];
    LinesRegroup([BashLine(OUTER)], RenderAll(Preamble(rt)), AllFileLines(hash, RuntimeFiles(rt)),
                 RenderAll([LinksLine(rt)]), CommandLines(rt.commands), RenderAll(Ending(rt)), [OUTER]);
    script := Join(lines, "\n");
  }

  // ---------------------------------------------------------------------------------------------
  // Reading it back

  function Writes(files: seq<File>): seq<Effect> {
    if files == [] then []
    else Writes(files[..|files| - 1]) + [Write(files[|files| - 1].path, files[|files| - 1].content + "\n")]
  }

  function Scripts(commands: seq<Command>): seq<Effect> {
    if commands == [] then []
    else
      var n := |commands| - 1;
      Scripts(commands[..n]) + if commands[n].phase == BeforeStart then [Script(commands[n].command + "\n")] else []
  }

  /** No content holds its own marker as a line. */
  predicate FilesFree(hash: PathHash, files: seq<File>) {
    forall i :: 0 <= i < |files| ==> LineFree(files[i].content, FileMarker(hash, files[i].path))
  }

  predicate CommandsFree(commands: seq<Command>) {
    forall i :: 0 <= i < |commands| && commands[i].phase == BeforeStart ==>
      LineFree(commands[i].command, CommandMarker(i))
  }

  lemma {:induction false} NumeralPlain(prefix: string, n: nat)
    requires forall i :: 0 <= i < |prefix| ==> prefix[i] != '\'' && prefix[i] != '\n'
    ensures '\'' !in prefix + Decimal(n) && '\n' !in prefix + Decimal(n)
  {
    var s := prefix + Decimal(n);
    forall i | 0 <= i < |s| ensures s[i] != '\'' && s[i] != '\n' {
      if i >= |prefix| {
        assert s[i] == Decimal(n)[i - |prefix|];
      }
    }
  }

  lemma {:induction false} RunOrdinaryAll(st: State, fx: seq<Effect>, lines: seq<seq<Piece>>)
    requires Clean(st, fx)
    ensures Clean(Run(st, Terminated(RenderAll(lines))), fx)
    decreases |lines|
  {
    if lines == [] {
      RunNil(st);
    } else {
      var first := Render(lines[0]) + "\n";
      RunConcat(st, first, Terminated(RenderAll(lines[1..])));
      RunOrdinary(st, fx, lines[0]);
      RunOrdinaryAll(Run(st, first), fx, lines[1..]);
    }
  }

  lemma {:induction false} TerminatedTwo(c: string, d: string)
    ensures Terminated([c, d]) == c + "\n" + d + "\n"
  {
    TerminatedCons(c, [d]);
    TerminatedCons(d, []);
    assert [c] + [d] == [c, d] && [d] + [] == [d];
    AppendEmpty(c + "\n", d);
  }

  lemma {:induction false} TerminatedThree(b: string, c: string, d: string)
    ensures Terminated([b, c, d]) == (b + "\n") + (c + "\n" + d + "\n")
  {
    TerminatedTwo(c, d);
    TerminatedCons(b, [c, d]);
    assert [b] + [c, d] == [b, c, d];
  }

  lemma {:induction false} TerminatedFour(a: string, b: string, c: string, d: string)
    ensures Terminated([a, b, c, d]) == (a + "\n") + ((b + "\n") + (c + "\n" + d + "\n"))
  {
    TerminatedThree(b, c, d);
    TerminatedCons(a, [b, c, d]);
    assert [a] + [b, c, d] == [a, b, c, d];
  }

  lemma {:induction false} RunFile(st: State, fx: seq<Effect>, hash: PathHash, f: File)
    requires Clean(st, fx) && LineFree(f.content, FileMarker(hash, f.path))
    ensures Clean(Run(st, Terminated(FileLines(hash, f))), fx + [Write(f.path, f.content + "\n")])
  {
    hide Run, Clean, CatLine, MkdirLine;
    var marker := FileMarker(hash, f.path);
    var mkdir := Render(MkdirLine(f.path));
    var rest := (CatLine(f.path, marker) + "\n") + (f.content + "\n" + marker + "\n");
    TerminatedFour(mkdir, CatLine(f.path, marker), f.content, marker);
    RunConcat(st, mkdir + "\n", rest);
    RunOrdinary(st, fx, MkdirLine(f.path));
    NumeralPlain("CRAG_FILE_", hash(f.path));
    RunWrite(Run(st, mkdir + "\n"), fx, f.path, marker, f.content);
  }

  lemma {:induction false} RunFiles(st: State, fx: seq<Effect>, hash: PathHash, files: seq<File>)
    requires Clean(st, fx) && FilesFree(hash, files)
    ensures Clean(Run(st, Terminated(AllFileLines(hash, files))), fx + Writes(files))
    decreases |files|
  {
    hide Run, Clean, FileLines;
    if files == [] {
      RunNil(st);
      assert fx + [] == fx;
    } else {
      var front, last := files[..|files| - 1], files[|files| - 1];
      TerminatedConcat(AllFileLines(hash, front), FileLines(hash, last));
      RunConcat(st, Terminated(AllFileLines(hash, front)), Terminated(FileLines(hash, last)));
      RunFiles(st, fx, hash, front);
      RunFile(Run(st, Terminated(AllFileLines(hash, front))), fx + Writes(front), hash, last);
      assert (fx + Writes(front)) + [Write(last.path, last.content + "\n")] == fx + Writes(files);
    }
  }

  lemma {:induction false} RunCommand(st: State, fx: seq<Effect>, index: nat, command: string)
    requires Clean(st, fx) && LineFree(command, CommandMarker(index))
    ensures Clean(Run(st, Terminated(ScriptLines(index, command))), fx + [Script(command + "\n")])
  {
    TerminatedThree(BashLine(CommandMarker(index)), command, CommandMarker(index));
    NumeralPlain("CRAG_COMMAND_", index);
    RunScript(st, fx, CommandMarker(index), command);
  }

  lemma {:induction false} RunCommands(st: State, fx: seq<Effect>, commands: seq<Command>)
    requires Clean(st, fx) && CommandsFree(commands)
    ensures Clean(Run(st, Terminated(CommandLines(commands))), fx + Scripts(commands))
    decreases |commands|
  {
    hide ScriptLines, Run, Clean;
    if commands == [] {
      RunNil(st);
      assert fx + [] == fx;
    } else {
      var n := |commands| - 1;
      var front, last := commands[..n], commands[n];
      RunCommands(st, fx, front);
      var mid := Run(st, Terminated(CommandLines(front)));
      if last.phase == BeforeStart {
        TerminatedConcat(CommandLines(front), ScriptLines(n, last.command));
        RunConcat(st, Terminated(CommandLines(front)), Terminated(ScriptLines(n, last.command)));
        RunCommand(mid, fx + Scripts(front), n, last.command);
        assert (fx + Scripts(front)) + [Script(last.command + "\n")] == fx + Scripts(commands);
      } else {
        assert CommandLines(front) + [] == CommandLines(front);
        assert Scripts(front) + [] == Scripts(front);
      }
    }
  }

  lemma {:induction false} TerminatedInner(a: seq<string>, b: seq<string>, c: seq<string>, d: seq<string>,
                                           e: seq<string>)
    ensures Terminated(a + (b + (c + (d + e))))
            == Terminated(a) + (Terminated(b) + (Terminated(c) + (Terminated(d) + Terminated(e))))
  {
    TerminatedConcat(a, b + (c + (d + e)));
    TerminatedConcat(b, c + (d + e));
    TerminatedConcat(c, d + e);
    TerminatedConcat(d, e);
  }

  lemma {:induction false} RunInner(st: State, rt: Runtime, hash: PathHash)
    requires Clean(st, [])
    requires FilesFree(hash, RuntimeFiles(rt)) && CommandsFree(rt.commands)
    ensures Clean(Run(st, Terminated(InnerLines(rt, hash))), Writes(RuntimeFiles(rt)) + Scripts(rt.commands))
  {
    var files := RuntimeFiles(rt);
    var a, b := Terminated(RenderAll(Preamble(rt))), Terminated(AllFileLines(hash, files));
    var c, d := Terminated(RenderAll([LinksLine(rt)])), Terminated(CommandLines(rt.commands));
    var e := Terminated(RenderAll(Ending(rt)));
    TerminatedInner(RenderAll(Preamble(rt)), AllFileLines(hash, files), RenderAll([LinksLine(rt)]),
                    CommandLines(rt.commands), RenderAll(Ending(rt)));
    var fx := Writes(files);
    assert [] + fx == fx;
    RunConcat(st, a, b + (c + (d + e)));
    RunOrdinaryAll(st, [], Preamble(rt));
    var s1 := Run(st, a);
    RunConcat(s1, b, c + (d + e));
    RunFiles(s1, [], hash, files);
    var s2 := Run(s1, b);
    RunConcat(s2, c, d + e);
    RunOrdinaryAll(s2, fx, [LinksLine(rt)]);
    var s3 := Run(s2, c);
    RunConcat(s3, d, e);
    RunCommands(s3, fx, rt.commands);
    RunOrdinaryAll(Run(s3, d), fx + Scripts(rt.commands), Ending(rt));
  }

  lemma {:induction false} ScriptText(rt: Runtime, hash: PathHash)
    ensures StartupScript(rt, hash) + "\n" == (BashLine(OUTER) + "\n") + (Body(rt, hash) + "\n" + OUTER + "\n")
  {
    JoinBetween(BashLine(OUTER), InnerLines(rt, hash), OUTER);
  }

  lemma {:induction false} CleanStart()
    ensures Clean(Start([]), [])
  {
  }

  lemma {:induction false} OuterRoundTrip(rt: Runtime, hash: PathHash)
    requires LineFree(Body(rt, hash), OUTER)
    ensures Effects(Read(StartupScript(rt, hash))) == [Script(Body(rt, hash) + "\n")]
  {
    hide Run, Body, BashLine, StartupScript;
    CleanStart();
    ScriptText(rt, hash);
    RunScript(Start([]), [], OUTER, Body(rt, hash));
    assert [] + [Script(Body(rt, hash) + "\n")] == [Script(Body(rt, hash) + "\n")];
  }

  lemma {:induction false} InnerRoundTrip(rt: Runtime, hash: PathHash)
    requires FilesFree(hash, RuntimeFiles(rt)) && CommandsFree(rt.commands)
    ensures Effects(Read(Body(rt, hash))) == Writes(RuntimeFiles(rt)) + Scripts(rt.commands)
  {
    CleanStart();
    JoinTerminated(InnerLines(rt, hash));
    RunInner(Start([]), rt, hash);
  }

  /** The script runs one script, its body; the body writes exactly the runtime files, each content with a final
      newline, then runs exactly the before_start commands, in plan order. */
  lemma {:induction false} StartupScriptRoundTrip(rt: Runtime, hash: PathHash)
    requires LineFree(Body(rt, hash), OUTER)
    requires FilesFree(hash, RuntimeFiles(rt)) && CommandsFree(rt.commands)
    ensures Effects(Read(StartupScript(rt, hash))) == [Script(Body(rt, hash) + "\n")]
    ensures Effects(Read(Body(rt, hash))) == Writes(RuntimeFiles(rt)) + Scripts(rt.commands)
  {
    OuterRoundTrip(rt, hash);
    InnerRoundTrip(rt, hash);
  }

  /** The condition on the outer marker is exact: the first thing the shell does is run the whole body if and only if no
      line of the body is the outer marker. */
  lemma {:induction false} OuterMarkerExact(rt: Runtime, hash: PathHash)
    ensures var out := Read(StartupScript(rt, hash));
            |out| > 0 && (out[0] == SimpleCommand([Word("bash"), Here(OUTER)], [Body(rt, hash) + "\n"])
                          <==> LineFree(Body(rt, hash), OUTER))
  {
    hide Run, Body, BashLine, StartupScript;
    ScriptText(rt, hash);
    ScriptExact(OUTER, Body(rt, hash));
  }

  // ---------------------------------------------------------------------------------------------
  // The outer marker, piece by piece

  predicate OneLine(s: string) {
    '\n' !in s
  }

  predicate AllFree(lines: seq<string>, marker: string) {
    forall i :: 0 <= i < |lines| ==> LineFree(lines[i], marker)
  }

  lemma {:induction false} AllFreeConcat(a: seq<string>, b: seq<string>, marker: string)
    ensures AllFree(a + b, marker) <==> AllFree(a, marker) && AllFree(b, marker)
  {
    if AllFree(a + b, marker) {
      assert forall i :: 0 <= i < |a| ==> a[i] == (a + b)[i];
      assert forall i :: 0 <= i < |b| ==> b[i] == (a + b)[|a| + i];
    }
  }

  lemma {:induction false} EscapedOneLine(value: string)
    requires OneLine(value)
    ensures OneLine(Escaped(value))
    decreases |value|
  {
    if value != "" {
      EscapedOneLine(value[1..]);
    }
  }

  /** A rendered line whose quoted values hold no newline is itself one line. */
  predicate QuotesOneLine(pieces: seq<Piece>) {
    forall i :: 0 <= i < |pieces| && pieces[i].Quoted? ==> OneLine(pieces[i].value)
  }

  lemma {:induction false} PieceOneLine(p: Piece)
    requires p.Quoted? ==> OneLine(p.value)
    ensures OneLine(RenderPiece(p))
  {
    if p.Quoted? {
      EscapedIsReplace(p.value);
      EscapedOneLine(p.value);
    }
  }

  lemma {:induction false} RenderOneLine(pieces: seq<Piece>)
    requires QuotesOneLine(pieces)
    ensures OneLine(Render(pieces))
    decreases |pieces|
  {
    if pieces != [] {
      PieceOneLine(pieces[0]);
      RenderOneLine(pieces[1..]);
    }
  }

  lemma {:induction false} OrdinaryFree(pieces: seq<Piece>)
    requires QuotesOneLine(pieces)
    requires pieces != [] && pieces[0].Raw? && pieces[0].text != "" && pieces[0].text[0] != 'C'
    ensures LineFree(Render(pieces), OUTER)
  {
    RenderOneLine(pieces);
    SplitNone(Render(pieces), '\n');
    assert Render(pieces)[0] == pieces[0].text[0];
  }

  lemma {:induction false} NumberedMarkerFree(prefix: string, n: nat)
    requires |prefix| >= 6 && forall i :: 0 <= i < |prefix| ==> prefix[i] != '\'' && prefix[i] != '\n'
    requires prefix[5] != 'S'
    ensures LineFree(prefix + Decimal(n), OUTER)
  {
    NumeralPlain(prefix, n);
    SplitNone(prefix + Decimal(n), '\n');
    assert (prefix + Decimal(n))[5] == prefix[5];
  }

  lemma {:induction false} QuotedOneLine(value: string)
    requires OneLine(value)
    ensures OneLine(ShellEnv(value))
  {
    EscapedIsReplace(value);
    EscapedOneLine(value);
  }

  lemma {:induction false} PathOneLine(hash: PathHash, path: string)
    requires OneLine(path)
    ensures LineFree(Render(MkdirLine(path)), OUTER) && LineFree(CatLine(path, FileMarker(hash, path)), OUTER)
  {
    var line := CatLine(path, FileMarker(hash, path));
    OrdinaryFree(MkdirLine(path));
    NumeralPlain("CRAG_FILE_", hash(path));
    QuotedOneLine(path);
    assert OneLine(line) && line[0] == 'c';
    SplitNone(line, '\n');
  }

  lemma {:induction false} ScriptLinesFree(index: nat, command: string)
    ensures AllFree(ScriptLines(index, command), OUTER) <==> LineFree(command, OUTER)
  {
    var lines := ScriptLines(index, command);
    NumeralPlain("CRAG_COMMAND_", index);
    NumberedMarkerFree("CRAG_COMMAND_", index);
    assert OneLine(lines[0]) && lines[0][0] == 'b';
    SplitNone(lines[0], '\n');
    assert AllFree(lines, OUTER)
      <==> LineFree(lines[0], OUTER) && LineFree(lines[1], OUTER) && LineFree(lines[2], OUTER);
  }

  /** Every content, and every before_start command, avoids the outer marker. */
  predicate ContentsFree(files: seq<File>) {
    forall i :: 0 <= i < |files| ==> LineFree(files[i].content, OUTER)
  }

  predicate StartCommandsFree(commands: seq<Command>) {
    forall i :: 0 <= i < |commands| && commands[i].phase == BeforeStart ==> LineFree(commands[i].command, OUTER)
  }

  lemma {:induction false} ContentsFreeSnoc(files: seq<File>)
    requires files != []
    ensures var n := |files| - 1; ContentsFree(files) <==> ContentsFree(files[..n]) && LineFree(files[n].content, OUTER)
  {
    var n := |files| - 1;
    assert forall i :: 0 <= i < n ==> files[..n][i] == files[i];
  }

  lemma {:induction false} CommandLinesFree(commands: seq<Command>)
    ensures AllFree(CommandLines(commands), OUTER) <==> StartCommandsFree(commands)
    decreases |commands|
  {
    if commands != [] {
      var n := |commands| - 1;
      CommandLinesFree(commands[..n]);
      ScriptLinesFree(n, commands[n].command);
      var last := if commands[n].phase == BeforeStart then ScriptLines(n, commands[n].command) else [];
      AllFreeConcat(CommandLines(commands[..n]), last, OUTER);
      assert commands == commands[..n] + [commands[n]];
    }
  }

  lemma {:induction false} PreambleFree(rt: Runtime)
    requires OneLine(rt.workspace)
    ensures AllFree(RenderAll(Preamble(rt)), OUTER)
  {
    var p := Preamble(rt);
    forall i | 0 <= i < |p| ensures LineFree(Render(p[i]), OUTER) {
      assert p[i][0].Raw? && p[i][0].text != "" && p[i][0].text[0] != 'C';
      OrdinaryFree(p[i]);
    }
    RenderAllFree(p);
  }

  lemma {:induction false} SuffixOneLine(base: string, suffix: RawText)
    requires OneLine(base)
    ensures OneLine(base + suffix)
  {
    assert forall i :: 0 <= i < |suffix| ==> RawChar(suffix[i]);
  }

  lemma {:induction false} LinksQuotes(rt: Runtime)
    requires OneLine(rt.workspace) && OneLine(Base(rt))
    requires OneLine(Base(rt) + PROMPT_FILE) && OneLine(Base(rt) + SYSTEM_PROMPT_FILE) && OneLine(Base(rt) + MCP_FILE)
    requires OneLine(Base(rt) + SUBAGENTS_FILE) && OneLine(Base(rt) + LINKS_FILE)
    ensures QuotesOneLine(LinksLine(rt))
  {
  }

  lemma {:induction false} LinksFree(rt: Runtime)
    requires OneLine(rt.workspace)
    ensures AllFree(RenderAll([LinksLine(rt)]), OUTER)
  {
    BaseOneLine(rt);
    SuffixOneLine(Base(rt), PROMPT_FILE);
    SuffixOneLine(Base(rt), SYSTEM_PROMPT_FILE);
    SuffixOneLine(Base(rt), MCP_FILE);
    SuffixOneLine(Base(rt), SUBAGENTS_FILE);
    SuffixOneLine(Base(rt), LINKS_FILE);
    LinksQuotes(rt);
    OrdinaryFree(LinksLine(rt));
    RenderAllFree([LinksLine(rt)]);
  }

  lemma {:induction false} EndingFree(rt: Runtime)
    ensures AllFree(RenderAll(Ending(rt)), OUTER) <==> LineFree(Render(LaunchLine(rt)), OUTER)
  {
    var lines := Ending(rt);
    OrdinaryFree(lines[1]);
    RenderAllFree(lines);
    assert lines[0] == LaunchLine(rt) && |lines| == 2;
  }

  lemma {:induction false} BaseOneLine(rt: Runtime)
    requires OneLine(rt.workspace)
    ensures OneLine(Base(rt))
  {
    RStripOneLine(rt.workspace, '/');
  }

  lemma {:induction false} RStripOneLine(s: string, c: char)
    requires OneLine(s)
    ensures OneLine(RStrip(s, c))
    decreases |s|
  {
    if s != "" && s[|s| - 1] == c {
      RStripOneLine(s[..|s| - 1], c);
    }
  }

  predicate RenderedFree(lines: seq<seq<Piece>>) {
    forall i :: 0 <= i < |lines| ==> LineFree(Render(lines[i]), OUTER)
  }

  lemma {:induction false} RenderedFreeCons(lines: seq<seq<Piece>>)
    requires lines != []
    ensures RenderedFree(lines) <==> LineFree(Render(lines[0]), OUTER) && RenderedFree(lines[1..])
  {
    assert forall i :: 1 <= i < |lines| ==> lines[i] == lines[1..][i - 1];
    assert forall i :: 0 <= i < |lines[1..]| ==> lines[1..][i] == lines[i + 1];
  }

  lemma {:induction false} RenderAllFree(lines: seq<seq<Piece>>)
    ensures AllFree(RenderAll(lines), OUTER) <==> RenderedFree(lines)
    decreases |lines|
  {
    if lines != [] {
      var first := [Render(lines[0])];
      RenderedFreeCons(lines);
      RenderAllFree(lines[1..]);
      AllFreeConcat(first, RenderAll(lines[1..]), OUTER);
      assert AllFree(first, OUTER) <==> LineFree(first[0], OUTER);
    }
  }

  /** The lines that stand around a file's content. */
  predicate PathFree(hash: PathHash, path: string) {
    LineFree(Render(MkdirLine(path)), OUTER) && LineFree(CatLine(path, FileMarker(hash, path)), OUTER)
  }

  predicate PathsFree(hash: PathHash, files: seq<File>) {
    forall i :: 0 <= i < |files| ==> PathFree(hash, files[i].path)
  }

  /** Every line that the generator puts around contents and commands, with the values quoted in it. */
  predicate FrameFree(rt: Runtime, hash: PathHash) {
    && RenderedFree(Preamble(rt)) && RenderedFree([LinksLine(rt)]) && RenderedFree(Ending(rt))
    && PathsFree(hash, RuntimeFiles(rt))
  }

  lemma {:induction false} FileFree(hash: PathHash, f: File)
    ensures AllFree(FileLines(hash, f), OUTER) <==> LineFree(f.content, OUTER) && PathFree(hash, f.path)
  {
    var lines := FileLines(hash, f);
    NumberedMarkerFree("CRAG_FILE_", hash(f.path));
    assert AllFree(lines, OUTER)
      <==> (&& LineFree(lines[0], OUTER) && LineFree(lines[1], OUTER)
            && LineFree(lines[2], OUTER) && LineFree(lines[3], OUTER));
  }

  lemma {:induction false} FilesFreeExact(hash: PathHash, files: seq<File>)
    ensures AllFree(AllFileLines(hash, files), OUTER) <==> ContentsFree(files) && PathsFree(hash, files)
    decreases |files|
  {
    hide FileLines, LineFree, PathFree;
    if files != [] {
      var n := |files| - 1;
      FilesFreeExact(hash, files[..n]);
      FileFree(hash, files[n]);
      AllFreeConcat(AllFileLines(hash, files[..n]), FileLines(hash, files[n]), OUTER);
      ContentsFreeSnoc(files);
      assert files == files[..n] + [files[n]];
    }
  }

  lemma {:induction false} PathsOneLine(hash: PathHash, files: seq<File>)
    requires forall i :: 0 <= i < |files| ==> OneLine(files[i].path)
    ensures PathsFree(hash, files)
  {
    forall i | 0 <= i < |files| ensures PathFree(hash, files[i].path) {
      PathOneLine(hash, files[i].path);
    }
  }

  lemma {:induction false} FrameOneLine(rt: Runtime, hash: PathHash)
    requires OneLine(rt.workspace)
    requires forall i :: 0 <= i < |RuntimeFiles(rt)| ==> OneLine(RuntimeFiles(rt)[i].path)
    ensures FrameFree(rt, hash) <==> LineFree(Render(LaunchLine(rt)), OUTER)
  {
    PreambleFree(rt);
    LinksFree(rt);
    EndingFree(rt);
    RenderAllFree(Preamble(rt));
    RenderAllFree([LinksLine(rt)]);
    RenderAllFree(Ending(rt));
    PathsOneLine(hash, RuntimeFiles(rt));
  }

  /** The body avoids the outer marker exactly when every file content, every before_start command and every line that
      the generator puts around them do. Of the latter, when the workspace and the paths hold no newline, only the
      launch line can fail to. */
  lemma {:induction false} OuterMarkerByParts(rt: Runtime, hash: PathHash)
    ensures LineFree(Body(rt, hash), OUTER)
            <==> ContentsFree(RuntimeFiles(rt)) && StartCommandsFree(rt.commands) && FrameFree(rt, hash)
    ensures OneLine(rt.workspace) && (forall i :: 0 <= i < |RuntimeFiles(rt)| ==> OneLine(RuntimeFiles(rt)[i].path))
            ==> (FrameFree(rt, hash) <==> LineFree(Render(LaunchLine(rt)), OUTER))
  {
    var files := RuntimeFiles(rt);
    var a, b, c := RenderAll(Preamble(rt)), AllFileLines(hash, files), RenderAll([LinksLine(rt)]);
    var d, e := CommandLines(rt.commands), RenderAll(Ending(rt));
    LineFreeJoin(InnerLines(rt, hash), OUTER);
    AllFreeConcat(a, b + (c + (d + e)), OUTER);
    AllFreeConcat(b, c + (d + e), OUTER);
    AllFreeConcat(c, d + e, OUTER);
    AllFreeConcat(d, e, OUTER);
    RenderAllFree(Preamble(rt));
    RenderAllFree([LinksLine(rt)]);
    RenderAllFree(Ending(rt));
    FilesFreeExact(hash, files);
    CommandLinesFree(rt.commands);
    if OneLine(rt.workspace) && forall i :: 0 <= i < |files| ==> OneLine(files[i].path) {
      FrameOneLine(rt, hash);
    }
  }
}
