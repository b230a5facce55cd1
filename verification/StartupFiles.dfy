/** The files that the startup script leaves behind, and the commands around them. */
module StartupFiles {
  import opened Text
  import opened Shell
  import opened ShellLines
  import opened SessionEnv
  import opened Commands
  import opened StartupScript

  /** The files after these effects, when scripts touch none of them: the last write to a path counts. */
  function Left(effects: seq<Effect>): map<string, string> {
    if effects == [] then map[]
    else
      var front, last := Left(effects[..|effects| - 1]), effects[|effects| - 1];
      if last.Write? then front[last.path := last.content] else front
  }

  lemma {:induction false} LeftConcat(a: seq<Effect>, b: seq<Effect>)
    ensures Left(a + b) == Left(a) + Left(b)
    decreases |b|
  {
    if b == [] {
      assert a + b == a;
    } else {
      var m := |b| - 1;
      LeftConcat(a, b[..m]);
      assert (a + b)[..|a| + m] == a + b[..m] && (a + b)[|a| + m] == b[m];
    }
  }

  lemma {:induction false} ScriptsLeaveNothing(commands: seq<Command>)
    ensures Left(Scripts(commands)) == map[]
    decreases |commands|
  {
    if commands != [] {
      var n := |commands| - 1;
      ScriptsLeaveNothing(commands[..n]);
      if commands[n].phase == BeforeStart {
        var s := Scripts(commands[..n]);
        assert (s + [Script(commands[n].command + "\n")])[..|s|] == s;
      } else {
        assert Scripts(commands[..n]) + [] == Scripts(commands[..n]);
      }
    }
  }

  lemma {:induction false} WritesConcat(a: seq<File>, b: seq<File>)
    ensures Writes(a + b) == Writes(a) + Writes(b)
    decreases |b|
  {
    if b == [] {
      assert a + b == a;
    } else {
      var m := |b| - 1;
      WritesConcat(a, b[..m]);
      assert (a + b)[..|a| + m] == a + b[..m] && (a + b)[|a| + m] == b[m];
    }
  }

  function LeftBy(files: seq<File>): map<string, string> {
    Left(Writes(files))
  }

  lemma {:induction false} LeftByConcat(a: seq<File>, b: seq<File>)
    ensures LeftBy(a + b) == LeftBy(a) + LeftBy(b)
  {
    WritesConcat(a, b);
    LeftConcat(Writes(a), Writes(b));
  }

  lemma {:induction false} LeftByOne(f: File)
    ensures LeftBy([f]) == map[f.path := f.content + "\n"]
  {
    assert [f][..0] == [];
    var w := Write(f.path, f.content + "\n");
    assert Writes([f]) == Writes([f][..0]) + [w] == [w];
    assert [w][..0] == [] && Left([w][..0]) == map[];
    assert Left([w]) == map[][f.path := f.content + "\n"];
  }

  lemma {:induction false} LeftOfFiles(files: seq<File>, commands: seq<Command>)
    ensures Left(Writes(files) + Scripts(commands)) == LeftBy(files)
  {
    LeftConcat(Writes(files), Scripts(commands));
    ScriptsLeaveNothing(commands);
  }

  /** None of the files goes to this path. */
  predicate Elsewhere(files: seq<File>, path: string) {
    forall i :: 0 <= i < |files| ==> files[i].path != path
  }

  lemma {:induction false} LeftElsewhere(files: seq<File>, path: string)
    requires Elsewhere(files, path)
    ensures path !in LeftBy(files)
    decreases |files|
  {
    if files == [] {
    } else {
      var m := |files| - 1;
      LeftElsewhere(files[..m], path);
      var w := Writes(files[..m]);
      assert (w + [Write(files[m].path, files[m].content + "\n")])[..|w|] == w;
    }
  }

  lemma {:induction false} LookupIs(items: seq<Item>, env: map<string, string>, key: string)
    requires Lists(items, env)
    ensures Lookup(items, key) == if key in env then env[key] else ""
  {
    if key in env {
      var i :| 0 <= i < |items| && items[i].0 == key;
      LookupAt(items, key, i);
    } else {
      LookupNone(items, key);
    }
  }

  lemma {:induction false} LookupAt(items: seq<Item>, key: string, i: nat)
    requires i < |items| && items[i].0 == key && forall j :: 0 <= j < i ==> items[j].0 != key
    ensures Lookup(items, key) == items[i].1
    decreases i
  {
    if i > 0 {
      LookupAt(items[1..], key, i - 1);
    }
  }

  lemma {:induction false} LookupNone(items: seq<Item>, key: string)
    requires forall i :: 0 <= i < |items| ==> items[i].0 != key
    ensures Lookup(items, key) == ""
    decreases |items|
  {
    if items != [] {
      LookupNone(items[1..], key);
    }
  }

  /** The files of the contract, which go to the root, and those of subagents, of pi and of the launcher, which go below
      the runtime directory. */
  predicate Untouched(rt: Runtime, base: string, path: string) {
    && (forall i :: 0 <= i < |rt.contractFiles| ==>
          path != "/" + RStrip(LStrip(rt.contractFiles[i].path, '/'), '/'))
    && (forall i :: 0 <= i < |rt.subagentFiles| ==> path != base + "/" + rt.subagentFiles[i].path)
    && (forall i :: 0 <= i < |rt.piFiles| ==> path != base + "/" + rt.piFiles[i].path)
    && (forall i :: 0 <= i < |rt.launcherFiles| ==> path != base + "/" + rt.launcherFiles[i].path)
  }

  lemma {:induction false} UnderAt(prefix: string, files: seq<File>)
    ensures |Under(prefix, files)| == |files|
    ensures forall i :: 0 <= i < |files| ==> Under(prefix, files)[i] == File(prefix + files[i].path, files[i].content)
    decreases |files|
  {
    if files != [] {
      UnderAt(prefix, files[1..]);
    }
  }

  lemma {:induction false} StrippedAt(files: seq<File>)
    ensures |Stripped(files)| == |files|
    ensures forall i :: 0 <= i < |files| ==>
              Stripped(files)[i] == File(RStrip(LStrip(files[i].path, '/'), '/'), files[i].content)
    decreases |files|
  {
    if files != [] {
      StrippedAt(files[1..]);
    }
  }

  function Others(rt: Runtime, base: string): seq<File> {
    ((Under("/", Stripped(rt.contractFiles)) + Under(base + "/", rt.subagentFiles)) + Under(base + "/", rt.piFiles))
    + Under(base + "/", rt.launcherFiles)
  }

  lemma {:induction false} OthersElsewhere(rt: Runtime, base: string, path: string)
    requires Untouched(rt, base, path)
    ensures path !in LeftBy(Others(rt, base))
  {
    hide LeftBy;
    var a, b := Under("/", Stripped(rt.contractFiles)), Under(base + "/", rt.subagentFiles);
    var c, e := Under(base + "/", rt.piFiles), Under(base + "/", rt.launcherFiles);
    StrippedAt(rt.contractFiles);
    UnderAt("/", Stripped(rt.contractFiles));
    UnderAt(base + "/", rt.subagentFiles);
    UnderAt(base + "/", rt.piFiles);
    UnderAt(base + "/", rt.launcherFiles);
    LeftElsewhere(a, path);
    LeftElsewhere(b, path);
    LeftElsewhere(c, path);
    LeftElsewhere(e, path);
    LeftByConcat((a + b) + c, e);
    LeftByConcat(a + b, c);
    LeftByConcat(a, b);
  }

  /** What is left at a path that only one file can go to. */
  predicate Holds(left: map<string, string>, path: string, value: string) {
    if value == "" then path !in left else path in left && left[path] == value + "\n"
  }

  lemma {:induction false} OptionalLeft(rt: Runtime, name: string, key: string)
    ensures var value := Lookup(rt.env, key);
            LeftBy(Optional(rt, name, key)) == if value == "" then map[] else map[Base(rt) + name := value + "\n"]
  {
    var value := Lookup(rt.env, key);
    if value == "" {
      assert Left([]) == map[];
    } else {
      LeftByOne(File(Base(rt) + name, value));
    }
  }

  lemma {:induction false} ThreeLeft(a: File, b: File, c: File)
    ensures LeftBy([a, b, c]) == (map[a.path := a.content + "\n"] + map[b.path := b.content + "\n"])
                                 + map[c.path := c.content + "\n"]
  {
    assert [a, b, c] == ([a] + [b]) + [c];
    LeftByConcat([a] + [b], [c]);
    LeftByConcat([a], [b]);
    LeftByOne(a);
    LeftByOne(b);
    LeftByOne(c);
  }

  lemma {:induction false} FilesInParts(h: seq<File>, a: seq<File>, b: seq<File>, c: seq<File>, e: seq<File>,
                                        o: seq<File>)
    ensures LeftBy((((h + a) + b) + c) + e + o)
            == ((((LeftBy(h) + LeftBy(a)) + LeftBy(b)) + LeftBy(c)) + LeftBy(e)) + LeftBy(o)
  {
    hide LeftBy;
    LeftByConcat((((h + a) + b) + c) + e, o);
    LeftByConcat(((h + a) + b) + c, e);
    LeftByConcat((h + a) + b, c);
    LeftByConcat(h + a, b);
    LeftByConcat(h, a);
  }

  lemma {:induction false} RuntimeFilesAre(rt: Runtime)
    ensures var base := Base(rt);
            RuntimeFiles(rt)
            == (((([File(base + "/resources.json", rt.resourcesJson),
                    File(base + "/session.env", SessionEnv.SessionEnv(rt.env)),
                    File(base + "/commands.json", rt.commandsJson)]
                   + Optional(rt, "/system_prompt.txt", "AGENT_SYSTEM_PROMPT"))
                  + Optional(rt, "/prompt.txt", "AGENT_PROMPT"))
                 + Optional(rt, "/mcp_servers.json", "MCP_SERVERS_JSON"))
                + Optional(rt, "/subagents.json", "CRAG_SUBAGENTS_JSON")) + Others(rt, base)
  {
    hide Optional, Under, Stripped, SessionEnv.SessionEnv;
  }

  /** What is left of the files whose paths are fixed, by the runtime environment. */
  ghost predicate FixedFilesLeft(left: map<string, string>, rt: Runtime, base: string, env: map<string, string>,
                                 path: string) {
    JsonLeft(left, rt, base, path) && TextLeft(left, base, env, path)
  }

  ghost predicate JsonLeft(left: map<string, string>, rt: Runtime, base: string, path: string) {
    && (path == base + "/resources.json" ==> path in left && left[path] == rt.resourcesJson + "\n")
    && (path == base + "/session.env" ==> path in left && left[path] == SessionEnv.SessionEnv(rt.env) + "\n")
    && (path == base + "/commands.json" ==> path in left && left[path] == rt.commandsJson + "\n")
  }

  predicate TextLeft(left: map<string, string>, base: string, env: map<string, string>, path: string) {
    && (path == base + "/system_prompt.txt" ==> Holds(left, path, Value(env, "AGENT_SYSTEM_PROMPT")))
    && (path == base + "/prompt.txt" ==> Holds(left, path, Value(env, "AGENT_PROMPT")))
    && (path == base + "/mcp_servers.json" ==> Holds(left, path, Value(env, "MCP_SERVERS_JSON")))
    && (path == base + "/subagents.json" ==> Holds(left, path, Value(env, "CRAG_SUBAGENTS_JSON")))
  }

  function Value(env: map<string, string>, key: string): string {
    if key in env then env[key] else ""
  }

  lemma {:induction false} SuffixesApart(base: string, a: string, b: string)
    requires a != b
    ensures base + a != base + b
  {
    assert (base + a)[|base|..] == a && (base + b)[|base|..] == b;
  }

  const FIXED := ["/resources.json", "/session.env", "/commands.json", "/system_prompt.txt", "/prompt.txt",
                  "/mcp_servers.json", "/subagents.json"]

  lemma {:induction false} FixedDiffer(i: nat, j: nat)
    requires i < j < |FIXED|
    ensures FIXED[i] != FIXED[j]
  {
    assert |FIXED[i]| != |FIXED[j]| || FIXED[i][1] != FIXED[j][1];
  }

  lemma {:induction false} PathsDiffer(base: string)
    ensures forall i, j :: 0 <= i < j < |FIXED| ==> base + FIXED[i] != base + FIXED[j]
  {
    forall i, j | 0 <= i < j < |FIXED| ensures base + FIXED[i] != base + FIXED[j] {
      FixedDiffer(i, j);
      SuffixesApart(base, FIXED[i], FIXED[j]);
    }
  }

  function Sum(parts: seq<map<string, string>>): map<string, string> {
    if parts == [] then map[] else Sum(parts[..|parts| - 1]) + parts[|parts| - 1]
  }

  /** In a sum of parts with one path each, a path has what its part gives it. */
  lemma {:induction false} SumAt(parts: seq<map<string, string>>, paths: seq<string>, i: nat, path: string)
    requires |parts| <= |paths| && forall k :: 0 <= k < |parts| ==> parts[k].Keys <= {paths[k]}
    requires forall k :: 0 <= k < |parts| && k != i ==> paths[k] != path
    ensures if i < |parts| then (path in Sum(parts) <==> path in parts[i])
                                && (path in parts[i] ==> Sum(parts)[path] == parts[i][path])
            else path !in Sum(parts)
    decreases |parts|
  {
    if parts != [] {
      var m := |parts| - 1;
      SumAt(parts[..m], paths, i, path);
    }
  }

  lemma {:induction false} SumNext(parts: seq<map<string, string>>, k: nat)
    requires k < |parts|
    ensures Sum(parts[..k + 1]) == Sum(parts[..k]) + parts[k]
  {
    assert parts[..k + 1][..k] == parts[..k];
  }

  function Put(path: string, value: string): map<string, string> {
    if value == "" then map[] else map[path := value + "\n"]
  }

  lemma {:induction false} SevenParts(p: seq<map<string, string>>)
    requires |p| == 7
    ensures Sum(p) == (((((p[0] + p[1]) + p[2]) + p[3]) + p[4]) + p[5]) + p[6]
  {
    hide Sum;
    NothingPlus(p[0]);
    SumNext(p, 0);
    SumNext(p, 1);
    SumNext(p, 2);
    SumNext(p, 3);
    SumNext(p, 4);
    SumNext(p, 5);
    SumNext(p, 6);
    assert p[..0] == [] && p[..7] == p;
  }

  lemma {:induction false} NothingPlus(a: map<string, string>)
    ensures Sum([]) + a == a
  {
  }

  lemma {:induction false} FixedAt(left: map<string, string>, parts: seq<map<string, string>>,
                                   others: map<string, string>, paths: seq<string>, i: nat)
    requires left == Sum(parts) + others && |parts| == |paths| && i < |parts| && paths[i] !in others
    requires forall k :: 0 <= k < |parts| ==> parts[k].Keys <= {paths[k]}
    requires forall k, l :: 0 <= k < l < |paths| ==> paths[k] != paths[l]
    ensures paths[i] in left <==> paths[i] in parts[i]
    ensures paths[i] in parts[i] ==> left[paths[i]] == parts[i][paths[i]]
  {
    SumAt(parts, paths, i, paths[i]);
  }

  /** A sum of files one of which may be at the path; the rest are elsewhere. */
  lemma {:induction false} FixedLeft(left: map<string, string>, rt: Runtime, base: string, env: map<string, string>,
                                     path: string, others: map<string, string>, p: seq<string>,
                                     parts: seq<map<string, string>>)
    requires |p| == |parts| == 7 && (forall i :: 0 <= i < 7 ==> p[i] == base + FIXED[i]) && path !in others
    requires forall i, j :: 0 <= i < j < 7 ==> p[i] != p[j]
    requires parts[0] == map[p[0] := rt.resourcesJson + "\n"]
    requires parts[1] == map[p[1] := SessionEnv.SessionEnv(rt.env) + "\n"]
    requires parts[2] == map[p[2] := rt.commandsJson + "\n"]
    requires parts[3] == Put(p[3], Value(env, "AGENT_SYSTEM_PROMPT"))
    requires parts[4] == Put(p[4], Value(env, "AGENT_PROMPT"))
    requires parts[5] == Put(p[5], Value(env, "MCP_SERVERS_JSON"))
    requires parts[6] == Put(p[6], Value(env, "CRAG_SUBAGENTS_JSON"))
    requires left == Sum(parts) + others
    ensures FixedFilesLeft(left, rt, base, env, path)
  {
    hide SessionEnv.SessionEnv, Value, Sum;
    if i: nat :| i < 7 && path == p[i] {
      FixedAt(left, parts, others, p, i);
      if i < 3 {
        JsonAt(left, rt, base, path, i);
        TextApart(left, rt, base, env, path, i);
      } else {
        TextAt(left, base, env, path, i, parts[i]);
        JsonApart(left, rt, base, path, i);
      }
    } else {
      assert forall i: nat :: i < 7 ==> path != base + FIXED[i];
      NotFixed(left, rt, base, env, path);
    }
  }

  lemma {:induction false} JsonAt(left: map<string, string>, rt: Runtime, base: string, path: string, i: nat)
    requires i < 3 && path == base + FIXED[i] && path in left
    requires left[path] == (if i == 0 then rt.resourcesJson else if i == 1 then SessionEnv.SessionEnv(rt.env)
                            else rt.commandsJson) + "\n"
    ensures JsonLeft(left, rt, base, path)
  {
    hide SessionEnv.SessionEnv;
    PathsDiffer(base);
    assert base + FIXED[0] == base + "/resources.json" && base + FIXED[1] == base + "/session.env";
    assert base + FIXED[2] == base + "/commands.json";
  }

  lemma {:induction false} TextAt(left: map<string, string>, base: string, env: map<string, string>, path: string,
                                  i: nat, part: map<string, string>)
    requires 3 <= i < 7 && path == base + FIXED[i] && (path in left <==> path in part)
    requires path in part ==> left[path] == part[path]
    requires part == Put(path, Value(env, if i == 3 then "AGENT_SYSTEM_PROMPT" else if i == 4 then "AGENT_PROMPT"
                                          else if i == 5 then "MCP_SERVERS_JSON" else "CRAG_SUBAGENTS_JSON"))
    ensures TextLeft(left, base, env, path)
  {
    hide Value;
    PathsDiffer(base);
    assert base + FIXED[3] == base + "/system_prompt.txt" && base + FIXED[4] == base + "/prompt.txt";
    assert base + FIXED[5] == base + "/mcp_servers.json" && base + FIXED[6] == base + "/subagents.json";
  }

  lemma {:induction false} TextApart(left: map<string, string>, rt: Runtime, base: string, env: map<string, string>,
                                     path: string, i: nat)
    requires i < 3 && path == base + FIXED[i]
    ensures TextLeft(left, base, env, path)
  {
    hide Value, Holds;
    PathsDiffer(base);
    assert base + FIXED[3] == base + "/system_prompt.txt" && base + FIXED[4] == base + "/prompt.txt";
    assert base + FIXED[5] == base + "/mcp_servers.json" && base + FIXED[6] == base + "/subagents.json";
  }

  lemma {:induction false} JsonApart(left: map<string, string>, rt: Runtime, base: string, path: string, i: nat)
    requires 3 <= i < 7 && path == base + FIXED[i]
    ensures JsonLeft(left, rt, base, path)
  {
    hide SessionEnv.SessionEnv;
    PathsDiffer(base);
    assert base + FIXED[0] == base + "/resources.json" && base + FIXED[1] == base + "/session.env";
    assert base + FIXED[2] == base + "/commands.json";
  }

  lemma {:induction false} NotFixed(left: map<string, string>, rt: Runtime, base: string, env: map<string, string>,
                                    path: string)
    requires forall i: nat :: i < 7 ==> path != base + FIXED[i]
    ensures FixedFilesLeft(left, rt, base, env, path)
  {
    hide SessionEnv.SessionEnv, Value, Holds;
    assert path != base + FIXED[0] && path != base + FIXED[1] && path != base + FIXED[2] && path != base + FIXED[3];
    assert path != base + FIXED[4] && path != base + FIXED[5] && path != base + FIXED[6];
  }

  /** After the script has run, prompt.txt holds the value of AGENT_PROMPT and a newline, and so on for the other files
      with fixed paths; an empty value leaves no file. Only a file of the contract, a subagent, pi or the launcher that
      goes to the same path can change that. */
  lemma {:induction false} ScriptLeavesFiles(rt: Runtime, hash: PathHash, env: map<string, string>, path: string)
    requires FilesFree(hash, RuntimeFiles(rt)) && CommandsFree(rt.commands) && Lists(rt.env, env)
    requires Untouched(rt, Base(rt), path)
    ensures FixedFilesLeft(Left(Effects(Read(Body(rt, hash)))), rt, RStrip(rt.workspace, '/') + "/.runpod_agentic", env,
                           path)
  {
    hide Left, LeftBy, Others, SessionEnv.SessionEnv, Read, Effects, FilesFree, CommandsFree, Lookup, Lists, Body;
    hide Writes, Scripts, RuntimeFiles, FixedFilesLeft, Untouched;
    InnerRoundTrip(rt, hash);
    LeftOfFiles(RuntimeFiles(rt), rt.commands);
    FilesLeft(rt, Base(rt), env, path);
  }

  lemma {:induction false} FilesLeft(rt: Runtime, base: string, env: map<string, string>, path: string)
    requires Lists(rt.env, env) && base == Base(rt) && Untouched(rt, base, path)
    ensures FixedFilesLeft(LeftBy(RuntimeFiles(rt)), rt, base, env, path)
  {
    hide LeftBy, Others, SessionEnv.SessionEnv, Lookup, Lists, RuntimeFiles, FixedFilesLeft, Untouched, Sum, Put, Value;
    var p := seq(7, i requires 0 <= i < 7 => base + FIXED[i]);
    PartsAre(rt, base, p, env);
    PathsDiffer(base);
    OthersElsewhere(rt, base, path);
    FixedLeft(LeftBy(RuntimeFiles(rt)), rt, base, env, path, LeftBy(Others(rt, base)), p, PartsOf(rt, p));
  }

  /** What each of the files with fixed paths leaves. */
  function PartsOf(rt: Runtime, p: seq<string>): seq<map<string, string>>
    requires |p| == 7
  {
    [map[p[0] := rt.resourcesJson + "\n"], map[p[1] := SessionEnv.SessionEnv(rt.env) + "\n"],
     map[p[2] := rt.commandsJson + "\n"], Put(p[3], Lookup(rt.env, "AGENT_SYSTEM_PROMPT")),
     Put(p[4], Lookup(rt.env, "AGENT_PROMPT")), Put(p[5], Lookup(rt.env, "MCP_SERVERS_JSON")),
     Put(p[6], Lookup(rt.env, "CRAG_SUBAGENTS_JSON"))]
  }

  lemma {:induction false} PartsAre(rt: Runtime, base: string, p: seq<string>, env: map<string, string>)
    requires base == Base(rt) && |p| == 7 && (forall i :: 0 <= i < 7 ==> p[i] == base + FIXED[i]) && Lists(rt.env, env)
    ensures LeftBy(RuntimeFiles(rt)) == Sum(PartsOf(rt, p)) + LeftBy(Others(rt, base))
    ensures Lookup(rt.env, "AGENT_SYSTEM_PROMPT") == Value(env, "AGENT_SYSTEM_PROMPT")
    ensures Lookup(rt.env, "AGENT_PROMPT") == Value(env, "AGENT_PROMPT")
    ensures Lookup(rt.env, "MCP_SERVERS_JSON") == Value(env, "MCP_SERVERS_JSON")
    ensures Lookup(rt.env, "CRAG_SUBAGENTS_JSON") == Value(env, "CRAG_SUBAGENTS_JSON")
  {
    hide LeftBy, Optional, Others, Lookup, Lists, Sum;
    RuntimeFilesAre(rt);
    LookupIs(rt.env, env, "AGENT_SYSTEM_PROMPT");
    LookupIs(rt.env, env, "AGENT_PROMPT");
    LookupIs(rt.env, env, "MCP_SERVERS_JSON");
    LookupIs(rt.env, env, "CRAG_SUBAGENTS_JSON");
    OptionalLeft(rt, FIXED[3], "AGENT_SYSTEM_PROMPT");
    OptionalLeft(rt, FIXED[4], "AGENT_PROMPT");
    OptionalLeft(rt, FIXED[5], "MCP_SERVERS_JSON");
    OptionalLeft(rt, FIXED[6], "CRAG_SUBAGENTS_JSON");
    var a, b := File(p[0], rt.resourcesJson), File(p[1], SessionEnv.SessionEnv(rt.env));
    var c := File(p[2], rt.commandsJson);
    ThreeLeft(a, b, c);
    FilesInParts([a, b, c], Optional(rt, FIXED[3], "AGENT_SYSTEM_PROMPT"), Optional(rt, FIXED[4], "AGENT_PROMPT"),
                 Optional(rt, FIXED[5], "MCP_SERVERS_JSON"), Optional(rt, FIXED[6], "CRAG_SUBAGENTS_JSON"),
                 Others(rt, base));
    var parts := PartsOf(rt, p);
    SevenParts(parts);
  }

  lemma {:induction false} WrittenIn(files: seq<File>, i: nat)
    requires i < |files|
    ensures |Writes(files)| == |files| && Writes(files)[i] == Write(files[i].path, files[i].content + "\n")
    decreases |files|
  {
    var m := |files| - 1;
    if m > 0 {
      WrittenIn(files[..m], if i < m then i else 0);
    }
  }

  /** The script writes this file. */
  ghost predicate WritesFile(rt: Runtime, hash: PathHash, path: string, content: string) {
    Write(path, content + "\n") in Effects(Read(Body(rt, hash)))
  }

  lemma {:induction false} InRuntimeFiles(rt: Runtime, f: File)
    requires || f in Under("/", Stripped(rt.contractFiles)) || f in Under(Base(rt) + "/", rt.subagentFiles)
             || f in Under(Base(rt) + "/", rt.piFiles) || f in Under(Base(rt) + "/", rt.launcherFiles)
    ensures f in RuntimeFiles(rt)
  {
    hide Under, Stripped, Optional, SessionEnv.SessionEnv;
  }

  /** Every file of the contracts is written from the root on, whatever slashes surround its path, and the files of
      subagents, of the harness and of the launcher are written in the runtime directory. */
  lemma {:induction false} EveryFileIsWritten(rt: Runtime, hash: PathHash, f: File)
    requires FilesFree(hash, RuntimeFiles(rt)) && CommandsFree(rt.commands)
    ensures f in rt.contractFiles ==> WritesFile(rt, hash, "/" + RStrip(LStrip(f.path, '/'), '/'), f.content)
    ensures f in rt.subagentFiles || f in rt.piFiles || f in rt.launcherFiles ==>
              WritesFile(rt, hash, (RStrip(rt.workspace, '/') + "/.runpod_agentic") + "/" + f.path, f.content)
  {
    hide Read, Effects, Body, RuntimeFiles, FilesFree, CommandsFree, Under, Stripped;
    InnerRoundTrip(rt, hash);
    if i :| 0 <= i < |rt.contractFiles| && rt.contractFiles[i] == f {
      StrippedAt(rt.contractFiles);
      UnderAt("/", Stripped(rt.contractFiles));
      Reached(rt, hash, Under("/", Stripped(rt.contractFiles))[i]);
    }
    if i :| 0 <= i < |rt.subagentFiles| && rt.subagentFiles[i] == f {
      UnderAt(Base(rt) + "/", rt.subagentFiles);
      Reached(rt, hash, Under(Base(rt) + "/", rt.subagentFiles)[i]);
    }
    if i :| 0 <= i < |rt.piFiles| && rt.piFiles[i] == f {
      UnderAt(Base(rt) + "/", rt.piFiles);
      Reached(rt, hash, Under(Base(rt) + "/", rt.piFiles)[i]);
    }
    if i :| 0 <= i < |rt.launcherFiles| && rt.launcherFiles[i] == f {
      UnderAt(Base(rt) + "/", rt.launcherFiles);
      Reached(rt, hash, Under(Base(rt) + "/", rt.launcherFiles)[i]);
    }
  }

  lemma {:induction false} Reached(rt: Runtime, hash: PathHash, f: File)
    requires || f in Under("/", Stripped(rt.contractFiles)) || f in Under(Base(rt) + "/", rt.subagentFiles)
             || f in Under(Base(rt) + "/", rt.piFiles) || f in Under(Base(rt) + "/", rt.launcherFiles)
    requires Effects(Read(Body(rt, hash))) == Writes(RuntimeFiles(rt)) + Scripts(rt.commands)
    ensures WritesFile(rt, hash, f.path, f.content)
  {
    hide Read, Effects, Body, RuntimeFiles, Under, Stripped, Writes, Scripts;
    InRuntimeFiles(rt, f);
    var all := RuntimeFiles(rt);
    var i :| 0 <= i < |all| && all[i] == f;
    WrittenIn(all, i);
    assert (Writes(all) + Scripts(rt.commands))[i] == Writes(all)[i];
  }

  // ---------------------------------------------------------------------------------------------
  // The commands around the files

  /** A piece of fixed text that ends in `NAME=`, and a quoted value. */
  lemma {:induction false} AffixedNext(raw: RawText, prefix: string, value: string, pieces: seq<Piece>, line: string)
    requires raw == " " + prefix && Render(pieces) == line
    ensures Render([Raw(raw), Quoted(value)] + pieces) == " " + PartText(Affixed(prefix, value)) + line
  {
    hide ShellEnv;
    var all := [Raw(raw), Quoted(value)] + pieces;
    assert all[0] == Raw(raw) && all[1..] == [Quoted(value)] + pieces;
    assert all[1..][1..] == pieces;
  }

  /** One more argument in front. */
  lemma {:induction false} AffixedStep(raw: RawText, p: Part, pieces: seq<Piece>, parts: seq<Part>)
    requires p.Affixed? && raw == " " + p.prefix && Render(pieces) == PartsLine(parts)
    ensures Render([Raw(raw), Quoted(p.value)] + pieces) == PartsLine([p] + parts)
  {
    AffixedNext(raw, p.prefix, p.value, pieces, PartsLine(parts));
    PartsLineCons(p, parts);
  }

  lemma {:induction false} CallStep(raw: RawText, word: string, value: string)
    requires raw == " " + word + " "
    ensures Render([Raw(raw), Quoted(value)]) == PartsLine([Unquoted(word), Affixed("", value)])
  {
    var quoted, parts := ShellEnv(value), [Unquoted(word), Affixed("", value)];
    hide ShellEnv, Render, PartsLine;
    QuotedAlone(raw, value);
    PartsLineCons(parts[0], [parts[1]]);
    PartsLineCons(parts[1], []);
    assert parts == [parts[0]] + [parts[1]] && [parts[1]] == [parts[1]] + [];
    Spaces(word, quoted, PartsLine([]));
  }

  lemma {:induction false} QuotedAlone(raw: RawText, value: string)
    ensures Render([Raw(raw), Quoted(value)]) == raw + ShellEnv(value) && PartsLine([]) == ""
  {
    hide ShellEnv;
    assert [Raw(raw), Quoted(value)][1..] == [Quoted(value)] && [Quoted(value)][1..] == [];
    assert Render([Quoted(value)]) == ShellEnv(value) + "" == ShellEnv(value);
  }

  lemma {:induction false} Spaces(word: string, quoted: string, nothing: string)
    requires nothing == ""
    ensures " " + word + (" " + ("" + quoted) + nothing) == (" " + word + " ") + quoted
  {
  }

  lemma {:induction false} FirstStep(raw: RawText, p: Part, pieces: seq<Piece>, parts: seq<Part>)
    requires p.Affixed? && raw == p.prefix && Render(pieces) == PartsLine(parts)
    ensures Render([Raw(raw), Quoted(p.value)] + pieces) == PartText(p) + PartsLine(parts)
  {
    hide ShellEnv, PartsLine;
    var all := [Raw(raw), Quoted(p.value)] + pieces;
    assert all[0] == Raw(raw) && all[1..] == [Quoted(p.value)] + pieces;
    assert all[1..][1..] == pieces;
  }

  /** The arguments after the first: the variables, and the script. */
  function LinksParts(names: seq<string>, base: string): seq<Part>
    requires |names| == 5
  {
    [Affixed(names[0], base), Affixed(names[1], base + PROMPT_FILE), Affixed(names[2], base + SYSTEM_PROMPT_FILE),
     Affixed(names[3], base + MCP_FILE), Affixed(names[4], base + SUBAGENTS_FILE), Unquoted("bash"),
     Affixed("", base + LINKS_FILE)]
  }

  const NAMES: seq<string> :=
    ["CRAG_RUNTIME_DIR=", "AGENT_PROMPT_FILE=", "AGENT_SYSTEM_PROMPT_FILE=", "MCP_SERVERS_FILE=",
     "CRAG_SUBAGENTS_FILE="]
  const RAW_NAMES: seq<RawText> := [RUNTIME_VAR, PROMPT_VAR, SYSTEM_PROMPT_VAR, MCP_VAR, SUBAGENTS_VAR]

  lemma {:induction false} NamesSpaced()
    ensures forall i :: 0 <= i < 5 ==> RAW_NAMES[i] == " " + NAMES[i]
  {
    assert RUNTIME_VAR == " " + "CRAG_RUNTIME_DIR=" && PROMPT_VAR == " " + "AGENT_PROMPT_FILE=";
    LongNamesSpaced();
  }

  lemma {:induction false} LongNamesSpaced()
    ensures SYSTEM_PROMPT_VAR == " " + "AGENT_SYSTEM_PROMPT_FILE=" && MCP_VAR == " " + "MCP_SERVERS_FILE="
    ensures SUBAGENTS_VAR == " " + "CRAG_SUBAGENTS_FILE="
  {
  }

  lemma {:induction false} AddPart(raw: RawText, p: Part, pieces: seq<Piece>, parts: seq<Part>)
    returns (morePieces: seq<Piece>, moreParts: seq<Part>)
    requires p.Affixed? && raw == " " + p.prefix && Render(pieces) == PartsLine(parts)
    ensures morePieces == [Raw(raw), Quoted(p.value)] + pieces && moreParts == [p] + parts
    ensures Render(morePieces) == PartsLine(moreParts)
  {
    AffixedStep(raw, p, pieces, parts);
    morePieces, moreParts := [Raw(raw), Quoted(p.value)] + pieces, [p] + parts;
  }

  lemma {:induction false} LinksPieces(raws: seq<RawText>, names: seq<string>, base: string)
    returns (pieces: seq<Piece>)
    requires |raws| == |names| == 5 && forall i :: 0 <= i < 5 ==> raws[i] == " " + names[i]
    ensures Render(pieces) == PartsLine(LinksParts(names, base))
    ensures pieces == [Raw(raws[0]), Quoted(base), Raw(raws[1]), Quoted(base + PROMPT_FILE),
                       Raw(raws[2]), Quoted(base + SYSTEM_PROMPT_FILE),
                       Raw(raws[3]), Quoted(base + MCP_FILE), Raw(raws[4]), Quoted(base + SUBAGENTS_FILE),
                       Raw(THEN_BASH), Quoted(base + LINKS_FILE)]
  {
    hide Render, PartsLine;
    var parts := [Unquoted("bash"), Affixed("", base + LINKS_FILE)];
    pieces := [Raw(THEN_BASH), Quoted(base + LINKS_FILE)];
    CallStep(THEN_BASH, "bash", base + LINKS_FILE);
    pieces, parts := AddPart(raws[4], Affixed(names[4], base + SUBAGENTS_FILE), pieces, parts);
    pieces, parts := AddPart(raws[3], Affixed(names[3], base + MCP_FILE), pieces, parts);
    pieces, parts := AddPart(raws[2], Affixed(names[2], base + SYSTEM_PROMPT_FILE), pieces, parts);
    pieces, parts := AddPart(raws[1], Affixed(names[1], base + PROMPT_FILE), pieces, parts);
    pieces, parts := AddPart(raws[0], Affixed(names[0], base), pieces, parts);
    assert parts == LinksParts(names, base);
  }

  lemma {:induction false} LinksText(rt: Runtime)
    ensures Render(LinksLine(rt))
            == PartText(Affixed("WORKSPACE_DIR=", rt.workspace)) + PartsLine(LinksParts(NAMES, Base(rt)))
  {
    hide Render, PartsLine, PartText, LinksParts;
    NamesSpaced();
    var pieces := LinksPieces(RAW_NAMES, NAMES, Base(rt));
    FirstStep(WORKSPACE_VAR, Affixed("WORKSPACE_DIR=", rt.workspace), pieces, LinksParts(NAMES, Base(rt)));
    assert LinksLine(rt) == [Raw(WORKSPACE_VAR), Quoted(rt.workspace)] + pieces;
  }

  lemma {:induction false} WordAt(parts: seq<Part>, i: nat)
    requires i < |parts|
    ensures |Words(parts)| == |parts| && Words(parts)[i] == Word(PartWord(parts[i]))
    decreases |parts|
  {
    if |parts| > 1 {
      WordAt(parts[1..], if i > 0 then i - 1 else 0);
    }
  }

  lemma {:induction false} NamesPlain()
    ensures Plain("WORKSPACE_DIR=") && Plain("bash") && forall i :: 0 <= i < 5 ==> Plain(NAMES[i])
  {
    ShortNamesPlain();
    PromptNamesPlain();
    JsonNamesPlain();
    hide Plain;
  }

  lemma {:induction false} ShortNamesPlain()
    ensures Plain("WORKSPACE_DIR=") && Plain("bash") && Plain("CRAG_RUNTIME_DIR=")
  {
  }

  lemma {:induction false} PromptNamesPlain()
    ensures Plain("AGENT_PROMPT_FILE=") && Plain("AGENT_SYSTEM_PROMPT_FILE=")
  {
  }

  lemma {:induction false} JsonNamesPlain()
    ensures Plain("MCP_SERVERS_FILE=") && Plain("CRAG_SUBAGENTS_FILE=")
  {
  }

  lemma {:induction false} NothingPlain()
    ensures Plain("")
  {
  }

  lemma {:induction false} LinksOk(names: seq<string>, base: string)
    requires |names| == 5 && Plain("bash") && forall i :: 0 <= i < 5 ==> Plain(names[i])
    ensures forall i :: 0 <= i < |LinksParts(names, base)| ==> PartOk(LinksParts(names, base)[i])
  {
    NothingPlain();
    hide Plain;
  }

  lemma {:induction false} LinksWords(names: seq<string>, base: string)
    requires |names| == 5
    ensures Words(LinksParts(names, base))
            == [Word(names[0] + base), Word(names[1] + (base + PROMPT_FILE)),
                Word(names[2] + (base + SYSTEM_PROMPT_FILE)), Word(names[3] + (base + MCP_FILE)),
                Word(names[4] + (base + SUBAGENTS_FILE)), Word("bash"), Word(base + LINKS_FILE)]
  {
    hide Words;
    var parts := LinksParts(names, base);
    forall i | 0 <= i < |parts|
      ensures |Words(parts)| == |parts| && Words(parts)[i] == Word(PartWord(parts[i]))
    {
      WordAt(parts, i);
    }
    assert "" + (base + LINKS_FILE) == base + LINKS_FILE;
    assert |parts| == 7 && PartWord(parts[6]) == base + LINKS_FILE;
  }

  lemma {:induction false} AffixedOk(prefix: string, value: string)
    requires Plain(prefix)
    ensures PartOk(Affixed(prefix, value))
  {
  }

  /** The links script is told where workspace, runtime directory and the four files are, each under its name. */
  lemma {:induction false} LinksLineReads(rt: Runtime)
    ensures var base := RStrip(rt.workspace, '/') + "/.runpod_agentic";
            Read(Render(LinksLine(rt)))
            == [SimpleCommand([Word("WORKSPACE_DIR=" + rt.workspace)]
                              + [Word("CRAG_RUNTIME_DIR=" + base), Word("AGENT_PROMPT_FILE=" + (base + "/prompt.txt")),
                               Word("AGENT_SYSTEM_PROMPT_FILE=" + (base + "/system_prompt.txt")),
                               Word("MCP_SERVERS_FILE=" + (base + "/mcp_servers.json")),
                               Word("CRAG_SUBAGENTS_FILE=" + (base + "/subagents.json")),
                               Word("bash"), Word(base + "/launcher.d/20-harness-links.sh")], [])]
  {
    hide Read, Render, PartsLine, Words, PartOk, LinksParts;
    var base, first := Base(rt), Affixed("WORKSPACE_DIR=", rt.workspace);
    LinksText(rt);
    NamesPlain();
    LinksOk(NAMES, base);
    AffixedOk("WORKSPACE_DIR=", rt.workspace);
    QuotedListRoundTrip(first, LinksParts(NAMES, base));
    LinksWords(NAMES, base);
  }

  lemma {:induction false} RenderCons(p: Piece, b: seq<Piece>)
    ensures Render([p] + b) == RenderPiece(p) + Render(b)
  {
    hide RenderPiece;
    assert ([p] + b)[1..] == b;
  }

  lemma {:induction false} Regroup(a: string, b: string, c: string)
    ensures a + (b + c) == (a + b) + c
  {
  }

  lemma {:induction false} RenderNone(b: seq<Piece>)
    ensures Render([] + b) == Render([]) + Render(b)
  {
    assert [] + b == b && "" + Render(b) == Render(b);
  }

  lemma {:induction false} RenderConcat(a: seq<Piece>, b: seq<Piece>)
    ensures Render(a + b) == Render(a) + Render(b)
  {
    hide Render, RenderPiece;
    if a == [] {
      RenderNone(b);
    } else {
      RenderConcat(a[1..], b);
      Regroup(RenderPiece(a[0]), Render(a[1..]), Render(b));
      RenderCons(a[0], a[1..]);
      RenderCons(a[0], a[1..] + b);
      assert [a[0]] + a[1..] == a;
      assert [a[0]] + (a[1..] + b) == a + b;
    }
  }

  lemma {:induction false} OnePiece(a: Piece)
    ensures Render([a]) == RenderPiece(a)
  {
    hide RenderPiece;
    assert [a][1..] == [] && RenderPiece(a) + "" == RenderPiece(a);
  }

  lemma {:induction false} TwoPieces(a: Piece, b: Piece)
    ensures Render([a, b]) == RenderPiece(a) + RenderPiece(b)
  {
    hide Render, RenderPiece;
    OnePiece(b);
    RenderCons(a, [b]);
    assert [a] + [b] == [a, b];
  }

  lemma {:induction false} ThreePieces(a: Piece, b: Piece, c: Piece)
    ensures Render([a, b, c]) == RenderPiece(a) + RenderPiece(b) + RenderPiece(c)
  {
    hide Render, RenderPiece;
    TwoPieces(b, c);
    RenderCons(a, [b, c]);
    assert [a] + [b, c] == [a, b, c];
  }

  const LOG := " > .runpod_agentic/agent.log 2>&1 &"

  /** The timer runs in the background and has a log of its own. */
  function TimerText(script: string): string {
    if script == "" then ""
    else " && mkdir -p .runpod_agentic && " + "(nohup bash -lc " + ShellEnv(script)
         + (" > .runpod_agentic/keepalive.log" + " 2>&1 &)")
  }

  /** The agent is started by the configured launcher, or by the own one, which is told the harness. */
  function StartText(rt: Runtime): string {
    if rt.launcher != "" then " && nohup bash -lc " + ShellEnv(rt.launcher) + LOG
    else " && chmod +x " + ".runpod_agentic/launcher.sh " + ".runpod_agentic/launcher.d/*.sh "
         + (".runpod_agentic/launcher.d/" + "harnesses/*.sh " + "2>/dev/null || true && ")
         + ("nohup .runpod_agentic/launcher.sh " + ShellEnv(rt.harness) + LOG)
  }

  lemma {:induction false} TimerRenders(rt: Runtime)
    ensures Render(TimerPieces(rt)) == TimerText(rt.timer)
  {
    hide ShellEnv;
    if rt.timer != "" {
      var front, back := [Raw(MAKE_RUNTIME), Raw(TIMER_OPEN), Quoted(rt.timer)], [Raw(TIMER_LOG), Raw(TIMER_CLOSE)];
      assert TimerPieces(rt) == front + back;
      RenderConcat(front, back);
      ThreePieces(Raw(MAKE_RUNTIME), Raw(TIMER_OPEN), Quoted(rt.timer));
      TwoPieces(Raw(TIMER_LOG), Raw(TIMER_CLOSE));
    }
  }

  lemma {:induction false} StartRenders(rt: Runtime)
    ensures Render(StartPieces(rt)) == StartText(rt)
  {
    hide ShellEnv, Render;
    if rt.launcher != "" {
      ThreePieces(Raw(LAUNCH_BASH), Quoted(rt.launcher), Raw(LAUNCH_LOG));
    } else {
      var a := [Raw(CHMOD), Raw(LAUNCHER), Raw(LAUNCHER_PARTS)];
      var b := [Raw(LAUNCHER_DIR), Raw(HARNESSES), Raw(IGNORE_ERRORS)];
      var c := [Raw(LAUNCH_DEFAULT), Quoted(rt.harness), Raw(LAUNCH_LOG)];
      assert StartPieces(rt) == (a + b) + c;
      RenderConcat(a + b, c);
      RenderConcat(a, b);
      ThreePieces(a[0], a[1], a[2]);
      ThreePieces(b[0], b[1], b[2]);
      ThreePieces(c[0], c[1], c[2]);
    }
  }

  /** The agent is started in the workspace unless the mode is manual; the keep-alive timer is started in either mode,
      if there is one. */
  lemma {:induction false} LaunchText(rt: Runtime)
    ensures Render(LaunchLine(rt))
            == if rt.manual && rt.timer == ""
               then "echo " + ShellEnv("CRAG startup mode is manual; launcher not started.")
               else "cd " + ShellEnv(rt.workspace) + " && mkdir -p .runpod_agentic" + TimerText(rt.timer)
                    + (if rt.manual then "" else StartText(rt))
  {
    hide ShellEnv, Render, TimerText, StartText, TimerPieces, StartPieces;
    if rt.manual && rt.timer == "" {
      TwoPieces(Raw(ECHO), Quoted("CRAG startup mode is manual; launcher not started."));
    } else {
      var w, t := WorkspacePieces(rt), TimerPieces(rt);
      ThreePieces(Raw(CD), Quoted(rt.workspace), Raw(THEN_RUNTIME));
      RenderConcat(w, t);
      TimerRenders(rt);
      StartRenders(rt);
      RenderConcat(w + t, StartPieces(rt));
      assert |LaunchPieces(rt)| >= |w| == 3;
      assert Render(w + t) + "" == Render(w + t);
    }
  }

  lemma {:induction false} RenderAllAt(lines: seq<seq<Piece>>, i: nat)
    requires i < |lines|
    ensures |RenderAll(lines)| == |lines| && RenderAll(lines)[i] == Render(lines[i])
    decreases |lines|
  {
    if |lines| > 1 {
      RenderAllAt(lines[1..], if i > 0 then i - 1 else 0);
    }
  }

  function InQuotes(text: string): string {
    "\"" + (text + "\"")
  }

  /** The script fails at the first error, works in the workspace, forgets an earlier success before it does anything,
      and reports its own at the very end, after the launch. */
  lemma {:induction false} FrameText(rt: Runtime, hash: PathHash)
    ensures var lines, n := InnerLines(rt, hash), |InnerLines(rt, hash)|;
            && n >= 7
            && lines[0] == "set -euo pipefail" && lines[1] == "workspace=" + ShellEnv(rt.workspace)
            && lines[2] == "mkdir -p " + InQuotes("$workspace/.runpod_agentic")
            && lines[3] == "rm -f " + InQuotes("$workspace/.runpod_agentic/startup.ready")
            && lines[4] == "cd " + InQuotes("$workspace")
            && lines[n - 2] == Render(LaunchLine(rt))
            && lines[n - 1] == "touch " + InQuotes("$workspace/.runpod_agentic/startup.ready")
  {
    hide Render, RenderAll, ShellEnv, LaunchLine, AllFileLines, CommandLines, RuntimeFiles, LinksLine;
    var a, e := Preamble(rt), Ending(rt);
    forall i | 0 <= i < |a|
      ensures |RenderAll(a)| == |a| && RenderAll(a)[i] == Render(a[i])
    {
      RenderAllAt(a, i);
    }
    RenderAllAt(e, 0);
    RenderAllAt(e, 1);
    OnePiece(a[0][0]);
    TwoPieces(a[1][0], a[1][1]);
    TwoPieces(a[2][0], a[2][1]);
    TwoPieces(a[3][0], a[3][1]);
    TwoPieces(a[4][0], a[4][1]);
    TwoPieces(e[1][0], e[1][1]);
    EndsOfSum(RenderAll(a), AllFileLines(hash, RuntimeFiles(rt)), RenderAll([LinksLine(rt)]), CommandLines(rt.commands),
              RenderAll(e));
  }

  lemma {:induction false} EndsOfSum(a: seq<string>, b: seq<string>, c: seq<string>, d: seq<string>, e: seq<string>)
    requires |a| == 5 && |e| == 2
    ensures var all := a + (b + (c + (d + e)));
            && |all| >= 7 && (forall i :: 0 <= i < 5 ==> all[i] == a[i])
            && all[|all| - 2] == e[0] && all[|all| - 1] == e[1]
  {
  }
}
