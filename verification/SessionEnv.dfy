/** The generated session.env file: one `export NAME='value'` line per variable, read back by a shell. */
module SessionEnv {
  import opened Text
  import opened Shell

  type Item = (string, string)

  predicate NameStart(c: char) {
    'a' <= c <= 'z' || 'A' <= c <= 'Z' || c == '_'
  }

  /** A name that the shell can export: letters, digits and underscores, the first no digit. */
  predicate NameOk(name: string) {
    name != "" && NameStart(name[0]) && forall i :: 0 <= i < |name| ==> NameStart(name[i]) || '0' <= name[i] <= '9'
  }

  /** `items` lists the environment, each variable once, in any order (the source sorts it). */
  ghost predicate Lists(items: seq<Item>, env: map<string, string>) {
    && (forall i, j :: 0 <= i < j < |items| ==> items[i].0 != items[j].0)
    && (forall i :: 0 <= i < |items| ==> items[i].0 in env && env[items[i].0] == items[i].1)
    && (forall k :: k in env ==> exists i :: 0 <= i < |items| && items[i].0 == k)
  }

  function ExportLine(item: Item): string {
    "export" + (" " + (item.0 + ("=" + ShellEnv(item.1))))
  }

  function ExportLines(items: seq<Item>): seq<string> {
    if items == [] then [] else [ExportLine(items[0])] + ExportLines(items[1..])
  }

  function SessionEnv(items: seq<Item>): string {
    Join(ExportLines(items), "\n") + "\n"
  }

  // What a shell does with the commands of the file.

  function IndexOf(s: string, c: char): nat {
    if s == "" || s[0] == c then 0 else 1 + IndexOf(s[1..], c)
  }

  lemma {:induction false} IndexOfFirst(a: string, c: char, b: string)
    requires c !in a
    ensures IndexOf(a + [c] + b, c) == |a|
  {
    var s := a + [c] + b;
    if a != "" {
      assert s[1..] == a[1..] + [c] + b;
      IndexOfFirst(a[1..], c, b);
    }
  }

  function Assign(env: map<string, string>, c: SimpleCommand): map<string, string> {
    if |c.tokens| == 2 && c.tokens[0] == Word("export") && c.tokens[1].Word? then
      var text := c.tokens[1].text;
      var cut := IndexOf(text, '=');
      if cut < |text| then env[text[..cut] := text[cut + 1..]] else env
    else env
  }

  function Source(env: map<string, string>, commands: seq<SimpleCommand>): map<string, string>
    decreases |commands|
  {
    if commands == [] then env else Source(Assign(env, commands[0]), commands[1..])
  }

  function ExportCommand(item: Item): SimpleCommand {
    SimpleCommand([Word("export"), Word(item.0 + "=" + item.1)], [])
  }

  function ExportCommands(items: seq<Item>): seq<SimpleCommand> {
    if items == [] then [] else [ExportCommand(items[0])] + ExportCommands(items[1..])
  }

  lemma {:induction false} ReadWord(st: State, text: string)
    requires st.mode == Bare && !st.inWord && st.word == "" && text != "" && Plain(text)
    ensures Run(st, text) == st.(inWord := true, word := text)
  {
    RunPlain(st, text);
    assert "" + text == text;
  }

  lemma {:induction false} ReadAssignment(st: State, keyword: string, name: string, value: string)
    requires NameOk(name)
    requires st == Start(st.out).(tokens := [Word(keyword)])
    ensures Run(st, (name + "=") + (ShellEnv(value) + "\n"))
            == Start(st.out + [SimpleCommand([Word(keyword), Word(name + "=" + value)], [])])
  {
    RunConcat(st, name + "=", ShellEnv(value) + "\n");
    ReadWord(st, name + "=");
    var named := st.(inWord := true, word := name + "=");
    RunConcat(named, ShellEnv(value), "\n");
    RunQuoted(named, value);
    RunChar(named.(quoted := true, word := name + "=" + value), '\n');
    assert [Word(keyword)] + [Word(name + "=" + value)] == [Word(keyword), Word(name + "=" + value)];
  }

  lemma {:induction false} ExportRegroup(a: string, b: string, c: string, d: string, e: string, f: string)
    ensures (a + (b + (c + (d + e)))) + f == a + (b + ((c + d) + (e + f)))
  {
  }

  lemma {:induction false} ReadKeyword(st: State, keyword: string, rest: string)
    requires st == Start(st.out) && keyword != "" && Plain(keyword)
    ensures Run(st, keyword + (" " + rest)) == Run(st.(tokens := [Word(keyword)]), rest)
  {
    var named := st.(inWord := true, word := keyword);
    RunConcat(st, keyword, " " + rest);
    ReadWord(st, keyword);
    RunConcat(named, " ", rest);
    RunChar(named, ' ');
    assert [] + [Word(keyword)] == [Word(keyword)];
  }

  lemma {:induction false} ReadExport(out: seq<SimpleCommand>, item: Item)
    requires NameOk(item.0)
    ensures Run(Start(out), ExportLine(item) + "\n") == Start(out + [ExportCommand(item)])
  {
    var st := Start(out);
    ExportRegroup("export", " ", item.0, "=", ShellEnv(item.1), "\n");
    ReadKeyword(st, "export", (item.0 + "=") + (ShellEnv(item.1) + "\n"));
    ReadAssignment(st.(tokens := [Word("export")]), "export", item.0, item.1);
  }

  lemma {:induction false} ExportTail(out: seq<SimpleCommand>, items: seq<Item>)
    requires items != []
    ensures Terminated(ExportLines(items)) == (ExportLine(items[0]) + "\n") + Terminated(ExportLines(items[1..]))
    ensures (out + [ExportCommand(items[0])]) + ExportCommands(items[1..]) == out + ExportCommands(items)
  {
    TerminatedCons(ExportLine(items[0]), ExportLines(items[1..]));
  }

  lemma {:induction false} ReadExports(out: seq<SimpleCommand>, items: seq<Item>)
    requires forall i :: 0 <= i < |items| ==> NameOk(items[i].0)
    ensures Run(Start(out), Terminated(ExportLines(items))) == Start(out + ExportCommands(items))
    decreases |items|
  {
    if items == [] {
      RunNil(Start(out));
      assert out + [] == out;
    } else {
      ExportTail(out, items);
      RunConcat(Start(out), ExportLine(items[0]) + "\n", Terminated(ExportLines(items[1..])));
      ReadExport(out, items[0]);
      ReadExports(out + [ExportCommand(items[0])], items[1..]);
    }
  }

  lemma {:induction false} AssignExport(env: map<string, string>, item: Item)
    requires NameOk(item.0)
    ensures Assign(env, ExportCommand(item)) == env[item.0 := item.1]
  {
    var text := item.0 + "=" + item.1;
    assert text == item.0 + ['='] + item.1;
    IndexOfFirst(item.0, '=', item.1);
    assert text[..|item.0|] == item.0 && text[|item.0| + 1..] == item.1;
  }

  ghost predicate Distinct(items: seq<Item>) {
    forall i, j :: 0 <= i < j < |items| ==> items[i].0 != items[j].0
  }

  ghost function Names(items: seq<Item>): set<string> {
    set i | 0 <= i < |items| :: items[i].0
  }

  lemma {:induction false} NamesSplit(items: seq<Item>)
    requires items != [] && Distinct(items)
    ensures Names(items) == {items[0].0} + Names(items[1..])
    ensures items[0].0 !in Names(items[1..]) && Distinct(items[1..])
  {
    var rest := items[1..];
    assert forall i :: 0 <= i < |rest| ==> rest[i].0 == items[i + 1].0;
    assert forall i :: 1 <= i < |items| ==> items[i].0 == rest[i - 1].0;
  }

  lemma {:induction false} SourceStep(env: map<string, string>, items: seq<Item>)
    requires items != [] && NameOk(items[0].0)
    ensures Source(env, ExportCommands(items)) == Source(env[items[0].0 := items[0].1], ExportCommands(items[1..]))
  {
    AssignExport(env, items[0]);
    assert ExportCommands(items)[1..] == ExportCommands(items[1..]);
  }

  lemma {:induction false} SourceExports(env: map<string, string>, items: seq<Item>)
    requires forall i :: 0 <= i < |items| ==> NameOk(items[i].0)
    requires Distinct(items)
    ensures Source(env, ExportCommands(items)).Keys == env.Keys + Names(items)
    ensures forall i :: 0 <= i < |items| ==> Source(env, ExportCommands(items))[items[i].0] == items[i].1
    ensures forall k :: k in env && k !in Names(items) ==> Source(env, ExportCommands(items))[k] == env[k]
    decreases |items|
  {
    if items != [] {
      var rest := items[1..];
      NamesSplit(items);
      SourceStep(env, items);
      SourceExports(env[items[0].0 := items[0].1], rest);
      assert forall i :: 1 <= i < |items| ==> items[i] == rest[i - 1];
    }
  }

  lemma {:induction false} ReadTerminated(st: State, text: string)
    requires st == Start([]) && Run(st, text) == Start(Run(st, text).out)
    ensures Read(text) == Run(st, text).out
  {
    RunConcat(st, text, "\n");
    RunChar(Run(st, text), '\n');
  }

  lemma {:induction false} ReadSessionEnv(items: seq<Item>)
    requires forall i :: 0 <= i < |items| ==> NameOk(items[i].0)
    ensures Read(SessionEnv(items)) == ExportCommands(items)
  {
    var st := Start([]);
    if items == [] {
      assert SessionEnv(items) == ['\n'];
      RunChar(st, '\n');
    } else {
      JoinTerminated(ExportLines(items));
      ReadExports([], items);
      assert [] + ExportCommands(items) == ExportCommands(items);
    }
    ReadTerminated(st, SessionEnv(items));
  }

  /** Sourcing the generated file restores exactly the environment it was written from, whatever quotes, newlines or
      metacharacters the values hold. */
  lemma {:induction false} SessionEnvRoundTrip(items: seq<Item>, env: map<string, string>)
    requires Lists(items, env)
    requires forall k :: k in env ==> NameOk(k)
    ensures Source(map[], Read(SessionEnv(items))) == env
  {
    ReadSessionEnv(items);
    SourceExports(map[], items);
    assert Names(items) == env.Keys;
  }
}
