/** Whole generated lines: ordinary command lines, which only pass by, and the two here-document forms that the startup
    script is built from. */
module ShellLines {
  import opened Text
  import opened Shell

  /** What running a script does, as far as the generated text is concerned. */
  datatype Effect = Write(path: string, content: string) | Script(text: string)

  function EffectOf(c: SimpleCommand): seq<Effect> {
    if |c.docs| != 1 then []
    else if |c.tokens| == 4 && c.tokens[0] == Word("cat") && c.tokens[1] == Op('>') && c.tokens[2].Word?
        && c.tokens[3].Here?
    then [Write(c.tokens[2].text, c.docs[0])]
    else if |c.tokens| == 2 && c.tokens[0] == Word("bash") && c.tokens[1].Here?
    then [Script(c.docs[0])]
    else []
  }

  function Effects(out: seq<SimpleCommand>): seq<Effect> {
    if out == [] then [] else Effects(out[..|out| - 1]) + EffectOf(out[|out| - 1])
  }

  lemma {:induction false} EffectsSnoc(out: seq<SimpleCommand>, c: SimpleCommand)
    ensures Effects(out + [c]) == Effects(out) + EffectOf(c)
  {
    assert (out + [c])[..|out|] == out;
  }

  // ---------------------------------------------------------------------------------------------
  // Lines without here-documents

  predicate RawChar(c: char) {
    c != '\n' && c != '\'' && c != '\"' && c != '\\' && c != '#' && c != '<'
  }

  predicate RawOk(text: string) {
    forall i :: 0 <= i < |text| ==> RawChar(text[i])
  }

  predicate DoubleOk(text: string) {
    forall i :: 0 <= i < |text| ==> text[i] != '\"' && text[i] != '\\' && text[i] != '\n'
  }

  /** Fixed text that opens no quotation, comment or here-document, and fixed text for double quotes. */
  type RawText = text: string | RawOk(text)
  type DoubleText = text: string | DoubleOk(text)

  datatype Piece = Raw(text: RawText) | Quoted(value: string) | DoubleQuoted(quoted: DoubleText)

  function RenderPiece(p: Piece): string {
    match p
    case Raw(text) => text
    case Quoted(value) => ShellEnv(value)
    case DoubleQuoted(text) => "\"" + (text + "\"")
  }

  function Render(pieces: seq<Piece>): string {
    if pieces == [] then "" else RenderPiece(pieces[0]) + Render(pieces[1..])
  }

  /** At the start of a line, with these effects so far. */
  ghost predicate Clean(st: State, fx: seq<Effect>) {
    st == Start(st.out) && Effects(st.out) == fx
  }

  /** Between two words of a command, with no here-document pending. */
  predicate Between(st: State) {
    && st.mode == Bare && !st.inWord && st.word == "" && !st.quoted && !st.awaiting
    && st.delims == [] && st.docs == [] && st.body == "" && st.line == ""
  }

  /** Inside an ordinary line: no here-document pending. */
  predicate Quiet(st: State, out: seq<SimpleCommand>) {
    && st.mode == Bare && !st.awaiting && st.delims == [] && st.docs == [] && st.body == "" && st.line == ""
    && (!st.inWord ==> st.word == "" && !st.quoted) && st.out == out
  }

  lemma {:induction false} RunRaw(st: State, text: string)
    requires Quiet(st, st.out) && RawOk(text)
    ensures Quiet(Run(st, text), st.out)
    decreases |text|
  {
    if text != "" {
      var next := Step(st, text[0]);
      assert Quiet(next, st.out);
      RunRaw(next, text[1..]);
    }
  }

  lemma {:induction false} RunDouble(st: State, text: string)
    requires st.mode == Double && DoubleOk(text)
    ensures Run(st, text) == st.(word := st.word + text)
    decreases |text|
  {
    if text == "" {
      assert st.word + text == st.word;
    } else {
      RunDouble(st.(word := st.word + [text[0]]), text[1..]);
      assert (st.word + [text[0]]) + text[1..] == st.word + text;
    }
  }

  lemma {:induction false} RunPiece(st: State, p: Piece)
    requires Quiet(st, st.out)
    ensures Quiet(Run(st, RenderPiece(p)), st.out)
  {
    match p
    case Raw(text) => RunRaw(st, text);
    case Quoted(value) => RunQuoted(st, value);
    case DoubleQuoted(text) =>
      RunConcat(st, "\"", text + "\"");
      RunChar(st, '\"');
      var open := st.(mode := Double, inWord := true, quoted := true);
      RunConcat(open, text, "\"");
      RunDouble(open, text);
      RunChar(open.(word := st.word + text), '\"');
  }

  lemma {:induction false} RunPieces(st: State, pieces: seq<Piece>)
    requires Quiet(st, st.out)
    ensures Quiet(Run(st, Render(pieces)), st.out)
    decreases |pieces|
  {
    if pieces != [] {
      RunConcat(st, RenderPiece(pieces[0]), Render(pieces[1..]));
      RunPiece(st, pieces[0]);
      RunPieces(Run(st, RenderPiece(pieces[0])), pieces[1..]);
    }
  }

  /** An ordinary line writes nothing and runs no script. */
  lemma {:induction false} RunOrdinary(st: State, fx: seq<Effect>, pieces: seq<Piece>)
    requires Clean(st, fx)
    ensures Clean(Run(st, Render(pieces) + "\n"), fx)
  {
    RunConcat(st, Render(pieces), "\n");
    RunPieces(st, pieces);
    var mid := Run(st, Render(pieces));
    RunChar(mid, '\n');
    var end := EndWord(mid);
    if end.tokens != [] {
      EffectsSnoc(st.out, SimpleCommand(end.tokens, []));
    }
  }

  // ---------------------------------------------------------------------------------------------
  // Lines that open a here-document

  lemma {:induction false} EscapedNoQuote(value: string)
    requires '\'' !in value
    ensures Escaped(value) == value
    decreases |value|
  {
    if value != "" {
      EscapedNoQuote(value[1..]);
    }
  }

  lemma {:induction false} ShellEnvNoQuote(value: string)
    requires '\'' !in value
    ensures ShellEnv(value) == "'" + value + "'"
  {
    EscapedIsReplace(value);
    EscapedNoQuote(value);
  }

  lemma {:induction false} RunQuotedWord(st: State, value: string)
    requires st.mode == Bare && !st.inWord && st.word == ""
    ensures Run(st, ShellEnv(value)) == st.(inWord := true, quoted := true, word := value)
  {
    RunQuoted(st, value);
    assert "" + value == value;
  }

  lemma {:induction false} BlankAfterWord(st: State, rest: string)
    requires st.mode == Bare && st.inWord && !st.awaiting
    ensures Run(st, [' '] + rest)
            == Run(st.(inWord := false, word := "", quoted := false, tokens := st.tokens + [Word(st.word)]), rest)
  {
    RunCons(st, ' ', rest);
  }

  lemma {:induction false} HereOpThenWord(st: State, text: string)
    requires st.mode == HereOp && text != "" && text[0] != '-'
    ensures Run(st, text) == Run(st.(mode := Bare), text)
  {
    assert Step(st, text[0]) == Step(st.(mode := Bare), text[0]);
  }

  lemma {:induction false} ShellEnvHead(value: string)
    ensures ShellEnv(value) != "" && ShellEnv(value)[0] == '\''
  {
    assert ("'" + Replace(value, "'", "'\"'\"'"))[0] == '\'';
  }

  /** Reading the delimiter word to the end of the line, after the words of the command. */
  lemma {:induction false} RunHereWord(st: State, marker: string)
    requires Between(st)
    ensures Run(st.(awaiting := true), ShellEnv(marker) + "\n")
            == st.(mode := HereBody, tokens := st.tokens + [Here(marker)], delims := [marker])
  {
    var at := st.(awaiting := true);
    RunConcat(at, ShellEnv(marker), "\n");
    RunQuotedWord(at, marker);
    RunChar(at.(inWord := true, quoted := true, word := marker), '\n');
    assert [] + [marker] == [marker];
  }

  lemma {:induction false} RunHereOperator(st: State, marker: string)
    requires Between(st)
    ensures Run(st, ['<'] + (['<'] + (ShellEnv(marker) + "\n")))
            == st.(mode := HereBody, tokens := st.tokens + [Here(marker)], delims := [marker])
  {
    var rest := ShellEnv(marker) + "\n";
    RunCons(st, '<', ['<'] + rest);
    RunCons(st.(mode := Less), '<', rest);
    ShellEnvHead(marker);
    HereOpThenWord(st.(mode := HereOp, awaiting := true), rest);
    RunHereWord(st, marker);
  }

  lemma {:induction false} RunFirstWord(st: State, keyword: string, rest: string)
    requires Between(st) && st.tokens == [] && keyword != "" && Plain(keyword)
    ensures Run(st, keyword + ([' '] + rest)) == Run(st.(tokens := [Word(keyword)]), rest)
  {
    var named := st.(inWord := true, word := keyword);
    RunConcat(st, keyword, [' '] + rest);
    RunPlain(st, keyword);
    assert "" + keyword == keyword;
    BlankAfterWord(named, rest);
    assert [] + [Word(keyword)] == [Word(keyword)];
  }

  lemma {:induction false} RunTargetWord(st: State, path: string, rest: string)
    requires Between(st)
    ensures Run(st, ShellEnv(path) + ([' '] + rest)) == Run(st.(tokens := st.tokens + [Word(path)]), rest)
  {
    RunConcat(st, ShellEnv(path), [' '] + rest);
    RunQuotedWord(st, path);
    BlankAfterWord(st.(inWord := true, quoted := true, word := path), rest);
  }

  lemma {:induction false} RunRedirect(st: State, rest: string)
    requires Between(st)
    ensures Run(st, ['>'] + ([' '] + rest)) == Run(st.(tokens := st.tokens + [Op('>')]), rest)
  {
    RunCons(st, '>', [' '] + rest);
    RunCons(st.(tokens := st.tokens + [Op('>')]), ' ', rest);
  }

  lemma {:induction false} RunTarget(st: State, path: string, rest: string)
    requires Between(st)
    ensures Run(st, ['>'] + ([' '] + (ShellEnv(path) + ([' '] + rest))))
            == Run(st.(tokens := st.tokens + [Op('>')] + [Word(path)]), rest)
  {
    RunRedirect(st, ShellEnv(path) + ([' '] + rest));
    RunTargetWord(st.(tokens := st.tokens + [Op('>')]), path, rest);
  }

  function CatLine(path: string, marker: string): string {
    "cat" + (" " + (">" + (" " + (ShellEnv(path) + (" " + ("<" + ("<" + ("'" + marker + "'"))))))))
  }

  function BashLine(marker: string): string {
    "bash" + (" " + ("<" + ("<" + ("'" + marker + "'"))))
  }

  lemma {:induction false} RunCatLine(st: State, path: string, marker: string)
    requires Between(st) && st.tokens == [] && '\'' !in marker
    ensures Run(st, CatLine(path, marker) + "\n")
            == st.(mode := HereBody, tokens := [Word("cat"), Op('>'), Word(path), Here(marker)], delims := [marker])
  {
    ShellEnvNoQuote(marker);
    CatRegroup("cat", " ", ">", ShellEnv(path), "<", ShellEnv(marker), "\n");
    var here := "<" + ("<" + (ShellEnv(marker) + "\n"));
    RunFirstWord(st, "cat", ">" + (" " + (ShellEnv(path) + (" " + here))));
    var s1 := st.(tokens := [Word("cat")]);
    RunTarget(s1, path, here);
    assert [Word("cat")] + [Op('>')] + [Word(path)] == [Word("cat"), Op('>'), Word(path)];
    RunHereOperator(st.(tokens := [Word("cat"), Op('>'), Word(path)]), marker);
    assert [Word("cat"), Op('>'), Word(path)] + [Here(marker)] == [Word("cat"), Op('>'), Word(path), Here(marker)];
  }

  lemma {:induction false} CatRegroup(cat: string, sp: string, gt: string, q: string, lt: string, m: string, nl: string)
    ensures (cat + (sp + (gt + (sp + (q + (sp + (lt + (lt + m)))))))) + nl
            == cat + (sp + (gt + (sp + (q + (sp + (lt + (lt + (m + nl))))))))
  {
  }

  lemma {:induction false} BashRegroup(bash: string, sp: string, lt: string, m: string, nl: string)
    ensures (bash + (sp + (lt + (lt + m)))) + nl == bash + (sp + (lt + (lt + (m + nl))))
  {
  }

  lemma {:induction false} RunBashLine(st: State, marker: string)
    requires Between(st) && st.tokens == [] && '\'' !in marker
    ensures Run(st, BashLine(marker) + "\n")
            == st.(mode := HereBody, tokens := [Word("bash"), Here(marker)], delims := [marker])
  {
    ShellEnvNoQuote(marker);
    BashRegroup("bash", " ", "<", ShellEnv(marker), "\n");
    RunFirstWord(st, "bash", "<" + ("<" + (ShellEnv(marker) + "\n")));
    RunHereOperator(st.(tokens := [Word("bash")]), marker);
    assert [Word("bash")] + [Here(marker)] == [Word("bash"), Here(marker)];
  }

  /** `cat > 'path' <<'marker'`, the content, the marker: one write of the content and a newline. */
  lemma {:induction false} RunWrite(st: State, fx: seq<Effect>, path: string, marker: string, content: string)
    requires Clean(st, fx) && '\'' !in marker && '\n' !in marker
    requires LineFree(content, marker)
    ensures Clean(Run(st, (CatLine(path, marker) + "\n") + (content + "\n" + marker + "\n")),
                  fx + [Write(path, content + "\n")])
  {
    RunConcat(st, CatLine(path, marker) + "\n", content + "\n" + marker + "\n");
    RunCatLine(st, path, marker);
    var at := Run(st, CatLine(path, marker) + "\n");
    RunDocument(at, content, marker);
    EffectsSnoc(st.out, SimpleCommand(at.tokens, [content + "\n"]));
  }

  /** `bash <<'marker'`, the command, the marker: one script run. */
  lemma {:induction false} RunScript(st: State, fx: seq<Effect>, marker: string, command: string)
    requires Clean(st, fx) && '\'' !in marker && '\n' !in marker
    requires LineFree(command, marker)
    ensures Clean(Run(st, (BashLine(marker) + "\n") + (command + "\n" + marker + "\n")), fx + [Script(command + "\n")])
  {
    RunConcat(st, BashLine(marker) + "\n", command + "\n" + marker + "\n");
    RunBashLine(st, marker);
    var at := Run(st, BashLine(marker) + "\n");
    RunDocument(at, command, marker);
    EffectsSnoc(st.out, SimpleCommand(at.tokens, [command + "\n"]));
  }

  /** The first command read is bash with the whole text as its here-document exactly when no line of the text is the
      marker. */
  lemma {:induction false} ScriptExact(marker: string, text: string)
    requires '\'' !in marker && '\n' !in marker
    ensures var out := Run(Start([]), (BashLine(marker) + "\n") + (text + "\n" + marker + "\n")).out;
            && |out| > 0
            && (out[0] == SimpleCommand([Word("bash"), Here(marker)], [text + "\n"]) <==> LineFree(text, marker))
  {
    var st := Start([]);
    RunConcat(st, BashLine(marker) + "\n", text + "\n" + marker + "\n");
    RunBashLine(st, marker);
    AppendEmpty(text + "\n", marker);
    DocumentExact(st.(mode := HereBody, tokens := [Word("bash"), Here(marker)], delims := [marker]), text, marker, "");
  }
}
