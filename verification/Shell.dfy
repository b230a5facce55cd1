/** A reader for the part of the POSIX.1-2017 Shell Command Language that the generated text uses
    (section 2.2 quoting, section 2.3 token recognition, section 2.7.4 here-documents), and the one
    quoting function of the repository, with its round trip.

    The reader consumes one character at a time, so reading a concatenation is reading its parts in
    turn.  A construct outside its scope (an unquoted or dash here-document) stops it in `Unsupported`. */
module Shell {
  import opened Text

  datatype Token = Word(text: string) | Op(op: char) | Here(delimiter: string)
  datatype SimpleCommand = SimpleCommand(tokens: seq<Token>, docs: seq<string>)

  datatype Mode = Bare | Less | HereOp | Single | Double | Escape | DoubleEscape | Comment | HereBody | Unsupported

  datatype State = State(
    mode: Mode,
    inWord: bool, word: string, quoted: bool,  // the word being read, and whether part of it was quoted
    awaiting: bool,                            // "<<" was read and its delimiter word is still to come
    tokens: seq<Token>,
    delims: seq<string>,                       // here-documents whose bodies are still to come
    docs: seq<string>,
    body: string, line: string,                // the here-document being read
    out: seq<SimpleCommand>)

  function Start(out: seq<SimpleCommand>): State {
    State(Bare, false, "", false, false, [], [], [], "", "", out)
  }

  function EndWord(st: State): (r: State)
    ensures r.out == st.out
  {
    if !st.inWord then st
    else if !st.awaiting then st.(inWord := false, word := "", quoted := false, tokens := st.tokens + [Word(st.word)])
    else if !st.quoted then st.(mode := Unsupported)
    else st.(inWord := false, word := "", quoted := false, awaiting := false,
             tokens := st.tokens + [Here(st.word)], delims := st.delims + [st.word])
  }

  function Emit(st: State): (r: State)
    ensures st.out <= r.out
  {
    Start(if st.tokens == [] then st.out else st.out + [SimpleCommand(st.tokens, st.docs)])
  }

  function EndLine(st: State): (r: State)
    ensures st.out <= r.out
  {
    if st.mode.Unsupported? || st.awaiting then st.(mode := Unsupported)
    else if st.delims == [] then Emit(st)
    else st.(mode := HereBody, docs := [], body := "", line := "")
  }

  function Operator(st: State, c: char): (r: State)
    ensures st.out <= r.out
  {
    var e := EndWord(st);
    if e.mode.Unsupported? || e.awaiting then e.(mode := Unsupported)
    else if c == '<' then e.(mode := Less)
    else e.(tokens := e.tokens + [Op(c)])
  }

  predicate IsOperator(c: char) {
    c == '<' || c == '>' || c == '&' || c == '|' || c == ';' || c == '(' || c == ')'
  }

  predicate IsBlank(c: char) {
    c == ' ' || c == '\t'
  }

  function StepBare(st: State, c: char): (r: State)
    ensures st.out <= r.out
  {
    if c == '\n' then EndLine(EndWord(st))
    else if IsBlank(c) then EndWord(st)
    else if c == '\'' then st.(mode := Single, inWord := true, quoted := true)
    else if c == '\"' then st.(mode := Double, inWord := true, quoted := true)
    else if c == '\\' then st.(mode := Escape)
    else if c == '#' && !st.inWord then st.(mode := Comment)
    else if IsOperator(c) then Operator(st, c)
    else st.(inWord := true, word := st.word + [c])
  }

  function StepBody(st: State, c: char): (r: State)
    ensures st.out <= r.out
  {
    if c != '\n' then st.(line := st.line + [c])
    else if st.delims == [] then st.(mode := Unsupported)
    else if st.line != st.delims[0] then st.(body := st.body + (st.line + "\n"), line := "")
    else
      var next := st.(docs := st.docs + [st.body], delims := st.delims[1..], body := "", line := "");
      if next.delims == [] then Emit(next) else next
  }

  function Step(st: State, c: char): (r: State)
    ensures st.out <= r.out
  {
    match st.mode
    case Unsupported => st
    case Bare => StepBare(st, c)
    case Less =>
      if c == '<' then st.(mode := HereOp, awaiting := true)
      else StepBare(st.(mode := Bare, tokens := st.tokens + [Op('<')]), c)
    case HereOp => if c == '-' then st.(mode := Unsupported) else StepBare(st.(mode := Bare), c)
    case Single => if c == '\'' then st.(mode := Bare) else st.(word := st.word + [c])
    case Double =>
      if c == '\"' then st.(mode := Bare)
      else if c == '\\' then st.(mode := DoubleEscape)
      else st.(word := st.word + [c])
    case DoubleEscape =>
      if c == '$' || c == '`' || c == '\"' || c == '\\' then st.(mode := Double, word := st.word + [c])
      else if c == '\n' then st.(mode := Double)
      else st.(mode := Double, word := st.word + ['\\', c])
    case Escape =>
      if c == '\n' then st.(mode := Bare)
      else st.(mode := Bare, inWord := true, quoted := true, word := st.word + [c])
    case Comment => if c == '\n' then EndLine(st.(mode := Bare)) else st
    case HereBody => StepBody(st, c)
  }

  function Run(st: State, text: string): State
    decreases |text|
  {
    if text == "" then st else Run(Step(st, text[0]), text[1..])
  }

  /** The commands of a complete text; a missing final newline is supplied, as at end of file. */
  function Read(text: string): seq<SimpleCommand> {
    Run(Start([]), text + "\n").out
  }

  lemma {:induction false} RunConcat(st: State, a: string, b: string)
    ensures Run(st, a + b) == Run(Run(st, a), b)
    decreases |a|
  {
    if a == "" {
      assert a + b == b;
    } else {
      assert (a + b)[1..] == a[1..] + b;
      RunConcat(Step(st, a[0]), a[1..], b);
    }
  }

  lemma {:induction false} RunChar(st: State, c: char)
    ensures Run(st, [c]) == Step(st, c)
  {
    assert [c][1..] == "";
  }

  lemma {:induction false} RunNil(st: State)
    ensures Run(st, "") == st
  {
  }

  lemma {:induction false} RunCons(st: State, c: char, rest: string)
    ensures Run(st, [c] + rest) == Run(Step(st, c), rest)
  {
    assert ([c] + rest)[1..] == rest;
  }

  /** Finished commands are never taken back. */
  lemma {:induction false} OutGrows(st: State, text: string)
    ensures st.out <= Run(st, text).out
    decreases |text|
  {
    if text != "" {
      OutGrows(Step(st, text[0]), text[1..]);
    }
  }

  /** A character at which an unquoted word is expanded (sections 2.6.1 to 2.6.3, 2.6.6). */
  predicate Expands(c: char) {
    c == '$' || c == '`' || c == '*' || c == '?' || c == '[' || c == '~'
  }

  /** A character that neither quotes, separates, operates nor starts an expansion. */
  predicate PlainChar(c: char) {
    && !IsBlank(c) && !IsOperator(c) && !Expands(c)
    && c != '\n' && c != '\'' && c != '\"' && c != '\\' && c != '#'
  }

  predicate Plain(text: string) {
    forall i :: 0 <= i < |text| ==> PlainChar(text[i])
  }

  lemma {:induction false} RunPlain(st: State, text: string)
    requires st.mode == Bare && text != "" && Plain(text)
    ensures Run(st, text) == st.(inWord := true, word := st.word + text)
    decreases |text|
  {
    var next := st.(inWord := true, word := st.word + [text[0]]);
    if |text| == 1 {
      assert text == [text[0]];
      RunChar(st, text[0]);
    } else {
      RunPlain(next, text[1..]);
      assert (st.word + [text[0]]) + text[1..] == st.word + text;
    }
  }

  // ---------------------------------------------------------------------------------------------
  // Quoting

  /** The body of shell_env: every single quote leaves the quotes, is double-quoted, and re-enters. */
  function Escaped(value: string): string {
    if value == "" then ""
    else if value[0] == '\'' then "'\"'\"'" + Escaped(value[1..])
    else [value[0]] + Escaped(value[1..])
  }

  /** Python's value.replace with that five-character escape is Escaped. */
  lemma {:induction false} EscapedIsReplace(value: string)
    ensures Escaped(value) == Replace(value, "'", "'\"'\"'")
  {
    if value != "" {
      EscapedIsReplace(value[1..]);
    }
  }

  /** shell_env and shell_quote, which have the same body */
  function ShellEnv(value: string): string {
    "'" + Replace(value, "'", "'\"'\"'") + "'"
  }

  lemma {:induction false} RunEscapedQuote(st: State)
    requires st.mode == Single && st.inWord && st.quoted
    ensures Run(st, "'\"'\"'") == st.(word := st.word + ['\''])
  {
    var t := "'\"'\"'";
    var s1 := Step(st, t[0]);
    assert s1 == st.(mode := Bare);
    var s2 := Step(s1, t[1]);
    assert s2 == st.(mode := Double);
    var s3 := Step(s2, t[2]);
    var s4 := Step(s3, t[3]);
    var s5 := Step(s4, t[4]);
    assert t[1..][0] == t[1] && t[1..][1..] == t[2..] && t[2..][0] == t[2] && t[2..][1..] == t[3..];
    assert t[3..][0] == t[3] && t[3..][1..] == t[4..] && t[4..][0] == t[4] && t[4..][1..] == "";
    assert Run(st, t) == Run(s1, t[1..]) == Run(s2, t[2..]);
    assert Run(s2, t[2..]) == Run(s3, t[3..]);
    assert Run(s3, t[3..]) == Run(s4, t[4..]) == Run(s5, "");
  }

  lemma {:induction false} RunEscaped(st: State, value: string)
    requires st.mode == Single && st.inWord && st.quoted
    ensures Run(st, Escaped(value)) == st.(word := st.word + value)
    decreases |value|
  {
    if value == "" {
      assert st.word + value == st.word;
    } else {
      var rest := value[1..];
      var next := st.(word := st.word + [value[0]]);
      if value[0] == '\'' {
        RunConcat(st, "'\"'\"'", Escaped(rest));
        RunEscapedQuote(st);
      } else {
        RunConcat(st, [value[0]], Escaped(rest));
        RunChar(st, value[0]);
      }
      RunEscaped(next, rest);
      assert (st.word + [value[0]]) + rest == st.word + value;
    }
  }

  /** Wherever a word may continue, shell_env(value) contributes exactly `value` to it. */
  lemma {:induction false} RunQuoted(st: State, value: string)
    requires st.mode == Bare
    ensures Run(st, ShellEnv(value)) == st.(inWord := true, quoted := true, word := st.word + value)
  {
    EscapedIsReplace(value);
    var open := st.(mode := Single, inWord := true, quoted := true);
    RunConcat(st, "'" + Escaped(value), "'");
    RunConcat(st, "'", Escaped(value));
    RunChar(st, '\'');
    assert Run(st, "'") == open;
    RunEscaped(open, value);
    RunChar(open.(word := st.word + value), '\'');
  }

  /** The quoting round trip: read as shell text, shell_env(value) is one word, equal to value. */
  lemma {:induction false} QuoteRoundTrip(value: string)
    ensures Read(ShellEnv(value)) == [SimpleCommand([Word(value)], [])]
  {
    RunConcat(Start([]), ShellEnv(value), "\n");
    RunQuoted(Start([]), value);
    var st := Start([]).(inWord := true, quoted := true, word := "" + value);
    assert "" + value == value;
    RunChar(st, '\n');
    assert [] + [Word(value)] == [Word(value)];
    assert [] + [SimpleCommand([Word(value)], [])] == [SimpleCommand([Word(value)], [])];
  }

  /** An argument as the generator writes it: a quoted value after a plain prefix such as `NAME=`, or a plain word. */
  datatype Part = Affixed(prefix: string, value: string) | Unquoted(text: string)

  predicate PartOk(p: Part) {
    match p
    case Affixed(prefix, _) => Plain(prefix)
    case Unquoted(text) => text != "" && Plain(text)
  }

  function PartText(p: Part): string {
    match p
    case Affixed(prefix, value) => prefix + ShellEnv(value)
    case Unquoted(text) => text
  }

  /** The word that the shell is to see. */
  function PartWord(p: Part): string {
    match p
    case Affixed(prefix, value) => prefix + value
    case Unquoted(text) => text
  }

  /** Further arguments of a command line, each after a space. */
  function PartsLine(parts: seq<Part>): string {
    if |parts| == 0 then "" else " " + PartText(parts[0]) + PartsLine(parts[1..])
  }

  function Words(parts: seq<Part>): seq<Token> {
    if |parts| == 0 then [] else [Word(PartWord(parts[0]))] + Words(parts[1..])
  }

  lemma {:induction false} PartsLineCons(p: Part, parts: seq<Part>)
    ensures PartsLine([p] + parts) == " " + PartText(p) + PartsLine(parts)
    ensures Words([p] + parts) == [Word(PartWord(p))] + Words(parts)
  {
    assert ([p] + parts)[1..] == parts;
  }

  lemma {:induction false} RunPart(st: State, p: Part)
    requires st.mode == Bare && !st.inWord && st.word == "" && !st.quoted && PartOk(p)
    ensures Run(st, PartText(p)) == st.(inWord := true, quoted := p.Affixed?, word := PartWord(p))
  {
    match p
    case Affixed(prefix, value) =>
      if prefix == "" {
        assert prefix + ShellEnv(value) == ShellEnv(value);
        RunQuoted(st, value);
      } else {
        RunConcat(st, prefix, ShellEnv(value));
        RunPlain(st, prefix);
        assert "" + prefix == prefix;
        RunQuoted(st.(inWord := true, word := prefix), value);
      }
    case Unquoted(text) =>
      RunPlain(st, text);
      assert "" + text == text;
  }

  lemma {:induction false} RunNextPart(st: State, p: Part, rest: string)
    requires st.mode == Bare && st.inWord && !st.awaiting && PartOk(p)
    ensures Run(st, " " + PartText(p) + rest)
            == Run(EndWord(st).(inWord := true, quoted := p.Affixed?, word := PartWord(p)), rest)
  {
    RunConcat(st, " " + PartText(p), rest);
    RunConcat(st, " ", PartText(p));
    RunChar(st, ' ');
    RunPart(EndWord(st), p);
  }

  lemma {:induction false} RunNewline(st: State)
    requires st.mode == Bare && st.inWord && !st.awaiting
    ensures Run(st, "\n") == EndLine(EndWord(st))
  {
    RunChar(st, '\n');
  }

  lemma {:induction false} RunPartsLine(st: State, parts: seq<Part>)
    requires st.mode == Bare && st.inWord && !st.awaiting && forall i :: 0 <= i < |parts| ==> PartOk(parts[i])
    ensures Run(st, PartsLine(parts) + "\n") == EndLine(EndWord(st).(tokens := EndWord(st).tokens + Words(parts)))
    decreases |parts|
  {
    hide PartText, PartOk, Step;
    var ended := EndWord(st);
    if parts == [] {
      assert PartsLine(parts) + "\n" == "\n";
      RunNewline(st);
      assert ended.tokens + Words(parts) == ended.tokens;
    } else {
      var rest, word := PartsLine(parts[1..]) + "\n", PartWord(parts[0]);
      assert PartsLine(parts) + "\n" == " " + PartText(parts[0]) + rest;
      RunNextPart(st, parts[0], rest);
      RunPartsLine(ended.(inWord := true, quoted := parts[0].Affixed?, word := word), parts[1..]);
      assert (ended.tokens + [Word(word)]) + Words(parts[1..]) == ended.tokens + Words(parts);
    }
  }

  /** A line of any number of arguments, quoted after a prefix or plain, reads back as exactly these words. */
  lemma {:induction false} QuotedListRoundTrip(first: Part, parts: seq<Part>)
    requires PartOk(first) && forall i :: 0 <= i < |parts| ==> PartOk(parts[i])
    ensures Read(PartText(first) + PartsLine(parts)) == [SimpleCommand([Word(PartWord(first))] + Words(parts), [])]
  {
    var st := Start([]);
    assert (PartText(first) + PartsLine(parts)) + "\n" == PartText(first) + (PartsLine(parts) + "\n");
    RunConcat(st, PartText(first), PartsLine(parts) + "\n");
    RunPart(st, first);
    RunPartsLine(st.(inWord := true, quoted := first.Affixed?, word := PartWord(first)), parts);
    assert [] + [Word(PartWord(first))] == [Word(PartWord(first))];
  }

  lemma {:induction false} RunPartsBlank(st: State, parts: seq<Part>, rest: string)
    requires st.mode == Bare && st.inWord && !st.awaiting && forall i :: 0 <= i < |parts| ==> PartOk(parts[i])
    ensures Run(st, PartsLine(parts) + (" " + rest))
            == Run(EndWord(st).(tokens := EndWord(st).tokens + Words(parts)), rest)
    decreases |parts|
  {
    hide PartText, PartOk, Step;
    var ended := EndWord(st);
    if parts == [] {
      assert PartsLine(parts) + (" " + rest) == [' '] + rest;
      RunCons(st, ' ', rest);
      BlankEnds(st);
      assert ended.tokens + Words(parts) == ended.tokens;
    } else {
      var more, word := PartsLine(parts[1..]) + (" " + rest), PartWord(parts[0]);
      assert PartsLine(parts) + (" " + rest) == " " + PartText(parts[0]) + more;
      RunNextPart(st, parts[0], more);
      RunPartsBlank(ended.(inWord := true, quoted := parts[0].Affixed?, word := word), parts[1..], rest);
      assert (ended.tokens + [Word(word)]) + Words(parts[1..]) == ended.tokens + Words(parts);
    }
  }

  lemma {:induction false} BlankEnds(st: State)
    requires st.mode == Bare
    ensures Step(st, ' ') == EndWord(st)
  {
  }

  lemma {:induction false} RunAnd(st: State, rest: string)
    requires st.mode == Bare && !st.inWord && !st.awaiting
    ensures Run(st, "&& " + rest) == Run(st.(tokens := st.tokens + [Op('&'), Op('&')]), rest)
  {
    assert "&& " + rest == ['&'] + (['&'] + ([' '] + rest));
    var one := st.(tokens := st.tokens + [Op('&')]);
    var two := one.(tokens := one.tokens + [Op('&')]);
    RunCons(st, '&', ['&'] + ([' '] + rest));
    RunCons(one, '&', [' '] + rest);
    RunCons(two, ' ', rest);
    assert two.tokens == st.tokens + [Op('&'), Op('&')];
  }

  /** Two such commands joined by `&&`. */
  lemma {:induction false} AndRoundTrip(a: Part, more: seq<Part>, b: Part, rest: seq<Part>)
    requires PartOk(a) && forall i :: 0 <= i < |more| ==> PartOk(more[i])
    requires PartOk(b) && forall i :: 0 <= i < |rest| ==> PartOk(rest[i])
    ensures Read(PartText(a) + (PartsLine(more) + (" && " + (PartText(b) + PartsLine(rest)))))
            == [SimpleCommand([Word(PartWord(a))] + Words(more) + [Op('&'), Op('&')]
                              + ([Word(PartWord(b))] + Words(rest)), [])]
  {
    hide Run, PartText, PartOk, Step, PartsLine, Words;
    var st, line := Start([]), PartsLine(rest) + "\n";
    var second := PartText(b) + line;
    assert (PartText(a) + (PartsLine(more) + (" && " + (PartText(b) + PartsLine(rest))))) + "\n"
        == PartText(a) + (PartsLine(more) + (" " + ("&& " + second)));
    RunConcat(st, PartText(a), PartsLine(more) + (" " + ("&& " + second)));
    RunPart(st, a);
    var first := st.(inWord := true, quoted := a.Affixed?, word := PartWord(a));
    RunPartsBlank(first, more, "&& " + second);
    var ended := st.(tokens := [] + [Word(PartWord(a))] + Words(more));
    RunAnd(ended, second);
    var joined := ended.(tokens := ended.tokens + [Op('&'), Op('&')]);
    RunConcat(joined, PartText(b), line);
    RunPart(joined, b);
    RunPartsLine(joined.(inWord := true, quoted := b.Affixed?, word := PartWord(b)), rest);
    assert [] + [Word(PartWord(a))] == [Word(PartWord(a))];
    assert (joined.tokens + [Word(PartWord(b))]) + Words(rest)
        == joined.tokens + ([Word(PartWord(b))] + Words(rest));
  }

  // ---------------------------------------------------------------------------------------------
  // Here-documents

  lemma {:induction false} RunBodyLine(st: State, text: string)
    requires st.mode == HereBody && '\n' !in text
    ensures Run(st, text) == st.(line := st.line + text)
    decreases |text|
  {
    if text == "" {
      assert st.line + text == st.line;
    } else {
      RunBodyLine(st.(line := st.line + [text[0]]), text[1..]);
      assert (st.line + [text[0]]) + text[1..] == st.line + text;
    }
  }

  /** Reading one whole body line that is not the delimiter. */
  lemma {:induction false} RunBodyLineEnd(st: State, text: string)
    requires st.mode == HereBody && |st.delims| > 0 && st.line == "" && '\n' !in text
    ensures text != st.delims[0] ==> Run(st, text + "\n") == st.(body := st.body + (text + "\n"))
    ensures text == st.delims[0] && |st.delims| == 1
            ==> Run(st, text + "\n") == Emit(st.(docs := st.docs + [st.body], delims := [], body := "", line := ""))
  {
    RunConcat(st, text, "\n");
    RunBodyLine(st, text);
    assert "" + text == text;
    RunChar(st.(line := text), '\n');
  }

  lemma {:induction false} RunBodyLines(st: State, lines: seq<string>)
    requires st.mode == HereBody && |st.delims| > 0 && st.line == ""
    requires forall i :: 0 <= i < |lines| ==> '\n' !in lines[i] && lines[i] != st.delims[0]
    ensures Run(st, Terminated(lines)) == st.(body := st.body + Terminated(lines))
    decreases |lines|
  {
    if lines == [] {
      RunNil(st);
      assert st.body + "" == st.body;
    } else {
      var first, rest := lines[0] + "\n", Terminated(lines[1..]);
      RunConcat(st, first, rest);
      RunBodyLineEnd(st, lines[0]);
      RunBodyLines(st.(body := st.body + first), lines[1..]);
      assert (st.body + first) + rest == st.body + (first + rest);
    }
  }

  /** The state in which a lone here-document of a command is about to be read. */
  predicate AtBody(st: State, marker: string) {
    && st.mode == HereBody && st.delims == [marker] && st.docs == [] && st.body == "" && st.line == ""
    && !st.inWord && st.word == "" && !st.quoted && !st.awaiting && st.tokens != []
  }

  lemma {:induction false} ContentLines(content: string)
    ensures content + "\n" == Terminated(Split(content, '\n'))
    ensures forall i :: 0 <= i < |Split(content, '\n')| ==> '\n' !in Split(content, '\n')[i]
  {
    JoinSplit(content, '\n');
    JoinTerminated(Split(content, '\n'));
    SplitFree(content, '\n');
  }

  /** A body free of its marker comes back as written, and reading resumes after the marker line. */
  lemma {:induction false} RunDocument(st: State, content: string, marker: string)
    requires AtBody(st, marker) && '\n' !in marker
    requires LineFree(content, marker)
    ensures Run(st, content + "\n" + marker + "\n") == Start(st.out + [SimpleCommand(st.tokens, [content + "\n"])])
  {
    var lines := Split(content, '\n');
    ContentLines(content);
    assert content + "\n" + marker + "\n" == (content + "\n") + (marker + "\n");
    RunConcat(st, content + "\n", marker + "\n");
    RunBodyLines(st, lines);
    assert "" + (content + "\n") == content + "\n";
    RunBodyLineEnd(st.(body := content + "\n"), marker);
    assert [] + [content + "\n"] == [content + "\n"];
  }

  lemma {:induction false} FirstAt(lines: seq<string>, marker: string) returns (k: nat)
    requires marker in lines
    ensures k < |lines| && lines[k] == marker && forall i :: 0 <= i < k ==> lines[i] != marker
  {
    if lines[0] == marker {
      k := 0;
    } else {
      assert lines == [lines[0]] + lines[1..];
      var rest := FirstAt(lines[1..], marker);
      k := rest + 1;
    }
  }

  lemma {:induction false} CutLines(lines: seq<string>, k: nat)
    requires k < |lines|
    ensures Terminated(lines) == Terminated(lines[..k]) + (lines[k] + "\n" + Terminated(lines[k + 1..]))
  {
    TerminatedConcat(lines[..k], lines[k..]);
    assert lines == lines[..k] + lines[k..];
    assert lines[k..][1..] == lines[k + 1..];
  }

  /** A marker inside the content ends the document early: its body is then shorter. */
  lemma {:induction false} RunDocumentCut(st: State, content: string, marker: string, tail: string)
      returns (body: string, rest: string)
    requires AtBody(st, marker) && '\n' !in marker
    requires !LineFree(content, marker)
    ensures |body| < |content| + 1
    ensures Run(st, (content + "\n") + tail) == Run(Start(st.out + [SimpleCommand(st.tokens, [body])]), rest)
  {
    var lines := Split(content, '\n');
    ContentLines(content);
    var k := FirstAt(lines, marker);
    CutLines(lines, k);
    body, rest := Terminated(lines[..k]), Terminated(lines[k + 1..]) + tail;
    var read := st.(body := body);
    RunBodyLines(st, lines[..k]);
    assert "" + body == body;
    BodyRegroup(body, marker + "\n", Terminated(lines[k + 1..]), tail);
    RunConcat(st, body, (marker + "\n") + rest);
    RunConcat(read, marker + "\n", rest);
    RunBodyLineEnd(read, marker);
    assert [] + [body] == [body];
  }

  lemma {:induction false} BodyRegroup(a: string, b: string, c: string, d: string)
    ensures (a + (b + c)) + d == a + (b + (c + d))
  {
  }

  /** The marker condition is exact: the first command read back carries the content as its here-document if and only if
      no line of the content is the marker. */
  lemma {:induction false} DocumentExact(st: State, content: string, marker: string, tail: string)
    requires AtBody(st, marker) && '\n' !in marker
    ensures var out := Run(st, (content + "\n") + (marker + "\n" + tail)).out;
            && |out| > |st.out|
            && (out[|st.out|] == SimpleCommand(st.tokens, [content + "\n"]) <==> LineFree(content, marker))
  {
    if LineFree(content, marker) {
      var text := content + "\n" + marker + "\n";
      assert content + "\n" + (marker + "\n" + tail) == text + tail;
      RunDocument(st, content, marker);
      RunConcat(st, text, tail);
      OutGrows(Run(st, text), tail);
    } else {
      var body, rest := RunDocumentCut(st, content, marker, marker + "\n" + tail);
      OutGrows(Start(st.out + [SimpleCommand(st.tokens, [body])]), rest);
    }
  }
}
