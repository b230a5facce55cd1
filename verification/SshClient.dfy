/** The here-document that write_file types into a proxy session. */
module SshClient {
  import opened Text
  import opened Shell
  import opened ShellLines

  const MARKER := "__CRAG_FILE_CONTENT__"
  const EXIT := "exit"

  function ProxyScript(path: string, content: string): string {
    (CatLine(path, MARKER) + "\n") + (content + "\n" + MARKER + "\n") + (EXIT + "\n")
  }

  /** The command that writes the file, as the remote shell reads it. */
  function CatCommand(path: string, marker: string, body: string): SimpleCommand {
    SimpleCommand([Word("cat"), Op('>'), Word(path), Here(marker)], [body])
  }

  function TypedText(path: string, marker: string, content: string, last: string): string {
    (CatLine(path, marker) + "\n") + ((content + "\n") + (marker + "\n" + (last + "\n")))
  }

  lemma {:induction false} ProxyText(path: string, marker: string, content: string, last: string)
    ensures (CatLine(path, marker) + "\n") + (content + "\n" + marker + "\n") + (last + "\n")
            == TypedText(path, marker, content, last)
  {
    var c, m, l := content + "\n", marker + "\n", last + "\n";
    assert content + "\n" + marker + "\n" == c + m;
    assert (CatLine(path, marker) + "\n") + (c + m) + l == (CatLine(path, marker) + "\n") + (c + (m + l));
  }

  lemma {:induction false} RunWord(st: State, word: string)
    requires st == Start(st.out) && word != "" && Plain(word)
    ensures Run(st, word + "\n") == Start(st.out + [SimpleCommand([Word(word)], [])])
  {
    RunConcat(st, word, "\n");
    RunPlain(st, word);
    assert "" + word == word;
    RunChar(st.(inWord := true, word := word), '\n');
    assert [] + [Word(word)] == [Word(word)];
  }

  lemma {:induction false} RunTyped(path: string, marker: string, content: string, last: string)
    requires '\'' !in marker && '\n' !in marker && LineFree(content, marker) && last != "" && Plain(last)
    ensures Run(Start([]), TypedText(path, marker, content, last))
            == Start([CatCommand(path, marker, content + "\n"), SimpleCommand([Word(last)], [])])
  {
    var first := CatLine(path, marker) + "\n";
    ProxyText(path, marker, content, last);
    RunConcat(Start([]), first + (content + "\n" + marker + "\n"), last + "\n");
    RunConcat(Start([]), first, content + "\n" + marker + "\n");
    RunCatLine(Start([]), path, marker);
    RunDocument(Run(Start([]), first), content, marker);
    assert [] + [CatCommand(path, marker, content + "\n")] == [CatCommand(path, marker, content + "\n")];
    RunWord(Start([CatCommand(path, marker, content + "\n")]), last);
    assert [CatCommand(path, marker, content + "\n")] + [SimpleCommand([Word(last)], [])]
        == [CatCommand(path, marker, content + "\n"), SimpleCommand([Word(last)], [])];
  }

  /** The first command writes the content and a newline exactly if no line of the content is the marker. */
  lemma {:induction false} TypedExact(path: string, marker: string, content: string, last: string)
    requires '\'' !in marker && '\n' !in marker
    ensures var out := Run(Start([]), TypedText(path, marker, content, last)).out;
            |out| > 0 && (out[0] == CatCommand(path, marker, content + "\n") <==> LineFree(content, marker))
  {
    RunConcat(Start([]), CatLine(path, marker) + "\n", (content + "\n") + (marker + "\n" + (last + "\n")));
    RunCatLine(Start([]), path, marker);
    DocumentExact(Run(Start([]), CatLine(path, marker) + "\n"), content, marker, last + "\n");
  }

  /** Through the proxy the remote shell reads two commands: one that writes the content followed by one newline (a
      direct connection pipes the content as it is), and `exit`; for every path, and for every content without the
      marker line. The condition is exact. */
  lemma {:induction false} ProxyWriteRoundTrip(path: string, content: string)
    ensures var out := Run(Start([]), ProxyScript(path, content)).out;
            && (LineFree(content, MARKER) ==>
                  out == [CatCommand(path, MARKER, content + "\n"), SimpleCommand([Word("exit")], [])])
            && (LineFree(content, MARKER) <==> |out| > 0 && out[0] == CatCommand(path, MARKER, content + "\n"))
  {
    ProxyText(path, MARKER, content, EXIT);
    TypedExact(path, MARKER, content, EXIT);
    if LineFree(content, MARKER) {
      RunTyped(path, MARKER, content, EXIT);
    }
  }
}
