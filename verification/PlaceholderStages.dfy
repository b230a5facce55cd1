/** The text between two of the sequential replacements, and when the thirteen of them equal one pass. */
module PlaceholderStages {
  import opened Options
  import opened Text
  import opened Roles
  import opened Placeholders

  // ---------------------------------------------------------------------------------------------
  // What a stage copies

  lemma {:induction false} ReplaceHead(x: string, p: string, r: string)
    requires p != ""
    ensures Replace(p + x, p, r) == r + Replace(x, p, r)
  {
    assert (p + x)[|p|..] == x;
    assert p <= p + x;
  }

  lemma {:induction false} SuffixConcat(y: string, x: string, q: nat)
    requires q <= |y|
    ensures (y + x)[q..] == y[q..] + x
  {
  }

  lemma {:induction false} NoPatternAt(y: string, x: string, q: nat, k: nat)
    requires k < ROWS && q < |y| && !SchemeAt(y + x, q)
    ensures !(Pattern(k) <= y[q..] + x)
  {
    SchemePrefix(y + x, q);
    SuffixConcat(y, x, q);
    PatternNeedsScheme(y[q..] + x, k);
  }

  /** A stretch in which the row's pattern starts nowhere is copied as it is. */
  lemma {:induction false} StageCopies(y: string, x: string, k: nat, services: Services)
    requires k < ROWS
    requires ServiceFor(k, services).Some? ==> forall q :: 0 <= q < |y| ==> !(Pattern(k) <= y[q..] + x)
    ensures Stage(y + x, k, services) == y + Stage(x, k, services)
  {
    var service := ServiceFor(k, services);
    if service.Some? {
      ReplaceSkips(y, x, Pattern(k), Rendered(RowAt(k), service.value));
    }
  }

  lemma {:induction false} StageCopiesSafe(y: string, x: string, k: nat, services: Services)
    requires k < ROWS && forall q :: 0 <= q < |y| ==> !SchemeAt(y + x, q)
    ensures Stage(y + x, k, services) == y + Stage(x, k, services)
  {
    forall q | 0 <= q < |y| ensures !(Pattern(k) <= y[q..] + x) {
      NoPatternAt(y, x, q, k);
    }
    StageCopies(y, x, k, services);
  }

  lemma {:induction false} StageHead(x: string, k: nat, services: Services)
    requires k < ROWS && ServiceFor(k, services).Some?
    ensures Stage(Pattern(k) + x, k, services)
            == Rendered(RowAt(k), ServiceFor(k, services).value) + Stage(x, k, services)
  {
    ReplaceHead(x, Pattern(k), Rendered(RowAt(k), ServiceFor(k, services).value));
  }

  /** Stage j copies y in front of what it makes of x. */
  ghost predicate Copied(y: string, x: string, j: nat, services: Services)
    requires j < ROWS
  {
    Stage(y + Stages(x, j, services), j, services) == y + Stage(Stages(x, j, services), j, services)
  }

  lemma {:induction false} CarriedOn(value: string, y: string, x: string, j: nat, services: Services)
    requires j < ROWS && Stages(value, j, services) == y + Stages(x, j, services) && Copied(y, x, j, services)
    ensures Stages(value, j + 1, services) == y + Stages(x, j + 1, services)
  {
    hide RowAt, Replace;
    StagesNext(value, j, services);
    StagesNext(x, j, services);
  }

  ghost predicate AllCopied(y: string, x: string, i: nat, k: nat, services: Services)
    requires k <= ROWS
  {
    forall j: nat :: i <= j < k ==> Copied(y, x, j, services)
  }

  /** What every stage from i on copies stays in front. */
  lemma {:induction false} KeptFrom(value: string, y: string, x: string, i: nat, k: nat, services: Services)
    requires i <= k <= ROWS && Stages(value, i, services) == y + Stages(x, i, services)
    requires AllCopied(y, x, i, k, services)
    ensures Stages(value, k, services) == y + Stages(x, k, services)
    decreases k
  {
    hide Stage, Stages;
    if i < k {
      KeptFrom(value, y, x, i, k - 1, services);
      CarriedOn(value, y, x, k - 1, services);
    }
  }

  lemma {:induction false} Kept(y: string, x: string, k: nat, services: Services)
    requires k <= ROWS && AllCopied(y, x, 0, k, services)
    ensures Stages(y + x, k, services) == y + Stages(x, k, services)
  {
    KeptFrom(y + x, y, x, 0, k, services);
  }

  /** Text in which no "crag://" starts, whatever follows it. */
  ghost predicate Lasting(y: string) {
    forall x: string, q :: 0 <= q < |y| ==> !SchemeAt(y + x, q)
  }

  lemma {:induction false} LastingCopied(y: string, x: string, k: nat, services: Services)
    requires k < ROWS && Lasting(y)
    ensures Stage(y + x, k, services) == y + Stage(x, k, services)
  {
    StageCopiesSafe(y, x, k, services);
  }

  lemma {:induction false} LastingStays(y: string, x: string, k: nat, services: Services)
    requires k <= ROWS && Lasting(y)
    ensures Stages(y + x, k, services) == y + Stages(x, k, services)
  {
    forall j: nat | j < k ensures Copied(y, x, j, services) {
      LastingCopied(y, Stages(x, j, services), j, services);
    }
    Kept(y, x, k, services);
  }

  lemma {:induction false} LastingStep(y: string, text: string, k: nat, services: Services)
    requires k < ROWS && Lasting(y) && y <= text
    ensures y <= Stage(text, k, services)
  {
    PrefixPlusRest(y, text);
    LastingCopied(y, text[|y|..], k, services);
  }

  lemma {:induction false} LastingToEnd(y: string, value: string, j: nat, k: nat, services: Services)
    requires j <= k <= ROWS && Lasting(y) && y <= Stages(value, j, services)
    ensures y <= Stages(value, k, services)
    decreases k
  {
    hide Stages, Stage;
    if j < k {
      LastingToEnd(y, value, j, k - 1, services);
      LastingStep(y, Stages(value, k - 1, services), k - 1, services);
      StagesNext(value, k - 1, services);
    }
  }

  lemma {:induction false} EmptyStage(k: nat, services: Services)
    requires k < ROWS
    ensures Stage("", k, services) == ""
  {
  }

  lemma {:induction false} FixedStays(t: string, k: nat, services: Services)
    requires k <= ROWS && forall j: nat :: j < k ==> Stage(t, j, services) == t
    ensures Stages(t, k, services) == t
    decreases k
  {
    hide Stage;
    if k > 0 {
      FixedStays(t, k - 1, services);
      StagesNext(t, k - 1, services);
    }
  }

  lemma {:induction false} NothingStays(k: nat, services: Services)
    requires k <= ROWS
    ensures Stages("", k, services) == ""
  {
    forall j: nat | j < k ensures Stage("", j, services) == "" {
      EmptyStage(j, services);
    }
    FixedStays("", k, services);
  }

  /** Text in which every 'c' goes on with something other than 'r'. */
  predicate Dull(g: string) {
    forall q :: 0 <= q < |g| ==> DullAt(g, q)
  }

  predicate DullAt(g: string, q: nat)
    requires q < |g|
  {
    g[q] == 'c' ==> q + 1 < |g| && g[q + 1] != 'r'
  }

  lemma {:induction false} DullIsLasting(g: string)
    requires Dull(g)
    ensures Lasting(g)
  {
    forall x: string, q | 0 <= q < |g| ensures !SchemeAt(g + x, q) {
      assert DullAt(g, q);
      assert (g + x)[q] == g[q] && (q + 1 < |g| ==> (g + x)[q + 1] == g[q + 1]);
    }
  }

  /** A stretch without colon and a character that "crag://" lacks. */
  predicate Settled(b: string, x: char) {
    ':' !in b && x !in SCHEME
  }

  lemma {:induction false} SettledHead(b: string, x: char, rest: string, q: nat)
    requires Settled(b, x) && q <= |b|
    ensures !SchemeAt((b + [x]) + rest, q)
  {
    var t := (b + [x]) + rest;
    assert forall i :: 0 <= i < |b| ==> t[i] == b[i];
    assert t[|b|] == x;
    assert SCHEME[0] == 'c' && SCHEME[1] == 'r' && SCHEME[2] == 'a' && SCHEME[3] == 'g' && SCHEME[4] == ':';
  }

  lemma {:induction false} SettledIsLasting(b: string, x: char)
    requires Settled(b, x)
    ensures Lasting(b + [x])
  {
    forall rest: string, q | 0 <= q < |b + [x]| ensures !SchemeAt((b + [x]) + rest, q) {
      SettledHead(b, x, rest, q);
    }
  }

  lemma {:induction false} RenderedIsLasting(i: nat, service: string)
    requires i < ROWS && ServiceOk(service) && !IsHostRow(i)
    ensures Lasting(Rendered(RowAt(i), service))
  {
    var y := Rendered(RowAt(i), service);
    RenderedColonSafe(i, service);
    RenderedTail(i, service);
    forall x: string, q | 0 <= q < |y| ensures !SchemeAt(y + x, q) {
      TailSafeJoins(y, x);
      NoSchemeIn(y, x);
    }
  }

  // ---------------------------------------------------------------------------------------------
  // The two ways in which a substituted text completes a placeholder of a later row

  /** The playwright placeholder up to its last two characters, with which "http" begins. */
  const PLAYWRIG := "crag://browser/playwrig"

  lemma {:induction false} PlaywrightCut()
    ensures Pattern(5) == PLAYWRIG + "ht" && |PLAYWRIG| == 23
  {
  }

  function PlaywrigNeko(): (r: string)
    ensures |r| >= |PLAYWRIG|
  {
    PLAYWRIG + Pattern(4)
  }

  /** After `value` has gone through the rows before k, it begins with row k's pattern from its n-th character on:
      because it did so before, or because "http" put for a neko placeholder ends a playwright placeholder. */
  predicate Begins(k: nat, n: nat, value: string, services: Services)
    requires k < ROWS && n <= |Pattern(k)|
  {
    || Pattern(k)[n..] <= value
    || (k == 5 && services(Browser).Some? && n <= |PLAYWRIG| && PlaywrigNeko()[n..] <= value)
  }

  /** The second way, for a whole placeholder. */
  predicate Completes(value: string, services: Services) {
    services(Browser).Some? && PlaywrigNeko() <= value
  }

  /** The last n characters of a host name and the text after it make up row k's pattern. */
  predicate JoinsWith(host: string, n: nat, k: nat, rest: string, services: Services)
    requires k < ROWS
  {
    1 <= n <= 4 && n <= |host| && host[|host| - n..] == SCHEME[..n] && Begins(k, n, rest, services)
  }

  predicate JoinAt(host: string, k: nat, rest: string, services: Services)
    requires k < ROWS
  {
    ServiceFor(k, services).Some? && exists n: nat :: n <= 4 && JoinsWith(host, n, k, rest, services)
  }

  predicate NoJoin(host: string, lo: nat, hi: nat, rest: string, services: Services)
    requires hi <= ROWS
  {
    forall k :: lo <= k < hi ==> !JoinAt(host, k, rest, services)
  }

  /** No text put for a placeholder completes a placeholder of a later row with the text around it. */
  predicate Placed(value: string, services: Services)
    decreases |value|
  {
    value == "" ||
    var m := Match(value);
    if m.Some? then
      var rest := After(value, m.value);
      var service := ServiceFor(m.value, services);
      && (IsHostRow(m.value) && service.Some? ==> NoJoin(service.value, m.value + 1, ROWS, rest, services))
      && Placed(rest, services)
    else !Completes(value, services) && Placed(value[1..], services)
  }

  /** What the characters of a pattern after its first exclude. */
  predicate PlainChar(p: string, q: nat, k: nat)
    requires q < |p|
  {
    && (p[q] == 'c' ==> q + 1 < |p| && p[q + 1] != 'r')
    && (p[q] == 'h' ==> q + 1 < |p| && (p[q + 1] == 't' ==> k == 5 && q == |PLAYWRIG|))
    && (k == 12 ==> p[q] != 'p')
  }

  lemma {:induction false} EngineChars(e: Engine, q: nat)
    requires q < |EngineText(e)|
    ensures var t := EngineText(e);
            && (t[q] == 'c' ==> q + 1 < |t| && t[q + 1] != 'r')
            && (t[q] == 'h' ==> q + 1 < |t| && (t[q + 1] == 't' ==> e == Playwright && q == 16))
            && (e == Mysql ==> t[q] != 'p')
  {
  }

  lemma {:induction false} LeafChars(k: nat, q: nat)
    requires k < ROWS && q < |RowAt(k).leaf|
    ensures var t := RowAt(k).leaf; t[q] != 'c' && (t[q] == 'h' ==> q + 1 < |t| && t[q + 1] != 't') && k < 11
  {
  }

  lemma {:induction false} PatternChars(k: nat, q: nat)
    requires k < ROWS && 1 <= q < |Pattern(k)|
    ensures PlainChar(Pattern(k), q, k)
  {
    hide EngineText;
    var e, l := EngineText(RowAt(k).engine), RowAt(k).leaf;
    var p := Pattern(k);
    assert p == SCHEME + (e + l);
    if q < 7 {
      assert p[q] == SCHEME[q];
    } else if q - 7 < |e| {
      EngineChars(RowAt(k).engine, q - 7);
      assert p[q] == e[q - 7] && (q - 6 < |e| ==> p[q + 1] == e[q - 6]);
      PlaywrightCut();
    } else {
      LeafChars(k, q - 7 - |e|);
      assert p[q] == l[q - 7 - |e|] && (q - 6 - |e| < |l| ==> p[q + 1] == l[q - 6 - |e|]);
    }
  }

  lemma {:induction false} PatternDull(k: nat, n: nat)
    requires k < ROWS && 1 <= n <= |Pattern(k)|
    ensures Dull(Pattern(k)[n..])
  {
    var g := Pattern(k)[n..];
    forall q | 0 <= q < |g| ensures DullAt(g, q) {
      PatternChars(k, n + q);
    }
  }

  lemma {:induction false} PlaywrigDull(n: nat)
    requires 1 <= n <= |PLAYWRIG|
    ensures Dull(PLAYWRIG[n..])
  {
    var g := PLAYWRIG[n..];
    PlaywrightCut();
    forall q | 0 <= q < |g| ensures DullAt(g, q) {
      PatternChars(5, n + q);
      assert Pattern(5)[n + q] == g[q] && Pattern(5)[n + q + 1] == if q + 1 < |g| then g[q + 1] else 'h';
      assert PLAYWRIG[22] == 'g';
    }
  }

  // ---------------------------------------------------------------------------------------------
  // How the text looks between two stages

  /** How the text can begin before stage k when the value begins with a placeholder of row i. */
  predicate Headed(y: string, k: nat, i: nat, services: Services) {
    && |y| >= 2
    && (|| (y[0] == 'c' && y[1] == 'r')
        || (y[0] == 'h' && y[1] == 't' && 4 < k && (k == 5 ==> i == 4 && services(Browser).Some?))
        || (k == 12 && y[0] == 'p'))
  }

  lemma {:induction false} SeenInHead(k: nat, n: nat, value: string, y: string, i: nat, services: Services)
    requires k < ROWS && 1 <= n < |Pattern(k)| && Pattern(k)[n..] <= y
    requires Match(value) == Some(i) && Headed(y, k, i, services)
    ensures Begins(k, n, value, services)
  {
    var p := Pattern(k);
    PatternChars(k, n);
    assert p[n] == p[n..][0] == y[0];
    if n + 1 < |p| {
      assert p[n + 1] == p[n..][1] == y[1];
    }
    assert k == 5 && n == |PLAYWRIG| && i == 4;
    assert PlaywrigNeko()[n..] == Pattern(4);
  }

  lemma {:induction false} SeenInCompleted(k: nat, n: nat, y: string)
    requires 5 < k < ROWS && 1 <= n < |Pattern(k)| && "ht" <= y
    ensures !(Pattern(k)[n..] <= y)
  {
    var p := Pattern(k);
    PatternChars(k, n);
    assert p[n..][0] == p[n] && (n + 1 < |p| ==> p[n..][1] == p[n + 1]) && y[0] == 'h' && y[1] == 't';
  }

  lemma {:induction false} BeginsCons(k: nat, n: nat, value: string, services: Services)
    requires k < ROWS && n < |Pattern(k)| && value != "" && Pattern(k)[n] == value[0]
    requires Begins(k, n + 1, value[1..], services)
    ensures Begins(k, n, value, services)
  {
    if Pattern(k)[n + 1..] <= value[1..] {
      PrefixCons(Pattern(k), n, value);
    } else {
      PlaywrightCut();
      assert PlaywrigNeko()[n] == PLAYWRIG[n] == Pattern(k)[n];
      PrefixCons(PlaywrigNeko(), n, value);
    }
  }

  lemma {:induction false} PrefixCons(p: string, n: nat, value: string)
    requires n < |p| && value != "" && p[n] == value[0] && p[n + 1..] <= value[1..]
    ensures p[n..] <= value
  {
    assert p[n..] == [p[n]] + p[n + 1..];
    assert value == [p[n]] + value[1..];
    CancelPrefix([p[n]], p[n + 1..], value[1..]);
  }

  /** What is seen of a pattern's end at the head of the text before stage k was there, in one of the two ways. */
  lemma {:induction false} Seen(k: nat, n: nat, value: string, services: Services)
    requires k < ROWS && 1 <= n <= |Pattern(k)| && ServicesOk(services)
    requires Pattern(k)[n..] <= Stages(value, k, services)
    ensures Begins(k, n, value, services)
    decreases |value|, 5, 0
  {
    hide RowAt, EngineText, Stages;
    var p := Pattern(k);
    if n < |p| {
      if value == "" {
        NothingStays(k, services);
      } else if Match(value).Some? {
        TokenHead(value, Match(value).value, k, services);
        SeenInHead(k, n, value, Stages(value, k, services), Match(value).value, services);
      } else if k > 5 && Completes(value, services) {
        CompletedStages(value, k, services);
        RenderedStart(5, services(Browser).value);
        SeenInCompleted(k, n, Stages(value, k, services));
      } else {
        PlainStages(value, k, services);
        SeenTail(p, n, value[0], Stages(value[1..], k, services));
        Seen(k, n + 1, value[1..], services);
        BeginsCons(k, n, value, services);
      }
    }
  }

  lemma {:induction false} SeenTail(p: string, n: nat, c: char, x: string)
    requires n < |p| && p[n..] <= [c] + x
    ensures p[n] == c && p[n + 1..] <= x
  {
    assert p[n..] == [p[n]] + p[n + 1..];
    assert p[n..][0] == ([c] + x)[0];
    CancelPrefix([c], p[n + 1..], x);
  }

  lemma {:induction false} TokenHead(value: string, i: nat, k: nat, services: Services)
    requires k < ROWS && ServicesOk(services) && Match(value) == Some(i)
    ensures Headed(Stages(value, k, services), k, i, services)
    decreases |value|, 4, 0
  {
    hide EngineText, Stages, Rendered;
    var service := ServiceFor(i, services);
    var rest := After(value, i);
    if k <= i || service.None? {
      RawStages(value, i, k, services);
      PatternStart(i);
    } else if !IsHostRow(i) || NoJoin(service.value, i + 1, k, rest, services) {
      DoneStages(value, i, k, services);
      RenderedStart(i, service.value);
    } else {
      var b, x := JoinedStages(value, i, k, services);
      HostStart(b, Stages(value, k, services));
    }
  }

  lemma {:induction false} PatternStart(i: nat)
    requires i < ROWS
    ensures |Pattern(i)| > 7 && forall q :: 0 <= q < 7 ==> Pattern(i)[q] == SCHEME[q]
    ensures SCHEME[0] == 'c' && SCHEME[1] == 'r'
  {
    PatternColons(i);
  }

  lemma {:induction false} RenderedStart(i: nat, service: string)
    requires i < ROWS && ServiceOk(service)
    ensures var y := Rendered(RowAt(i), service);
            && |y| >= 2
            && (i < 4 ==> y[0] == 'c' && y[1] == 'r')
            && (4 <= i < 11 ==> "ht" <= y && y[0] == 'h' && y[1] == 't')
            && (i == 11 ==> y[0] == 'p')
  {
    var y, c := Rendered(RowAt(i), service), RowAt(i).scheme;
    assert service[0] == "crag-"[0] && service[1] == "crag-"[1];
    if i < 4 {
      assert y[0] == service[0] && y[1] == service[1];
    } else {
      assert c == "http" || c == "postgresql" || c == "mysql";
      assert y[0] == c[0] && y[1] == c[1];
      assert y[..2] == c[..2];
    }
  }

  lemma {:induction false} HostStart(b: string, text: string)
    requires "crag-" <= b <= text
    ensures |text| >= 2 && text[0] == 'c' && text[1] == 'r'
  {
    assert text[0] == b[0] == "crag-"[0] && text[1] == b[1] == "crag-"[1];
  }

  lemma {:induction false} PlainStages(value: string, k: nat, services: Services)
    requires k <= ROWS && ServicesOk(services) && value != "" && Match(value).None?
    requires k <= 5 || !Completes(value, services)
    ensures Stages(value, k, services) == [value[0]] + Stages(value[1..], k, services)
    decreases |value|, 1, 0
  {
    hide RowAt, EngineText, Stages;
    forall j: nat | j < k ensures Copied([value[0]], value[1..], j, services) {
      PlainCopied(value, j, services);
    }
    PrefixPlusRest([value[0]], value);
    Kept([value[0]], value[1..], k, services);
  }

  lemma {:induction false} PlainCopied(value: string, k: nat, services: Services)
    requires k < ROWS && ServicesOk(services) && value != "" && Match(value).None?
    requires k < 5 || !Completes(value, services)
    ensures Copied([value[0]], value[1..], k, services)
    decreases |value|, 0, 0
  {
    var x := Stages(value[1..], k, services);
    var y := [value[0]];
    assert y[0..] == y;
    if Pattern(k) <= y + x {
      PatternStart(k);
      assert Pattern(k)[0..] == Pattern(k);
      SeenTail(Pattern(k), 0, value[0], x);
      Seen(k, 1, value[1..], services);
      BeginsCons(k, 0, value, services);
      NotBegun(value, k, services);
    }
    StageCopies(y, x, k, services);
  }

  lemma {:induction false} NotBegun(value: string, k: nat, services: Services)
    requires k < ROWS && Match(value).None? && (k < 5 || !Completes(value, services))
    ensures !Begins(k, 0, value, services)
  {
    assert Pattern(k)[0..] == Pattern(k) && PlaywrigNeko()[0..] == PlaywrigNeko();
    if Pattern(k) <= value {
      MatchFirst(value, 0, k);
    }
  }

  lemma {:induction false} RawStages(value: string, i: nat, k: nat, services: Services)
    requires k <= ROWS && ServicesOk(services) && Match(value) == Some(i)
    requires k <= i || ServiceFor(i, services).None?
    ensures Stages(value, k, services) == Pattern(i) + Stages(After(value, i), k, services)
    decreases |value|, 1, 0
  {
    hide RowAt, EngineText, Stages;
    forall j: nat | j < k ensures Copied(Pattern(i), After(value, i), j, services) {
      RawCopied(value, i, j, services);
    }
    PrefixPlusRest(Pattern(i), value);
    Kept(Pattern(i), After(value, i), k, services);
  }

  lemma {:induction false} RawCopied(value: string, i: nat, k: nat, services: Services)
    requires k < ROWS && ServicesOk(services) && Match(value) == Some(i)
    requires k < i || ServiceFor(i, services).None?
    ensures Copied(Pattern(i), After(value, i), k, services)
    decreases |value|, 0, 1
  {
    var y, x := Pattern(i), Stages(After(value, i), k, services);
    if ServiceFor(k, services).Some? {
      NoSchemeInPattern(i, x);
      RawNotMistaken(value, i, k, services);
      forall q | 0 <= q < |y| ensures !(Pattern(k) <= y[q..] + x) {
        if q == 0 {
          assert y[0..] == y;
        } else {
          NoPatternAt(y, x, q, k);
        }
      }
    }
    StageCopies(y, x, k, services);
  }

  /** A raw placeholder is not mistaken for one of an earlier row. */
  lemma {:induction false} RawNotMistaken(value: string, i: nat, k: nat, services: Services)
    requires k < ROWS && ServicesOk(services) && Match(value) == Some(i)
    requires RowAt(i).engine == RowAt(k).engine ==> k < i
    ensures !(Pattern(k) <= Pattern(i) + Stages(After(value, i), k, services))
    decreases |value|, 0, 0
  {
    var rest := After(value, i);
    var x := Stages(rest, k, services);
    if RowAt(i).engine != RowAt(k).engine {
      EnginesExclude(k, i, x);
    } else {
      var t := PatternsNest(k, i);
      EarlierDoesNotMatch(value, k);
      PrefixPlusRest(Pattern(i), value);
      CancelPrefix(Pattern(i), t, rest);
      CancelPrefix(Pattern(i), t, x);
      assert Pattern(k)[|Pattern(i)|..] == t;
      if t <= x {
        PatternStart(i);
        Seen(k, |Pattern(i)|, rest, services);
      }
    }
  }

  lemma {:induction false} EarlierDoesNotMatch(value: string, k: nat)
    requires k < ROWS && Match(value).Some? && k < Match(value).value
    ensures !(Pattern(k) <= value)
  {
    if Pattern(k) <= value {
      MatchFirst(value, 0, k);
    }
  }

  lemma {:induction false} DoneStages(value: string, i: nat, k: nat, services: Services)
    requires i < k <= ROWS && ServicesOk(services) && Match(value) == Some(i) && ServiceFor(i, services).Some?
    requires IsHostRow(i) ==> NoJoin(ServiceFor(i, services).value, i + 1, k, After(value, i), services)
    ensures Stages(value, k, services)
            == Rendered(RowAt(i), ServiceFor(i, services).value) + Stages(After(value, i), k, services)
    decreases |value|, 2, 0
  {
    hide RowAt, Stages, Rendered, EngineText;
    JustDone(value, i, services);
    DoneFrom(value, i, k, services);
    KeptFrom(value, Rendered(RowAt(i), ServiceFor(i, services).value), After(value, i), i + 1, k, services);
  }

  lemma {:induction false} JustDone(value: string, i: nat, services: Services)
    requires ServicesOk(services) && Match(value) == Some(i) && ServiceFor(i, services).Some?
    ensures Stages(value, i + 1, services)
            == Rendered(RowAt(i), ServiceFor(i, services).value) + Stages(After(value, i), i + 1, services)
    decreases |value|, 1, 1
  {
    hide RowAt, EngineText, Stages, Rendered;
    RawStages(value, i, i, services);
    RowReplaced(value, After(value, i), i, services);
  }

  lemma {:induction false} DoneFrom(value: string, i: nat, k: nat, services: Services)
    requires i < k <= ROWS && ServicesOk(services) && Match(value) == Some(i) && ServiceFor(i, services).Some?
    requires IsHostRow(i) ==> NoJoin(ServiceFor(i, services).value, i + 1, k, After(value, i), services)
    ensures AllCopied(Rendered(RowAt(i), ServiceFor(i, services).value), After(value, i), i + 1, k, services)
    decreases |value|, 1, 0
  {
    forall j: nat | i + 1 <= j < k
      ensures Copied(Rendered(RowAt(i), ServiceFor(i, services).value), After(value, i), j, services)
    {
      DoneCopied(value, i, j, services);
    }
  }

  lemma {:induction false} RowReplaced(value: string, rest: string, i: nat, services: Services)
    requires i < ROWS && ServiceFor(i, services).Some?
    requires Stages(value, i, services) == Pattern(i) + Stages(rest, i, services)
    ensures Stages(value, i + 1, services)
            == Rendered(RowAt(i), ServiceFor(i, services).value) + Stages(rest, i + 1, services)
  {
    StageHead(Stages(rest, i, services), i, services);
    StagesNext(value, i, services);
    StagesNext(rest, i, services);
  }

  lemma {:induction false} DoneCopied(value: string, i: nat, k: nat, services: Services)
    requires i < k < ROWS && ServicesOk(services) && Match(value) == Some(i) && ServiceFor(i, services).Some?
    requires IsHostRow(i) ==> !JoinAt(ServiceFor(i, services).value, k, After(value, i), services)
    ensures Copied(Rendered(RowAt(i), ServiceFor(i, services).value), After(value, i), k, services)
    decreases |value|, 0, 1
  {
    var service, rest := ServiceFor(i, services).value, After(value, i);
    var y, x := Rendered(RowAt(i), service), Stages(rest, k, services);
    RenderedTail(i, service);
    if IsHostRow(i) {
      if ServiceFor(k, services).Some? {
        HostCopied(service, k, rest, services);
      }
      StageCopies(y, x, k, services);
    } else {
      RenderedIsLasting(i, service);
      LastingCopied(y, x, k, services);
    }
  }

  lemma {:induction false} HostCopied(host: string, k: nat, rest: string, services: Services)
    requires k < ROWS && ServicesOk(services) && ':' !in host && ServiceFor(k, services).Some?
    requires !JoinAt(host, k, rest, services)
    ensures forall q :: 0 <= q < |host| ==> !(Pattern(k) <= host[q..] + Stages(rest, k, services))
    decreases |rest|, 6, 0
  {
    var x := Stages(rest, k, services);
    forall q | 0 <= q < |host| ensures !(Pattern(k) <= host[q..] + x) {
      if Pattern(k) <= host[q..] + x {
        PatternStart(k);
        AcrossEnd(host, x, Pattern(k), q);
        Seen(k, |host| - q, rest, services);
        assert SCHEME[..|host| - q] == Pattern(k)[..|host| - q];
        assert JoinsWith(host, |host| - q, k, rest, services);
      }
    }
  }

  lemma {:induction false} FifthOf(host: string, x: string, q: nat)
    requires q < |host|
    ensures q + 4 < |host| ==> (host[q..] + x)[4] == host[q + 4]
  {
  }

  lemma {:induction false} AcrossEnd(host: string, x: string, p: string, q: nat)
    requires ':' !in host && q < |host| && |p| > 4 && p[4] == ':' && p <= host[q..] + x
    ensures |host| - q <= 4 && host[q..] == p[..|host| - q] && p[|host| - q..] <= x
  {
    var t := host[q..] + x;
    FifthOf(host, x, q);
    assert t[4] == p[4];
    assert forall i :: 0 <= i < |host| - q ==> p[i] == t[i] == host[q..][i];
    assert p == host[q..] + p[|host| - q..];
    CancelPrefix(host[q..], p[|host| - q..], x);
  }

  /** Before stage k the text does begin with the pattern's end, in both ways. */
  lemma {:induction false} Unveiled(k: nat, n: nat, value: string, services: Services)
    requires k < ROWS && 1 <= n <= 4 && ServicesOk(services) && Begins(k, n, value, services)
    ensures Pattern(k)[n..] <= Stages(value, k, services)
    decreases |value|, 6, 0
  {
    if Pattern(k)[n..] <= value {
      PatternDull(k, n);
      DullIsLasting(Pattern(k)[n..]);
      LastingToEnd(Pattern(k)[n..], value, 0, k, services);
    } else {
      NekoUnveils(n, value, services);
    }
  }

  lemma {:induction false} NekoUnveils(n: nat, value: string, services: Services)
    requires 1 <= n <= 4 && ServicesOk(services) && services(Browser).Some? && PlaywrigNeko()[n..] <= value
    ensures |Pattern(5)| > 7 && Pattern(5)[n..] <= Stages(value, 5, services)
    decreases |value|, 5, 0
  {
    hide EngineText, Stages, Rendered;
    var h, tail := PLAYWRIG[n..], value[|PlaywrigNeko()[n..]|..];
    var service := services(Browser).value;
    PlaywrightCut();
    PatternStart(5);
    CutTwice(value, PLAYWRIG, Pattern(4), n);
    PlaywrigDull(n);
    DullIsLasting(h);
    LastingStays(h, Pattern(4) + tail, 5, services);
    NekoStages(tail, services);
    RenderedStart(4, service);
    HeadKept(h, "ht", Rendered(RowAt(4), service), Stages(tail, 5, services));
    assert Pattern(5)[n..] == h + "ht";
  }

  lemma {:induction false} CutTwice(value: string, h: string, p: string, n: nat)
    requires n <= |h| && (h + p)[n..] <= value
    ensures value == h[n..] + (p + value[|(h + p)[n..]|..])
  {
    assert (h + p)[n..] == h[n..] + p;
  }

  lemma {:induction false} NekoStages(tail: string, services: Services)
    requires ServicesOk(services) && services(Browser).Some?
    ensures Stages(Pattern(4) + tail, 5, services)
            == Rendered(RowAt(4), services(Browser).value) + Stages(tail, 5, services)
    decreases |tail| + 19, 4, 0
  {
    NekoMatch(tail);
    PatternStart(4);
    NekoLength();
    DoneStages(Pattern(4) + tail, 4, 5, services);
  }

  lemma {:induction false} NekoLength()
    ensures |Pattern(4)| == 19
  {
  }

  lemma {:induction false} HeadKept(h: string, t: string, r: string, x: string)
    requires t <= r
    ensures h + t <= h + (r + x)
  {
    assert r == t + r[|t|..];
    assert h + (r + x) == (h + t) + (r[|t|..] + x);
  }

  lemma {:induction false} NekoMatch(tail: string)
    ensures Match(Pattern(4) + tail) == Some(4) && After(Pattern(4) + tail, 4) == tail
  {
    forall k: nat | k < 4 ensures !(Pattern(k) <= Pattern(4) + tail) {
      EnginesExclude(k, 4, tail);
    }
    MatchFromIs(Pattern(4) + tail, 0, 4);
  }

  /** The completed playwright placeholder is replaced at its stage and then stays. */
  lemma {:induction false} CompletedStages(value: string, k: nat, services: Services)
    requires 5 < k <= ROWS && ServicesOk(services) && Match(value).None? && Completes(value, services)
    ensures Rendered(RowAt(5), services(Browser).value) <= Stages(value, k, services)
    decreases |value|, 2, 0
  {
    hide EngineText, Stages, Rendered;
    PlainStages(value, 5, services);
    var z := CompletedText(value, services);
    StageHead(z, 5, services);
    StagesNext(value, 5, services);
    RenderedIsLasting(5, services(Browser).value);
    LastingToEnd(Rendered(RowAt(5), services(Browser).value), value, 6, k, services);
  }

  lemma {:induction false} CompletedText(value: string, services: Services) returns (z: string)
    requires ServicesOk(services) && Completes(value, services)
    requires value != "" && Stages(value, 5, services) == [value[0]] + Stages(value[1..], 5, services)
    ensures Stages(value, 5, services) == Pattern(5) + z
    decreases |value|, 1, 0
  {
    PlaywrightCut();
    PatternStart(5);
    ShorterPlaywrig(value);
    NekoUnveils(1, value[1..], services);
    z := Stages(value[1..], 5, services)[|Pattern(5)| - 1..];
    ConsPattern(Pattern(5), value[0], Stages(value[1..], 5, services));
  }

  lemma {:induction false} ShorterPlaywrig(value: string)
    requires PlaywrigNeko() <= value
    ensures value[0] == 'c' && PlaywrigNeko()[1..] <= value[1..]
  {
    assert PlaywrigNeko()[0] == PLAYWRIG[0] == 'c';
    TailPrefix(PlaywrigNeko(), value);
  }

  lemma {:induction false} TailPrefix(p: string, value: string)
    requires p != "" && p <= value
    ensures p[0] == value[0] && p[1..] <= value[1..]
  {
    assert value == p + value[|p|..];
    assert value[1..] == p[1..] + value[|p|..];
  }

  lemma {:induction false} ConsPattern(p: string, c: char, x: string)
    requires p != "" && p[0] == c && p[1..] <= x
    ensures [c] + x == p + x[|p| - 1..]
  {
    assert p == [c] + p[1..];
    assert x == p[1..] + x[|p| - 1..];
  }

  /** A host name that joins with the text after it is broken up at the first row with which it does. */
  lemma {:induction false} JoinedStages(value: string, i: nat, k: nat, services: Services) returns (b: string, x: char)
    requires i < k <= ROWS && ServicesOk(services) && Match(value) == Some(i) && IsHostRow(i)
    requires ServiceFor(i, services).Some?
    requires !NoJoin(ServiceFor(i, services).value, i + 1, k, After(value, i), services)
    ensures Settled(b, x) && b + [x] <= Stages(value, k, services)
    ensures var host := ServiceFor(i, services).value; |host| > 5 && host[..|host| - 4] <= b && "crag-" <= b
    ensures !(b + [x] <= OnePass(value, services))
    decreases |value|, 3, 1
  {
    hide RowAt, EngineText, Stages, Rendered;
    var j := FirstJoin(ServiceFor(i, services).value, i + 1, k, After(value, i), services);
    b, x := JoinedAt(value, i, j, services);
    SettledIsLasting(b, x);
    LastingToEnd(b + [x], value, j + 1, k, services);
  }

  lemma {:induction false} JoinedAt(value: string, i: nat, j: nat, services: Services) returns (b: string, x: char)
    requires i < j < ROWS && ServicesOk(services) && Match(value) == Some(i) && IsHostRow(i)
    requires ServiceFor(i, services).Some?
    requires NoJoin(ServiceFor(i, services).value, i + 1, j, After(value, i), services)
    requires JoinAt(ServiceFor(i, services).value, j, After(value, i), services)
    ensures Settled(b, x) && b + [x] <= Stages(value, j + 1, services)
    ensures var host := ServiceFor(i, services).value; |host| > 5 && host[..|host| - 4] <= b && "crag-" <= b
    ensures !(b + [x] <= OnePass(value, services))
    decreases |value|, 3, 0
  {
    hide EngineText, Rendered, Stages;
    DoneStages(value, i, j, services);
    RenderedTail(i, ServiceFor(i, services).value);
    PatternStart(i);
    b, x := Broken(ServiceFor(i, services).value, j, After(value, i), Stages(value, j, services), services);
    StagesNext(value, j, services);
    HostPass(value, i, services);
  }

  lemma {:induction false} FirstJoin(host: string, lo: nat, hi: nat, rest: string, services: Services) returns (j: nat)
    requires lo <= hi <= ROWS && !NoJoin(host, lo, hi, rest, services)
    ensures lo <= j < hi && JoinAt(host, j, rest, services) && NoJoin(host, lo, j, rest, services)
    decreases hi
  {
    j := hi - 1;
    if !NoJoin(host, lo, hi - 1, rest, services) {
      j := FirstJoin(host, lo, hi - 1, rest, services);
    }
  }

  /** The stage at which a host name is broken up. */
  lemma {:induction false} Broken(host: string, k: nat, rest: string, text: string, services: Services)
      returns (b: string, x: char)
    requires k < ROWS && ServicesOk(services) && ServiceOk(host) && JoinAt(host, k, rest, services)
    requires text == host + Stages(rest, k, services)
    ensures Settled(b, x) && b + [x] <= Stage(text, k, services)
    ensures |host| > 5 && host[..|host| - 4] <= b && "crag-" <= b
    ensures !(b + [x] <= host + OnePass(rest, services))
    decreases |rest|, 7, 0
  {
    var n: nat :| n <= 4 && JoinsWith(host, n, k, rest, services);
    PatternCut(k, n);
    Unveiled(k, n, rest, services);
    b, x := BrokenAt(host, n, k, Stages(rest, k, services), text, services);
    PassKeepsHost(host, n, k, rest, b, x, services);
  }

  lemma {:induction false} BrokenAt(host: string, n: nat, k: nat, rest: string, text: string, services: Services)
    returns (b: string, x: char)
    requires k < ROWS && ServicesOk(services) && ServiceOk(host) && ServiceFor(k, services).Some?
    requires 1 <= n <= 4 && n <= |host| && host[|host| - n..] == SCHEME[..n]
    requires |Pattern(k)| > 7 && Pattern(k)[..n] == SCHEME[..n] && Pattern(k)[n..] <= rest && text == host + rest
    ensures Settled(b, x) && b + [x] <= Stage(text, k, services)
    ensures |host| > 5 && host[..|host| - 4] <= b && "crag-" <= b
    ensures RowAt(k).scheme != "" ==> b == host[..|host| - n] && x != 'c'
    ensures RowAt(k).scheme == "" ==> b == host[..|host| - n] + "crag" && x == '-'
  {
    hide RowAt, EngineText, Rendered, Replace;
    var c := host[..|host| - n];
    JoinedText(host, n, Pattern(k), rest);
    LongHost(host, n);
    var z := rest[|Pattern(k)| - n..];
    JoinReplaced(c, z, k, services);
    b, x := NewHead(c, k, ServiceFor(k, services).value, Stage(z, k, services));
    assert host[..|host| - 4] == c[..|host| - 4];
  }

  lemma {:induction false} JoinedText(host: string, n: nat, p: string, x: string)
    requires 1 <= n <= |host| && n <= |p| && host[|host| - n..] == p[..n] && p[n..] <= x
    ensures host + x == host[..|host| - n] + (p + x[|p| - n..])
  {
    var c, s, g := host[..|host| - n], p[..n], p[n..];
    assert host == c + s;
    assert p == s + g;
    assert x == g + x[|g|..];
    assert (c + s) + (g + x[|g|..]) == c + ((s + g) + x[|g|..]);
  }

  lemma {:induction false} PatternCut(k: nat, n: nat)
    requires k < ROWS && n <= 7
    ensures |Pattern(k)| > 7 && Pattern(k)[..n] == SCHEME[..n]
  {
    PatternStart(k);
  }

  lemma {:induction false} JoinReplaced(c: string, z: string, k: nat, services: Services)
    requires k < ROWS && ':' !in c && ServiceFor(k, services).Some?
    ensures Stage(c + (Pattern(k) + z), k, services)
            == c + (Rendered(RowAt(k), ServiceFor(k, services).value) + Stage(z, k, services))
  {
    PatternStart(k);
    var t := c + (Pattern(k) + z);
    forall q | 0 <= q < |c| ensures !SchemeAt(t, q) {
      NoColonNoScheme(c, Pattern(k) + z, q);
    }
    StageCopiesSafe(c, Pattern(k) + z, k, services);
    StageHead(z, k, services);
  }

  lemma {:induction false} NoColonNoScheme(c: string, t: string, q: nat)
    requires ':' !in c && q < |c| && |t| > 7 && forall i :: 0 <= i < 7 ==> t[i] == SCHEME[i]
    ensures !SchemeAt(c + t, q)
  {
    assert q + 4 < |c| ==> (c + t)[q + 4] == c[q + 4];
    assert q + 4 >= |c| ==> (c + t)[q + 4] == SCHEME[q + 4 - |c|];
  }

  lemma {:induction false} LongHost(host: string, n: nat)
    requires ServiceOk(host) && 1 <= n <= 4 && n <= |host| && host[|host| - n..] == SCHEME[..n]
    ensures |host| > 5 && "crag-" <= host[..|host| - n]
  {
    assert host[4] == "crag-"[4] == '-';
    var m := |host| - n;
    assert forall i :: m <= i < |host| ==> host[i] == host[m..][i - m] == SCHEME[i - m];
    assert SCHEME[0] != '-' && SCHEME[1] != '-' && SCHEME[2] != '-' && SCHEME[3] != '-';
    assert host[..|host| - n][..5] == host[..5] == "crag-";
  }

  lemma {:induction false} NewHead(c: string, k: nat, service: string, w: string) returns (b: string, x: char)
    requires k < ROWS && ':' !in c && ServiceOk(service)
    ensures Settled(b, x) && c <= b && b + [x] <= c + (Rendered(RowAt(k), service) + w)
    ensures RowAt(k).scheme != "" ==> b == c && x != 'c'
    ensures RowAt(k).scheme == "" ==> b == c + "crag" && x == '-'
  {
    var y, h := Rendered(RowAt(k), service), RowAt(k).scheme;
    if h != "" {
      assert h == "http" || h == "postgresql" || h == "mysql";
      b, x := c, h[0];
      assert y[0] == h[0];
    } else {
      b, x := c + "crag", '-';
      assert "crag-" <= service <= y;
      assert b + [x] == c + "crag-";
    }
    assert b + [x] == c + (b[|c|..] + [x]);
    HeadKept(c, b[|c|..] + [x], y, w);
  }

  lemma {:induction false} ConsText(b: string, x: string)
    requires b != ""
    ensures [b[0]] + (b[1..] + x) == b + x
  {
  }

  lemma {:induction false} MatchStarts(value: string)
    ensures Match(value).Some? ==> value != "" && value[0] == 'c'
  {
    if Match(value).Some? {
      PatternStart(Match(value).value);
      assert Pattern(Match(value).value)[0] == value[0];
    }
  }

  /** Text without 'c' is copied by the pass. */
  lemma {:induction false} PassCopies(g: string, tail: string, services: Services)
    requires 'c' !in g
    ensures OnePass(g + tail, services) == g + OnePass(tail, services)
    decreases |g|
  {
    var value := g + tail;
    if g == "" {
      assert value == tail;
    } else {
      assert value[0] == g[0] && value[1..] == g[1..] + tail;
      var m := Match(value);
      MatchStarts(value);
      PassCopies(g[1..], tail, services);
      ConsText(g, OnePass(tail, services));
    }
  }

  lemma {:induction false} PassKeepsHost(host: string, n: nat, k: nat, rest: string, b: string, x: char,
                                         services: Services)
    requires k < ROWS && JoinsWith(host, n, k, rest, services)
    requires RowAt(k).scheme != "" ==> b == host[..|host| - n] && x != 'c'
    requires RowAt(k).scheme == "" ==> b == host[..|host| - n] + "crag" && x == '-'
    ensures !(b + [x] <= host + OnePass(rest, services))
  {
    if RowAt(k).scheme != "" {
      HostCharKept(host, n, OnePass(rest, services), x);
    } else {
      SchemeRestKept(k, n, rest, services);
      SchemeJoined(host, n, OnePass(rest, services));
    }
  }

  lemma {:induction false} HostCharKept(host: string, n: nat, w: string, x: char)
    requires 1 <= n <= 4 && n <= |host| && host[|host| - n..] == SCHEME[..n] && x != 'c'
    ensures !(host[..|host| - n] + [x] <= host + w)
  {
    assert host[|host| - n] == host[|host| - n..][0] == SCHEME[0] == 'c';
    FirstDifference(host[..|host| - n] + [x], host + w, |host| - n);
  }

  lemma {:induction false} SchemeJoined(host: string, n: nat, w: string)
    requires 1 <= n <= 4 && n <= |host| && host[|host| - n..] == SCHEME[..n] && SCHEME[n..5] <= w
    ensures !(host[..|host| - n] + "crag" + ['-'] <= host + w)
  {
    assert w[4 - n] == SCHEME[n..5][4 - n] == ':';
    FirstDifference(host[..|host| - n] + "crag" + ['-'], host + w, |host| - n + 4);
  }

  lemma {:induction false} BeginsScheme(k: nat, n: nat, value: string, services: Services)
    requires k < ROWS && n <= 7 && Begins(k, n, value, services)
    ensures SCHEME[n..] <= value
  {
    PatternStart(k);
    PlaywrightCut();
    assert PLAYWRIG[..7] == SCHEME;
    var p := if Pattern(k)[n..] <= value then Pattern(k)[n..] else PlaywrigNeko()[n..];
    assert p <= value && p[..7 - n] == SCHEME[n..];
  }

  /** The pass copies what is left of "crag:" in front of the text. */
  lemma {:induction false} SchemeRestKept(k: nat, n: nat, rest: string, services: Services)
    requires k < ROWS && 1 <= n <= 4 && Begins(k, n, rest, services)
    ensures SCHEME[n..5] <= OnePass(rest, services)
  {
    BeginsScheme(k, n, rest, services);
    var g := SCHEME[n..5];
    assert g <= SCHEME[n..];
    PrefixPlusRest(g, rest);
    assert 'c' !in g;
    PassCopies(g, rest[|g|..], services);
  }

  lemma {:induction false} HostPass(value: string, i: nat, services: Services)
    requires Match(value) == Some(i) && ServiceFor(i, services).Some?
    ensures OnePass(value, services)
            == Rendered(RowAt(i), ServiceFor(i, services).value) + OnePass(After(value, i), services)
  {
    PatternStart(i);
  }

  lemma {:induction false} SameTail(y: string, a: string, b: string)
    ensures y + a == y + b <==> a == b
  {
    assert (y + a)[|y|..] == a && (y + b)[|y|..] == b;
  }

  /** The thirteen order-sensitive replacements equal one left-to-right longest-match pass exactly on the placed
      values. */
  lemma {:induction false} SequentialIsOnePass(value: string, services: Services)
    requires ServicesOk(services)
    ensures Stages(value, ROWS, services) == OnePass(value, services) <==> Placed(value, services)
    decreases |value|
  {
    if value == "" {
      NothingStays(ROWS, services);
    } else if Match(value).Some? {
      TokenPass(value, Match(value).value, services);
    } else if Completes(value, services) {
      CompletedStages(value, ROWS, services);
      ShorterPlaywrig(value);
      RenderedStart(5, services(Browser).value);
    } else {
      PlainStages(value, ROWS, services);
      SequentialIsOnePass(value[1..], services);
      SameTail([value[0]], Stages(value[1..], ROWS, services), OnePass(value[1..], services));
    }
  }

  lemma {:induction false} TokenPass(value: string, i: nat, services: Services)
    requires ServicesOk(services) && Match(value) == Some(i)
    ensures Stages(value, ROWS, services) == OnePass(value, services) <==> Placed(value, services)
    decreases |value|, 0
  {
    var service, rest := ServiceFor(i, services), After(value, i);
    PatternStart(i);
    if service.Some? && IsHostRow(i) && !NoJoin(service.value, i + 1, ROWS, rest, services) {
      var b, x := JoinedStages(value, i, ROWS, services);
    } else {
      if service.Some? {
        DoneStages(value, i, ROWS, services);
      } else {
        RawStages(value, i, ROWS, services);
      }
      SequentialIsOnePass(rest, services);
      SameTail(Piece(i, services), Stages(rest, ROWS, services), OnePass(rest, services));
    }
  }
}
