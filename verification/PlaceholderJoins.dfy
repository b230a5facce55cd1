/** What the thirteen sequential replacements make of any value, as one walk from left to right: the one pass, but for
    the texts put for a placeholder that complete a placeholder of a later row. */
module PlaceholderJoins {
  import opened Options
  import opened Roles
  import opened Placeholders
  import opened PlaceholderStages

  // ---------------------------------------------------------------------------------------------
  // The walk

  /** How much of "crag" a host name ends with. */
  function Ending(host: string): (n: nat)
    ensures n <= 4 && EndsIn(host, n)
  {
    if EndsIn(host, 1) then 1
    else if EndsIn(host, 2) then 2
    else if EndsIn(host, 3) then 3
    else if EndsIn(host, 4) then 4
    else 0
  }

  predicate EndsIn(host: string, n: nat)
    requires n <= 4
  {
    n <= |host| && host[|host| - n..] == SCHEME[..n]
  }

  lemma {:induction false} LastOfEnding(host: string, n: nat)
    requires 1 <= n <= 4 && EndsIn(host, n)
    ensures host != "" && host[|host| - 1] == SCHEME[n - 1]
  {
    assert host[|host| - 1] == host[|host| - n..][n - 1] == SCHEME[..n][n - 1];
  }

  lemma {:induction false} EndingIs(host: string, n: nat)
    requires 1 <= n <= 4 && EndsIn(host, n)
    ensures Ending(host) == n
  {
    hide EndsIn;
    LastOfEnding(host, n);
    LastOfEnding(host, Ending(host));
    assert SCHEME[0] == 'c' && SCHEME[1] == 'r' && SCHEME[2] == 'a' && SCHEME[3] == 'g';
  }

  /** The end of a host name and the text after it complete row k's pattern. */
  predicate Joins(host: string, k: nat, rest: string, services: Services)
    requires k < ROWS
  {
    PatternStart(k);
    ServiceFor(k, services).Some? && Ending(host) > 0 && Begins(k, Ending(host), rest, services)
  }

  lemma {:induction false} JoinsIsJoinAt(host: string, k: nat, rest: string, services: Services)
    requires k < ROWS
    ensures Joins(host, k, rest, services) <==> JoinAt(host, k, rest, services)
  {
    hide Begins;
    PatternStart(k);
    if JoinAt(host, k, rest, services) {
      var n: nat :| n <= 4 && JoinsWith(host, n, k, rest, services);
      EndingIs(host, n);
    }
    if Joins(host, k, rest, services) {
      assert JoinsWith(host, Ending(host), k, rest, services);
    }
  }

  /** The neko text after its "ht". */
  function NekoTail(service: string): string {
    "tp://" + service + (PortText(RowAt(4).port) + RowAt(4).suffix)
  }

  /** What a neko placeholder becomes together with the playwright placeholder that its "http" completes. */
  function Completed(services: Services): string
    requires services(Browser).Some?
  {
    Rendered(RowAt(5), services(Browser).value) + NekoTail(services(Browser).value)
  }

  function LeftToRight(value: string, services: Services): string
    decreases |value|, 0
  {
    if value == "" then ""
    else
      var m := Match(value);
      if m.Some? then
        PatternStart(m.value);
        var rest, service := After(value, m.value), ServiceFor(m.value, services);
        if IsHostRow(m.value) && service.Some? then FromHost(service.value, m.value + 1, rest, services)
        else Piece(m.value, services) + LeftToRight(rest, services)
      else if Completes(value, services) then
        Completed(services) + LeftToRight(value[|PlaywrigNeko()|..], services)
      else [value[0]] + LeftToRight(value[1..], services)
  }

  /** What the rows from k on make of a host name and the text after it. */
  function FromHost(host: string, k: nat, rest: string, services: Services): string
    requires k <= ROWS
    decreases |rest|, 1 + ROWS - k
  {
    if k == ROWS then host + LeftToRight(rest, services)
    else if !Joins(host, k, rest, services) then FromHost(host, k + 1, rest, services)
    else
      PatternStart(k);
      var n := Ending(host);
      var front, service := host[..|host| - n], ServiceFor(k, services).value;
      if Pattern(k)[n..] <= rest then
        var tail := rest[|Pattern(k)| - n..];
        if IsHostRow(k) then FromHost(front + service, k + 1, tail, services)
        else front + (Rendered(RowAt(k), service) + LeftToRight(tail, services))
      else front + (Completed(services) + LeftToRight(rest[|PlaywrigNeko()| - n..], services))
  }

  // ---------------------------------------------------------------------------------------------
  // Text put after the front of a host name

  predicate NoEarlyColon(y: string) {
    |y| >= 4 && forall i :: 0 <= i < 4 ==> y[i] != ':'
  }

  lemma {:induction false} FrontLasting(front: string, y: string)
    requires ':' !in front && Lasting(y) && NoEarlyColon(y)
    ensures Lasting(front + y)
  {
    forall x: string, q | 0 <= q < |front + y| ensures !SchemeAt((front + y) + x, q) {
      var t := (front + y) + x;
      assert t == front + (y + x);
      if q < |front| {
        assert q + 4 < |front| ==> t[q + 4] == front[q + 4];
        assert q + 4 >= |front| ==> t[q + 4] == y[q + 4 - |front|];
      } else {
        SchemeMoves(front, y + x, q - |front|);
      }
    }
  }

  lemma {:induction false} SchemeMoves(y: string, x: string, q: nat)
    ensures SchemeAt(y + x, |y| + q) <==> SchemeAt(x, q)
  {
    var t := y + x;
    if q + 7 <= |x| {
      assert t[|y| + q] == x[q] && t[|y| + q + 1] == x[q + 1] && t[|y| + q + 2] == x[q + 2]
          && t[|y| + q + 3] == x[q + 3];
      assert t[|y| + q + 4] == x[q + 4] && t[|y| + q + 5] == x[q + 5] && t[|y| + q + 6] == x[q + 6];
    }
  }

  lemma {:induction false} LastingTail(a: string, b: string)
    requires Lasting(a + b)
    ensures Lasting(b)
  {
    forall x: string, q | 0 <= q < |b| ensures !SchemeAt(b + x, q) {
      assert (a + b) + x == a + (b + x);
      SchemeMoves(a, b + x, q);
    }
  }

  lemma {:induction false} LastingConcat(a: string, b: string)
    requires Lasting(a) && Lasting(b)
    ensures Lasting(a + b)
  {
    forall x: string, q | 0 <= q < |a + b| ensures !SchemeAt((a + b) + x, q) {
      assert (a + b) + x == a + (b + x);
      if q >= |a| {
        SchemeMoves(a, b + x, q - |a|);
      }
    }
  }

  lemma {:induction false} RenderedLate(i: nat, service: string)
    requires i < ROWS && ServiceOk(service)
    ensures NoEarlyColon(Rendered(RowAt(i), service))
  {
    var y, c := Rendered(RowAt(i), service), RowAt(i).scheme;
    assert forall q :: 0 <= q < 4 ==> service[q] == "crag-"[q];
    if c != "" {
      assert c == "http" || c == "postgresql" || c == "mysql";
      assert forall q :: 0 <= q < 4 ==> y[q] == c[q];
    } else {
      assert forall q :: 0 <= q < 4 ==> y[q] == service[q];
    }
  }

  lemma {:induction false} NekoCut(service: string)
    ensures Rendered(RowAt(4), service) == "ht" + NekoTail(service)
  {
    var e := PortText(RowAt(4).port) + RowAt(4).suffix;
    assert "http" + "://" == "ht" + "tp://";
    assert ("ht" + "tp://") + service + e == "ht" + ("tp://" + service + e);
  }

  lemma {:induction false} CompletedLasting(services: Services)
    requires ServicesOk(services) && services(Browser).Some?
    ensures Lasting(Completed(services)) && NoEarlyColon(Completed(services))
    ensures Lasting(NekoTail(services(Browser).value))
  {
    hide Rendered, Lasting;
    var service := services(Browser).value;
    RenderedIsLasting(5, service);
    RenderedIsLasting(4, service);
    NekoCut(service);
    LastingTail("ht", NekoTail(service));
    LastingConcat(Rendered(RowAt(5), service), NekoTail(service));
    RenderedLate(5, service);
  }

  // ---------------------------------------------------------------------------------------------
  // The replacements are the walk

  lemma {:induction false} LastingFrom(value: string, y: string, x: string, k: nat, services: Services)
    requires k <= ROWS && Lasting(y) && Stages(value, k, services) == y + Stages(x, k, services)
    ensures Stages(value, ROWS, services) == y + Stages(x, ROWS, services)
  {
    forall j: nat | k <= j < ROWS ensures Copied(y, x, j, services) {
      LastingCopied(y, Stages(x, j, services), j, services);
    }
    KeptFrom(value, y, x, k, ROWS, services);
  }

  lemma {:induction false} JoinParts(front: string, s: string, g: string, x: string)
    ensures (front + s) + (g + x) == front + ((s + g) + x)
  {
  }

  /** One row replaces what the end of a host name and the text after it make up. */
  lemma {:induction false} PatternJoined(value: string, front: string, n: nat, k: nat, rest: string, services: Services)
    requires k < ROWS && 1 <= n <= 4 && n <= |Pattern(k)| && ':' !in front && ServiceFor(k, services).Some?
    requires Pattern(k)[n..] <= rest && Stages(value, k, services) == (front + SCHEME[..n]) + Stages(rest, k, services)
    ensures var tail := rest[|Pattern(k)| - n..];
            Stages(value, k + 1, services)
            == front + (Rendered(RowAt(k), ServiceFor(k, services).value) + Stages(tail, k + 1, services))
  {
    hide RowAt, EngineText, Stages, Rendered;
    var g, tail := Pattern(k)[n..], rest[|Pattern(k)| - n..];
    PrefixPlusRest(g, rest);
    PatternDull(k, n);
    DullIsLasting(g);
    LastingStays(g, tail, k, services);
    PatternCut(k, n);
    JoinParts(front, SCHEME[..n], g, Stages(tail, k, services));
    assert SCHEME[..n] + g == Pattern(k);
    JoinReplaced(front, Stages(tail, k, services), k, services);
    StagesNext(value, k, services);
    StagesNext(tail, k, services);
  }

  lemma {:induction false} NekoParts(front: string, s: string, h: string, t: string, x: string)
    ensures (front + s) + (h + (("ht" + t) + x)) == front + (((s + h) + "ht") + (t + x))
  {
    assert ("ht" + t) + x == "ht" + (t + x);
  }

  lemma {:induction false} NekoTexts(front: string, r: string, t: string, x: string)
    ensures front + (r + (t + x)) == (front + (r + t)) + x
  {
  }

  /** The text before the playwright row when a neko placeholder stands after the playwright placeholder's cut. */
  lemma {:induction false} NekoBefore(rest: string, n: nat, services: Services)
    requires 1 <= n <= 4 && ServicesOk(services) && services(Browser).Some? && PlaywrigNeko()[n..] <= rest
    ensures n <= |PLAYWRIG|
    ensures Stages(rest, 5, services)
            == PLAYWRIG[n..]
               + (("ht" + NekoTail(services(Browser).value))
                  + Stages(rest[|PlaywrigNeko()| - n..], 5, services))
  {
    hide EngineText, Stages, Rendered, NekoTail;
    var tail := rest[|PlaywrigNeko()[n..]|..];
    PlaywrightCut();
    CutTwice(rest, PLAYWRIG, Pattern(4), n);
    PlaywrigDull(n);
    DullIsLasting(PLAYWRIG[n..]);
    LastingStays(PLAYWRIG[n..], Pattern(4) + tail, 5, services);
    NekoStages(tail, services);
    NekoCut(services(Browser).value);
  }

  lemma {:induction false} NekoJoined(value: string, front: string, n: nat, rest: string, services: Services)
    requires 1 <= n <= 4 && ServicesOk(services) && services(Browser).Some? && PlaywrigNeko()[n..] <= rest
    requires ':' !in front && Stages(value, 5, services) == (front + SCHEME[..n]) + Stages(rest, 5, services)
    ensures Stages(value, ROWS, services)
            == front + (Completed(services) + Stages(rest[|PlaywrigNeko()| - n..], ROWS, services))
  {
    hide RowAt, EngineText, Stages, Rendered, NekoTail, Lasting;
    var service, tail := services(Browser).value, rest[|PlaywrigNeko()| - n..];
    var t, x, r := NekoTail(service), Stages(tail, 5, services), Rendered(RowAt(5), service);
    NekoBefore(rest, n, services);
    NekoParts(front, SCHEME[..n], PLAYWRIG[n..], t, x);
    PlaywrightCut();
    SchemePlaywrig(n);
    BrowserRow(services);
    JoinReplaced(front, t + x, 5, services);
    CompletedLasting(services);
    LastingCopied(t, x, 5, services);
    StagesNext(value, 5, services);
    StagesNext(tail, 5, services);
    NekoTexts(front, r, t, Stages(tail, 6, services));
    FrontLasting(front, Completed(services));
    LastingFrom(value, front + Completed(services), tail, 6, services);
    assert (front + Completed(services)) + Stages(tail, ROWS, services)
        == front + (Completed(services) + Stages(tail, ROWS, services));
  }

  lemma {:induction false} BrowserRow(services: Services)
    ensures ServiceFor(5, services) == services(Browser)
  {
  }

  lemma {:induction false} SchemePlaywrig(n: nat)
    requires n <= 4
    ensures n <= |PLAYWRIG| && SCHEME[..n] + PLAYWRIG[n..] == PLAYWRIG
  {
    assert PLAYWRIG[..7] == SCHEME;
    assert SCHEME[..n] == PLAYWRIG[..7][..n] == PLAYWRIG[..n];
  }

  lemma {:induction false} HostCut(host: string)
    requires ServiceOk(host) && Ending(host) > 0
    ensures var front := host[..|host| - Ending(host)];
            "crag-" <= front && ':' !in front && host == front + SCHEME[..Ending(host)]
  {
    LongHost(host, Ending(host));
  }

  lemma {:induction false} HostGrown(front: string, service: string)
    requires "crag-" <= front && ':' !in front && ServiceOk(service)
    ensures ServiceOk(front + service)
  {
    assert front <= front + service;
  }

  /** Before row k the text is a host name and what the rows before k made of the text after it. */
  lemma {:induction false} HostWalk(value: string, host: string, k: nat, rest: string, services: Services)
    requires k <= ROWS && ServicesOk(services) && ServiceOk(host)
    requires Stages(value, k, services) == host + Stages(rest, k, services)
    ensures Stages(value, ROWS, services) == FromHost(host, k, rest, services)
    decreases |rest|, 3 + ROWS - k
  {
    hide RowAt, EngineText, Stages, Rendered;
    if k == ROWS {
      ReplacementsAreWalk(rest, services);
    } else if !Joins(host, k, rest, services) {
      JoinsIsJoinAt(host, k, rest, services);
      NotJoined(host, k, rest, services);
      CarriedOn(value, host, rest, k, services);
      HostWalk(value, host, k + 1, rest, services);
    } else {
      JoinedWalk(value, host, k, rest, services);
    }
  }

  lemma {:induction false} NotJoined(host: string, k: nat, rest: string, services: Services)
    requires k < ROWS && ServicesOk(services) && ServiceOk(host) && !JoinAt(host, k, rest, services)
    ensures Copied(host, rest, k, services)
  {
    if ServiceFor(k, services).Some? {
      HostCopied(host, k, rest, services);
    }
    StageCopies(host, Stages(rest, k, services), k, services);
  }

  lemma {:induction false} JoinedWalk(value: string, host: string, k: nat, rest: string, services: Services)
    requires k < ROWS && ServicesOk(services) && ServiceOk(host) && Joins(host, k, rest, services)
    requires Stages(value, k, services) == host + Stages(rest, k, services)
    ensures Stages(value, ROWS, services) == FromHost(host, k, rest, services)
    decreases |rest|, 3
  {
    hide RowAt, EngineText, Stages, Rendered;
    PatternStart(k);
    HostCut(host);
    var n := Ending(host);
    var front := host[..|host| - n];
    if Pattern(k)[n..] <= rest {
      var tail := rest[|Pattern(k)| - n..];
      PatternJoined(value, front, n, k, rest, services);
      if IsHostRow(k) {
        HostJoined(value, front, k, tail, services);
      } else {
        PlacedInFront(value, front, k, tail, services);
        ReplacementsAreWalk(tail, services);
      }
    } else {
      NekoJoined(value, front, n, rest, services);
      ReplacementsAreWalk(rest[|PlaywrigNeko()| - n..], services);
    }
  }

  lemma {:induction false} HostJoined(value: string, front: string, k: nat, tail: string, services: Services)
    requires k < ROWS && ServicesOk(services) && ServiceFor(k, services).Some? && IsHostRow(k)
    requires "crag-" <= front && ':' !in front
    requires Stages(value, k + 1, services)
             == front + (Rendered(RowAt(k), ServiceFor(k, services).value) + Stages(tail, k + 1, services))
    ensures Stages(value, ROWS, services) == FromHost(front + ServiceFor(k, services).value, k + 1, tail, services)
    decreases |tail|, 4 + ROWS - k
  {
    hide RowAt, EngineText, Stages, Rendered, FromHost;
    var service := ServiceFor(k, services).value;
    assert ServiceOk(service);
    HostGrown(front, service);
    RenderedTail(k, service);
    assert front + (service + Stages(tail, k + 1, services)) == (front + service) + Stages(tail, k + 1, services);
    HostWalk(value, front + service, k + 1, tail, services);
  }

  lemma {:induction false} PlacedInFront(value: string, front: string, k: nat, tail: string, services: Services)
    requires k < ROWS && ServicesOk(services) && ServiceFor(k, services).Some? && !IsHostRow(k) && ':' !in front
    requires Stages(value, k + 1, services)
             == front + (Rendered(RowAt(k), ServiceFor(k, services).value) + Stages(tail, k + 1, services))
    ensures Stages(value, ROWS, services)
            == front + (Rendered(RowAt(k), ServiceFor(k, services).value) + Stages(tail, ROWS, services))
  {
    hide RowAt, EngineText, Stages, Rendered, Lasting;
    var y := Rendered(RowAt(k), ServiceFor(k, services).value);
    RenderedIsLasting(k, ServiceFor(k, services).value);
    RenderedLate(k, ServiceFor(k, services).value);
    FrontLasting(front, y);
    assert front + (y + Stages(tail, k + 1, services)) == (front + y) + Stages(tail, k + 1, services);
    LastingFrom(value, front + y, tail, k + 1, services);
    assert front + (y + Stages(tail, ROWS, services)) == (front + y) + Stages(tail, ROWS, services);
  }

  /** For every value, the thirteen order-sensitive replacements leave what the walk from left to right does. */
  lemma {:induction false} ReplacementsAreWalk(value: string, services: Services)
    requires ServicesOk(services)
    ensures Stages(value, ROWS, services) == LeftToRight(value, services)
    decreases |value|, 2
  {
    hide RowAt, EngineText, Stages, Rendered;
    if value == "" {
      NothingStays(ROWS, services);
    } else if Match(value).Some? {
      TokenWalk(value, Match(value).value, services);
    } else if Completes(value, services) {
      CompletedWalk(value, services);
    } else {
      PlainStages(value, ROWS, services);
      ReplacementsAreWalk(value[1..], services);
    }
  }

  lemma {:induction false} CompletedWalk(value: string, services: Services)
    requires ServicesOk(services) && value != "" && Match(value).None? && Completes(value, services)
    ensures Stages(value, ROWS, services) == LeftToRight(value, services)
    decreases |value|, 1
  {
    hide RowAt, EngineText, Stages, Rendered;
    PlainStages(value, 5, services);
    ShorterPlaywrig(value);
    assert [value[0]] == "" + SCHEME[..1];
    NekoJoined(value, "", 1, value[1..], services);
    var tail := value[|PlaywrigNeko()|..];
    assert value[1..][|PlaywrigNeko()| - 1..] == tail;
    ReplacementsAreWalk(tail, services);
    assert "" + (Completed(services) + Stages(tail, ROWS, services))
        == Completed(services) + Stages(tail, ROWS, services);
  }

  lemma {:induction false} TokenWalk(value: string, i: nat, services: Services)
    requires ServicesOk(services) && Match(value) == Some(i)
    ensures Stages(value, ROWS, services) == LeftToRight(value, services)
    decreases |value|, 1
  {
    hide RowAt, EngineText, Stages, Rendered;
    var rest, service := After(value, i), ServiceFor(i, services);
    PatternStart(i);
    if service.None? {
      RawStages(value, i, ROWS, services);
      ReplacementsAreWalk(rest, services);
    } else if IsHostRow(i) {
      JustDone(value, i, services);
      RenderedTail(i, service.value);
      HostWalk(value, service.value, i + 1, rest, services);
    } else {
      DoneStages(value, i, ROWS, services);
      ReplacementsAreWalk(rest, services);
    }
  }
}
