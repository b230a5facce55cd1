/** Substitution of `crag://` endpoint placeholders in environment values: the thirteen sequential replacements of the
    local runtime, the prefix rewriting of the remote runner, and the one-pass longest-match substitution that both come
    down to. */
module Placeholders {
  import opened Options
  import opened Text
  import opened Roles

  datatype Engine = Postgres | Mysql | Neko | Playwright | Ollama | Vllm | Qdrant | Chroma

  /** One entry of the replacement table: the pattern is "crag://" + engine text + leaf. */
  datatype Row = Row(engine: Engine, leaf: string, scheme: string, port: nat, suffix: string)

  const SCHEME := "crag://"

  function EngineText(e: Engine): string {
    match e
    case Postgres => "sql/postgres"
    case Mysql => "sql/mysql"
    case Neko => "browser/neko"
    case Playwright => "browser/playwright"
    case Ollama => "llm/ollama"
    case Vllm => "llm/vllm"
    case Qdrant => "vector/qdrant"
    case Chroma => "vector/chroma"
  }

  function RoleOf(e: Engine): (r: Role)
    ensures r != Agent
  {
    match e
    case Postgres => Sql
    case Mysql => Sql
    case Neko => Browser
    case Playwright => Browser
    case Ollama => Llm
    case Vllm => Llm
    case Qdrant => Vector
    case Chroma => Vector
  }

  const ROWS := 13

  function RowAt(i: nat): Row
    requires i < ROWS
  {
    if i == 0 then Row(Postgres, "/hostport", "", 5432, "")
    else if i == 1 then Row(Postgres, "/host", "", 0, "")
    else if i == 2 then Row(Mysql, "/hostport", "", 3306, "")
    else if i == 3 then Row(Mysql, "/host", "", 0, "")
    else if i == 4 then Row(Neko, "", "http", 8080, "")
    else if i == 5 then Row(Playwright, "", "http", 3000, "")
    else if i == 6 then Row(Ollama, "/v1", "http", 11434, "/v1")
    else if i == 7 then Row(Ollama, "", "http", 11434, "")
    else if i == 8 then Row(Vllm, "/v1", "http", 8000, "/v1")
    else if i == 9 then Row(Qdrant, "", "http", 6333, "")
    else if i == 10 then Row(Chroma, "", "http", 8000, "")
    else if i == 11 then Row(Postgres, "", "postgresql", 5432, "")
    else Row(Mysql, "", "mysql", 3306, "")
  }

  function Pattern(i: nat): string
    requires i < ROWS
  {
    SCHEME + (EngineText(RowAt(i).engine) + RowAt(i).leaf)
  }

  /** The Compose service that answers for each role, if there is one. */
  type Services = Role -> Option<string>

  /** Compose names of managed resources start with "crag-" and hold no colon. */
  predicate ServiceOk(s: string) {
    "crag-" <= s && ':' !in s
  }

  ghost predicate ServicesOk(services: Services) {
    forall r :: services(r).Some? ==> ServiceOk(services(r).value)
  }

  function PortText(port: nat): string {
    ":" + Decimal(port)
  }

  function Rendered(row: Row, service: string): string {
    if row.scheme != "" then (row.scheme + "://") + service + (PortText(row.port) + row.suffix)
    else if row.port != 0 then service + (PortText(row.port) + row.suffix)
    else service + row.suffix
  }

  // ---------------------------------------------------------------------------------------------
  // The two substitutions

  /** first_service_for_role, for the role of a row */
  function ServiceFor(i: nat, services: Services): Option<string>
    requires i < ROWS
  {
    services(RoleOf(RowAt(i).engine))
  }

  /** The text after a placeholder at its head. */
  function After(value: string, i: nat): string
    requires i < ROWS && Pattern(i) <= value
  {
    value[|Pattern(i)|..]
  }

  /** resolve_crag_placeholders, step k: replace every occurrence if some service has the role. */
  function Stage(value: string, k: nat, services: Services): string
    requires k < ROWS
  {
    var service := ServiceFor(k, services);
    if service.None? then value else Replace(value, Pattern(k), Rendered(RowAt(k), service.value))
  }

  function Stages(value: string, k: nat, services: Services): string
    requires k <= ROWS
  {
    if k == 0 then value else Stage(Stages(value, k - 1, services), k - 1, services)
  }

  function MatchFrom(value: string, i: nat): (r: Option<nat>)
    requires i <= ROWS
    ensures r.Some? ==> i <= r.value < ROWS && Pattern(r.value) <= value
    decreases ROWS - i
  {
    if i == ROWS then None else if Pattern(i) <= value then Some(i) else MatchFrom(value, i + 1)
  }

  function Match(value: string): (r: Option<nat>)
    ensures r.Some? ==> r.value < ROWS && Pattern(r.value) <= value
  {
    MatchFrom(value, 0)
  }

  /** What the one pass puts for row i. */
  function Piece(i: nat, services: Services): string
    requires i < ROWS
  {
    var service := ServiceFor(i, services);
    if service.Some? then Rendered(RowAt(i), service.value) else Pattern(i)
  }

  /** One left-to-right pass: at each position the longest placeholder that starts there. */
  function OnePass(value: string, services: Services): string
    decreases |value|
  {
    if value == "" then ""
    else
      var m := Match(value);
      if m.Some? then Piece(m.value, services) + OnePass(After(value, m.value), services)
      else [value[0]] + OnePass(value[1..], services)
  }

  // ---------------------------------------------------------------------------------------------
  // Facts about the table

  function KindChar(e: Engine): char {
    if RoleOf(e) == Sql then 's' else if RoleOf(e) == Browser then 'b' else if RoleOf(e) == Llm then 'l' else 'v'
  }

  function EngineAt(e: Engine): nat {
    if RoleOf(e) == Browser then 8 else if RoleOf(e) == Vector then 7 else 4
  }

  function EngineChar(e: Engine): char {
    match e
    case Postgres => 'p'
    case Mysql => 'm'
    case Neko => 'n'
    case Playwright => 'p'
    case Ollama => 'o'
    case Vllm => 'v'
    case Qdrant => 'q'
    case Chroma => 'c'
  }

  lemma {:induction false} EngineTag(e: Engine)
    ensures var t := EngineText(e); |t| > EngineAt(e) && t[0] == KindChar(e) && t[EngineAt(e)] == EngineChar(e)
  {
  }

  lemma {:induction false} EngineNoColon(e: Engine)
    ensures ':' !in EngineText(e)
  {
  }

  /** No suffix of s begins "crag". */
  predicate TailSafe(s: string) {
    |s| >= 2 && s[|s| - 1] != 'c' && s[|s| - 1] != 'r' && s[|s| - 1] != 'g' && (s[|s| - 1] == 'a' ==> s[|s| - 2] != 'r')
  }

  lemma {:induction false} EngineTail(e: Engine)
    ensures TailSafe(EngineText(e))
  {
  }

  /** Two different engines disagree at a position that both have. */
  lemma {:induction false} EnginesDiffer(e: Engine, f: Engine) returns (i: nat)
    requires e != f
    ensures i < |EngineText(e)| && i < |EngineText(f)| && EngineText(e)[i] != EngineText(f)[i]
  {
    EngineTag(e);
    EngineTag(f);
    i := if KindChar(e) != KindChar(f) then 0 else EngineAt(e);
  }

  /** Patterns of different engines never start at the same place. */
  lemma {:induction false} EnginesExclude(i: nat, j: nat, tail: string)
    requires i < ROWS && j < ROWS && RowAt(i).engine != RowAt(j).engine
    ensures !(Pattern(i) <= Pattern(j) + tail)
  {
    var e, f := RowAt(i).engine, RowAt(j).engine;
    var d := EnginesDiffer(e, f);
    var p, q := Pattern(i), Pattern(j) + tail;
    assert p[7 + d] == EngineText(e)[d];
    assert q[7 + d] == EngineText(f)[d];
  }

  /** Leaves of one engine: an earlier row's leaf strictly extends a later one's. */
  lemma {:induction false} LeavesNest(i: nat, j: nat) returns (t: string)
    requires i < j < ROWS && RowAt(i).engine == RowAt(j).engine
    ensures RowAt(i).leaf == RowAt(j).leaf + t
    ensures t == "port" || t == "/hostport" || t == "/host" || t == "/v1"
  {
    t := if RowAt(j).leaf == "/host" then "port" else RowAt(i).leaf;
  }

  lemma {:induction false} PatternsNest(i: nat, j: nat) returns (t: string)
    requires i < j < ROWS && RowAt(i).engine == RowAt(j).engine
    ensures Pattern(i) == Pattern(j) + t
    ensures t == "port" || t == "/hostport" || t == "/host" || t == "/v1"
  {
    t := LeavesNest(i, j);
    var e := EngineText(RowAt(i).engine);
    LeafApart(SCHEME, e, RowAt(j).leaf, t);
  }

  lemma {:induction false} LeafApart(a: string, b: string, c: string, d: string)
    ensures a + (b + (c + d)) == (a + (b + c)) + d
  {
  }

  lemma {:induction false} MatchFirst(value: string, i: nat, j: nat)
    requires i <= j < ROWS && Pattern(j) <= value
    ensures MatchFrom(value, i).Some? && MatchFrom(value, i).value <= j
    decreases ROWS - i
  {
    if !(Pattern(i) <= value) {
      MatchFirst(value, i + 1, j);
    }
  }

  lemma {:induction false} MatchFromIs(value: string, i: nat, j: nat)
    requires i <= j < ROWS && Pattern(j) <= value && forall k :: i <= k < j ==> !(Pattern(k) <= value)
    ensures MatchFrom(value, i) == Some(j)
    decreases j - i
  {
    if i < j {
      MatchFromIs(value, i + 1, j);
    }
  }

  lemma {:induction false} SamePlaceSameEngine(value: string, i: nat, j: nat)
    requires i < ROWS && j < ROWS && Pattern(i) <= value && Pattern(j) <= value
    ensures RowAt(i).engine == RowAt(j).engine
  {
    if RowAt(i).engine != RowAt(j).engine {
      var tail := After(value, j);
      assert value == Pattern(j) + tail;
      EnginesExclude(i, j, tail);
    }
  }

  lemma {:induction false} NestedIsLonger(i: nat, j: nat)
    requires i <= j < ROWS && RowAt(i).engine == RowAt(j).engine
    ensures |Pattern(j)| <= |Pattern(i)|
  {
    if i < j {
      var t := PatternsNest(i, j);
    }
  }

  lemma {:induction false} MatchBefore(value: string, j: nat)
    requires j < ROWS && Pattern(j) <= value
    ensures Match(value).Some? && Match(value).value <= j
    ensures RowAt(Match(value).value).engine == RowAt(j).engine
  {
    MatchFirst(value, 0, j);
    SamePlaceSameEngine(value, Match(value).value, j);
  }

  /** The table order finds the longest placeholder starting at a position. */
  lemma {:induction false} MatchIsLongest(value: string, j: nat)
    requires j < ROWS && Pattern(j) <= value
    ensures Match(value).Some? && |Pattern(j)| <= |Pattern(Match(value).value)|
  {
    MatchBefore(value, j);
    NestedIsLonger(Match(value).value, j);
  }

  // ---------------------------------------------------------------------------------------------
  // Where "crag://" can and cannot appear after a substitution

  predicate SchemeAt(t: string, q: nat) {
    && q + 7 <= |t| && t[q] == 'c' && t[q + 1] == 'r' && t[q + 2] == 'a' && t[q + 3] == 'g'
    && t[q + 4] == ':' && t[q + 5] == '/' && t[q + 6] == '/'
  }

  lemma {:induction false} SchemePrefix(t: string, q: nat)
    requires q <= |t|
    ensures SCHEME <= t[q..] <==> SchemeAt(t, q)
  {
    if SchemeAt(t, q) {
      assert forall i :: 0 <= i < 7 ==> SCHEME[i] == t[q..][i];
    }
    if SCHEME <= t[q..] {
      assert forall i :: 0 <= i < 7 ==> SCHEME[i] == t[q..][i] == t[q + i];
      assert t[q] == SCHEME[0] && t[q + 1] == SCHEME[1] && t[q + 2] == SCHEME[2] && t[q + 3] == SCHEME[3];
      assert t[q + 4] == SCHEME[4] && t[q + 5] == SCHEME[5] && t[q + 6] == SCHEME[6];
    }
  }

  /** Every colon of s is one that cannot belong to "crag://". */
  predicate ColonSafe(s: string) {
    forall i :: 0 <= i < |s| ==> SafeColon(s, i)
  }

  predicate SafeColon(s: string, i: nat)
    requires i < |s|
  {
    s[i] == ':' ==> (i > 0 && s[i - 1] != 'g') || (i + 1 < |s| && s[i + 1] != '/')
  }

  /** The end of s and the start of `rest` do not join into a new "crag://". */
  predicate JoinSafe(s: string, rest: string) {
    && !(|s| >= 1 && s[|s| - 1] == 'c' && "rag://" <= rest)
    && !(|s| >= 2 && s[|s| - 1] == 'r' && s[|s| - 2] == 'c' && "ag://" <= rest)
    && !(|s| >= 3 && s[|s| - 1] == 'a' && s[|s| - 2] == 'r' && s[|s| - 3] == 'c' && "g://" <= rest)
    && !(|s| >= 4 && s[|s| - 1] == 'g' && s[|s| - 2] == 'a' && s[|s| - 3] == 'r' && s[|s| - 4] == 'c' && "://" <= rest)
  }

  lemma {:induction false} TailSafeJoins(s: string, rest: string)
    requires TailSafe(s)
    ensures JoinSafe(s, rest)
  {
  }

  lemma {:induction false} Starts3(rest: string)
    ensures |rest| >= 3 && rest[0] == ':' && rest[1] == '/' && rest[2] == '/' ==> "://" <= rest
  {
    if |rest| >= 3 && rest[0] == ':' && rest[1] == '/' && rest[2] == '/' {
      assert rest[..3] == "://";
    }
  }

  lemma {:induction false} Starts4(rest: string)
    ensures |rest| >= 4 && rest[0] == 'g' && rest[1] == ':' && rest[2] == '/' && rest[3] == '/' ==> "g://" <= rest
  {
    if |rest| >= 4 && rest[0] == 'g' && rest[1] == ':' && rest[2] == '/' && rest[3] == '/' {
      assert rest[..4] == "g://";
    }
  }

  lemma {:induction false} Starts5(rest: string)
    ensures |rest| >= 5 && rest[0] == 'a' && rest[1] == 'g' && rest[2] == ':' && rest[3] == '/' && rest[4] == '/'
            ==> "ag://" <= rest
  {
    if |rest| >= 5 && rest[0] == 'a' && rest[1] == 'g' && rest[2] == ':' && rest[3] == '/' && rest[4] == '/' {
      assert rest[..5] == "ag://";
    }
  }

  lemma {:induction false} Starts6(rest: string)
    ensures && |rest| >= 6 && rest[0] == 'r' && rest[1] == 'a' && rest[2] == 'g'
            && rest[3] == ':' && rest[4] == '/' && rest[5] == '/'
            ==> "rag://" <= rest
  {
    if |rest| >= 6 && rest[0] == 'r' && rest[1] == 'a' && rest[2] == 'g' && rest[3] == ':' && rest[4] == '/'
        && rest[5] == '/' {
      assert rest[..6] == "rag://";
    }
  }

  lemma {:induction false} NoSchemeAcross(s: string, rest: string, q: nat)
    requires JoinSafe(s, rest) && |s| - 4 <= q < |s|
    ensures !SchemeAt(s + rest, q)
  {
    var t := s + rest;
    Starts3(rest);
    Starts4(rest);
    Starts5(rest);
    Starts6(rest);
    assert forall i :: 0 <= i < |s| ==> t[i] == s[i];
    assert forall i :: 0 <= i < |rest| ==> t[|s| + i] == rest[i];
  }

  lemma {:induction false} NoSchemeWithin(s: string, rest: string, q: nat)
    requires ColonSafe(s) && q + 4 < |s|
    ensures !SchemeAt(s + rest, q)
  {
    var t := s + rest;
    var i := q + 4;
    assert t[i - 1] == s[i - 1] && t[i] == s[i];
    assert i + 1 < |s| ==> t[i + 1] == s[i + 1];
    assert SafeColon(s, i);
  }

  /** No "crag://" starts inside such a stretch, even running over its end. */
  lemma {:induction false} NoSchemeIn(s: string, rest: string)
    requires ColonSafe(s) && JoinSafe(s, rest)
    ensures forall q :: 0 <= q < |s| ==> !SchemeAt(s + rest, q)
  {
    forall q | 0 <= q < |s| ensures !SchemeAt(s + rest, q) {
      if q + 4 < |s| {
        NoSchemeWithin(s, rest, q);
      } else {
        NoSchemeAcross(s, rest, q);
      }
    }
  }

  /** In a raw pattern "crag://" starts at its head only. */
  lemma {:induction false} NoSchemeInPattern(i: nat, rest: string)
    requires i < ROWS
    ensures forall q :: 1 <= q < |Pattern(i)| ==> !SchemeAt(Pattern(i) + rest, q)
  {
    var p := Pattern(i);
    PatternColons(i);
    PatternTail(i);
    TailSafeJoins(p, rest);
    forall q | 1 <= q < |p| ensures !SchemeAt(p + rest, q) {
      if q + 4 < |p| {
        assert (p + rest)[q + 4] == p[q + 4];
      } else {
        NoSchemeAcross(p, rest, q);
      }
    }
  }

  lemma {:induction false} PatternColons(i: nat)
    requires i < ROWS
    ensures forall q :: 5 <= q < |Pattern(i)| ==> Pattern(i)[q] != ':'
    ensures |Pattern(i)| > 7
  {
    var e, l := EngineText(RowAt(i).engine), RowAt(i).leaf;
    EngineNoColon(RowAt(i).engine);
    assert ':' !in l;
    EngineTag(RowAt(i).engine);
    assert Pattern(i) == SCHEME + (e + l);
  }

  lemma {:induction false} PatternTail(i: nat)
    requires i < ROWS
    ensures TailSafe(Pattern(i))
  {
    EngineTail(RowAt(i).engine);
    var e, l := EngineText(RowAt(i).engine), RowAt(i).leaf;
    assert l == "" || (TailSafe(l) && |l| >= 2);
    TailOfConcat(SCHEME, e, l);
  }

  lemma {:induction false} TailOfConcat(a: string, e: string, l: string)
    requires TailSafe(e) && (l == "" || TailSafe(l))
    ensures TailSafe(a + (e + l))
  {
    var s := a + (e + l);
    if l == "" {
      assert s[|s| - 1] == e[|e| - 1] && s[|s| - 2] == e[|e| - 2];
    } else {
      assert s[|s| - 1] == l[|l| - 1] && s[|s| - 2] == l[|l| - 2];
    }
  }

  // Rendered replacements

  lemma {:induction false} PortSafe(port: nat, suffix: string)
    requires suffix == "" || suffix == "/v1"
    ensures var s := PortText(port) + suffix;
            |s| >= 2 && s[0] == ':' && s[1] != '/' && (forall i :: 1 <= i < |s| ==> s[i] != ':') && TailSafe(s)
  {
    var d := Decimal(port);
    var s := PortText(port) + suffix;
    assert forall i :: 1 <= i < |s| ==> s[i] == (d + suffix)[i - 1];
    assert forall i :: 0 <= i < |d| ==> '0' <= (d + suffix)[i] <= '9';
  }

  lemma {:induction false} SchemeSafe(i: nat)
    requires i < ROWS && RowAt(i).scheme != ""
    ensures var a := RowAt(i).scheme + "://";
            && |a| >= 4 && (forall q :: 0 <= q < |a| && a[q] == ':' ==> q > 0 && a[q - 1] != 'g')
            && ((a[0] == 'h' && a[1] == 't') || a[0] == 'p' || a[0] == 'm')
  {
    var c := RowAt(i).scheme;
    assert c == "http" || c == "postgresql" || c == "mysql";
    assert ':' !in c;
    assert c[|c| - 1] == 'p' || c[|c| - 1] == 'l';
  }

  lemma {:induction false} ConcatColonSafe(a: string, service: string, b: string)
    requires forall q :: 0 <= q < |a| && a[q] == ':' ==> q > 0 && a[q - 1] != 'g'
    requires ':' !in service
    requires forall q :: 0 <= q < |b| && b[q] == ':' ==> q + 1 < |b| && b[q + 1] != '/'
    ensures ColonSafe(a + service + b)
  {
    var s := a + service + b;
    forall q | 0 <= q < |s|
      ensures SafeColon(s, q)
    {
      if q < |a| {
        assert s[q] == a[q] && (q > 0 ==> s[q - 1] == a[q - 1]);
      } else {
        var k := q - |a|;
        assert k < |service| ==> s[q] == service[k];
        assert k >= |service| ==> s[q] == b[k - |service|];
        assert k >= |service| && k - |service| + 1 < |b| ==> s[q + 1] == b[k - |service| + 1];
      }
    }
  }

  lemma {:induction false} RenderedColonSafe(i: nat, service: string)
    requires i < ROWS && ServiceOk(service)
    ensures ColonSafe(Rendered(RowAt(i), service))
  {
    var row := RowAt(i);
    assert row.suffix == "" || row.suffix == "/v1";
    PortSafe(row.port, row.suffix);
    var b := PortText(row.port) + row.suffix;
    if row.scheme != "" {
      SchemeSafe(i);
      ConcatColonSafe(row.scheme + "://", service, b);
    } else if row.port != 0 {
      ConcatColonSafe("", service, b);
      assert "" + service + b == service + b;
    } else {
      ConcatColonSafe("", service, row.suffix);
      assert "" + service + row.suffix == service + row.suffix;
    }
  }

  predicate IsHostRow(i: nat)
    requires i < ROWS
  {
    RowAt(i).scheme == "" && RowAt(i).port == 0
  }

  lemma {:induction false} RenderedTail(i: nat, service: string)
    requires i < ROWS && ServiceOk(service)
    ensures IsHostRow(i) ==> Rendered(RowAt(i), service) == service
    ensures !IsHostRow(i) ==> TailSafe(Rendered(RowAt(i), service))
  {
    var row := RowAt(i);
    var b := PortText(row.port) + row.suffix;
    assert row.suffix == "" || row.suffix == "/v1";
    PortSafe(row.port, row.suffix);
    if row.scheme != "" {
      EndsWith(row.scheme + "://" + service, b);
    } else if row.port != 0 {
      EndsWith(service, b);
    } else {
      assert row.suffix == "";
      assert service + "" == service;
    }
  }

  lemma {:induction false} EndsWith(a: string, b: string)
    requires TailSafe(b)
    ensures TailSafe(a + b)
  {
    var s := a + b;
    assert s[|s| - 1] == b[|b| - 1] && s[|s| - 2] == b[|b| - 2];
  }

  /** How a substituted or raw placeholder can begin. */
  predicate HeadOk(y: string) {
    && |y| >= 3
    && ((y[0] == 'h' && y[1] == 't') || (y[0] == 'p' && y[1] == 'o' && y[2] == 's') || y[0] == 'm' || y[0] == 'c')
  }

  lemma {:induction false} PieceHead(i: nat, services: Services)
    requires i < ROWS && ServicesOk(services)
    ensures HeadOk(Piece(i, services))
  {
    var row := RowAt(i);
    var service := services(RoleOf(row.engine));
    PatternColons(i);
    assert Pattern(i)[0] == SCHEME[0] == 'c';
    if service.Some? {
      RenderedHead(i, service.value);
    }
  }

  lemma {:induction false} RenderedHead(i: nat, service: string)
    requires i < ROWS && ServiceOk(service)
    ensures HeadOk(Rendered(RowAt(i), service))
  {
    var row := RowAt(i);
    var y := Rendered(row, service);
    assert service[0] == "crag-"[0] == 'c';
    if row.scheme != "" {
      var c := row.scheme;
      assert c == "http" || c == "postgresql" || c == "mysql";
      assert y[0] == c[0] && y[1] == c[1] && y[2] == c[2];
    } else {
      assert y[0] == service[0];
    }
  }

  lemma {:induction false} FirstDifference(t: string, s: string, i: nat)
    requires i < |t| && i < |s| && t[i] != s[i]
    ensures !(t <= s)
  {
  }

  lemma {:induction false} PatternNeedsScheme(t: string, k: nat)
    requires k < ROWS && !(SCHEME <= t)
    ensures !(Pattern(k) <= t)
  {
    assert SCHEME <= Pattern(k);
  }

  lemma {:induction false} PrefixPlusRest(p: string, value: string)
    requires p <= value
    ensures p + value[|p|..] == value
  {
  }

  lemma {:induction false} StagesNext(value: string, k: nat, services: Services)
    requires k < ROWS
    ensures Stages(value, k + 1, services) == Stage(Stages(value, k, services), k, services)
  {
  }

  // ---------------------------------------------------------------------------------------------
  // The loop

  /** placeholder in value */
  predicate Occurs(p: string, value: string) {
    exists q :: 0 <= q <= |value| && p <= value[q..]
  }

  lemma {:induction false} ReplaceAbsent(value: string, p: string, r: string)
    requires p != "" && !Occurs(p, value)
    ensures Replace(value, p, r) == value
  {
    assert forall q :: 0 <= q < |value| ==> value[q..] + "" == value[q..];
    ReplaceSkips(value, "", p, r);
    assert value + "" == value;
  }

  lemma {:induction false} StageAbsent(value: string, k: nat, services: Services)
    requires k < ROWS && !Occurs(Pattern(k), value)
    ensures Stage(value, k, services) == value
  {
    var service := ServiceFor(k, services);
    if service.Some? {
      ReplaceAbsent(value, Pattern(k), Rendered(RowAt(k), service.value));
    }
  }

  /** The body of the loop: skip an absent placeholder, skip a role without service, else replace. */
  method ResolveRow(before: string, k: nat, services: Services) returns (value: string)
    requires k < ROWS
    ensures value == Stage(before, k, services)
  {
    value := before;
    var occurs := Find(Pattern(k), value);
    if !occurs {
      StageAbsent(before, k, services);
      return;
    }
    var service := ServiceFor(k, services);
    if service.None? {
      return;
    }
    value := Replace(value, Pattern(k), Rendered(RowAt(k), service.value));
  }

  /** resolve_crag_placeholders: the table is walked in order and the value reassigned. */
  method ResolveCragPlaceholders(text: string, services: Services) returns (value: string)
    ensures value == Stages(text, ROWS, services)
  {
    value := text;
    for k := 0 to ROWS
      invariant value == Stages(text, k, services)
    {
      value := ResolveRow(value, k, services);
      StagesNext(text, k, services);
    }
  }

  method Find(p: string, value: string) returns (found: bool)
    ensures found <==> Occurs(p, value)
  {
    found := false;
    for q := 0 to |value| + 1
      invariant !found ==> forall i :: 0 <= i < q ==> !(p <= value[i..])
      invariant found ==> Occurs(p, value)
    {
      if p <= value[q..] {
        found := true;
      }
    }
  }

  // ---------------------------------------------------------------------------------------------
  // The remote runner's prefix rewriting

  function EnginePattern(e: Engine): string {
    SCHEME + EngineText(e)
  }

  /** replace_prefix on one value */
  function ReplacePrefix(value: string, placeholder: string, endpoint: string): string {
    if placeholder <= value then endpoint + value[|placeholder|..] else value
  }

  /** The two engines tried for a role, in order. */
  function RemoteEngines(r: Role): (Engine, Engine)
    requires r != Agent
  {
    match r
    case Browser => (Playwright, Neko)
    case Llm => (Ollama, Vllm)
    case Sql => (Postgres, Mysql)
    case Vector => (Chroma, Qdrant)
  }

  /** resolve_dependency_endpoints for one value and one dependency */
  function RemoteRewrite(value: string, r: Role, endpoint: string): string
    requires r != Agent
  {
    var engines := RemoteEngines(r);
    ReplacePrefix(ReplacePrefix(value, EnginePattern(engines.0), endpoint), EnginePattern(engines.1), endpoint)
  }

  function RowOf(e: Engine): nat {
    match e
    case Postgres => 11
    case Mysql => 12
    case Neko => 4
    case Playwright => 5
    case Ollama => 7
    case Vllm => 8
    case Qdrant => 9
    case Chroma => 10
  }

  function HttpEndpoint(e: Engine, service: string): string {
    ("http" + "://") + service + PortText(RowAt(RowOf(e)).port)
  }

  lemma {:induction false} EnginesApart(e: Engine, f: Engine, leaf: string, rest: string)
    requires e != f
    ensures !(EnginePattern(e) + leaf <= EnginePattern(f) + rest)
  {
    var d := EnginesDiffer(e, f);
    FirstDifference(EnginePattern(e) + leaf, EnginePattern(f) + rest, 7 + d);
  }

  /** Which rows start at an engine's placeholder. */
  lemma {:induction false} PatternOnEngine(e: Engine, rest: string, k: nat)
    requires k < ROWS
    ensures Pattern(k) <= EnginePattern(e) + rest <==> RowAt(k).engine == e && RowAt(k).leaf <= rest
  {
    var f, leaf := RowAt(k).engine, RowAt(k).leaf;
    assert Pattern(k) == EnginePattern(f) + leaf;
    if f != e {
      EnginesApart(f, e, leaf, rest);
    } else {
      CancelPrefix(EnginePattern(e), leaf, rest);
    }
  }

  lemma {:induction false} RemoteResult(e: Engine, rest: string, endpoint: string)
    requires |endpoint| >= 1 && endpoint[0] == 'h'
    ensures RemoteRewrite(EnginePattern(e) + rest, RoleOf(e), endpoint) == endpoint + rest
  {
    var value := EnginePattern(e) + rest;
    var engines := RemoteEngines(RoleOf(e));
    assert value[|EnginePattern(e)|..] == rest;
    if e == engines.0 {
      FirstDifference(EnginePattern(engines.1), endpoint + rest, 0);
    } else {
      assert e == engines.1;
      EnginesApart(engines.0, e, "", rest);
      assert EnginePattern(engines.0) + "" == EnginePattern(engines.0);
    }
  }

  // ---------------------------------------------------------------------------------------------
  // The table, letter by letter

  lemma {:induction false} LastDigit(n: nat, d: nat)
    requires 0 < n && d < 10
    ensures Decimal(10 * n + d) == Decimal(n) + [Digit(d)]
  {
  }

  lemma {:induction false} FourDigits(a: nat, b: nat, c: nat, d: nat)
    requires 0 < a < 10 && b < 10 && c < 10 && d < 10
    ensures Decimal(10 * (10 * (10 * a + b) + c) + d) == [Digit(a), Digit(b), Digit(c), Digit(d)]
  {
    LastDigit(10 * (10 * a + b) + c, d);
    LastDigit(10 * a + b, c);
    LastDigit(a, b);
  }

  /** The ports of the table as text. */
  lemma {:induction false} PortsAsText()
    ensures PortText(5432) == ":5432" && PortText(3306) == ":3306" && PortText(8080) == ":8080"
    ensures PortText(3000) == ":3000" && PortText(8000) == ":8000" && PortText(6333) == ":6333"
    ensures PortText(11434) == ":11434"
  {
    hide Decimal;
    FourDigits(5, 4, 3, 2);
    FourDigits(3, 3, 0, 6);
    FourDigits(8, 0, 8, 0);
    FourDigits(3, 0, 0, 0);
    FourDigits(8, 0, 0, 0);
    FourDigits(6, 3, 3, 3);
    FourDigits(1, 1, 4, 3);
    LastDigit(1143, 4);
  }

  lemma {:induction false} DatabasesAsWritten()
    ensures EnginePattern(Postgres) == "crag://sql/postgres" && EnginePattern(Mysql) == "crag://sql/mysql"
    ensures EnginePattern(Qdrant) == "crag://vector/qdrant" && EnginePattern(Chroma) == "crag://vector/chroma"
  {
  }

  lemma {:induction false} ServersAsWritten()
    ensures EnginePattern(Neko) == "crag://browser/neko" && EnginePattern(Playwright) == "crag://browser/playwright"
    ensures EnginePattern(Ollama) == "crag://llm/ollama" && EnginePattern(Vllm) == "crag://llm/vllm"
  {
  }

  lemma {:induction false} PatternOf(i: nat, e: Engine, leaf: string)
    requires i < ROWS && RowAt(i).engine == e && RowAt(i).leaf == leaf
    ensures Pattern(i) == EnginePattern(e) + leaf
  {
    hide EngineText, RowAt;
  }

  lemma {:induction false} RenderedOf(i: nat, r: Row, s: string, port: string)
    requires i < ROWS && r == RowAt(i) && r.port != 0 && port == PortText(r.port)
    ensures Rendered(RowAt(i), s) == (if r.scheme != "" then r.scheme + "://" else "") + s + port + r.suffix
  {
    hide PortText, RowAt;
  }

  /** The thirteen placeholders in the order in which they are replaced. */
  lemma {:induction false} PlaceholdersAsWritten()
    ensures ROWS == 13
    ensures Pattern(0) == "crag://sql/postgres" + "/hostport" && Pattern(1) == "crag://sql/postgres" + "/host"
    ensures Pattern(2) == "crag://sql/mysql" + "/hostport" && Pattern(3) == "crag://sql/mysql" + "/host"
    ensures Pattern(4) == "crag://browser/neko" && Pattern(5) == "crag://browser/playwright"
    ensures Pattern(6) == "crag://llm/ollama" + "/v1" && Pattern(7) == "crag://llm/ollama"
    ensures Pattern(8) == "crag://llm/vllm" + "/v1"
    ensures Pattern(9) == "crag://vector/qdrant" && Pattern(10) == "crag://vector/chroma"
    ensures Pattern(11) == "crag://sql/postgres" && Pattern(12) == "crag://sql/mysql"
  {
    DatabasesAsWritten();
    ServersAsWritten();
    hide EnginePattern, EngineText, Pattern;
    forall i | 0 <= i < ROWS
      ensures Pattern(i) == EnginePattern(RowAt(i).engine) + RowAt(i).leaf
    {
      PatternOf(i, RowAt(i).engine, RowAt(i).leaf);
    }
  }

  /** What each row puts for its placeholder, for a service called s. */
  lemma {:induction false} TextsAsWritten(s: string)
    ensures Rendered(RowAt(0), s) == s + ":5432" && Rendered(RowAt(2), s) == s + ":3306"
    ensures Rendered(RowAt(1), s) == s && Rendered(RowAt(3), s) == s
    ensures Rendered(RowAt(4), s) == "http" + "://" + s + ":8080"
    ensures Rendered(RowAt(5), s) == "http" + "://" + s + ":3000"
    ensures Rendered(RowAt(6), s) == "http" + "://" + s + ":11434" + "/v1"
    ensures Rendered(RowAt(7), s) == "http" + "://" + s + ":11434"
    ensures Rendered(RowAt(8), s) == "http" + "://" + s + ":8000" + "/v1"
    ensures Rendered(RowAt(9), s) == "http" + "://" + s + ":6333"
    ensures Rendered(RowAt(10), s) == "http" + "://" + s + ":8000"
    ensures Rendered(RowAt(11), s) == "postgresql" + "://" + s + ":5432"
    ensures Rendered(RowAt(12), s) == "mysql" + "://" + s + ":3306"
  {
    PortsAsText();
    assert Rendered(RowAt(1), s) == s + "" && Rendered(RowAt(3), s) == s + "";
    hide PortText, Rendered;
    forall i | 0 <= i < ROWS && RowAt(i).port != 0
      ensures Rendered(RowAt(i), s) ==
              (if RowAt(i).scheme != "" then RowAt(i).scheme + "://" else "") + s + PortText(RowAt(i).port)
              + RowAt(i).suffix
    {
      RenderedOf(i, RowAt(i), s, PortText(RowAt(i).port));
    }
    assert "" + s == s;
  }

  /** The role whose service each row waits for. */
  lemma {:induction false} RolesAsWritten(i: nat, services: Services)
    requires i < ROWS
    ensures ServiceFor(i, services) ==
            services(if i < 4 || 11 <= i then Sql else if i < 6 then Browser else if i < 9 then Llm else Vector)
  {
  }
}
