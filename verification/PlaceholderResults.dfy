/** What comes out of the replacements: nothing left over, the remote result, and what it tells about the services. */
module PlaceholderResults {
  import opened Options
  import opened Text
  import opened Roles
  import opened Placeholders
  import opened PlaceholderStages
  import opened PlaceholderJoins

  // ---------------------------------------------------------------------------------------------
  // What is left after the pass

  predicate NoScheme(t: string) {
    forall q :: 0 <= q < |t| ==> !SchemeAt(t, q)
  }

  lemma {:induction false} NoSchemeConcat(y: string, x: string)
    requires forall q :: 0 <= q < |y| ==> !SchemeAt(y + x, q)
    ensures NoScheme(y + x) <==> NoScheme(x)
  {
    forall q | 0 <= q < |x| ensures SchemeAt(y + x, |y| + q) <==> SchemeAt(x, q) {
      SchemeMoves(y, x, q);
    }
    forall q | |y| <= q < |y + x| ensures SchemeAt(y + x, q) <==> SchemeAt(x, q - |y|) {
      SchemeMoves(y, x, q - |y|);
    }
  }

  lemma {:induction false} RawLeavesScheme(i: nat, x: string)
    requires i < ROWS
    ensures !NoScheme(Pattern(i) + x)
  {
    var t := Pattern(i) + x;
    assert SCHEME <= Pattern(i) <= t && t[0..] == t;
    SchemePrefix(t, 0);
    assert SchemeAt(t, 0);
  }

  /** Text that no substituted or raw placeholder can begin with, at any of its positions. */
  predicate Transparent(t: string) {
    forall i :: 0 <= i < |t| ==> ClearAt(t, i)
  }

  predicate ClearAt(t: string, i: nat)
    requires i < |t|
  {
    && t[i] != 'm' && t[i] != 'c'
    && (t[i] == 'h' ==> i + 1 < |t| && t[i + 1] != 't')
    && (t[i] == 'p' ==> i + 2 < |t| && (t[i + 1] != 'o' || t[i + 2] != 's'))
  }

  lemma {:induction false} TransparentTail(t: string)
    requires Transparent(t) && t != ""
    ensures Transparent(t[1..])
  {
    forall i | 0 <= i < |t| - 1 ensures ClearAt(t[1..], i) {
      assert ClearAt(t, i + 1);
    }
  }

  lemma {:induction false} HeadDiffers(t: string, y: string, rest: string)
    requires Transparent(t) && t != "" && HeadOk(y)
    ensures !(t <= y + rest)
  {
    var s := y + rest;
    assert ClearAt(t, 0);
    assert s[0] == y[0] && s[1] == y[1] && s[2] == y[2];
    var i := if t[0] != s[0] then 0 else if t[0] == 'h' || t[1] != s[1] then 1 else 2;
    FirstDifference(t, s, i);
  }

  lemma {:induction false} ConsPrefix(t: string, c: char, rest: string)
    requires t != ""
    ensures t <= [c] + rest <==> t[0] == c && t[1..] <= rest
  {
    assert t == [t[0]] + t[1..];
    if t[0] == c {
      CancelPrefix([c], t[1..], rest);
    } else {
      FirstDifference(t, [c] + rest, 0);
    }
  }

  lemma {:induction false} JoinTextsTransparent()
    ensures Transparent("rag://") && Transparent("ag://") && Transparent("g://") && Transparent("://")
  {
  }

  /** Such text stands at the head of x exactly if it stands at the head of the value. */
  ghost predicate SeesSame(value: string, x: string) {
    forall t: string :: Transparent(t) ==> (t <= x <==> t <= value)
  }

  lemma {:induction false} TransparentLacksC(t: string)
    requires Transparent(t)
    ensures 'c' !in t
  {
    forall i | 0 <= i < |t| ensures t[i] != 'c' {
      assert ClearAt(t, i);
    }
  }

  lemma {:induction false} SeenStep(t: string, value: string, x: string)
    requires t != "" && value != "" && (t[1..] <= x ==> t[1..] <= value[1..])
    ensures t <= [value[0]] + x ==> t <= value
  {
    ConsPrefix(t, value[0], x);
    ConsPrefix(t, value[0], value[1..]);
    assert value == [value[0]] + value[1..];
  }

  lemma {:induction false} SeenInPass(t: string, value: string, services: Services)
    requires Transparent(t) && ServicesOk(services)
    ensures t <= OnePass(value, services) ==> t <= value
    decreases |t|
  {
    if t != "" && value != "" {
      var m := Match(value);
      if m.Some? {
        PieceHead(m.value, services);
        HeadDiffers(t, Piece(m.value, services), OnePass(After(value, m.value), services));
      } else {
        TransparentTail(t);
        SeenInPass(t[1..], value[1..], services);
        SeenStep(t, value, OnePass(value[1..], services));
      }
    }
  }

  lemma {:induction false} PassSeesSame(value: string, services: Services)
    requires ServicesOk(services)
    ensures SeesSame(value, OnePass(value, services))
  {
    forall t: string | Transparent(t) ensures t <= OnePass(value, services) <==> t <= value {
      SeenInPass(t, value, services);
      if t <= value {
        TransparentLacksC(t);
        PrefixPlusRest(t, value);
        PassCopies(t, value[|t|..], services);
      }
    }
  }

  lemma {:induction false} WalkHead(value: string, i: nat, services: Services)
    requires ServicesOk(services) && Match(value) == Some(i)
    ensures HeadOk(LeftToRight(value, services))
  {
    hide RowAt, EngineText, Stages, Rendered;
    ReplacementsAreWalk(value, services);
    PatternStart(i);
    if ServiceFor(i, services).None? {
      RawStages(value, i, ROWS, services);
      PieceHead(i, services);
    } else if IsHostRow(i) && !NoJoin(ServiceFor(i, services).value, i + 1, ROWS, After(value, i), services) {
      var b, x := JoinedStages(value, i, ROWS, services);
      HostStart(b, Stages(value, ROWS, services));
    } else {
      DoneStages(value, i, ROWS, services);
      PieceHead(i, services);
    }
  }

  lemma {:induction false} SeenInWalk(t: string, value: string, services: Services)
    requires Transparent(t) && ServicesOk(services)
    ensures t <= LeftToRight(value, services) ==> t <= value
    decreases |t|
  {
    hide HeadOk, FromHost, Completed;
    if t != "" && value != "" {
      var text := LeftToRight(value, services);
      assert text + "" == text;
      if Match(value).Some? {
        WalkHead(value, Match(value).value, services);
        HeadDiffers(t, text, "");
      } else if Completes(value, services) {
        CompletedHead(services);
        HeadDiffers(t, Completed(services), LeftToRight(value[|PlaywrigNeko()|..], services));
      } else {
        TransparentTail(t);
        SeenInWalk(t[1..], value[1..], services);
        SeenStep(t, value, LeftToRight(value[1..], services));
      }
    }
  }

  lemma {:induction false} CompletedHead(services: Services)
    requires ServicesOk(services) && services(Browser).Some?
    ensures HeadOk(Completed(services))
  {
    RenderedHead(5, services(Browser).value);
  }

  lemma {:induction false} WalkSeesSame(value: string, services: Services)
    requires ServicesOk(services)
    ensures SeesSame(value, LeftToRight(value, services))
  {
    forall t: string | Transparent(t) ensures t <= LeftToRight(value, services) <==> t <= value {
      SeenInWalk(t, value, services);
      if t <= value {
        TransparentLacksC(t);
        PrefixPlusRest(t, value);
        LastingStays(t, value[|t|..], ROWS, services);
        ReplacementsAreWalk(value, services);
      }
    }
  }

  lemma {:induction false} JoinSafeThrough(s: string, value: string, x: string)
    requires SeesSame(value, x)
    ensures JoinSafe(s, value) <==> JoinSafe(s, x)
  {
    JoinTextsTransparent();
    assert "rag://" <= x <==> "rag://" <= value;
    assert "ag://" <= x <==> "ag://" <= value;
    assert "g://" <= x <==> "g://" <= value;
    assert "://" <= x <==> "://" <= value;
  }

  lemma {:induction false} SchemeTail()
    ensures SCHEME[1..] == "rag://" && SCHEME[2..] == "ag://" && SCHEME[3..] == "g://" && SCHEME[4..] == "://"
            && SCHEME != ""
  {
  }

  lemma {:induction false} PlainThrough(value: string, x: string)
    requires value != "" && SeesSame(value[1..], x)
    ensures SCHEME <= [value[0]] + x <==> SCHEME <= value
  {
    SchemeTail();
    JoinTextsTransparent();
    assert "rag://" <= x <==> "rag://" <= value[1..];
    ConsPrefix(SCHEME, value[0], x);
    ConsPrefix(SCHEME, value[0], value[1..]);
    assert value == [value[0]] + value[1..];
  }

  lemma {:induction false} JoinMakesScheme(s: string, x: string)
    requires !JoinSafe(s, x)
    ensures exists q :: 0 <= q < |s| && SchemeAt(s + x, q)
  {
    var t := s + x;
    assert forall i :: 0 <= i < |s| ==> t[i] == s[i];
    assert forall i :: 0 <= i < |x| ==> t[|s| + i] == x[i];
    if |s| >= 1 && s[|s| - 1] == 'c' && "rag://" <= x {
      assert forall i :: 0 <= i < 6 ==> x[i] == "rag://"[i];
      assert SchemeAt(t, |s| - 1);
    } else if |s| >= 2 && s[|s| - 1] == 'r' && s[|s| - 2] == 'c' && "ag://" <= x {
      assert forall i :: 0 <= i < 5 ==> x[i] == "ag://"[i];
      assert SchemeAt(t, |s| - 2);
    } else if |s| >= 3 && s[|s| - 1] == 'a' && s[|s| - 2] == 'r' && s[|s| - 3] == 'c' && "g://" <= x {
      assert forall i :: 0 <= i < 4 ==> x[i] == "g://"[i];
      assert SchemeAt(t, |s| - 3);
    } else {
      assert forall i :: 0 <= i < 3 ==> x[i] == "://"[i];
      assert SchemeAt(t, |s| - 4);
    }
  }

  /** Every "crag://" that the pass meets starts a placeholder whose role has a service, and no host name put for one
      makes up a "crag://" with the text after it. */
  predicate Clean(value: string, services: Services)
    decreases |value|
  {
    value == "" ||
    var m := Match(value);
    if m.Some? then
      var rest := After(value, m.value);
      var service := ServiceFor(m.value, services);
      service.Some? && (IsHostRow(m.value) ==> JoinSafe(service.value, rest)) && Clean(rest, services)
    else !(SCHEME <= value) && Clean(value[1..], services)
  }

  /** No "crag://" starts in a host name exactly if it is safe with the text after it. */
  lemma {:induction false} HostClosed(host: string, rest: string, x: string)
    requires ':' !in host && SeesSame(rest, x)
    ensures (forall q :: 0 <= q < |host| ==> !SchemeAt(host + x, q)) <==> JoinSafe(host, rest)
  {
    JoinSafeThrough(host, rest, x);
    if JoinSafe(host, x) {
      assert ColonSafe(host);
      NoSchemeIn(host, x);
    } else {
      JoinMakesScheme(host, x);
    }
  }

  lemma {:induction false} PieceClosed(i: nat, rest: string, x: string, services: Services)
    requires i < ROWS && ServicesOk(services) && ServiceFor(i, services).Some? && SeesSame(rest, x)
    ensures (forall q :: 0 <= q < |Piece(i, services)| ==> !SchemeAt(Piece(i, services) + x, q))
            <==> (IsHostRow(i) ==> JoinSafe(ServiceFor(i, services).value, rest))
  {
    var service := ServiceFor(i, services).value;
    if IsHostRow(i) {
      RenderedTail(i, service);
      assert Piece(i, services) == service;
      HostClosed(service, rest, x);
    } else {
      RenderedIsLasting(i, service);
    }
  }

  lemma {:induction false} PlainScheme(value: string, x: string)
    requires value != "" && SeesSame(value[1..], x)
    ensures NoScheme([value[0]] + x) <==> !(SCHEME <= value) && NoScheme(x)
  {
    PlainThrough(value, x);
    assert ([value[0]] + x)[0..] == [value[0]] + x;
    SchemePrefix([value[0]] + x, 0);
    SchemesOf([value[0]], x);
  }

  /** The pass leaves no "crag://" behind exactly for the clean values. */
  lemma {:induction false} PassLeavesNothing(value: string, services: Services)
    requires ServicesOk(services)
    ensures NoScheme(OnePass(value, services)) <==> Clean(value, services)
    decreases |value|
  {
    hide EngineText, Rendered, SeesSame, NoScheme;
    if value == "" {
      EmptyHasNoScheme();
    } else {
      var m := Match(value);
      if m.Some? {
        var i, rest := m.value, After(value, m.value);
        var y, x := Piece(i, services), OnePass(rest, services);
        PassLeavesNothing(rest, services);
        if ServiceFor(i, services).Some? {
          PassSeesSame(rest, services);
          PieceClosed(i, rest, x, services);
          SchemesOf(y, x);
        } else {
          RawLeavesScheme(i, x);
        }
      } else {
        PassLeavesNothing(value[1..], services);
        PassSeesSame(value[1..], services);
        PlainScheme(value, OnePass(value[1..], services));
      }
    }
  }

  lemma {:induction false} EmptyHasNoScheme()
    ensures NoScheme("")
  {
  }

  /** Every "crag://" that the replacements meet starts a placeholder whose role has a service, and no host name that
      they leave makes up a "crag://" with the text after it. */
  predicate Spotless(value: string, services: Services)
    decreases |value|, 0
  {
    value == "" ||
    var m := Match(value);
    if m.Some? then
      PatternStart(m.value);
      var rest, service := After(value, m.value), ServiceFor(m.value, services);
      service.Some?
        && if IsHostRow(m.value) then HostSpotless(service.value, m.value + 1, rest, services)
           else Spotless(rest, services)
    else if Completes(value, services) then Spotless(value[|PlaywrigNeko()|..], services)
    else !(SCHEME <= value) && Spotless(value[1..], services)
  }

  /** The same of a host name put by a row before k, which later rows may break up. */
  predicate HostSpotless(host: string, k: nat, rest: string, services: Services)
    requires k <= ROWS
    decreases |rest|, 1 + ROWS - k
  {
    if k == ROWS then JoinSafe(host, rest) && Spotless(rest, services)
    else if !Joins(host, k, rest, services) then HostSpotless(host, k + 1, rest, services)
    else
      PatternStart(k);
      var n := Ending(host);
      if !(Pattern(k)[n..] <= rest) then Spotless(rest[|PlaywrigNeko()| - n..], services)
      else if IsHostRow(k) then
        HostSpotless(host[..|host| - n] + ServiceFor(k, services).value, k + 1, rest[|Pattern(k)| - n..], services)
      else Spotless(rest[|Pattern(k)| - n..], services)
  }

  lemma {:induction false} LastingSpotless(y: string, x: string)
    requires Lasting(y)
    ensures NoScheme(y + x) <==> NoScheme(x)
  {
    NoSchemeConcat(y, x);
  }

  lemma {:induction false} WalkLeavesNothing(value: string, services: Services)
    requires ServicesOk(services)
    ensures NoScheme(LeftToRight(value, services)) <==> Spotless(value, services)
    decreases |value|, 0
  {
    hide RowAt, EngineText, Rendered, SeesSame, NoScheme, Completed, FromHost, HostSpotless, Lasting;
    if value == "" {
      EmptyHasNoScheme();
    } else if Match(value).Some? {
      var i := Match(value).value;
      var rest, service := After(value, i), ServiceFor(i, services);
      PatternStart(i);
      if service.None? {
        RawLeavesScheme(i, LeftToRight(rest, services));
      } else if IsHostRow(i) {
        HostLeavesNothing(service.value, i + 1, rest, services);
      } else {
        WalkLeavesNothing(rest, services);
        RenderedIsLasting(i, service.value);
        LastingSpotless(Piece(i, services), LeftToRight(rest, services));
      }
    } else if Completes(value, services) {
      var tail := value[|PlaywrigNeko()|..];
      WalkLeavesNothing(tail, services);
      CompletedLasting(services);
      LastingSpotless(Completed(services), LeftToRight(tail, services));
    } else {
      WalkLeavesNothing(value[1..], services);
      WalkSeesSame(value[1..], services);
      PlainScheme(value, LeftToRight(value[1..], services));
    }
  }

  lemma {:induction false} HostLeavesNothing(host: string, k: nat, rest: string, services: Services)
    requires k <= ROWS && ServicesOk(services) && ServiceOk(host)
    ensures NoScheme(FromHost(host, k, rest, services)) <==> HostSpotless(host, k, rest, services)
    decreases |rest|, 1 + ROWS - k
  {
    hide RowAt, EngineText, Rendered, SeesSame, NoScheme, Completed, LeftToRight, Spotless, Joins, JoinSafe;
    if k == ROWS {
      WalkLeavesNothing(rest, services);
      WalkSeesSame(rest, services);
      HostClosed(host, rest, LeftToRight(rest, services));
      SchemesOf(host, LeftToRight(rest, services));
    } else if !Joins(host, k, rest, services) {
      HostLeavesNothing(host, k + 1, rest, services);
    } else {
      JoinedLeavesNothing(host, k, rest, services);
    }
  }

  lemma {:induction false} JoinedLeavesNothing(host: string, k: nat, rest: string, services: Services)
    requires k < ROWS && ServicesOk(services) && ServiceOk(host) && Joins(host, k, rest, services)
    ensures NoScheme(FromHost(host, k, rest, services)) <==> HostSpotless(host, k, rest, services)
    decreases |rest|, 1
  {
    hide RowAt, EngineText, Rendered, SeesSame, NoScheme, Completed, LeftToRight, Spotless, Lasting;
    PatternStart(k);
    HostCut(host);
    var n := Ending(host);
    var front, service := host[..|host| - n], ServiceFor(k, services).value;
    assert ServiceOk(service);
    if !(Pattern(k)[n..] <= rest) {
      CompletedLasting(services);
      FrontLeavesNothing(front, Completed(services), rest[|PlaywrigNeko()| - n..], services);
    } else if IsHostRow(k) {
      HostGrown(front, service);
      HostLeavesNothing(front + service, k + 1, rest[|Pattern(k)| - n..], services);
    } else {
      RenderedIsLasting(k, service);
      RenderedLate(k, service);
      FrontLeavesNothing(front, Rendered(RowAt(k), service), rest[|Pattern(k)| - n..], services);
    }
  }

  lemma {:induction false} FrontLeavesNothing(front: string, y: string, tail: string, services: Services)
    requires ServicesOk(services) && ':' !in front && Lasting(y) && NoEarlyColon(y)
    ensures NoScheme(front + (y + LeftToRight(tail, services))) <==> Spotless(tail, services)
    decreases |tail|, 1
  {
    hide SeesSame, NoScheme, Completed, LeftToRight, Spotless, Lasting;
    WalkLeavesNothing(tail, services);
    FrontLasting(front, y);
    LastingSpotless(front + y, LeftToRight(tail, services));
    assert front + (y + LeftToRight(tail, services)) == (front + y) + LeftToRight(tail, services);
  }

  lemma {:induction false} SchemesOf(y: string, x: string)
    ensures NoScheme(y + x) <==> (forall q :: 0 <= q < |y| ==> !SchemeAt(y + x, q)) && NoScheme(x)
  {
    if forall q :: 0 <= q < |y| ==> !SchemeAt(y + x, q) {
      NoSchemeConcat(y, x);
    }
  }

  lemma {:induction false} JoinedIsUnsafe(host: string, n: nat, rest: string)
    requires 1 <= n <= 4 && n <= |host| && host[|host| - n..] == SCHEME[..n] && SCHEME[n..] <= rest
    ensures !JoinSafe(host, rest)
  {
    SchemeTail();
    assert forall i :: 0 <= i < n ==> host[|host| - n + i] == host[|host| - n..][i] == SCHEME[..n][i] == SCHEME[i];
    assert SCHEME[0] == 'c' && SCHEME[1] == 'r' && SCHEME[2] == 'a' && SCHEME[3] == 'g';
  }

  lemma {:induction false} SafeNeverJoins(host: string, k: nat, rest: string, services: Services)
    requires k < ROWS && JoinSafe(host, rest)
    ensures !JoinAt(host, k, rest, services)
  {
    forall n: nat | n <= 4 ensures !JoinsWith(host, n, k, rest, services) {
      if JoinsWith(host, n, k, rest, services) {
        BeginsScheme(k, n, rest, services);
        JoinedIsUnsafe(host, n, rest);
      }
    }
  }

  lemma {:induction false} CleanIsPlaced(value: string, services: Services)
    requires Clean(value, services)
    ensures Placed(value, services)
    decreases |value|
  {
    if value != "" {
      var m := Match(value);
      if m.Some? {
        var rest, service := After(value, m.value), ServiceFor(m.value, services).value;
        CleanIsPlaced(rest, services);
        if IsHostRow(m.value) {
          forall k: nat | k < ROWS ensures !JoinAt(service, k, rest, services) {
            SafeNeverJoins(service, k, rest, services);
          }
        }
      } else {
        CleanIsPlaced(value[1..], services);
        if Completes(value, services) {
          CompletesScheme(value, services);
        }
      }
    }
  }

  lemma {:induction false} CompletesScheme(value: string, services: Services)
    requires Completes(value, services)
    ensures SCHEME <= value
  {
    var p := PlaywrigNeko();
    assert PLAYWRIG[..7] == SCHEME;
    assert SCHEME == p[..7] == value[..7];
  }

  /** The replacements leave no "crag://" exactly for the spotless values; clean values are spotless, and where the
      replacements equal the pass no others are. */
  lemma {:induction false} NothingLeft(value: string, services: Services)
    requires ServicesOk(services)
    ensures NoScheme(Stages(value, ROWS, services)) <==> Spotless(value, services)
    ensures Clean(value, services) ==> Spotless(value, services)
    ensures Placed(value, services) ==> (Spotless(value, services) <==> Clean(value, services))
  {
    ReplacementsAreWalk(value, services);
    WalkLeavesNothing(value, services);
    PassLeavesNothing(value, services);
    SequentialIsOnePass(value, services);
    if Clean(value, services) {
      CleanIsPlaced(value, services);
    }
  }

  /** Every "crag://" starts a known placeholder that is followed by '/' or by the end of the text. */
  predicate WellFormed(value: string)
    decreases |value|
  {
    value == "" ||
    var m := Match(value);
    if m.Some? then
      var rest := After(value, m.value);
      (rest == "" || rest[0] == '/') && WellFormed(rest)
    else !(SCHEME <= value) && WellFormed(value[1..])
  }

  lemma {:induction false} SlashJoins(s: string, rest: string)
    requires rest == "" || rest[0] == '/'
    ensures JoinSafe(s, rest)
  {
    if rest != "" {
      FirstDifference("rag://", rest, 0);
      FirstDifference("ag://", rest, 0);
      FirstDifference("g://", rest, 0);
      FirstDifference("://", rest, 0);
    }
  }

  /** Every role that a placeholder of the value names has a service. */
  predicate AllServed(value: string, services: Services)
    decreases |value|
  {
    value == "" ||
    var m := Match(value);
    if m.Some? then ServiceFor(m.value, services).Some? && AllServed(After(value, m.value), services)
    else AllServed(value[1..], services)
  }

  /** A value whose placeholders are followed by '/' or the end is placed, whatever the services are called, and it is
      clean if they are all there. */
  lemma {:induction false} WellFormedIsPlaced(value: string, services: Services)
    requires WellFormed(value)
    ensures Placed(value, services) && (AllServed(value, services) ==> Clean(value, services))
    decreases |value|
  {
    if value != "" {
      var m := Match(value);
      if m.Some? {
        var rest := After(value, m.value);
        var service := ServiceFor(m.value, services);
        WellFormedIsPlaced(rest, services);
        if service.Some? {
          SlashJoins(service.value, rest);
          forall k: nat | k < ROWS ensures !JoinAt(service.value, k, rest, services) {
            SafeNeverJoins(service.value, k, rest, services);
          }
        }
      } else {
        WellFormedIsPlaced(value[1..], services);
        if Completes(value, services) {
          CompletesScheme(value, services);
        }
      }
    }
  }

  // ---------------------------------------------------------------------------------------------
  // Where the order does matter

  const STRADDLE := "rag://llm/ollama"

  /** A SQL service whose name ends in 'c': the text after a replaced host can complete a placeholder, which a later row
      then replaces although the value never held it. */
  lemma {:induction false} HostJoinBreaks(b: string, services: Services)
    requires ServicesOk(services) && services(Sql) == Some(b + "c") && services(Llm).Some?
    ensures var value := Pattern(1) + STRADDLE;
            && OnePass(value, services) == (b + "c") + STRADDLE
            && Stages(value, ROWS, services) != OnePass(value, services)
  {
    HostMatch();
    StraddleJoins(b, services);
    SequentialIsOnePass(Pattern(1) + STRADDLE, services);
    RenderedTail(1, b + "c");
    HostPass(Pattern(1) + STRADDLE, 1, services);
    StraddlePasses(services);
  }

  lemma {:induction false} StraddleJoins(b: string, services: Services)
    requires services(Llm).Some?
    ensures JoinAt(b + "c", 7, STRADDLE, services)
  {
    assert Pattern(7) == "c" + STRADDLE;
    var host := b + "c";
    assert host[|host| - 1..] == "c" == SCHEME[..1];
    assert JoinsWith(host, 1, 7, STRADDLE, services);
  }

  lemma {:induction false} StraddlePasses(services: Services)
    ensures OnePass(STRADDLE, services) == STRADDLE
  {
    assert 'c' !in STRADDLE && STRADDLE + "" == STRADDLE;
    PassCopies(STRADDLE, "", services);
  }

  lemma {:induction false} HostMatch()
    ensures Match(Pattern(1) + STRADDLE) == Some(1) && After(Pattern(1) + STRADDLE, 1) == STRADDLE
  {
    var t := PatternsNest(0, 1);
    FirstDifference(t, STRADDLE, 0);
    CancelPrefix(Pattern(1), t, STRADDLE);
    MatchFromIs(Pattern(1) + STRADDLE, 0, 1);
  }

  /** The "http" put for a neko placeholder completes a playwright placeholder before it, whatever the services. */
  lemma {:induction false} NekoJoinBreaks(services: Services)
    requires ServicesOk(services) && services(Browser).Some?
    ensures var value := PLAYWRIG + Pattern(4);
            && Rendered(RowAt(5), services(Browser).value) <= Stages(value, ROWS, services)
            && OnePass(value, services) == PLAYWRIG + Rendered(RowAt(4), services(Browser).value)
  {
    hide EngineText, Rendered, Stages;
    PlaywrigAlone();
    CompletedStages(PLAYWRIG + Pattern(4), ROWS, services);
    NekoPasses(services);
    assert 'c' !in PLAYWRIG[1..];
    PlainPasses(PLAYWRIG, Pattern(4), services);
  }

  lemma {:induction false} NekoPasses(services: Services)
    requires services(Browser).Some?
    ensures OnePass(Pattern(4), services) == Rendered(RowAt(4), services(Browser).value)
  {
    NekoMatch("");
    assert Pattern(4) + "" == Pattern(4);
    HostPass(Pattern(4), 4, services);
    var r := Rendered(RowAt(4), services(Browser).value);
    assert r + "" == r;
  }

  lemma {:induction false} PlainPasses(g: string, x: string, services: Services)
    requires g != "" && 'c' !in g[1..] && Match(g + x).None?
    ensures OnePass(g + x, services) == g + OnePass(x, services)
  {
    hide RowAt, EngineText, Match, Piece;
    PassCopies(g[1..], x, services);
    assert (g + x)[1..] == g[1..] + x && (g + x)[0] == g[0];
    ConsText(g, OnePass(x, services));
  }

  lemma {:induction false} OtherThanPlaywrig(k: nat, x: string)
    requires k < ROWS && RowAt(k).engine != Playwright
    ensures !(Pattern(k) <= PLAYWRIG + x)
  {
    var f, d := RowAt(k).engine, if RoleOf(RowAt(k).engine) == Browser then 8 else 0;
    EngineTag(f);
    assert PLAYWRIG[7] == 'b' && PLAYWRIG[15] == 'p';
    assert Pattern(k)[7 + d] == EngineText(f)[d] && (PLAYWRIG + x)[7 + d] == PLAYWRIG[7 + d];
    FirstDifference(Pattern(k), PLAYWRIG + x, 7 + d);
  }

  lemma {:induction false} PlaywrigAlone()
    ensures Match(PLAYWRIG + Pattern(4)).None?
  {
    hide EngineText;
    var value := PLAYWRIG + Pattern(4);
    forall k: nat | k < ROWS ensures !(Pattern(k) <= value) {
      if RowAt(k).engine == Playwright {
        PlaywrightCut();
        PatternStart(4);
        assert k == 5 && Pattern(5)[23] == "ht"[0] && value[23] == Pattern(4)[0] == 'c';
        FirstDifference(Pattern(5), value, 23);
      } else {
        OtherThanPlaywrig(k, Pattern(4));
      }
    }
  }

  // ---------------------------------------------------------------------------------------------
  // Which values are changed

  /** The pass meets a placeholder whose role has a service. */
  predicate Holds(value: string, services: Services)
    decreases |value|
  {
    value != "" &&
    var m := Match(value);
    if m.Some? then ServiceFor(m.value, services).Some? || Holds(After(value, m.value), services)
    else Holds(value[1..], services)
  }

  lemma {:induction false} DullHolds(g: string, x: string, services: Services)
    requires Dull(g)
    ensures Holds(g + x, services) <==> Holds(x, services)
    decreases |g|
  {
    if g == "" {
      assert g + x == x;
    } else {
      var value := g + x;
      assert DullAt(g, 0);
      assert value[0] == g[0] && (|g| > 1 ==> value[1] == g[1]) && value[1..] == g[1..] + x;
      MatchHead(value);
      forall q | 0 <= q < |g[1..]| ensures DullAt(g[1..], q) {
        assert DullAt(g, q + 1);
      }
      DullHolds(g[1..], x, services);
    }
  }

  lemma {:induction false} MatchHead(value: string)
    ensures Match(value).Some? ==> |value| > 7 && value[0] == 'c' && value[1] == 'r'
  {
    if Match(value).Some? {
      var p := Pattern(Match(value).value);
      PatternStart(Match(value).value);
      assert p[0] == value[0] && p[1] == value[1];
    }
  }

  lemma {:induction false} CompletesHolds(value: string, services: Services)
    requires Match(value).None? && Completes(value, services)
    ensures Holds(value, services)
  {
    var tail := value[1..][|PlaywrigNeko()[1..]|..];
    TailPrefix(PlaywrigNeko(), value);
    CutTwice(value[1..], PLAYWRIG, Pattern(4), 1);
    PlaywrigDull(1);
    DullHolds(PLAYWRIG[1..], Pattern(4) + tail, services);
    NekoMatch(tail);
  }

  /** A value without such a placeholder stays as it is. */
  lemma {:induction false} UnheldStays(value: string, services: Services)
    requires ServicesOk(services) && !Holds(value, services)
    ensures Stages(value, ROWS, services) == value
    decreases |value|
  {
    hide Stages, EngineText;
    if value == "" {
      NothingStays(ROWS, services);
    } else if Match(value).Some? {
      var i := Match(value).value;
      PatternStart(i);
      RawStages(value, i, ROWS, services);
      UnheldStays(After(value, i), services);
      PrefixPlusRest(Pattern(i), value);
    } else {
      if Completes(value, services) {
        CompletesHolds(value, services);
      }
      PlainStages(value, ROWS, services);
      UnheldStays(value[1..], services);
      PrefixPlusRest([value[0]], value);
    }
  }

  /** What a replaced placeholder begins with: it cannot begin "crag:". */
  predicate Replaced(t: string) {
    t != "" && (t[0] == 'c' ==> |t| > 4 && t[4] == '-')
  }

  lemma {:induction false} ReplacedDiffers(t: string, p: string, value: string)
    requires Replaced(t) && |p| > 7 && p <= value && forall q :: 0 <= q < 7 ==> p[q] == SCHEME[q]
    ensures t != value
  {
    assert value[0] == p[0] == SCHEME[0] == 'c' && value[4] == p[4] == SCHEME[4] == ':';
  }

  lemma {:induction false} RenderedReplaced(i: nat, service: string, x: string)
    requires i < ROWS && ServiceOk(service)
    ensures Replaced(Rendered(RowAt(i), service) + x)
  {
    var y, c := Rendered(RowAt(i), service), RowAt(i).scheme;
    assert service[0] == "crag-"[0] && service[4] == "crag-"[4] == '-';
    if c != "" {
      assert c == "http" || c == "postgresql" || c == "mysql";
      assert y[0] == c[0];
    } else {
      assert y[0] == service[0] && y[4] == service[4];
    }
  }

  lemma {:induction false} ServedReplaced(value: string, i: nat, services: Services)
    requires ServicesOk(services) && Match(value) == Some(i) && ServiceFor(i, services).Some?
    ensures Replaced(Stages(value, ROWS, services))
  {
    hide Stages, EngineText, Rendered;
    var name := ServiceFor(i, services).value;
    if IsHostRow(i) && !NoJoin(name, i + 1, ROWS, After(value, i), services) {
      var b, x := JoinedStages(value, i, ROWS, services);
      var text := Stages(value, ROWS, services);
      assert text[4] == b[4] == "crag-"[4] == '-';
    } else {
      DoneStages(value, i, ROWS, services);
      RenderedReplaced(i, name, Stages(After(value, i), ROWS, services));
    }
  }

  lemma {:induction false} CompletedReplaced(value: string, services: Services)
    requires ServicesOk(services) && Match(value).None? && Completes(value, services)
    ensures value != "" && Replaced(Stages(value, ROWS, services)) && Stages(value, ROWS, services) != value
  {
    hide Stages, EngineText, Rendered;
    CompletedStages(value, ROWS, services);
    RenderedStart(5, services(Browser).value);
    ShorterPlaywrig(value);
  }

  /** The replacements change a value exactly if it holds a placeholder of a service. */
  lemma {:induction false} ChangedIfHeld(value: string, services: Services)
    requires ServicesOk(services)
    ensures Stages(value, ROWS, services) != value <==> Holds(value, services)
    decreases |value|
  {
    hide Stages, EngineText, Rendered, Replaced;
    if !Holds(value, services) {
      UnheldStays(value, services);
    } else if Match(value).Some? {
      var i := Match(value).value;
      PatternStart(i);
      if ServiceFor(i, services).Some? {
        ServedReplaced(value, i, services);
        ReplacedDiffers(Stages(value, ROWS, services), Pattern(i), value);
      } else {
        RawStages(value, i, ROWS, services);
        PrefixPlusRest(Pattern(i), value);
        ChangedIfHeld(After(value, i), services);
        SameTail(Pattern(i), Stages(After(value, i), ROWS, services), After(value, i));
      }
    } else if Completes(value, services) {
      CompletedReplaced(value, services);
    } else {
      PlainStages(value, ROWS, services);
      PrefixPlusRest([value[0]], value);
      ChangedIfHeld(value[1..], services);
      SameTail([value[0]], Stages(value[1..], ROWS, services), value[1..]);
    }
  }

  // ---------------------------------------------------------------------------------------------
  // The local and the remote result

  lemma {:induction false} EndpointRow(e: Engine, rest: string, j: nat)
    requires j < ROWS && RowAt(j).engine == e && RowAt(j).leaf <= rest
    requires forall k :: 0 <= k < j && RowAt(k).engine == e ==> !(RowAt(k).leaf <= rest)
    ensures Match(EnginePattern(e) + rest) == Some(j)
  {
    var value := EnginePattern(e) + rest;
    forall k | 0 <= k < j ensures !(Pattern(k) <= value) {
      PatternOnEngine(e, rest, k);
    }
    PatternOnEngine(e, rest, j);
    MatchFromIs(value, 0, j);
  }

  lemma {:induction false} VllmLeaf(k: nat)
    requires k < ROWS && RowAt(k).engine == Vllm
    ensures RowAt(k).leaf == "/v1"
  {
  }

  lemma {:induction false} VllmAlone(rest: string)
    requires !("/v1" <= rest)
    ensures Match(EnginePattern(Vllm) + rest).None?
  {
    var m := Match(EnginePattern(Vllm) + rest);
    if m.Some? {
      PatternOnEngine(Vllm, rest, m.value);
      VllmLeaf(m.value);
    }
  }

  /** The row an llm, browser or vector placeholder matches. */
  function EndpointRowOf(e: Engine, rest: string): nat {
    if e == Ollama && "/v1" <= rest then 6 else RowOf(e)
  }

  lemma {:induction false} EndpointMatch(e: Engine, rest: string)
    requires RoleOf(e) != Sql && (e == Vllm ==> "/v1" <= rest)
    ensures Match(EnginePattern(e) + rest) == Some(EndpointRowOf(e, rest))
  {
    EndpointRow(e, rest, EndpointRowOf(e, rest));
  }

  lemma {:induction false} RenderedEndpoint(e: Engine, service: string, i: nat)
    requires RoleOf(e) != Sql && i < ROWS && RowAt(i).engine == e
    ensures RowAt(i).leaf == RowAt(i).suffix
    ensures Rendered(RowAt(i), service) == HttpEndpoint(e, service) + RowAt(i).suffix
  {
    var a, p := ("http" + "://") + service, PortText(RowAt(i).port);
    assert RowAt(i).port == RowAt(RowOf(e)).port;
    assert a + (p + RowAt(i).suffix) == (a + p) + RowAt(i).suffix;
  }

  lemma {:induction false} EndpointRowFits(e: Engine, rest: string)
    requires RoleOf(e) != Sql && (e == Vllm ==> "/v1" <= rest)
    ensures var i := EndpointRowOf(e, rest); i < ROWS && RowAt(i).engine == e && RowAt(i).leaf <= rest
  {
  }

  lemma {:induction false} NotHostRow(i: nat)
    requires i < ROWS && RoleOf(RowAt(i).engine) != Sql
    ensures !IsHostRow(i)
  {
  }

  lemma {:induction false} LeafRest(p: string, leaf: string, rest: string)
    requires leaf <= rest
    ensures (p + rest)[|p + leaf|..] == rest[|leaf|..]
  {
  }

  lemma {:induction false} LeafBack(a: string, leaf: string, rest: string)
    requires leaf <= rest
    ensures (a + leaf) + rest[|leaf|..] == a + rest
  {
    assert rest == leaf + rest[|leaf|..];
    assert (a + leaf) + rest[|leaf|..] == a + (leaf + rest[|leaf|..]);
  }

  /** The local result for an endpoint value that is in the table: the endpoint, its leaf, and what becomes of the text
      after them. */
  lemma {:induction false} LocalResult(e: Engine, rest: string, services: Services)
    requires RoleOf(e) != Sql && services(RoleOf(e)).Some? && (e == Vllm ==> "/v1" <= rest) && ServicesOk(services)
    ensures EndpointRowOf(e, rest) < ROWS && RowAt(EndpointRowOf(e, rest)).leaf <= rest
    ensures var leaf := RowAt(EndpointRowOf(e, rest)).leaf;
            Stages(EnginePattern(e) + rest, ROWS, services)
            == (HttpEndpoint(e, services(RoleOf(e)).value) + leaf) + Stages(rest[|leaf|..], ROWS, services)
  {
    var i, value := EndpointRowOf(e, rest), EnginePattern(e) + rest;
    var leaf := RowAt(i).leaf;
    EndpointRowFits(e, rest);
    EndpointMatch(e, rest);
    assert Pattern(i) == EnginePattern(e) + leaf;
    LeafRest(EnginePattern(e), leaf, rest);
    NotHostRow(i);
    DoneStages(value, i, ROWS, services);
    RenderedEndpoint(e, services(RoleOf(e)).value, i);
  }

  lemma {:induction false} LeafDull(e: Engine, rest: string)
    requires RoleOf(e) != Sql && (e == Vllm ==> "/v1" <= rest)
    ensures var i := EndpointRowOf(e, rest); i < ROWS && Dull(RowAt(i).leaf)
  {
  }

  lemma {:induction false} LeafHolds(e: Engine, rest: string, services: Services)
    requires RoleOf(e) != Sql && (e == Vllm ==> "/v1" <= rest)
    ensures var i := EndpointRowOf(e, rest);
            && i < ROWS && RowAt(i).leaf <= rest
            && (Holds(rest[|RowAt(i).leaf|..], services) <==> Holds(rest, services))
  {
    EndpointRowFits(e, rest);
    LeafDull(e, rest);
    var leaf := RowAt(EndpointRowOf(e, rest)).leaf;
    PrefixPlusRest(leaf, rest);
    DullHolds(leaf, rest[|leaf|..], services);
  }

  /** A plain "crag://llm/vllm" value keeps its first character: it is in no row. */
  lemma {:induction false} VllmStays(rest: string, services: Services)
    requires !("/v1" <= rest) && ServicesOk(services)
    ensures var text := Stages(EnginePattern(Vllm) + rest, ROWS, services); text != "" && text[0] == 'c'
  {
    hide Stages, EngineText, Match;
    var value := EnginePattern(Vllm) + rest;
    VllmAlone(rest);
    VllmCompletesNot(rest, services);
    PlainStages(value, ROWS, services);
    assert value[0] == SCHEME[0];
  }

  lemma {:induction false} VllmCompletesNot(rest: string, services: Services)
    ensures !Completes(EnginePattern(Vllm) + rest, services)
  {
    var value := EnginePattern(Vllm) + rest;
    assert value[9] == 'm' && PlaywrigNeko()[9] == PLAYWRIG[9] == 'o';
    FirstDifference(PlaywrigNeko(), value, 9);
  }

  /** For a value that begins with an llm, browser or vector placeholder, whatever follows it, the local replacements
      and the remote rewriting to http://service:port agree exactly if the placeholder is in the local table, which has
      no row for a vllm value that does not go on with "/v1", and the text after it holds no placeholder of a service,
      which the remote rewriting would leave alone. */
  lemma {:induction false} LocalEqualsRemote(e: Engine, rest: string, services: Services)
    requires RoleOf(e) != Sql && services(RoleOf(e)).Some? && ServicesOk(services)
    ensures Stages(EnginePattern(e) + rest, ROWS, services)
              == RemoteRewrite(EnginePattern(e) + rest, RoleOf(e), HttpEndpoint(e, services(RoleOf(e)).value))
            <==> (e == Vllm ==> "/v1" <= rest) && !Holds(rest, services)
  {
    hide Stages, RowAt, EngineText, EndpointRowOf, Holds;
    var endpoint := HttpEndpoint(e, services(RoleOf(e)).value);
    assert endpoint[0] == ("http" + "://")[0] == 'h';
    RemoteResult(e, rest, endpoint);
    if e == Vllm && !("/v1" <= rest) {
      VllmStays(rest, services);
      assert (endpoint + rest)[0] == 'h';
    } else {
      LocalResult(e, rest, services);
      var leaf := RowAt(EndpointRowOf(e, rest)).leaf;
      LeafBack(endpoint, leaf, rest);
      SameTail(endpoint + leaf, Stages(rest[|leaf|..], ROWS, services), rest[|leaf|..]);
      ChangedIfHeld(rest[|leaf|..], services);
      LeafHolds(e, rest, services);
    }
  }

  lemma {:induction false} OllamaResult(rest: string, services: Services)
    requires services(Llm).Some? && ServicesOk(services) && !("/v1" <= rest)
    ensures Stages(EnginePattern(Ollama) + rest, ROWS, services)
            == HttpEndpoint(Ollama, services(Llm).value) + Stages(rest, ROWS, services)
  {
    hide Stages, EngineText, HttpEndpoint;
    LocalResult(Ollama, rest, services);
    var endpoint := HttpEndpoint(Ollama, services(Llm).value);
    assert endpoint + "" == endpoint && rest[0..] == rest;
  }

  lemma {:induction false} SlashAfter(p: string, services: Services)
    requires p != "" && p[0] == 'c'
    ensures !("/v1" <= "/" + p) && Stages("/" + p, ROWS, services) == "/" + Stages(p, ROWS, services)
  {
    hide Stages;
    assert ("/" + p)[1] == p[0] && "/v1"[1] == 'v';
    FirstDifference("/v1", "/" + p, 1);
    DullIsLasting("/");
    LastingStays("/", p, ROWS, services);
  }

  /** The local table takes every placeholder of a value, the remote rewriting only the one at its head. */
  lemma {:induction false} SecondPlaceholderDiffers(services: Services)
    requires services(Llm).Some? && ServicesOk(services)
    ensures var p, endpoint := EnginePattern(Ollama), HttpEndpoint(Ollama, services(Llm).value);
            && Stages(p + ("/" + p), ROWS, services) == endpoint + ("/" + endpoint)
            && RemoteRewrite(p + ("/" + p), Llm, endpoint) == endpoint + ("/" + p)
  {
    hide Stages, EngineText;
    var p, endpoint := EnginePattern(Ollama), HttpEndpoint(Ollama, services(Llm).value);
    assert endpoint[0] == ("http" + "://")[0] == 'h' && p[0] == SCHEME[0] == 'c';
    RemoteResult(Ollama, "/" + p, endpoint);
    SlashAfter(p, services);
    OllamaResult("/" + p, services);
    OllamaResult("", services);
    NothingStays(ROWS, services);
    assert p + "" == p && endpoint + "" == endpoint;
  }

  // ---------------------------------------------------------------------------------------------
  // What a value tells about the services

  /** Names that differ before the last four characters of either. */
  predicate Apart(a: string, b: string) {
    exists p: nat :: p + 4 < |a| && p + 4 < |b| && a[p] != b[p]
  }

  ghost predicate AllApart(s1: Services, s2: Services) {
    forall r :: (s1(r).Some? <==> s2(r).Some?) && (s1(r).Some? ==> Apart(s1(r).value, s2(r).value))
  }

  /** The part of a replacement that stays whatever follows. */
  function Visible(i: nat, name: string): string
    requires i < ROWS && |name| > 4
  {
    if IsHostRow(i) then name[..|name| - 4] else Rendered(RowAt(i), name)
  }

  lemma {:induction false} ServedShows(value: string, i: nat, services: Services)
    requires ServicesOk(services) && Match(value) == Some(i) && ServiceFor(i, services).Some?
    ensures |ServiceFor(i, services).value| > 4
    ensures Visible(i, ServiceFor(i, services).value) <= Stages(value, ROWS, services)
    ensures '-' in Stages(value, ROWS, services)
  {
    hide Stages, EngineText, Rendered;
    var name := ServiceFor(i, services).value;
    assert ServiceOk(name);
    RenderedDash(i, name);
    if IsHostRow(i) && !NoJoin(name, i + 1, ROWS, After(value, i), services) {
      var b, x := JoinedStages(value, i, ROWS, services);
      assert '-' in b by {
        assert b[4] == "crag-"[4];
      }
      assert name[..|name| - 4] <= b <= b + [x];
    } else {
      DoneStages(value, i, ROWS, services);
      RenderedTail(i, name);
    }
  }

  lemma {:induction false} RenderedDash(i: nat, name: string)
    requires i < ROWS && ServiceOk(name)
    ensures '-' in Rendered(RowAt(i), name)
  {
    var y, row := Rendered(RowAt(i), name), RowAt(i);
    var n := if row.scheme != "" then |row.scheme| + 3 else 0;
    assert y[n + 4] == name[4] == "crag-"[4];
  }

  lemma {:induction false} ApartShows(i: nat, a: string, b: string, s: string, t: string)
    requires i < ROWS && |a| > 4 && |b| > 4 && Apart(a, b)
    requires Visible(i, a) <= s && Visible(i, b) <= t
    ensures s != t
  {
    hide EngineText;
    var p: nat :| p + 4 < |a| && p + 4 < |b| && a[p] != b[p];
    var row := RowAt(i);
    var n := if row.scheme != "" then |row.scheme| + 3 else 0;
    assert Visible(i, a)[n + p] == a[p] && Visible(i, b)[n + p] == b[p];
  }

  lemma {:induction false} HeldHasDash(value: string, services: Services)
    requires ServicesOk(services) && Holds(value, services)
    ensures '-' in Stages(value, ROWS, services)
    decreases |value|
  {
    hide Stages, EngineText, Rendered;
    if Match(value).Some? {
      var i := Match(value).value;
      PatternStart(i);
      if ServiceFor(i, services).Some? {
        ServedShows(value, i, services);
      } else {
        RawStages(value, i, ROWS, services);
        HeldHasDash(After(value, i), services);
      }
    } else if Completes(value, services) {
      CompletedStages(value, ROWS, services);
      RenderedDash(5, services(Browser).value);
    } else {
      PlainStages(value, ROWS, services);
      HeldHasDash(value[1..], services);
    }
  }

  lemma {:induction false} SameHolds(value: string, s1: Services, s2: Services)
    requires forall r :: s1(r).Some? <==> s2(r).Some?
    ensures Holds(value, s1) <==> Holds(value, s2)
    decreases |value|
  {
    if value != "" {
      var m := Match(value);
      if m.Some? {
        PatternStart(m.value);
        SameHolds(After(value, m.value), s1, s2);
      } else {
        SameHolds(value[1..], s1, s2);
      }
    }
  }

  /** With services under names apart, a value comes out the same exactly if it holds no placeholder for one of them. */
  lemma {:induction false} ValueTells(value: string, s1: Services, s2: Services)
    requires ServicesOk(s1) && ServicesOk(s2) && AllApart(s1, s2)
    ensures Stages(value, ROWS, s1) == Stages(value, ROWS, s2) <==> !Holds(value, s1)
    decreases |value|
  {
    hide Stages, EngineText, Rendered, Replace;
    if !Holds(value, s1) {
      SameHolds(value, s1, s2);
      UnheldStays(value, s1);
      UnheldStays(value, s2);
    } else if Match(value).Some? {
      TokenTells(value, Match(value).value, s1, s2);
    } else if Completes(value, s1) {
      CompletedTells(value, s1, s2);
    } else {
      PlainStages(value, ROWS, s1);
      PlainStages(value, ROWS, s2);
      ValueTells(value[1..], s1, s2);
      SameTail([value[0]], Stages(value[1..], ROWS, s1), Stages(value[1..], ROWS, s2));
    }
  }

  lemma {:induction false} TokenTells(value: string, i: nat, s1: Services, s2: Services)
    requires ServicesOk(s1) && ServicesOk(s2) && AllApart(s1, s2) && Match(value) == Some(i) && Holds(value, s1)
    ensures Stages(value, ROWS, s1) != Stages(value, ROWS, s2)
    decreases |value|, 0
  {
    hide Stages, EngineText, Rendered, Replace;
    PatternStart(i);
    if ServiceFor(i, s1).Some? {
      ServedShows(value, i, s1);
      ServedShows(value, i, s2);
      ApartShows(i, ServiceFor(i, s1).value, ServiceFor(i, s2).value, Stages(value, ROWS, s1), Stages(value, ROWS, s2));
    } else {
      RawStages(value, i, ROWS, s1);
      RawStages(value, i, ROWS, s2);
      ValueTells(After(value, i), s1, s2);
      SameTail(Pattern(i), Stages(After(value, i), ROWS, s1), Stages(After(value, i), ROWS, s2));
    }
  }

  lemma {:induction false} CompletedTells(value: string, s1: Services, s2: Services)
    requires ServicesOk(s1) && ServicesOk(s2) && AllApart(s1, s2) && Match(value).None? && Completes(value, s1)
    ensures Stages(value, ROWS, s1) != Stages(value, ROWS, s2)
  {
    hide Stages, EngineText, Rendered, Replace;
    CompletedStages(value, ROWS, s1);
    CompletedStages(value, ROWS, s2);
    assert ServiceOk(s1(Browser).value) && ServiceOk(s2(Browser).value);
    ApartShows(5, s1(Browser).value, s2(Browser).value, Stages(value, ROWS, s1), Stages(value, ROWS, s2));
  }
}
