/** The names under which Compose knows the services and volumes of a plan. */
module ComposeNames {
  import opened Options
  import opened Text
  import opened Roles
  import opened Names
  import opened Planner

  /** A character that a Compose name keeps. */
  predicate NameChar(c: char) {
    'a' <= c <= 'z' || '0' <= c <= '9' || c == '_' || c == '-'
  }

  function SkipOthers(s: string): (r: string)
    ensures |r| <= |s| && (s != "" && !NameChar(s[0]) ==> |r| < |s|)
  {
    if s == "" || NameChar(s[0]) then s else SkipOthers(s[1..])
  }

  /** re.sub: every run of other characters becomes one dash. */
  function Squeeze(s: string): (r: string)
    ensures AllNameChars(r)
    decreases |s|
  {
    if s == "" then ""
    else if NameChar(s[0]) then [s[0]] + Squeeze(s[1..])
    else ['-'] + Squeeze(SkipOthers(s))
  }

  predicate AllNameChars(s: string) {
    forall i :: 0 <= i < |s| ==> NameChar(s[i])
  }

  function StripLeft(s: string): (r: string)
    ensures (r != "" ==> r[0] != '-') && (AllNameChars(s) ==> AllNameChars(r))
  {
    if s == "" || s[0] != '-' then s else StripLeft(s[1..])
  }

  function StripRight(s: string): (r: string)
    ensures r <= s && (r != "" ==> r[|r| - 1] != '-')
  {
    if s == "" || s[|s| - 1] != '-' then s else StripRight(s[..|s| - 1])
  }

  /** compose_service_name_from_text: whatever the text, a name that Compose takes, with no dash at its ends. */
  function ComposeName(u: Unicode, text: string): (r: string)
    ensures r != "" && AllNameChars(r) && r[0] != '-' && r[|r| - 1] != '-'
  {
    var name := StripRight(StripLeft(Squeeze(u.lower(text))));
    if name == "" then "service" else name
  }

  /** Text that keeps its form: lower-case letters and digits. */
  predicate NoNameChars(s: string) {
    forall i :: 0 <= i < |s| ==> !NameChar(s[i])
  }

  predicate AllDashes(s: string) {
    forall i :: 0 <= i < |s| ==> s[i] == '-'
  }

  lemma {:induction false} SkipsRun(m: string, b: string)
    requires NoNameChars(m) && (b == "" || NameChar(b[0]))
    ensures SkipOthers(m + b) == b
    decreases |m|
  {
    if m == "" {
      assert m + b == b;
    } else {
      SkipsRun(m[1..], b);
      assert (m + b)[1..] == m[1..] + b;
    }
  }

  lemma {:induction false} SqueezeRun(m: string, b: string)
    requires NoNameChars(m) && (b == "" || NameChar(b[0]))
    ensures Squeeze(m + b) == (if m == "" then "" else "-") + Squeeze(b)
  {
    if m == "" {
      assert m + b == b;
    } else {
      SkipsRun(m, b);
    }
  }

  /** Text of name characters is kept, and a whole run of others becomes one dash. */
  lemma {:induction false} SqueezeText(a: string, m: string, b: string)
    requires AllNameChars(a) && NoNameChars(m) && (b == "" || NameChar(b[0]))
    ensures Squeeze(a + (m + b)) == a + ((if m == "" then "" else "-") + Squeeze(b))
  {
    hide Squeeze;
    SqueezeKeeps(a, m + b);
    SqueezeRun(m, b);
  }

  lemma {:induction false} StripLeftText(l: string, y: string)
    requires AllDashes(l) && (y == "" || y[0] != '-')
    ensures StripLeft(l + y) == y
    decreases |l|
  {
    if l == "" {
      assert l + y == y;
    } else {
      assert (l + y)[1..] == l[1..] + y;
      StripLeftText(l[1..], y);
    }
  }

  lemma {:induction false} StripRightText(core: string, r: string)
    requires AllDashes(r) && core != "" && core[|core| - 1] != '-'
    ensures StripRight(core + r) == core
    decreases |r|
  {
    if r == "" {
      assert core + r == core;
    } else {
      var n := |r| - 1;
      assert (core + r)[..|core + r| - 1] == core + r[..n];
      StripRightText(core, r[..n]);
    }
  }

  /** The dashes at both ends go, and only these. */
  lemma {:induction false} StripText(l: string, core: string, r: string)
    requires AllDashes(l) && AllDashes(r) && core != "" && core[0] != '-' && core[|core| - 1] != '-'
    ensures StripRight(StripLeft(l + (core + r))) == core
  {
    hide StripLeft, StripRight;
    StripLeftText(l, core + r);
    StripRightText(core, r);
  }

  predicate Lowered(s: string) {
    forall i :: 0 <= i < |s| ==> 'a' <= s[i] <= 'z' || '0' <= s[i] <= '9'
  }

  /** What Python's str.lower does to such text, and to two texts with a dash between them. */
  ghost predicate LowersParts(u: Unicode) {
    && (forall s :: Lowered(s) ==> u.lower(s) == s)
    && (forall a, b :: u.lower(Dashed(a, b)) == Dashed(u.lower(a), u.lower(b)))
  }

  lemma {:induction false} SqueezeKeeps(a: string, b: string)
    requires AllNameChars(a)
    ensures Squeeze(a + b) == a + Squeeze(b)
    decreases |a|
  {
    if a == "" {
      assert a + b == b;
    } else {
      assert (a + b)[1..] == a[1..] + b;
      SqueezeKeeps(a[1..], b);
      assert [a[0]] + (a[1..] + Squeeze(b)) == a + Squeeze(b);
    }
  }

  lemma {:induction false} StripKeeps(a: string, b: string)
    requires a != "" && a[|a| - 1] != '-'
    ensures StripRight(a + b) == a + StripRight(b)
    decreases |b|
  {
    if b == "" {
      assert a + b == a;
    } else if b[|b| - 1] == '-' {
      assert (a + b)[..|a + b| - 1] == a + b[..|b| - 1];
      StripKeeps(a, b[..|b| - 1]);
    }
  }

  /** The part of a managed name that Compose takes as it is. */
  function Head(w: string, role: string): string {
    Dashed("crag", Dashed(w, role))
  }

  lemma {:induction false} HeadRegroup(w: string, role: string, rest: string)
    ensures Dashed("crag", Dashed(w, Dashed(role, rest))) == (Head(w, role) + ['-']) + rest
    ensures Dashed("crag", Dashed(w, Dashed(role, rest))) == Head(w, role) + (['-'] + rest)
  {
  }

  lemma {:induction false} HeadChars(w: string, role: string)
    requires Lowered(w) && Lowered(role) && role != ""
    ensures var h := Head(w, role) + ['-'];
            && AllNameChars(h) && Head(w, role) != ""
            && Head(w, role)[0] != '-' && Head(w, role)[|Head(w, role)| - 1] != '-'
  {
    var h, c := Head(w, role) + ['-'], "crag";
    assert h == c + (['-'] + (w + (['-'] + (role + ['-']))));
    assert Head(w, role)[|Head(w, role)| - 1] == role[|role| - 1];
    assert Head(w, role)[0] == c[0];
    assert AllNameChars(c);
  }

  lemma {:induction false} LoweredName(u: Unicode, w: string, role: string, rest: string)
    requires LowersParts(u) && Lowered(w) && Lowered(role)
    ensures u.lower(Dashed("crag", Dashed(w, Dashed(role, rest))))
            == Dashed("crag", Dashed(w, Dashed(role, u.lower(rest))))
  {
    hide Dashed;
    assert Lowered("crag");
  }

  lemma {:induction false} StrippedTail(y: string)
    ensures var t := StripRight(['-'] + y); t == "" || t[0] == '-'
  {
    var t := StripRight(['-'] + y);
    assert t <= ['-'] + y;
    assert t != "" ==> t[0] == (['-'] + y)[0];
  }

  lemma {:induction false} HeadSqueezed(w: string, role: string, y: string)
    requires Lowered(w) && Lowered(role) && role != ""
    ensures var s := Squeeze(Dashed("crag", Dashed(w, Dashed(role, y))));
            s == Head(w, role) + (['-'] + Squeeze(y)) && StripLeft(s) == s
  {
    hide Squeeze;
    HeadRegroup(w, role, y);
    HeadChars(w, role);
    SqueezeKeeps(Head(w, role) + ['-'], y);
    var s := Head(w, role) + (['-'] + Squeeze(y));
    assert (Head(w, role) + ['-']) + Squeeze(y) == s;
    assert s[0] == Head(w, role)[0];
  }

  /** A managed name keeps workflow and role in Compose, whatever becomes of the node and the hash. */
  lemma {:induction false} ManagedInCompose(u: Unicode, w: string, role: string, node: Option<string>, hash: string)
      returns (tail: string)
    requires LowersParts(u) && Lowered(Take(w, 12)) && Lowered(role) && role != ""
    ensures ComposeName(u, ManagedName(u, w, role, node, hash)) == Head(Take(w, 12), role) + tail
    ensures tail == "" || tail[0] == '-'
  {
    hide Dashed, Squeeze, StripLeft, StripRight, Head, Lowered, LowersParts, ShortNodeId;
    var rest := Dashed(ShortNodeId(u, node), Take(hash, 12));
    LoweredName(u, Take(w, 12), role, rest);
    var y := ['-'] + Squeeze(u.lower(rest));
    HeadSqueezed(Take(w, 12), role, u.lower(rest));
    HeadChars(Take(w, 12), role);
    StripKeeps(Head(Take(w, 12), role), y);
    StrippedTail(Squeeze(u.lower(rest)));
    tail := StripRight(y);
  }

  lemma {:induction false} RoleInHead(w: string, role: string, tail: string)
    requires DashFree(w) && DashFree(role) && (tail == "" || tail[0] == '-')
    ensures |Split(Head(w, role) + tail, '-')| > 2 && Split(Head(w, role) + tail, '-')[2] == role
  {
    var name := Head(w, role) + tail;
    assert name == Dashed("crag", Dashed(w, role + tail));
    SplitDashed("crag", Dashed(w, role + tail));
    SplitDashed(w, role + tail);
    assert Split(name, '-') == ["crag", w] + Split(role + tail, '-');
    if tail == "" {
      assert role + tail == role;
      SplitNone(role, '-');
    } else {
      assert role + tail == Dashed(role, tail[1..]);
      SplitDashed(role, tail[1..]);
    }
  }

  lemma {:induction false} LoweredIsDashFree(s: string)
    requires Lowered(s)
    ensures DashFree(s)
  {
  }

  lemma {:induction false} RoleTextLowered(r: Role)
    ensures Lowered(RoleText(r)) && 3 <= |RoleText(r)|
  {
  }

  lemma {:induction false} RoleIsThird(t: Tables, inputs: RunInputs, r: Resource)
    requires LowersParts(t.unicode) && Lowered(Take(inputs.workflowHash, 12)) && NamedBy(t, inputs, r)
    ensures var parts := Split(ComposeName(t.unicode, r.name), '-'); |parts| > 2 && parts[2] == RoleText(r.role)
  {
    hide ComposeName, LowersParts, Head, RoleText, ManagedName, Lowered;
    var w := Take(inputs.workflowHash, 12);
    RoleTextLowered(r.role);
    LoweredIsDashFree(w);
    LoweredIsDashFree(RoleText(r.role));
    var tail := ManagedInCompose(t.unicode, inputs.workflowHash, RoleText(r.role), r.nodeId, r.desiredHash);
    RoleInHead(w, RoleText(r.role), tail);
  }

  /** The services of one plan have pairwise different names in Compose, so none takes another's place. */
  lemma {:induction false} ServicesDistinct(t: Tables, d: Deployment, inputs: RunInputs, i: nat, j: nat)
    requires LowersParts(t.unicode) && Lowered(Take(inputs.workflowHash, 12))
    requires i < j < |Build(t, d, inputs).resources|
    ensures var rs := Build(t, d, inputs).resources;
            ComposeName(t.unicode, rs[i].name) != ComposeName(t.unicode, rs[j].name)
  {
    hide Build, ComposeName, LowersParts, Head, RoleText, Lowered;
    PlanResources(t, d, inputs);
    var r, s := Build(t, d, inputs).resources[i], Build(t, d, inputs).resources[j];
    RoleTextsDiffer(r.role, s.role);
    assert NamedBy(t, inputs, r) && NamedBy(t, inputs, s);
    RoleIsThird(t, inputs, r);
    RoleIsThird(t, inputs, s);
  }
}
