/** Managed resource names: printed by the planner, parsed back by the ledger. */
module Names {
  import opened Options
  import opened Text

  /** Python's str.lower and str.isalnum; all that matters here is that '-' is not alphanumeric. */
  datatype Unicode = Unicode(lower: string -> string, isAlnum: char -> bool) {
    predicate Sane() {
      !isAlnum('-')
    }
  }

  datatype Parsed = Parsed(workflowHash: string, role: string, nodeId: string, desiredHash: string)

  function Keep(s: string, p: char -> bool): (r: string)
    ensures forall i :: 0 <= i < |r| ==> p(r[i])
  {
    if s == "" then "" else if p(s[0]) then [s[0]] + Keep(s[1..], p) else Keep(s[1..], p)
  }

  function Take(s: string, n: nat): string {
    if |s| <= n then s else s[..n]
  }

  function ShortNodeId(u: Unicode, nodeId: Option<string>): string {
    if nodeId.None? || nodeId.value == "" then "node"
    else
      var t := Take(Keep(u.lower(nodeId.value), u.isAlnum), 10);
      if t == "" then "node" else t
  }

  predicate DashFree(s: string) {
    '-' !in s
  }

  function Dashed(a: string, b: string): string {
    a + ['-'] + b
  }

  function ManagedName(u: Unicode, workflowHash: string, role: string, nodeId: Option<string>,
                       desiredHash: string): string {
    Dashed("crag", Dashed(Take(workflowHash, 12), Dashed(role, Dashed(ShortNodeId(u, nodeId), Take(desiredHash, 12)))))
  }

  function ParseManagedName(name: string): Option<Parsed> {
    var parts := Split(name, '-');
    if |parts| < 5 || parts[0] != "crag" then None
    else Some(Parsed(parts[1], parts[2], parts[3], parts[4]))
  }

  lemma {:induction false} ShortIsDashFree(u: Unicode, nodeId: Option<string>)
    requires u.Sane()
    ensures DashFree(ShortNodeId(u, nodeId))
  {
    if nodeId.Some? && nodeId.value != "" {
      var kept := Keep(u.lower(nodeId.value), u.isAlnum);
      assert forall i :: 0 <= i < |kept| ==> kept[i] != '-';
    }
  }

  lemma {:induction false} SplitDashed(a: string, b: string)
    requires DashFree(a)
    ensures Split(Dashed(a, b), '-') == [a] + Split(b, '-')
  {
    SplitCut(a, '-', b);
  }

  /** The first four parts of a managed name, whatever its hash looks like. */
  lemma {:induction false} NameParts(w: string, role: string, node: string, hash: string)
    requires DashFree(w) && DashFree(role) && DashFree(node)
    ensures Split(Dashed("crag", Dashed(w, Dashed(role, Dashed(node, hash)))), '-')
            == ["crag", w, role, node] + Split(hash, '-')
  {
    SplitDashed("crag", Dashed(w, Dashed(role, Dashed(node, hash))));
    SplitDashed(w, Dashed(role, Dashed(node, hash)));
    SplitDashed(role, Dashed(node, hash));
    SplitDashed(node, hash);
    assert ["crag"] + ([w] + ([role] + ([node] + Split(hash, '-')))) == ["crag", w, role, node] + Split(hash, '-');
  }

  lemma {:induction false} NamePrinted(u: Unicode, w: string, role: string, nodeId: Option<string>, hash: string)
    requires u.Sane() && DashFree(Take(w, 12)) && DashFree(role) && DashFree(Take(hash, 12))
    ensures ParseManagedName(ManagedName(u, w, role, nodeId, hash))
            == Some(Parsed(Take(w, 12), role, ShortNodeId(u, nodeId), Take(hash, 12)))
  {
    ShortIsDashFree(u, nodeId);
    NameParts(Take(w, 12), role, ShortNodeId(u, nodeId), Take(hash, 12));
    SplitNone(Take(hash, 12), '-');
  }

  lemma {:induction false} ParsedIsDashFree(name: string)
    ensures var p := ParseManagedName(name);
            p.Some? ==>
              && DashFree(p.value.workflowHash) && DashFree(p.value.role)
              && DashFree(p.value.nodeId) && DashFree(p.value.desiredHash)
  {
    SplitFree(name, '-');
    var parts := Split(name, '-');
    assert forall i :: 0 <= i < |parts| ==> parts[i] in parts;
  }

  /** The parser undoes the printer, for every node id, exactly when the two truncated hashes and the role contain no
      dash (hashes are hexadecimal and roles are fixed words). */
  lemma {:induction false} ManagedNameRoundTrip(u: Unicode, w: string, role: string, nodeId: Option<string>,
                                                hash: string)
    requires u.Sane()
    ensures ParseManagedName(ManagedName(u, w, role, nodeId, hash))
              == Some(Parsed(Take(w, 12), role, ShortNodeId(u, nodeId), Take(hash, 12)))
            <==> DashFree(Take(w, 12)) && DashFree(role) && DashFree(Take(hash, 12))
  {
    ParsedIsDashFree(ManagedName(u, w, role, nodeId, hash));
    if DashFree(Take(w, 12)) && DashFree(role) && DashFree(Take(hash, 12)) {
      NamePrinted(u, w, role, nodeId, hash);
    }
  }

  /** The text of a managed name. */
  lemma {:induction false} ManagedNameText(u: Unicode, w: string, role: string, nodeId: Option<string>, hash: string)
    ensures ManagedName(u, w, role, nodeId, hash)
            == "crag-" + Take(w, 12) + "-" + role + "-" + ShortNodeId(u, nodeId) + "-" + Take(hash, 12)
  {
    hide Take, ShortNodeId;
    assert "crag-" == "crag" + ['-'];
    Associate("crag", Take(w, 12), role, ShortNodeId(u, nodeId), Take(hash, 12), "-");
  }

  lemma {:induction false} Associate(a: string, b: string, c: string, d: string, e: string, sep: string)
    ensures a + sep + (b + sep + (c + sep + (d + sep + e))) == (a + sep) + b + sep + c + sep + d + sep + e
  {
  }

  lemma {:induction false} KeepAll(s: string, p: char -> bool)
    requires forall i :: 0 <= i < |s| ==> p(s[i])
    ensures Keep(s, p) == s
  {
    if s != "" {
      KeepAll(s[1..], p);
    }
  }

  /** A short node id has one to ten letters or digits; an alphanumeric node id that is no longer is lowered only. */
  lemma {:induction false} ShortNodeIdText(u: Unicode, nodeId: Option<string>)
    ensures var short := ShortNodeId(u, nodeId);
            && 1 <= |short| <= 10 && (short == "node" || forall i :: 0 <= i < |short| ==> u.isAlnum(short[i]))
            && (nodeId.None? ==> short == "node")
    ensures nodeId.Some? && nodeId.value != "" && 1 <= |u.lower(nodeId.value)| <= 10
            && (forall i :: 0 <= i < |u.lower(nodeId.value)| ==> u.isAlnum(u.lower(nodeId.value)[i])) ==>
              ShortNodeId(u, nodeId) == u.lower(nodeId.value)
  {
    if nodeId.Some? && nodeId.value != "" {
      var lowered := u.lower(nodeId.value);
      if forall i :: 0 <= i < |lowered| ==> u.isAlnum(lowered[i]) {
        KeepAll(lowered, u.isAlnum);
      }
    }
  }

  /** Names of one plan differ as soon as their roles do. */
  lemma {:induction false} RolesTellNamesApart(u: Unicode, w: string, role1: string, node1: Option<string>,
                                               hash1: string, role2: string, node2: Option<string>, hash2: string)
    requires u.Sane() && DashFree(Take(w, 12)) && DashFree(role1) && DashFree(role2) && role1 != role2
    ensures ManagedName(u, w, role1, node1, hash1) != ManagedName(u, w, role2, node2, hash2)
  {
    ShortIsDashFree(u, node1);
    ShortIsDashFree(u, node2);
    NameParts(Take(w, 12), role1, ShortNodeId(u, node1), Take(hash1, 12));
    NameParts(Take(w, 12), role2, ShortNodeId(u, node2), Take(hash2, 12));
    var p1 := ["crag", Take(w, 12), role1, ShortNodeId(u, node1)] + Split(Take(hash1, 12), '-');
    var p2 := ["crag", Take(w, 12), role2, ShortNodeId(u, node2)] + Split(Take(hash2, 12), '-');
    assert p1[2] == role1 && p2[2] == role2;
  }

  // ---------------------------------------------------------------------------------------------
  // Ledger ids

  /** f"{run_id}:{role}:{desired_hash}" */
  function LedgerId(runId: string, role: string, desiredHash: string): string {
    runId + ([':'] + (role + [':'] + desiredHash))
  }

  lemma {:induction false} IdTail(runId: string, role: string, hash: string)
    requires ':' !in role
    ensures Split(LedgerId(runId, role, hash)[|runId| + 1..], ':')[0] == role
  {
    SplitCut(role, ':', hash);
    var tail := role + [':'] + hash;
    assert LedgerId(runId, role, hash) == (runId + [':']) + tail;
    SameHead(runId + [':'], LedgerId(runId, role, hash)[|runId| + 1..], tail);
  }

  /** Within one run, ledger ids differ as soon as the roles do. */
  lemma {:induction false} RolesTellIdsApart(runId: string, role1: string, hash1: string, role2: string, hash2: string)
    requires ':' !in role1 && ':' !in role2 && role1 != role2
    ensures LedgerId(runId, role1, hash1) != LedgerId(runId, role2, hash2)
  {
    IdTail(runId, role1, hash1);
    IdTail(runId, role2, hash2);
  }

  // ---------------------------------------------------------------------------------------------
  // Which service answers for a role

  /** part in s */
  predicate Contains(s: string, part: string) {
    exists i :: 0 <= i <= |s| && part <= s[i..]
  }

  function Enclosed(role: string): string {
    ['-'] + role + ['-']
  }

  lemma {:induction false} MatchStartsAtDash(s: string, role: string, i: nat)
    requires i <= |s| && Enclosed(role) <= s[i..]
    ensures i + |role| + 1 < |s| && s[i] == '-' && s[i + |role| + 1] == '-'
  {
    var p := Enclosed(role);
    assert p[0] == s[i..][0] && p[|role| + 1] == s[i..][|role| + 1];
  }

  lemma {:induction false} MatchHasDash(s: string, role: string)
    ensures Contains(s, Enclosed(role)) ==> '-' in s
    ensures role + ['-'] <= s ==> '-' in s
  {
    if Contains(s, Enclosed(role)) {
      var i :| 0 <= i <= |s| && Enclosed(role) <= s[i..];
      MatchStartsAtDash(s, role, i);
    }
    if role + ['-'] <= s {
      assert s[|role|] == (role + ['-'])[|role|];
    }
  }

  lemma {:induction false} EqualUpToDash(a: string, b: string, rest: string)
    requires DashFree(a) && DashFree(b)
    ensures a + ['-'] <= Dashed(b, rest) <==> a == b
  {
    var s := Dashed(b, rest);
    if a + ['-'] <= s {
      assert forall i :: 0 <= i < |a| ==> s[i] == (a + ['-'])[i] == a[i];
      assert s[|a|] == (a + ['-'])[|a|] == '-';
      assert s[|b|] == '-';
      assert |a| == |b|;
      assert a == s[..|a|] == b;
    }
    if a == b {
      assert s == (a + ['-']) + rest;
    }
  }

  lemma {:induction false} MatchAtDash(a: string, rest: string, role: string)
    ensures Enclosed(role) <= Dashed(a, rest)[|a|..] <==> role + ['-'] <= rest
  {
    assert Dashed(a, rest)[|a|..] == ['-'] + rest;
    assert Enclosed(role) == ['-'] + (role + ['-']);
    CancelPrefix(['-'], role + ['-'], rest);
  }

  lemma {:induction false} TailOfDashed(a: string, rest: string, i: nat)
    requires i <= |rest|
    ensures Dashed(a, rest)[|a| + 1 + i..] == rest[i..]
  {
  }

  lemma {:induction false} MatchPosition(a: string, rest: string, role: string, i: nat)
    requires DashFree(a) && i <= |Dashed(a, rest)| && Enclosed(role) <= Dashed(a, rest)[i..]
    ensures i >= |a|
    ensures i > |a| ==> Contains(rest, Enclosed(role))
  {
    MatchStartsAtDash(Dashed(a, rest), role, i);
    assert forall k :: 0 <= k < |a| ==> Dashed(a, rest)[k] == a[k];
    if i > |a| {
      TailOfDashed(a, rest, i - |a| - 1);
    }
  }

  /** An enclosed role is found in `a-rest` right after the first dash, or further on. */
  lemma {:induction false} ContainsDashed(a: string, rest: string, role: string)
    requires DashFree(a)
    ensures Contains(Dashed(a, rest), Enclosed(role)) <==> role + ['-'] <= rest || Contains(rest, Enclosed(role))
  {
    var s, p := Dashed(a, rest), Enclosed(role);
    MatchAtDash(a, rest, role);
    if Contains(s, p) {
      var i :| 0 <= i <= |s| && p <= s[i..];
      MatchPosition(a, rest, role, i);
    }
    if role + ['-'] <= rest {
      assert p <= s[|a|..];
    }
    if Contains(rest, p) {
      var i :| 0 <= i <= |rest| && p <= rest[i..];
      TailOfDashed(a, rest, i);
      assert p <= s[|a| + 1 + i..];
    }
  }

  lemma {:induction false} ContainsLast(node: string, hash: string, role: string)
    requires DashFree(node) && DashFree(hash)
    ensures !Contains(Dashed(node, hash), Enclosed(role))
  {
    ContainsDashed(node, hash, role);
    MatchHasDash(hash, role);
  }

  /** The test of first_service_for_role on a managed name: it accepts the name whose role is asked for, but also one
      whose workflow hash or short node id happens to spell that role. */
  lemma {:induction false} RoleTestExact(w: string, role: string, node: string, hash: string, asked: string)
    requires DashFree(w) && DashFree(role) && DashFree(node) && DashFree(hash) && DashFree(asked)
    ensures var name := Dashed("crag", Dashed(w, Dashed(role, Dashed(node, hash))));
            Contains(name, Enclosed(asked)) <==> asked == w || asked == role || asked == node
  {
    ContainsDashed("crag", Dashed(w, Dashed(role, Dashed(node, hash))), asked);
    EqualUpToDash(asked, w, Dashed(role, Dashed(node, hash)));
    ContainsDashed(w, Dashed(role, Dashed(node, hash)), asked);
    EqualUpToDash(asked, role, Dashed(node, hash));
    ContainsDashed(role, Dashed(node, hash), asked);
    EqualUpToDash(asked, node, hash);
    ContainsLast(node, hash, asked);
  }

  datatype Named = Named(role: string, nodeId: Option<string>, desiredHash: string)

  /** Position of the first resource that first_service_for_role accepts. */
  function FirstServiceForRole(u: Unicode, w: string, resources: seq<Named>, role: string): (r: Option<nat>)
    ensures r.Some? ==> r.value < |resources|
  {
    if resources == [] then None
    else
      var name := ManagedName(u, w, resources[0].role, resources[0].nodeId, resources[0].desiredHash);
      if Contains(name, Enclosed(role)) || Dashed("crag", role + ['-']) <= name then Some(0)
      else
        var rest := FirstServiceForRole(u, w, resources[1..], role);
        if rest.None? then None else Some(rest.value + 1)
  }

  predicate Answers(u: Unicode, n: Named, role: string) {
    n.role == role || ShortNodeId(u, n.nodeId) == role
  }

  lemma {:induction false} CragPrefix(w: string, rest: string, role: string)
    requires DashFree(w) && DashFree(role)
    ensures Dashed("crag", role + ['-']) <= Dashed("crag", Dashed(w, rest)) <==> role == w
  {
    EqualUpToDash(role, w, rest);
    var head := "crag" + ['-'];
    assert Dashed("crag", role + ['-']) == head + (role + ['-']);
    assert Dashed("crag", Dashed(w, rest)) == head + Dashed(w, rest);
    CancelPrefix(head, role + ['-'], Dashed(w, rest));
  }

  lemma {:induction false} NameAnswers(u: Unicode, w: string, n: Named, role: string)
    requires u.Sane() && DashFree(Take(w, 12)) && DashFree(role) && role != Take(w, 12)
    requires DashFree(n.role) && DashFree(Take(n.desiredHash, 12))
    ensures var name := ManagedName(u, w, n.role, n.nodeId, n.desiredHash);
            (Contains(name, Enclosed(role)) || Dashed("crag", role + ['-']) <= name) <==> Answers(u, n, role)
  {
    hide Contains, Enclosed, ShortNodeId;
    var node, hash := ShortNodeId(u, n.nodeId), Take(n.desiredHash, 12);
    ShortIsDashFree(u, n.nodeId);
    RoleTestExact(Take(w, 12), n.role, node, hash, role);
    CragPrefix(Take(w, 12), Dashed(n.role, Dashed(node, hash)), role);
  }

  lemma {:induction false} FirstServiceCons(u: Unicode, w: string, resources: seq<Named>, role: string)
    requires resources != []
    ensures forall i :: 0 <= i < |resources| - 1 ==> resources[1..][i] == resources[i + 1]
    ensures forall i :: 1 <= i < |resources| ==> resources[i] == resources[1..][i - 1]
  {
  }

  /** The lookup returns the first resource that has the role or whose short node id spells it: the role's own resource
      exactly when nothing before it does. */
  lemma {:induction false} FirstServiceExact(u: Unicode, w: string, resources: seq<Named>, role: string)
    requires u.Sane() && DashFree(Take(w, 12)) && DashFree(role) && role != Take(w, 12)
    requires forall i :: 0 <= i < |resources| ==>
               DashFree(resources[i].role) && DashFree(Take(resources[i].desiredHash, 12))
    ensures var r := FirstServiceForRole(u, w, resources, role);
            && (r.None? <==> forall i :: 0 <= i < |resources| ==> !Answers(u, resources[i], role))
            && (r.Some? ==> Answers(u, resources[r.value], role))
            && (r.Some? ==> forall i :: 0 <= i < r.value ==> !Answers(u, resources[i], role))
    decreases |resources|
  {
    hide Contains, Enclosed, Dashed, Answers, ManagedName;
    if resources != [] {
      NameAnswers(u, w, resources[0], role);
      FirstServiceExact(u, w, resources[1..], role);
      FirstServiceCons(u, w, resources, role);
    }
  }

  lemma {:induction false} SqlKept(u: Unicode)
    requires u.lower("sql") == "sql" && u.isAlnum('s') && u.isAlnum('q') && u.isAlnum('l')
    ensures ShortNodeId(u, Some("sql")) == "sql"
  {
    assert "sql"[1..] == "ql" && "ql"[1..] == "l" && "l"[1..] == "";
    assert Keep("l", u.isAlnum) == "l" && Keep("ql", u.isAlnum) == "ql" && Keep("sql", u.isAlnum) == "sql";
  }

  /** Inputs for which it is not the role's own: the node of the llm resource is called "sql", and its service answers
      for the SQL placeholders. */
  lemma {:induction false} SpelledNodeIsTaken(u: Unicode, w: string, hash1: string, hash2: string)
    requires u.Sane() && DashFree(Take(w, 12)) && |w| >= 12 && DashFree(hash1) && DashFree(hash2)
    requires u.lower("sql") == "sql" && u.isAlnum('s') && u.isAlnum('q') && u.isAlnum('l')
    ensures FirstServiceForRole(u, w, [Named("llm", Some("sql"), hash1), Named("sql", Some("7"), hash2)], "sql")
            == Some(0)
  {
    hide ManagedName, FirstServiceForRole;
    var resources := [Named("llm", Some("sql"), hash1), Named("sql", Some("7"), hash2)];
    SqlKept(u);
    assert Answers(u, resources[0], "sql");
    FirstServiceExact(u, w, resources, "sql");
  }
}
