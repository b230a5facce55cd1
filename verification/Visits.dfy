/** What a stop or terminate run does to the ledger's rows: specification. */
module Visits {
  import opened Options
  import opened Roles
  import opened Commands
  import opened Cloud
  import opened StateStore
  import opened Steps
  import opened Reuse

  /** One row dealt with: its pod, whether an SSH session was opened, and the teardown commands run. */
  datatype Visit = Visit(podId: string, connected: bool, rans: seq<Ran>)

  function RunCalls(rans: seq<Ran>): seq<Call> {
    if rans == [] then []
    else RunCalls(rans[..|rans| - 1]) + Repeat(Ssh(rans[|rans| - 1].command.command), rans[|rans| - 1].runs)
  }

  /** Teardown over SSH if a session was opened, then one lifecycle call. */
  function VisitCalls(terminate: bool, v: Visit): seq<Call> {
    (if v.connected then [GetPod(v.podId), AwaitEndpoint(v.podId), AwaitSsh] + RunCalls(v.rans) else [])
        + [EndCall(terminate, v.podId)]
  }

  function AllVisitCalls(terminate: bool, visits: seq<Visit>): seq<Call> {
    if visits == [] then []
    else AllVisitCalls(terminate, visits[..|visits| - 1]) + VisitCalls(terminate, visits[|visits| - 1])
  }

  /** Every teardown command, in order, each accepted. */
  predicate Complete(rans: seq<Ran>, down: seq<Command>) {
    && |rans| == |down|
    && forall i :: 0 <= i < |rans| ==>
         && rans[i].command == down[i] && rans[i].runs >= 1 && rans[i].outcome.Exit?
         && (rans[i].outcome.code == 0 || down[i].policy == Continue)
  }

  /** The agent's row gets the teardown commands, if there are any; other rows only the lifecycle call. */
  predicate Conforms(v: Visit, row: ResourceRow, down: seq<Command>) {
    && row.podId == Some(v.podId)
    && v.connected == (row.role == Some(Agent) && down != [])
    && (if v.connected then Complete(v.rans, down) else v.rans == [])
  }

  predicate Concerned(row: ResourceRow, hashes: set<string>) {
    row.hash in hashes && row.podId.Some?
  }

  /** The rows a stop or terminate run deals with, in the order of the list. */
  function Visited(rows: Rows, hashes: set<string>): seq<ResourceRow> {
    if rows == [] then []
    else Visited(rows[..|rows| - 1], hashes) + (if Concerned(rows[|rows| - 1], hashes) then [rows[|rows| - 1]] else [])
  }

  lemma {:induction false} VisitedNext(rows: Rows, hashes: set<string>, i: nat)
    requires i < |rows|
    ensures Visited(rows[..i + 1], hashes)
            == Visited(rows[..i], hashes) + (if Concerned(rows[i], hashes) then [rows[i]] else [])
  {
    assert rows[..i + 1][..i] == rows[..i];
  }

  lemma {:induction false} VisitedExactly(rows: Rows, hashes: set<string>)
    ensures forall row :: row in Visited(rows, hashes) <==> row in rows && Concerned(row, hashes)
    decreases |rows|
  {
    if rows != [] {
      VisitedExactly(rows[..|rows| - 1], hashes);
      assert rows == rows[..|rows| - 1] + [rows[|rows| - 1]];
    }
  }

  predicate AllConform(visits: seq<Visit>, rows: seq<ResourceRow>, down: seq<Command>) {
    |visits| == |rows| && forall i :: 0 <= i < |visits| ==> Conforms(visits[i], rows[i], down)
  }

  /** Rows with the given ids have the status; nothing else changed, but for their time. */
  ghost predicate Marked(before: Rows, now: Rows, ids: set<string>, status: RowStatus) {
    && |now| == |before|
    && forall k :: 0 <= k < |before| ==> MarkedRow(before[k], now[k], ids, status)
  }

  predicate MarkedRow(before: ResourceRow, now: ResourceRow, ids: set<string>, status: RowStatus) {
    if before.id in ids then now == before.(status := status, lastSeen := now.lastSeen) else now == before
  }

  lemma {:induction false} MarkOne(before: Rows, now: Rows, ids: set<string>, status: RowStatus, id: string, clock: nat)
    requires UniqueIds(before) && Marked(before, now, ids, status)
    ensures Marked(before, Mark(now, id, status, clock), ids + {id}, status)
  {
    var after := Mark(now, id, status, clock);
    var i := Find(now, id);
    forall k | 0 <= k < |before| ensures MarkedRow(before[k], after[k], ids + {id}, status) {
      assert MarkedRow(before[k], now[k], ids, status);
      assert now[k].id == before[k].id;
      if i < |now| {
        assert MarkedRow(before[i], now[i], ids, status);
        assert k != i ==> before[k].id != before[i].id;
      }
    }
  }

  function IdsOfRows(rows: seq<ResourceRow>): set<string> {
    set row | row in rows :: row.id
  }

  lemma {:induction false} VisitsNext(terminate: bool, visits: seq<Visit>, v: Visit)
    ensures AllVisitCalls(terminate, visits + [v]) == AllVisitCalls(terminate, visits) + VisitCalls(terminate, v)
  {
    assert (visits + [v])[..|visits|] == visits;
  }

  lemma {:induction false} NoRunCalls()
    ensures RunCalls([]) == []
  {
  }

  lemma {:induction false} RunCallsNext(rans: seq<Ran>, r: Ran)
    ensures RunCalls(rans + [r]) == RunCalls(rans) + Repeat(Ssh(r.command.command), r.runs)
  {
    assert (rans + [r])[..|rans|] == rans;
  }

  lemma {:induction false} RunCallsAre(rans: seq<Ran>, down: seq<Command>) returns (runs: seq<nat>)
    requires Complete(rans, down)
    ensures |runs| == |down| && (forall i :: 0 <= i < |runs| ==> runs[i] == rans[i].runs)
    ensures RunCalls(rans) == RunsOf(down, runs)
    decreases |rans|
  {
    runs := [];
    if rans != [] {
      var m := |rans| - 1;
      var front := RunCallsAre(rans[..m], down[..m]);
      runs := front + [rans[m].runs];
      assert runs[..m] == front;
    }
  }

  /** What one row gets: the agent's the teardown commands, each run at least once and with success at last or under the
      policy continue; every row one call for its pod. */
  lemma {:induction false} VisitTells(terminate: bool, v: Visit, row: ResourceRow, down: seq<Command>)
      returns (runs: seq<nat>)
    requires Conforms(v, row, down)
    ensures row.podId.Some?
    ensures var id := row.podId.value;
            var end := if terminate then TerminatePodCall(id) else StopPodCall(id);
            if row.role == Some(Agent) && down != [] then
              && |runs| == |down| == |v.rans| && (forall i :: 0 <= i < |runs| ==> runs[i] >= 1)
              && (forall i :: 0 <= i < |down| ==>
                    v.rans[i].outcome == Exit(0) || (v.rans[i].outcome.Exit? && down[i].policy == Continue))
              && VisitCalls(terminate, v) == [GetPod(id), AwaitEndpoint(id), AwaitSsh] + RunsOf(down, runs) + [end]
            else VisitCalls(terminate, v) == [end]
  {
    runs := [];
    if v.connected {
      runs := RunCallsAre(v.rans, down);
    } else {
      assert [] + [EndCall(terminate, v.podId)] == [EndCall(terminate, v.podId)];
    }
  }

  // ---------------------------------------------------------------------------------------------
  // Reading the trace

  /** The stop or terminate calls of a trace. */
  function EndCalls(calls: seq<Call>): seq<Call> {
    if calls == [] then []
    else
      var last := calls[|calls| - 1];
      EndCalls(calls[..|calls| - 1]) + (if last.StopPodCall? || last.TerminatePodCall? then [last] else [])
  }

  lemma {:induction false} EndCallsConcat(a: seq<Call>, b: seq<Call>)
    ensures EndCalls(a + b) == EndCalls(a) + EndCalls(b)
    decreases |b|
  {
    if b == [] {
      assert a + b == a;
    } else {
      var m := |b| - 1;
      EndCallsConcat(a, b[..m]);
      assert (a + b)[..|a| + m] == a + b[..m];
    }
  }

  predicate NoEnds(calls: seq<Call>) {
    forall i :: 0 <= i < |calls| ==> !calls[i].StopPodCall? && !calls[i].TerminatePodCall?
  }

  lemma {:induction false} NoEndCalls(calls: seq<Call>)
    requires NoEnds(calls)
    ensures EndCalls(calls) == []
    decreases |calls|
  {
    if calls != [] {
      NoEndCalls(calls[..|calls| - 1]);
    }
  }

  lemma {:induction false} RepeatNoEnds(c: Call, k: nat)
    requires !c.StopPodCall? && !c.TerminatePodCall?
    ensures NoEnds(Repeat(c, k))
  {
    if k > 0 {
      RepeatNoEnds(c, k - 1);
    }
  }

  lemma {:induction false} RunCallsNoEnds(rans: seq<Ran>)
    ensures NoEnds(RunCalls(rans))
    decreases |rans|
  {
    if rans != [] {
      RunCallsNoEnds(rans[..|rans| - 1]);
      RepeatNoEnds(Ssh(rans[|rans| - 1].command.command), rans[|rans| - 1].runs);
    }
  }

  lemma {:induction false} OneEnd(terminate: bool, v: Visit)
    ensures EndCalls(VisitCalls(terminate, v)) == [EndCall(terminate, v.podId)]
  {
    var front := if v.connected then [GetPod(v.podId), AwaitEndpoint(v.podId), AwaitSsh] + RunCalls(v.rans) else [];
    RunCallsNoEnds(v.rans);
    NoEndCalls(front);
    EndCallsConcat(front, [EndCall(terminate, v.podId)]);
    assert [EndCall(terminate, v.podId)][..0] == [];
  }

  lemma {:induction false} EndsNext(terminate: bool, visits: seq<Visit>, v: Visit)
    ensures EndCalls(AllVisitCalls(terminate, visits + [v]))
            == EndCalls(AllVisitCalls(terminate, visits)) + [EndCall(terminate, v.podId)]
  {
    VisitsNext(terminate, visits, v);
    EndCallsConcat(AllVisitCalls(terminate, visits), VisitCalls(terminate, v));
    OneEnd(terminate, v);
  }

  /** One call per row, for its pod: all are terminated, or all are stopped. */
  predicate EndsOf(ends: seq<Call>, rows: seq<ResourceRow>, terminate: bool) {
    && |ends| == |rows| && (forall i :: 0 <= i < |rows| ==> rows[i].podId.Some?)
    && (terminate ==> forall i :: 0 <= i < |rows| ==> ends[i] == TerminatePodCall(rows[i].podId.value))
    && (!terminate ==> forall i :: 0 <= i < |rows| ==> ends[i] == StopPodCall(rows[i].podId.value))
  }

  lemma {:induction false} EndsOfNext(ends: seq<Call>, rows: seq<ResourceRow>, row: ResourceRow, terminate: bool,
                                      podId: string)
    requires EndsOf(ends, rows, terminate) && row.podId == Some(podId)
    ensures EndsOf(ends + [EndCall(terminate, podId)], rows + [row], terminate)
  {
  }

  lemma {:induction false} TakeNext<T>(s: seq<T>, k: nat)
    requires 0 < k <= |s|
    ensures s[..k] == s[..k - 1] + [s[k - 1]]
  {
  }

  /** Exactly one lifecycle call per row dealt with, in the order of the rows. */
  lemma {:induction false} OneEndPerRow(terminate: bool, visits: seq<Visit>, rows: seq<ResourceRow>, down: seq<Command>,
                                        k: nat)
    requires AllConform(visits, rows, down) && k <= |visits|
    ensures EndsOf(EndCalls(AllVisitCalls(terminate, visits[..k])), rows[..k], terminate)
    decreases k
  {
    if k > 0 {
      var m := k - 1;
      OneEndPerRow(terminate, visits, rows, down, m);
      EndsNext(terminate, visits[..m], visits[m]);
      assert Conforms(visits[m], rows[m], down);
      EndsOfNext(EndCalls(AllVisitCalls(terminate, visits[..m])), rows[..m], rows[m], terminate, visits[m].podId);
      TakeNext(visits, k);
      TakeNext(rows, k);
    }
  }

  // ---------------------------------------------------------------------------------------------
  // The loop over the rows

  /** What one stop or terminate run is about. */
  datatype Stop = Stop(before: Rows, hashes: set<string>, down: seq<Command>, terminate: bool)

  function StatusOf(terminate: bool): RowStatus {
    if terminate then MarkedTerminate else MarkedStop
  }

  /** The calls and the ledger after the given visits to the given rows. */
  ghost predicate Dealt(s: Stop, visited: seq<ResourceRow>, visits: seq<Visit>, calls: seq<Call>, now: Rows) {
    && AllConform(visits, visited, s.down) && calls == AllVisitCalls(s.terminate, visits)
    && Marked(s.before, now, IdsOfRows(visited), StatusOf(s.terminate))
  }

  lemma {:induction false} OneMoreId(rows: seq<ResourceRow>, row: ResourceRow)
    ensures IdsOfRows(rows + [row]) == IdsOfRows(rows) + {row.id}
  {
    forall id | id in IdsOfRows(rows) + {row.id} ensures id in IdsOfRows(rows + [row]) {
      if id == row.id {
        assert row in rows + [row];
      } else {
        var r :| r in rows && r.id == id;
        assert r in rows + [row];
      }
    }
  }

  lemma {:induction false} ConformNext(visits: seq<Visit>, rows: seq<ResourceRow>, down: seq<Command>, v: Visit,
                                       row: ResourceRow)
    requires AllConform(visits, rows, down) && Conforms(v, row, down)
    ensures AllConform(visits + [v], rows + [row], down)
  {
  }

  lemma {:induction false} DealtStart(s: Stop)
    ensures Dealt(s, [], [], [], s.before)
  {
  }

  lemma {:induction false} DealtNext(s: Stop, visited: seq<ResourceRow>, visits: seq<Visit>, calls: seq<Call>,
                                     now: Rows, v: Visit, row: ResourceRow, clock: nat, after: Rows)
    requires UniqueIds(s.before) && Dealt(s, visited, visits, calls, now) && Conforms(v, row, s.down)
    requires after == Mark(now, row.id, StatusOf(s.terminate), clock)
    ensures Dealt(s, visited + [row], visits + [v], calls + VisitCalls(s.terminate, v), after)
  {
    ConformNext(visits, visited, s.down, v, row);
    VisitsNext(s.terminate, visits, v);
    OneMoreId(visited, row);
    MarkOne(s.before, now, IdsOfRows(visited), StatusOf(s.terminate), row.id, clock);
  }

  lemma {:induction false} ReversedSame(rows: Rows, row: ResourceRow)
    ensures row in Reversed(rows) <==> row in rows
  {
    if row in Reversed(rows) {
      var i :| 0 <= i < |rows| && Reversed(rows)[i] == row;
      assert rows[|rows| - 1 - i] == row;
    }
    if row in rows {
      var i :| 0 <= i < |rows| && rows[i] == row;
      assert Reversed(rows)[|rows| - 1 - i] == row;
    }
  }

  lemma {:induction false} VisitedIds(rows: Rows, hashes: set<string>, row: ResourceRow)
    requires UniqueIds(rows) && row in rows
    ensures row.id in IdsOfRows(Visited(Reversed(rows), hashes)) <==> Concerned(row, hashes)
  {
    var visited := Visited(Reversed(rows), hashes);
    VisitedExactly(Reversed(rows), hashes);
    ReversedSame(rows, row);
    if row.id in IdsOfRows(visited) {
      var r :| r in visited && r.id == row.id;
      ReversedSame(rows, r);
      var i :| 0 <= i < |rows| && rows[i] == row;
      var j :| 0 <= j < |rows| && rows[j] == r;
      assert i == j;
    }
    if Concerned(row, hashes) {
      assert row in visited;
    }
  }

  lemma {:induction false} EndCallsHold(calls: seq<Call>, c: Call)
    requires c in calls && (c.StopPodCall? || c.TerminatePodCall?)
    ensures c in EndCalls(calls)
    decreases |calls|
  {
    var m := |calls| - 1;
    if c != calls[m] {
      assert c in calls[..m];
      EndCallsHold(calls[..m], c);
    }
  }

  /** A stop or terminate run that ends normally deals with exactly the rows that have a pod and a hash of the plan,
      newest first: one call each, of the one kind only, and the new status; no other row changes. */
  lemma {:induction false} StopIsExact(s: Stop, visited: seq<ResourceRow>, visits: seq<Visit>, calls: seq<Call>,
                                       now: Rows)
    requires UniqueIds(s.before) && visited == Visited(Reversed(s.before), s.hashes)
             && Dealt(s, visited, visits, calls, now)
    ensures EndsOf(EndCalls(calls), visited, s.terminate)
    ensures forall c :: c in calls ==> if s.terminate then !c.StopPodCall? else !c.TerminatePodCall?
    ensures forall row :: row in visited <==> row in s.before && row.hash in s.hashes && row.podId.Some?
    ensures |now| == |s.before|
    ensures forall k :: 0 <= k < |now| && s.before[k].hash in s.hashes && s.before[k].podId.Some? ==>
              now[k] == s.before[k].(status := if s.terminate then MarkedTerminate else MarkedStop,
                                     lastSeen := now[k].lastSeen)
    ensures forall k :: 0 <= k < |now| && !(s.before[k].hash in s.hashes && s.before[k].podId.Some?) ==>
              now[k] == s.before[k]
  {
    OneEndPerRow(s.terminate, visits, visited, s.down, |visits|);
    assert visits[..|visits|] == visits && visited[..|visits|] == visited;
    VisitedExactly(Reversed(s.before), s.hashes);
    forall row ensures row in visited <==> row in s.before && Concerned(row, s.hashes) {
      ReversedSame(s.before, row);
    }
    forall c | c in calls && (c.StopPodCall? || c.TerminatePodCall?)
      ensures if s.terminate then c.TerminatePodCall? else c.StopPodCall?
    {
      EndCallsHold(calls, c);
    }
    forall k | 0 <= k < |now| ensures MarkedRow(s.before[k], now[k], IdsOfRows(visited), StatusOf(s.terminate))
                                     && (s.before[k].id in IdsOfRows(visited) <==> Concerned(s.before[k], s.hashes)) {
      assert s.before[k] in s.before;
      VisitedIds(s.before, s.hashes, s.before[k]);
    }
  }
}
