/** The ledger: keyed tables with upsert, and append-only commands and events. */
module StateStore {
  import opened Options
  import opened Roles
  import opened Names
  import opened Commands
  import opened Planner
  import opened Cloud

  datatype RunMode = ApplyMode(wait: bool) | StopMode | TerminateMode
  datatype RunStatus = RunStarted | RunCompleted | RunBroken

  datatype RunRow = RunRow(workflowHash: string, mode: RunMode, status: RunStatus, createdAt: nat, updatedAt: nat)

  datatype RowStatus = Creating | Reported(status: PodStatus) | MarkedStop | MarkedTerminate

  datatype ResourceRow = ResourceRow(id: string, runId: Option<string>, nodeId: Option<string>, role: Option<Role>,
                                     hash: string, podId: Option<string>, name: string, status: RowStatus,
                                     createdAt: nat, lastSeen: nat)

  datatype CommandStatus = Running | Completed | Failed

  datatype CommandRow = CommandRow(runId: string, resourceId: Option<string>, command: Command, status: CommandStatus,
                                   exitCode: Option<int>)

  datatype EventKind =
    | RunFailed | VolumeCreated | PodReused | PodResumed | PodCreateRequest | PodCreateFailed | PodCreated
    | LaunchSkipped | AgentLaunched | CommandRetried | CommandEnded | FilesWritten | ImageCollected | CleanupFailed

  /** `subject` is the pod id of a pod event, the command of a command event, and so on. */
  datatype Event = Event(runId: string, kind: EventKind, resourceId: Option<string>, subject: string)

  type Rows = seq<ResourceRow>

  function Find(rows: Rows, id: string): (i: nat)
    ensures i <= |rows|
    ensures i < |rows| ==> rows[i].id == id
    ensures forall j :: 0 <= j < i ==> rows[j].id != id
  {
    if rows == [] || rows[0].id == id then 0 else 1 + Find(rows[1..], id)
  }

  /** INSERT ... ON CONFLICT(id) DO UPDATE: an existing row keeps its owner, its hash and its age. */
  function Upsert(rows: Rows, row: ResourceRow): Rows {
    var i := Find(rows, row.id);
    if i == |rows| then rows + [row]
    else rows[i := rows[i].(podId := row.podId, status := row.status, lastSeen := row.lastSeen)]
  }

  /** UPDATE ... WHERE id = ? */
  function Mark(rows: Rows, id: string, status: RowStatus, now: nat): Rows {
    var i := Find(rows, id);
    if i == |rows| then rows else rows[i := rows[i].(status := status, lastSeen := now)]
  }

  predicate UniqueIds(rows: Rows) {
    forall i, j :: 0 <= i < j < |rows| ==> rows[i].id != rows[j].id
  }

  /** Rows are in order of creation, no two created at the same time, none in the future. */
  predicate Aging(rows: Rows, clock: nat) {
    && (forall i, j :: 0 <= i < j < |rows| ==> rows[i].createdAt < rows[j].createdAt)
    && (forall i :: 0 <= i < |rows| ==> rows[i].createdAt < clock)
  }

  function Reversed(rows: Rows): (r: Rows)
    ensures |r| == |rows|
    ensures forall i :: 0 <= i < |rows| ==> r[i] == rows[|rows| - 1 - i]
  {
    if rows == [] then [] else Reversed(rows[1..]) + [rows[0]]
  }

  predicate Known(rows: Rows, id: string) {
    exists i :: 0 <= i < |rows| && rows[i].id == id
  }

  /** What no update of a row changes. */
  predicate SameOwner(a: ResourceRow, b: ResourceRow) {
    b == a.(podId := b.podId, status := b.status, lastSeen := b.lastSeen)
  }

  /** Keys stay unique, a row is never lost, and every row but the one addressed stays as it was. */
  lemma {:induction false} UpsertFrame(rows: Rows, row: ResourceRow, clock: nat)
    requires UniqueIds(rows) && Aging(rows, clock) && row.createdAt == clock
    ensures var r := Upsert(rows, row);
            && UniqueIds(r) && Aging(r, clock + 1) && |rows| <= |r| <= |rows| + 1
            && (forall i :: 0 <= i < |rows| ==> SameOwner(rows[i], r[i]))
            && (forall i :: 0 <= i < |rows| && rows[i].id != row.id ==> r[i] == rows[i])
            && (forall i :: 0 <= i < |r| && r[i].id == row.id ==> r[i].podId == row.podId && r[i].status == row.status)
            && (exists i :: 0 <= i < |r| && r[i].id == row.id)
  {
    var i := Find(rows, row.id);
    assert Upsert(rows, row)[i].id == row.id;
  }

  /** After two writes under one key, pod, status and time are those of the second. A known key leaves no trace of the
      first write; a new one leaves a row with the owner, hash, name and age of the first. */
  lemma {:induction false} UpsertTwice(rows: Rows, first: ResourceRow, second: ResourceRow)
    requires UniqueIds(rows) && first.id == second.id
    ensures Upsert(Upsert(rows, first), second)
            == if Known(rows, first.id) then Upsert(rows, second)
               else rows + [first.(podId := second.podId, status := second.status, lastSeen := second.lastSeen)]
  {
    var i := Find(rows, first.id);
    var one := Upsert(rows, first);
    assert one[i].id == first.id && Find(one, second.id) == i;
  }

  function PhaseStatus(code: int): CommandStatus {
    if code == 0 then Completed else Failed
  }

  /** The row that record_resource writes. */
  function ResourceEntry(id: string, runId: string, r: Resource, podId: Option<string>, status: RowStatus,
                         now: nat): ResourceRow {
    ResourceRow(id, Some(runId), r.nodeId, Some(r.role), r.desiredHash, podId, r.name, status, now, now)
  }

  /** f"{run_id}:{role}:{desired_hash}" */
  function RowId(runId: string): Resource -> string {
    (r: Resource) => LedgerId(runId, RoleText(r.role), r.desiredHash)
  }

  /** The row that record_remote_resource writes for a listed pod; listings carry no environment, so what is known about
      the pod is what its name says. */
  function RemoteEntry(pod: Pod, runId: Option<string>, now: nat): ResourceRow {
    var parsed := ParseManagedName(pod.name);
    if parsed.None? then
      ResourceRow(pod.id, runId, None, None, "", Some(pod.id), pod.name, Reported(pod.status), now, now)
    else
      ResourceRow(pod.id, runId, Some(parsed.value.nodeId), RoleOfText(parsed.value.role), parsed.value.desiredHash,
                  Some(pod.id), pod.name, Reported(pod.status), now, now)
  }

  /** Other runs keep their rows, and a known one keeps its workflow and age. */
  ghost predicate SameRun(before: map<string, RunRow>, now: map<string, RunRow>, runId: string) {
    && (forall id :: id in before && id != runId ==> id in now && now[id] == before[id])
    && (runId in before ==>
          && runId in now && now[runId].workflowHash == before[runId].workflowHash
          && now[runId].createdAt == before[runId].createdAt)
  }

  /** A listed pod whose name this system printed is known by its role, its short node id and its hash, so that a later
      plan with that hash finds it. */
  lemma {:induction false} ListedIsKnown(u: Unicode, w: string, role: Role, nodeId: Option<string>, hash: string,
                                         pod: Pod, runId: Option<string>, now: nat)
    requires u.Sane() && DashFree(Take(w, 12)) && DashFree(Take(hash, 12))
    requires pod.name == ManagedName(u, w, RoleText(role), nodeId, hash)
    ensures var row := RemoteEntry(pod, runId, now);
            && row.id == pod.id && row.podId == Some(pod.id) && row.runId == runId && row.name == pod.name
            && row.role == Some(role) && row.nodeId == Some(ShortNodeId(u, nodeId)) && row.hash == Take(hash, 12)
            && row.status == Reported(pod.status)
  {
    hide ManagedName, ParseManagedName, Take, ShortNodeId;
    ManagedNameRoundTrip(u, w, RoleText(role), nodeId, hash);
  }

  class Store {
    var clock: nat
    var runs: map<string, RunRow>
    var resources: Rows
    var commands: seq<CommandRow>
    var events: seq<Event>
    var counters: map<string, nat>

    ghost predicate Valid()
      reads this
    {
      UniqueIds(resources) && Aging(resources, clock)
    }

    constructor ()
      ensures Valid() && runs == map[] && resources == [] && commands == [] && events == [] && counters == map[]
    {
      clock, runs, resources, commands, events, counters := 0, map[], [], [], [], map[];
    }

    method RecordRun(runId: string, workflowHash: string, mode: RunMode, status: RunStatus)
      requires Valid()
      modifies this`clock, this`runs
      ensures Valid() && clock == old(clock) + 1
      ensures runId !in old(runs) ==>
                runs == old(runs)[runId := RunRow(workflowHash, mode, status, old(clock), old(clock))]
      ensures runId in old(runs) ==>
                var known := old(runs)[runId];
                runs == old(runs)[runId := known.(mode := mode, status := status, updatedAt := old(clock))]
    {
      if runId in runs {
        runs := runs[runId := runs[runId].(mode := mode, status := status, updatedAt := clock)];
      } else {
        runs := runs[runId := RunRow(workflowHash, mode, status, clock, clock)];
      }
      clock := clock + 1;
    }

    method RecordResource(runId: string, r: Resource, podId: Option<string>, status: RowStatus) returns (id: string)
      requires Valid()
      modifies this`clock, this`resources
      ensures Valid() && clock == old(clock) + 1
      ensures id == RowId(runId)(r)
      ensures resources == Upsert(old(resources), ResourceEntry(id, runId, r, podId, status, old(clock)))
    {
      var row := ResourceEntry(RowId(runId)(r), runId, r, podId, status, clock);
      UpsertFrame(resources, row, clock);
      resources := Upsert(resources, row);
      clock := clock + 1;
      id := row.id;
    }

    method RecordRemoteResource(pod: Pod, runId: Option<string>) returns (id: string)
      requires Valid()
      modifies this`clock, this`resources
      ensures Valid() && clock == old(clock) + 1
      ensures resources == Upsert(old(resources), RemoteEntry(pod, runId, old(clock)))
      ensures id == pod.id
    {
      var row := RemoteEntry(pod, runId, clock);
      UpsertFrame(resources, row, clock);
      resources := Upsert(resources, row);
      clock := clock + 1;
      id := row.id;
    }

    /** The handle returned is the position of the new row, standing for its random key. */
    method StartCommand(runId: string, resourceId: Option<string>, command: Command) returns (handle: nat)
      modifies this`commands
      ensures handle == |old(commands)|
              && commands == old(commands) + [CommandRow(runId, resourceId, command, Running, None)]
    {
      handle := |commands|;
      commands := commands + [CommandRow(runId, resourceId, command, Running, None)];
    }

    method FinishCommand(handle: nat, status: CommandStatus, code: int)
      requires handle < |commands|
      modifies this`commands
      ensures commands == old(commands)[handle := old(commands)[handle].(status := status, exitCode := Some(code))]
    {
      commands := commands[handle := commands[handle].(status := status, exitCode := Some(code))];
    }

    method AddEvent(runId: string, kind: EventKind, resourceId: Option<string>, subject: string)
      modifies this`events
      ensures events == old(events) + [Event(runId, kind, resourceId, subject)]
    {
      events := events + [Event(runId, kind, resourceId, subject)];
    }

    method IncrementCounter(key: string) returns (value: nat)
      modifies this`counters
      ensures value == (if key in old(counters) then old(counters)[key] else 0) + 1
              && counters == old(counters)[key := value]
    {
      value := (if key in counters then counters[key] else 0) + 1;
      counters := counters[key := value];
    }

    /** ORDER BY created_at DESC: newest first. */
    method ListResources() returns (rows: Rows)
      requires Valid()
      ensures rows == Reversed(resources) && multiset(rows) == multiset(resources)
      ensures forall i, j :: 0 <= i < j < |rows| ==> rows[i].createdAt > rows[j].createdAt
    {
      rows := Reversed(resources);
      ReversedMultiset(resources);
    }

    method MarkResourceStatus(id: string, status: RowStatus)
      requires Valid()
      modifies this`clock, this`resources
      ensures Valid() && clock == old(clock) + 1
      ensures resources == Mark(old(resources), id, status, old(clock))
    {
      resources := Mark(resources, id, status, clock);
      clock := clock + 1;
    }
  }

  lemma {:induction false} ReversedMultiset(rows: Rows)
    ensures multiset(Reversed(rows)) == multiset(rows)
  {
    if rows != [] {
      ReversedMultiset(rows[1..]);
      assert rows == [rows[0]] + rows[1..];
    }
  }

  predicate PodEvent(e: Event) {
    e.kind == PodReused || e.kind == PodResumed || e.kind == PodCreated
  }

  /** The pods that events say were reused, resumed or created. */
  function PodsOfEvents(events: seq<Event>): seq<string> {
    if events == [] then []
    else
      var last := events[|events| - 1];
      PodsOfEvents(events[..|events| - 1]) + (if PodEvent(last) then [last.subject] else [])
  }

  lemma {:induction false} PodsConcat(a: seq<Event>, b: seq<Event>)
    ensures PodsOfEvents(a + b) == PodsOfEvents(a) + PodsOfEvents(b)
    decreases |b|
  {
    if b == [] {
      assert a + b == a;
    } else {
      hide PodEvent;
      var m := |b| - 1;
      PodsConcat(a, b[..m]);
      assert (a + b)[..|a| + m] == a + b[..m] && (a + b)[|a| + m] == b[m];
    }
  }

  lemma {:induction false} OneEvent(e: Event)
    ensures PodsOfEvents([e]) == if PodEvent(e) then [e.subject] else []
  {
    assert [e][..0] == [];
  }

  /** Events of other kinds name no pods. */
  lemma {:induction false} NoPodEvents(events: seq<Event>, more: seq<Event>)
    requires forall i :: 0 <= i < |more| ==> !PodEvent(more[i])
    ensures PodsOfEvents(events + more) == PodsOfEvents(events)
    decreases |more|
  {
    if more == [] {
      assert events + more == events;
    } else {
      var m := |more| - 1;
      NoPodEvents(events, more[..m]);
      assert (events + more)[..|events| + m] == events + more[..m];
    }
  }
}
