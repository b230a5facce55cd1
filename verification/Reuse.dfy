/** Getting a pod for each resource of a plan: reuse, resume or create, with the ledger kept in step. Pure
    specification; the runner's methods are proved to follow it. */
module Reuse {
  import opened Options
  import opened Roles
  import opened Planner
  import opened Cloud
  import opened StateStore

  /** What stays the same during one run. */
  datatype Run = Run(runId: string, reuse: ReusePolicy)

  /** is_unresolved_template_key */
  predicate Unresolved(templateId: string) {
    "rp-" <= templateId
  }

  /** _matching_existing_resource: the newest row with the hash and a pod. */
  function Newest(rows: Rows, hash: string): Option<string> {
    if rows == [] then None
    else
      var last := rows[|rows| - 1];
      if last.hash == hash && last.podId.Some? then last.podId else Newest(rows[..|rows| - 1], hash)
  }

  function Existing(reuse: ReusePolicy, rows: Rows, hash: string): Option<string> {
    if reuse == AlwaysCreate then None else Newest(rows, hash)
  }

  /** Calls made, events recorded, and the pod; no pod when it raised. */
  datatype Acquired = Acquired(calls: seq<Call>, events: seq<Event>, pod: Option<Pod>)

  function Note(run: Run, kind: EventKind, rowId: string, subject: string): Event {
    Event(run.runId, kind, Some(rowId), subject)
  }

  function Create(o: Oracle, n: nat, run: Run, r: Resource, rowId: string, before: seq<Call>): Acquired {
    var call := CreatePod(r.podInput);
    var reply := o.pod(n + |before|, call);
    if reply.None? then
      Acquired(before + [call], [Note(run, PodCreateRequest, rowId, r.name), Note(run, PodCreateFailed, rowId, r.name)],
               None)
    else
      Acquired(before + [call], [Note(run, PodCreateRequest, rowId, r.name),
                                 Note(run, PodCreated, rowId, reply.value.id)], reply)
  }

  /** The resumed pod's answer overrides what was known of the pod. */
  function Resumed(pod: Pod, answer: Pod): Pod {
    pod.(id := answer.id, status := answer.status)
  }

  function Resume(o: Oracle, n: nat, run: Run, rowId: string, podId: string, pod: Pod): Acquired {
    var calls := [GetPod(podId), ResumePod(podId)];
    var reply := o.pod(n + 1, ResumePod(podId));
    if reply.None? then Acquired(calls, [], None)
    else Acquired(calls, [Note(run, PodResumed, rowId, podId)], Some(Resumed(pod, reply.value)))
  }

  function ReuseAsIs(run: Run, rowId: string, podId: string, reply: Option<Pod>): Acquired {
    Acquired([GetPod(podId)], if reply.None? then [] else [Note(run, PodReused, rowId, podId)], reply)
  }

  /** What becomes of a matching pod, given what the cloud says about it. */
  function FromExisting(o: Oracle, n: nat, run: Run, r: Resource, rowId: string, podId: string,
                        reply: Option<Pod>): Acquired {
    if reply.None? || (run.reuse == ReuseMatching && reply.value.status.Live?) then ReuseAsIs(run, rowId, podId, reply)
    else if run.reuse == ResumeStopped && (reply.value.status.Stopped? || reply.value.status.Exited?) then
      Resume(o, n, run, rowId, podId, reply.value)
    else Create(o, n, run, r, rowId, [GetPod(podId)])
  }

  /** _reuse_or_create_pod */
  function Acquire(o: Oracle, n: nat, run: Run, rows: Rows, r: Resource, rowId: string): Acquired {
    if Unresolved(r.templateId) then Acquired([], [], None)
    else
      var existing := Existing(run.reuse, rows, r.desiredHash);
      if existing.None? then Create(o, n, run, r, rowId, [])
      else FromExisting(o, n, run, r, rowId, existing.value, o.pod(n, GetPod(existing.value)))
  }

  predicate Asks(calls: seq<Call>) {
    exists i :: 0 <= i < |calls| && calls[i].CreatePod?
  }

  /** A pod is asked for exactly if the template is resolved and either no row matches or the matching pod answers and
      is neither reusable nor resumable under the policy: a terminated pod never is, a live one is not resumable, an
      ended one is not reusable, and each of these gets a second pod beside it. */
  lemma {:induction false} CreatesExactly(o: Oracle, n: nat, run: Run, rows: Rows, r: Resource, rowId: string)
    ensures var existing := Existing(run.reuse, rows, r.desiredHash);
            Asks(Acquire(o, n, run, rows, r, rowId).calls)
            <==> !("rp-" <= r.templateId)
                 && (existing.None?
                     || var reply := o.pod(n, GetPod(existing.value));
                        && reply.Some? && !(run.reuse == ReuseMatching && reply.value.status.Live?)
                        && !(run.reuse == ResumeStopped
                             && (reply.value.status == Stopped || reply.value.status == Exited)))
  {
    var existing := Existing(run.reuse, rows, r.desiredHash);
    CreateAsks(o, n, run, r, rowId, []);
    if existing.Some? {
      CreateAsks(o, n, run, r, rowId, [GetPod(existing.value)]);
      assert !Asks([GetPod(existing.value)]) && !Asks([GetPod(existing.value), ResumePod(existing.value)]);
    }
  }

  lemma {:induction false} CreateAsks(o: Oracle, n: nat, run: Run, r: Resource, rowId: string, before: seq<Call>)
    ensures Asks(Create(o, n, run, r, rowId, before).calls)
  {
    var calls := Create(o, n, run, r, rowId, before).calls;
    assert calls[|before|].CreatePod?;
  }

  /** The matching pod is that of the newest row with the hash and a pod, whatever else the ledger holds, and there is
      none under always_create. */
  lemma {:induction false} ExistingIsNewest(reuse: ReusePolicy, rows: Rows, hash: string, podId: string)
    ensures Existing(reuse, rows, hash) == Some(podId)
            <==> reuse != AlwaysCreate
                 && exists i :: 0 <= i < |rows| && rows[i].hash == hash && rows[i].podId == Some(podId)
                                && forall j :: i < j < |rows| ==> rows[j].hash != hash || rows[j].podId == None
    decreases |rows|
  {
    if rows != [] {
      var m := |rows| - 1;
      ExistingIsNewest(reuse, rows[..m], hash, podId);
      if reuse != AlwaysCreate {
        if rows[m].hash == hash && rows[m].podId.Some? {
          assert Existing(reuse, rows, hash) == rows[m].podId;
        } else {
          assert Existing(reuse, rows, hash) == Existing(reuse, rows[..m], hash);
          assert forall i :: 0 <= i < m ==> rows[..m][i] == rows[i];
        }
      }
    }
  }

  /** A pod is resumed exactly if the template is resolved, the policy is resume_stopped, and the matching pod answers
      and is stopped or exited. Then the acquisition fails exactly if that call is refused; otherwise the pod has the
      status that the call answered with, and its name. */
  lemma {:induction false} ResumesExactly(o: Oracle, n: nat, run: Run, rows: Rows, r: Resource, rowId: string,
                                          id: string)
    ensures var a, existing := Acquire(o, n, run, rows, r, rowId), Existing(run.reuse, rows, r.desiredHash);
            var reply := o.pod(n, GetPod(id));
            && (ResumePod(id) in a.calls
                <==> && !("rp-" <= r.templateId) && run.reuse == ResumeStopped && existing == Some(id)
                     && reply.Some? && (reply.value.status == Stopped || reply.value.status == Exited))
            && (ResumePod(id) in a.calls ==>
                  var answer := o.pod(n + 1, ResumePod(id));
                  && a.calls == [GetPod(id), ResumePod(id)]
                  && (a.pod.None? <==> answer.None?) && (answer.None? ==> a.events == [])
                  && (answer.Some? ==>
                        && a.pod.value == Pod(answer.value.id, reply.value.name, answer.value.status)
                        && a.events == [Event(run.runId, PodResumed, Some(rowId), id)]))
  {
    var a, existing := Acquire(o, n, run, rows, r, rowId), Existing(run.reuse, rows, r.desiredHash);
    if existing == Some(id) {
      assert ResumePod(id) in [GetPod(id), ResumePod(id)];
    }
  }

  /** A pod is reused as it is exactly if the policy is reuse_matching and it answers and is live. */
  lemma {:induction false} ReusesExactly(o: Oracle, n: nat, run: Run, rows: Rows, r: Resource, rowId: string)
    requires !Unresolved(r.templateId)
    ensures var a, existing := Acquire(o, n, run, rows, r, rowId), Existing(run.reuse, rows, r.desiredHash);
            var reply := if existing.Some? then o.pod(n, GetPod(existing.value)) else None;
            var fits := run.reuse == ReuseMatching && reply.Some? && reply.value.status.Live?;
            && ((exists e :: e in a.events && e.kind == PodReused) <==> fits)
            && (fits ==>
                  && a.pod == reply && a.calls == [GetPod(existing.value)]
                  && a.events == [Event(run.runId, PodReused, Some(rowId), existing.value)])
  {
    var a, existing := Acquire(o, n, run, rows, r, rowId), Existing(run.reuse, rows, r.desiredHash);
    if existing.Some? && a.events == [Note(run, PodReused, rowId, existing.value)] {
      assert Note(run, PodReused, rowId, existing.value) in a.events;
    }
  }

  /** What is asked for is the resource's own pod input, once and last, and what comes back is the answer. An
      acquisition raises exactly if the template is not resolved or its last call is refused. */
  lemma {:induction false} AcquireEnds(o: Oracle, n: nat, run: Run, rows: Rows, r: Resource, rowId: string)
    ensures var a := Acquire(o, n, run, rows, r, rowId);
            && ("rp-" <= r.templateId <==> a.calls == []) && (a.calls == [] ==> a.pod.None? && a.events == [])
            && (a.calls != [] ==>
                  var last := |a.calls| - 1;
                  && (a.pod.None? <==> o.pod(n + last, a.calls[last]).None?)
                  && (a.pod.Some? && a.calls[last].CreatePod? ==>
                        && a.pod == o.pod(n + last, a.calls[last])
                        && a.events == [Event(run.runId, PodCreateRequest, Some(rowId), r.name),
                                        Event(run.runId, PodCreated, Some(rowId), a.pod.value.id)]))
            && (forall i :: 0 <= i < |a.calls| && a.calls[i].CreatePod? ==>
                  i == |a.calls| - 1 && a.calls[i].input == r.podInput)
            && (forall e :: e in a.events ==> e.runId == run.runId && e.resourceId == Some(rowId))
  {
  }

  /** Inputs for which that happens: the ledger's one row is about the resource, its pod answers, and the policy has no
      use for it; a second pod is asked for. */
  lemma {:induction false} SecondPodIsMade(o: Oracle, run: Run, r: Resource, row: ResourceRow, status: PodStatus)
    requires !Unresolved(r.templateId) && row.hash == r.desiredHash && row.podId == Some("pod-1")
    requires o.pod(0, GetPod("pod-1")) == Some(Pod("pod-1", r.name, status))
    requires || (run.reuse == ResumeStopped && (status.Live? || status.Terminated?))
             || (run.reuse == ReuseMatching && !status.Live?)
    ensures Acquire(o, 0, run, [row], r, RowId(run.runId)(r)).calls == [GetPod("pod-1"), CreatePod(r.podInput)]
  {
    assert Newest([row], r.desiredHash) == Some("pod-1");
  }

  // ---------------------------------------------------------------------------------------------
  // All resources of a plan

  /** The resource loop of one run: the length of the log and the time when it begins, and its resources. */
  datatype Turning = Turning(n: nat, clock: nat, resources: seq<Resource>)

  /** How a pod is got for a resource, given the length of the log and the ledger. */
  type Acquirer = (nat, Rows, Resource) -> Acquired

  datatype Ctx = Ctx(runId: string, rowId: Resource -> string, acquire: Acquirer)

  function CtxOf(o: Oracle, run: Run): Ctx {
    Ctx(run.runId, RowId(run.runId),
        (n: nat, rows: Rows, r: Resource) => Acquire(o, n, run, rows, r, RowId(run.runId)(r)))
  }

  datatype Gathering = Gathering(calls: seq<Call>, rows: Rows, events: seq<Event>, clock: nat, pods: seq<Pod>, ok: bool)

  /** The turn after its acquisition: record the pod, and wait for it unless it is the agent's. */
  function Settle(o: Oracle, n: nat, ctx: Ctx, g: Gathering, r: Resource, pending: Rows, a: Acquired): Gathering {
    if a.pod.None? then Gathering(g.calls + a.calls, pending, g.events + a.events, g.clock + 1, g.pods, false)
    else
      var pod := a.pod.value;
      var rows := Upsert(pending,
                         ResourceEntry(ctx.rowId(r), ctx.runId, r, Some(pod.id), Reported(pod.status), g.clock + 1));
      var calls := g.calls + a.calls;
      if r.role == Agent then Gathering(calls, rows, g.events + a.events, g.clock + 2, g.pods + [pod], true)
      else Gathering(calls + [AwaitReady(pod.id)], rows, g.events + a.events, g.clock + 2, g.pods + [pod],
                     o.done(n + |calls|, AwaitReady(pod.id)))
  }

  function Pending(ctx: Ctx, g: Gathering, r: Resource): Rows {
    Upsert(g.rows, ResourceEntry(ctx.rowId(r), ctx.runId, r, None, Creating, g.clock))
  }

  /** One turn of the resource loop of _apply. */
  function GatherOne(o: Oracle, n: nat, ctx: Ctx, g: Gathering, r: Resource): Gathering {
    if !g.ok then g
    else Settle(o, n, ctx, g, r, Pending(ctx, g, r), ctx.acquire(n + |g.calls|, Pending(ctx, g, r), r))
  }

  function Gather(o: Oracle, n: nat, ctx: Ctx, rows: Rows, clock: nat, resources: seq<Resource>): Gathering {
    if resources == [] then Gathering([], rows, [], clock, [], true)
    else GatherOne(o, n, ctx, Gather(o, n, ctx, rows, clock, resources[..|resources| - 1]), resources[|resources| - 1])
  }

  lemma {:induction false} GatherNext(o: Oracle, n: nat, ctx: Ctx, rows: Rows, clock: nat, resources: seq<Resource>,
                                      i: nat)
    requires i < |resources|
    ensures Gather(o, n, ctx, rows, clock, resources[..i + 1])
            == GatherOne(o, n, ctx, Gather(o, n, ctx, rows, clock, resources[..i]), resources[i])
  {
    assert resources[..i + 1][..i] == resources[..i];
  }

  lemma {:induction false} FailureStays(o: Oracle, n: nat, ctx: Ctx, rows: Rows, clock: nat, resources: seq<Resource>,
                                        i: nat)
    requires i <= |resources| && !Gather(o, n, ctx, rows, clock, resources[..i]).ok
    ensures Gather(o, n, ctx, rows, clock, resources) == Gather(o, n, ctx, rows, clock, resources[..i])
    decreases |resources| - i
  {
    if i == |resources| {
      assert resources[..i] == resources;
    } else {
      GatherNext(o, n, ctx, rows, clock, resources, i);
      FailureStays(o, n, ctx, rows, clock, resources, i + 1);
    }
  }

  // ---------------------------------------------------------------------------------------------
  // What was created, and what was recorded

  /** The pods made by the create calls among `calls`, the first of which was made at log length n. */
  function CreatedIds(o: Oracle, n: nat, calls: seq<Call>): seq<string> {
    if calls == [] then []
    else
      var m := |calls| - 1;
      var reply := o.pod(n + m, calls[m]);
      CreatedIds(o, n, calls[..m]) + (if calls[m].CreatePod? && reply.Some? then [reply.value.id] else [])
  }

  lemma {:induction false} CreatedConcat(o: Oracle, n: nat, a: seq<Call>, b: seq<Call>)
    ensures CreatedIds(o, n, a + b) == CreatedIds(o, n, a) + CreatedIds(o, n + |a|, b)
    decreases |b|
  {
    if b == [] {
      assert a + b == a;
    } else {
      var m := |b| - 1;
      CreatedConcat(o, n, a, b[..m]);
      assert (a + b)[..|a| + m] == a + b[..m];
    }
  }

  /** A call for one pod is answered with that pod. */
  ghost predicate Honest(o: Oracle) {
    forall n: nat, id: string :: (o.pod(n, GetPod(id)).Some? ==> o.pod(n, GetPod(id)).value.id == id)
                              && (o.pod(n, ResumePod(id)).Some? ==> o.pod(n, ResumePod(id)).value.id == id)
  }

  lemma {:induction false} OneCall(o: Oracle, n: nat, c: Call)
    ensures CreatedIds(o, n, [c]) == if c.CreatePod? && o.pod(n, c).Some? then [o.pod(n, c).value.id] else []
  {
    assert [c][..0] == [];
  }

  lemma {:induction false} TwoEvents(a: Event, b: Event)
    requires a.kind == PodCreateRequest
    ensures PodsOfEvents([a, b]) == PodsOfEvents([b])
  {
    assert [a] + [b] == [a, b];
    PodsConcat([a], [b]);
    OneEvent(a);
  }

  function Ids(pod: Option<Pod>): seq<string> {
    if pod.None? then [] else [pod.value.id]
  }

  /** What is created is what is returned, and what is returned is what the events say. */
  ghost predicate Traced(o: Oracle, n: nat, a: Acquired) {
    (CreatedIds(o, n, a.calls) == Ids(a.pod) || CreatedIds(o, n, a.calls) == []) && PodsOfEvents(a.events) == Ids(a.pod)
  }

  lemma {:induction false} CreateCalls(o: Oracle, n: nat, before: seq<Call>, call: Call)
    requires CreatedIds(o, n, before) == [] && call.CreatePod?
    ensures CreatedIds(o, n, before + [call]) == Ids(o.pod(n + |before|, call))
  {
    CreatedConcat(o, n, before, [call]);
    OneCall(o, n + |before|, call);
    assert [] + Ids(o.pod(n + |before|, call)) == Ids(o.pod(n + |before|, call));
  }

  lemma {:induction false} CreateEvents(asked: Event, e: Event)
    requires asked.kind == PodCreateRequest
    ensures e.kind == PodCreated ==> PodsOfEvents([asked, e]) == [e.subject]
    ensures e.kind == PodCreateFailed ==> PodsOfEvents([asked, e]) == []
  {
    TwoEvents(asked, e);
    OneEvent(e);
  }

  lemma {:induction false} CreateTraced(o: Oracle, n: nat, run: Run, r: Resource, rowId: string, before: seq<Call>)
    requires CreatedIds(o, n, before) == []
    ensures Traced(o, n, Create(o, n, run, r, rowId, before))
  {
    var call := CreatePod(r.podInput);
    CreateCalls(o, n, before, call);
    CreateEvents(Note(run, PodCreateRequest, rowId, r.name), Note(run, PodCreateFailed, rowId, r.name));
    if o.pod(n + |before|, call).Some? {
      CreateEvents(Note(run, PodCreateRequest, rowId, r.name),
                   Note(run, PodCreated, rowId, o.pod(n + |before|, call).value.id));
    }
  }

  lemma {:induction false} NoneCreated(o: Oracle, n: nat, podId: string)
    ensures CreatedIds(o, n, []) == [] && CreatedIds(o, n, [GetPod(podId)]) == []
            && CreatedIds(o, n, [GetPod(podId), ResumePod(podId)]) == []
  {
    OneCall(o, n, GetPod(podId));
    OneCall(o, n + 1, ResumePod(podId));
    CreatedConcat(o, n, [GetPod(podId)], [ResumePod(podId)]);
    assert [GetPod(podId)] + [ResumePod(podId)] == [GetPod(podId), ResumePod(podId)];
  }

  lemma {:induction false} ResumeTraced(o: Oracle, n: nat, run: Run, rowId: string, podId: string, pod: Pod)
    requires Honest(o)
    ensures Traced(o, n, Resume(o, n, run, rowId, podId, pod))
  {
    NoneCreated(o, n, podId);
    OneEvent(Note(run, PodResumed, rowId, podId));
  }

  lemma {:induction false} KeepTraced(o: Oracle, n: nat, run: Run, rowId: string, podId: string)
    requires Honest(o)
    ensures Traced(o, n, ReuseAsIs(run, rowId, podId, o.pod(n, GetPod(podId))))
  {
    NoneCreated(o, n, podId);
    OneEvent(Note(run, PodReused, rowId, podId));
  }

  lemma {:induction false} FromExistingTraced(o: Oracle, n: nat, run: Run, r: Resource, rowId: string, podId: string)
    requires Honest(o)
    ensures Traced(o, n, FromExisting(o, n, run, r, rowId, podId, o.pod(n, GetPod(podId))))
  {
    NoneCreated(o, n, podId);
    KeepTraced(o, n, run, rowId, podId);
    CreateTraced(o, n, run, r, rowId, [GetPod(podId)]);
    var reply := o.pod(n, GetPod(podId));
    if reply.Some? {
      ResumeTraced(o, n, run, rowId, podId, reply.value);
    }
  }

  /** However an acquisition goes, it is traced. */
  lemma {:induction false} AcquireTraced(o: Oracle, n: nat, run: Run, rows: Rows, r: Resource, rowId: string)
    requires Honest(o)
    ensures Traced(o, n, Acquire(o, n, run, rows, r, rowId))
  {
    NoneCreated(o, n, "");
    CreateTraced(o, n, run, r, rowId, []);
    var existing := Existing(run.reuse, rows, r.desiredHash);
    if existing.Some? {
      FromExistingTraced(o, n, run, r, rowId, existing.value);
    }
  }

  /** Whatever the ledger and the state of the log, acquisitions are traced. */
  ghost predicate AllTraced(o: Oracle, ctx: Ctx) {
    forall n: nat, rows: Rows, r: Resource :: Traced(o, n, ctx.acquire(n, rows, r))
  }

  lemma {:induction false} AcquisitionsTraced(o: Oracle, run: Run)
    requires Honest(o)
    ensures AllTraced(o, CtxOf(o, run))
  {
    forall n: nat, rows: Rows, r: Resource ensures Traced(o, n, CtxOf(o, run).acquire(n, rows, r)) {
      AcquireTraced(o, n, run, rows, r, RowId(run.runId)(r));
    }
  }

  function IdsOf(pods: seq<Pod>): (r: seq<string>)
    ensures |r| == |pods|
    ensures forall i :: 0 <= i < |r| ==> r[i] == pods[i].id
  {
    if pods == [] then [] else IdsOf(pods[..|pods| - 1]) + [pods[|pods| - 1].id]
  }

  // ---------------------------------------------------------------------------------------------
  // No pod is lost

  lemma {:induction false} FindNone(rows: Rows, id: string)
    requires forall i :: 0 <= i < |rows| ==> rows[i].id != id
    ensures Find(rows, id) == |rows|
  {
  }

  lemma {:induction false} UpsertNew(rows: Rows, row: ResourceRow)
    requires forall i :: 0 <= i < |rows| ==> rows[i].id != row.id
    ensures Upsert(rows, row) == rows + [row]
  {
    FindNone(rows, row.id);
  }

  lemma {:induction false} UpsertLast(rows: Rows, last: ResourceRow, row: ResourceRow)
    requires forall i :: 0 <= i < |rows| ==> rows[i].id != row.id
    requires last.id == row.id
    ensures Upsert(rows + [last], row)
            == rows + [last.(podId := row.podId, status := row.status, lastSeen := row.lastSeen)]
  {
    var all := rows + [last];
    assert forall i :: 0 <= i < |rows| ==> all[i] == rows[i];
    assert all[|rows|].id == row.id;
    assert Find(all, row.id) == |rows|;
  }

  /** The row says what the resource is, which pod it has got and in what state; without a pod it is being created. */
  predicate RowFor(row: ResourceRow, ctx: Ctx, r: Resource, pod: Option<Pod>) {
    && row.id == ctx.rowId(r) && row.runId == Some(ctx.runId) && row.hash == r.desiredHash
    && row.role == Some(r.role) && row.nodeId == r.nodeId && row.name == r.name
    && match pod
       case None => row.podId == None && row.status == Creating
       case Some(p) => row.podId == Some(p.id) && row.status == Reported(p.status)
  }

  ghost predicate NoRowYet(rows: Rows, ctx: Ctx, r: Resource) {
    forall i :: 0 <= i < |rows| ==> rows[i].id != ctx.rowId(r)
  }

  predicate RecordedAt(ctx: Ctx, rows: Rows, resources: seq<Resource>, g: Gathering, i: nat) {
    && i < |resources| && |rows| + i < |g.rows|
    && RowFor(g.rows[|rows| + i], ctx, resources[i], if i < |g.pods| then Some(g.pods[i]) else None)
  }

  /** The ledger grew by one row per resource attempted; all but a last failed one name the pod acquired. */
  ghost predicate Recorded(ctx: Ctx, rows: Rows, resources: seq<Resource>, g: Gathering) {
    && |rows| + |g.pods| <= |g.rows| <= |rows| + |resources| && |g.rows| <= |rows| + |g.pods| + 1
    && (g.ok ==> |g.rows| == |rows| + |resources| == |rows| + |g.pods|)
    && g.rows[..|rows|] == rows
    && (forall i: nat :: i < |g.rows| - |rows| ==> RecordedAt(ctx, rows, resources, g, i))
  }

  ghost predicate OneMore(ctx: Ctx, g: Gathering, r: Resource, q: Gathering) {
    && |q.rows| == |g.rows| + 1 && q.rows[..|g.rows|] == g.rows && |g.pods| <= |q.pods| <= |g.pods| + 1
    && q.pods[..|g.pods|] == g.pods && (q.ok ==> |q.pods| == |g.pods| + 1)
    && RowFor(q.rows[|g.rows|], ctx, r, if |q.pods| == |g.pods| then None else Some(q.pods[|g.pods|]))
  }

  lemma {:induction false} SettleAppends(o: Oracle, n: nat, ctx: Ctx, g: Gathering, r: Resource, a: Acquired,
                                         first: ResourceRow)
    requires NoRowYet(g.rows, ctx, r) && first == ResourceEntry(ctx.rowId(r), ctx.runId, r, None, Creating, g.clock)
    ensures OneMore(ctx, g, r, Settle(o, n, ctx, g, r, g.rows + [first], a))
  {
    if a.pod.Some? {
      UpsertLast(g.rows, first, ResourceEntry(ctx.rowId(r), ctx.runId, r, Some(a.pod.value.id),
                                              Reported(a.pod.value.status), g.clock + 1));
    }
  }

  /** The two writes of one turn add one row at the end. */
  lemma {:induction false} GatherOneAppends(o: Oracle, n: nat, ctx: Ctx, g: Gathering, r: Resource)
    requires g.ok && NoRowYet(g.rows, ctx, r)
    ensures OneMore(ctx, g, r, GatherOne(o, n, ctx, g, r))
  {
    var first := ResourceEntry(ctx.rowId(r), ctx.runId, r, None, Creating, g.clock);
    UpsertNew(g.rows, first);
    SettleAppends(o, n, ctx, g, r, ctx.acquire(n + |g.calls|, g.rows + [first], r), first);
  }

  lemma {:induction false} RecordedNext(ctx: Ctx, rows: Rows, front: seq<Resource>, r: Resource, g: Gathering,
                                        q: Gathering)
    requires g.ok && Recorded(ctx, rows, front, g)
    requires OneMore(ctx, g, r, q)
    ensures Recorded(ctx, rows, front + [r], q)
  {
    assert q.rows[..|rows|] == g.rows[..|rows|];
    forall i: nat | i < |g.rows| - |rows| ensures RecordedAt(ctx, rows, front + [r], q, i) {
      assert RecordedAt(ctx, rows, front, g, i);
      assert q.rows[|rows| + i] == g.rows[|rows| + i];
      assert i < |g.pods| ==> q.pods[i] == g.pods[i];
    }
    assert RecordedAt(ctx, rows, front + [r], q, |g.rows| - |rows|);
  }

  ghost predicate FreshRun(rows: Rows, ctx: Ctx, resources: seq<Resource>) {
    && (forall i :: 0 <= i < |rows| ==> rows[i].runId != Some(ctx.runId))
    && (forall j :: 0 <= j < |resources| ==> NoRowYet(rows, ctx, resources[j]))
  }

  ghost predicate DistinctRows(ctx: Ctx, resources: seq<Resource>) {
    forall i, j :: 0 <= i < j < |resources| ==> ctx.rowId(resources[i]) != ctx.rowId(resources[j])
  }

  lemma {:induction false} NextHasNoRow(ctx: Ctx, rows: Rows, resources: seq<Resource>, i: nat, g: Gathering)
    requires i < |resources| && FreshRun(rows, ctx, resources) && DistinctRows(ctx, resources)
    requires Recorded(ctx, rows, resources[..i], g)
    ensures NoRowYet(g.rows, ctx, resources[i])
  {
    forall k | 0 <= k < |g.rows| ensures g.rows[k].id != ctx.rowId(resources[i]) {
      if k < |rows| {
        assert g.rows[k] == g.rows[..|rows|][k];
        assert NoRowYet(rows, ctx, resources[i]);
      } else {
        assert RecordedAt(ctx, rows, resources[..i], g, k - |rows|);
      }
    }
  }

  lemma {:induction false} LongerFails(ctx: Ctx, rows: Rows, front: seq<Resource>, r: Resource, g: Gathering)
    requires !g.ok && Recorded(ctx, rows, front, g)
    ensures Recorded(ctx, rows, front + [r], g)
  {
    forall i: nat | i < |g.rows| - |rows| ensures RecordedAt(ctx, rows, front + [r], g, i) {
      assert RecordedAt(ctx, rows, front, g, i);
    }
  }

  lemma {:induction false} RecordedOnce(o: Oracle, n: nat, ctx: Ctx, rows: Rows, resources: seq<Resource>, i: nat,
                                        g: Gathering, q: Gathering)
    requires i < |resources| && FreshRun(rows, ctx, resources) && DistinctRows(ctx, resources)
    requires Recorded(ctx, rows, resources[..i], g) && q == GatherOne(o, n, ctx, g, resources[i])
    ensures Recorded(ctx, rows, resources[..i + 1], q)
  {
    assert resources[..i + 1] == resources[..i] + [resources[i]];
    if g.ok {
      NextHasNoRow(ctx, rows, resources, i, g);
      GatherOneAppends(o, n, ctx, g, resources[i]);
      RecordedNext(ctx, rows, resources[..i], resources[i], g, q);
    } else {
      LongerFails(ctx, rows, resources[..i], resources[i], g);
    }
  }

  /** Over all faults: earlier rows are untouched, and each attempted resource has its own row of this run. */
  lemma {:induction false} GatherRecorded(o: Oracle, n: nat, ctx: Ctx, rows: Rows, clock: nat, resources: seq<Resource>,
                                          i: nat, q: Gathering)
    requires i <= |resources| && FreshRun(rows, ctx, resources) && DistinctRows(ctx, resources)
    requires q == Gather(o, n, ctx, rows, clock, resources[..i])
    ensures Recorded(ctx, rows, resources[..i], q)
    decreases i
  {
    if i > 0 {
      var g := Gather(o, n, ctx, rows, clock, resources[..i - 1]);
      GatherRecorded(o, n, ctx, rows, clock, resources, i - 1, g);
      GatherNext(o, n, ctx, rows, clock, resources, i - 1);
      RecordedOnce(o, n, ctx, rows, resources, i - 1, g, q);
    }
  }

  /** The calls wait for a pod, which becomes ready. */
  predicate Awaited(o: Oracle, n: nat, calls: seq<Call>, id: string) {
    exists k :: 0 <= k < |calls| && calls[k] == AwaitReady(id) && o.done(n + k, AwaitReady(id))
  }

  lemma {:induction false} StillAwaited(o: Oracle, n: nat, calls: seq<Call>, more: seq<Call>, id: string)
    requires Awaited(o, n, calls, id)
    ensures Awaited(o, n, calls + more, id)
  {
    var k :| 0 <= k < |calls| && calls[k] == AwaitReady(id) && o.done(n + k, AwaitReady(id));
    assert (calls + more)[k] == AwaitReady(id);
  }

  ghost predicate AllAwaited(o: Oracle, n: nat, resources: seq<Resource>, g: Gathering) {
    && |g.pods| == |resources|
    && forall j :: 0 <= j < |resources| && resources[j].role != Agent ==> Awaited(o, n, g.calls, g.pods[j].id)
  }

  /** What a turn that went well adds. */
  lemma {:induction false} TurnAdds(o: Oracle, n: nat, ctx: Ctx, g: Gathering, r: Resource, q: Gathering)
      returns (more: seq<Call>)
    requires g.ok && q == GatherOne(o, n, ctx, g, r) && q.ok
    ensures q.calls == g.calls + more && |q.pods| == |g.pods| + 1 && q.pods[..|g.pods|] == g.pods
    ensures r.role != Agent ==> Awaited(o, n, q.calls, q.pods[|g.pods|].id)
  {
    var a := ctx.acquire(n + |g.calls|, Pending(ctx, g, r), r);
    var calls := g.calls + a.calls;
    more := q.calls[|g.calls|..];
    if r.role != Agent {
      assert q.calls[|calls|] == AwaitReady(a.pod.value.id) && o.done(n + |calls|, AwaitReady(a.pod.value.id));
    }
  }

  /** When the resource loop succeeds, every pod but the agent's was waited for and became ready. */
  lemma {:induction false} GatherAwaits(o: Oracle, n: nat, ctx: Ctx, rows: Rows, clock: nat, resources: seq<Resource>,
                                        q: Gathering)
    requires q == Gather(o, n, ctx, rows, clock, resources) && q.ok
    ensures AllAwaited(o, n, resources, q)
    decreases |resources|
  {
    hide GatherOne, Awaited;
    if resources != [] {
      var m := |resources| - 1;
      var g := Gather(o, n, ctx, rows, clock, resources[..m]);
      FailedStays(o, n, ctx, g, resources[m]);
      GatherAwaits(o, n, ctx, rows, clock, resources[..m], g);
      var more := TurnAdds(o, n, ctx, g, resources[m], q);
      forall j | 0 <= j < m && resources[j].role != Agent ensures Awaited(o, n, q.calls, q.pods[j].id) {
        assert resources[..m][j] == resources[j] && q.pods[j] == g.pods[j];
        StillAwaited(o, n, g.calls, more, g.pods[j].id);
      }
    }
  }

  lemma {:induction false} FailedStays(o: Oracle, n: nat, ctx: Ctx, g: Gathering, r: Resource)
    ensures GatherOne(o, n, ctx, g, r).ok ==> g.ok
  {
  }

  ghost predicate GatherTraced(o: Oracle, n: nat, g: Gathering) {
    && (forall id :: id in CreatedIds(o, n, g.calls) ==> id in IdsOf(g.pods))
    && PodsOfEvents(g.events) == IdsOf(g.pods)
  }

  lemma {:induction false} IdsSnoc(pods: seq<Pod>, pod: Pod)
    ensures IdsOf(pods + [pod]) == IdsOf(pods) + [pod.id]
  {
    assert (pods + [pod])[..|pods|] == pods;
  }

  lemma {:induction false} AwaitCreatesNothing(o: Oracle, n: nat, calls: seq<Call>, id: string)
    ensures CreatedIds(o, n, calls + [AwaitReady(id)]) == CreatedIds(o, n, calls)
  {
    assert (calls + [AwaitReady(id)])[..|calls|] == calls;
  }

  lemma {:induction false} TraceOn(o: Oracle, n: nat, calls: seq<Call>, events: seq<Event>, pods: seq<Pod>, a: Acquired)
    requires (forall id :: id in CreatedIds(o, n, calls) ==> id in IdsOf(pods)) && PodsOfEvents(events) == IdsOf(pods)
    requires Traced(o, n + |calls|, a)
    ensures var more := if a.pod.None? then pods else pods + [a.pod.value];
            && (forall id :: id in CreatedIds(o, n, calls + a.calls) ==> id in IdsOf(more))
            && PodsOfEvents(events + a.events) == IdsOf(more)
  {
    CreatedConcat(o, n, calls, a.calls);
    PodsConcat(events, a.events);
    if a.pod.Some? {
      IdsSnoc(pods, a.pod.value);
    } else {
      assert IdsOf(pods) + [] == IdsOf(pods);
    }
  }

  lemma {:induction false} SettleTraced(o: Oracle, n: nat, ctx: Ctx, g: Gathering, r: Resource, pending: Rows,
                                        a: Acquired, q: Gathering)
    requires GatherTraced(o, n, g) && Traced(o, n + |g.calls|, a) && q == Settle(o, n, ctx, g, r, pending, a)
    ensures GatherTraced(o, n, q)
  {
    TraceOn(o, n, g.calls, g.events, g.pods, a);
    if a.pod.Some? {
      AwaitCreatesNothing(o, n, g.calls + a.calls, a.pod.value.id);
    }
  }

  lemma {:induction false} GatherOneTraced(o: Oracle, n: nat, ctx: Ctx, g: Gathering, r: Resource, q: Gathering)
    requires AllTraced(o, ctx) && GatherTraced(o, n, g) && q == GatherOne(o, n, ctx, g, r)
    ensures GatherTraced(o, n, q)
  {
    hide CreatedIds, PodsOfEvents, Settle, Traced, GatherTraced;
    if g.ok {
      var pending := Pending(ctx, g, r);
      SettleTraced(o, n, ctx, g, r, pending, ctx.acquire(n + |g.calls|, pending, r), q);
    }
  }

  lemma {:induction false} GatherIsTraced(o: Oracle, n: nat, ctx: Ctx, rows: Rows, clock: nat, resources: seq<Resource>,
                                          q: Gathering)
    requires AllTraced(o, ctx) && q == Gather(o, n, ctx, rows, clock, resources)
    ensures GatherTraced(o, n, q)
    decreases |resources|
  {
    if resources != [] {
      var m := |resources| - 1;
      var g := Gather(o, n, ctx, rows, clock, resources[..m]);
      GatherIsTraced(o, n, ctx, rows, clock, resources[..m], g);
      GatherOneTraced(o, n, ctx, g, resources[m], q);
    }
  }

  // ---------------------------------------------------------------------------------------------
  // Cleaning up

  /** The pods of the rows of one run. */
  function RunPods(rows: Rows, runId: string): seq<string> {
    if rows == [] then []
    else
      var last := rows[|rows| - 1];
      RunPods(rows[..|rows| - 1], runId)
        + (if last.runId == Some(runId) && last.podId.Some? then [last.podId.value] else [])
  }

  lemma {:induction false} NoPodsOfOthers(rows: Rows, runId: string)
    requires forall i :: 0 <= i < |rows| ==> rows[i].runId != Some(runId)
    ensures RunPods(rows, runId) == []
    decreases |rows|
  {
    if rows != [] {
      NoPodsOfOthers(rows[..|rows| - 1], runId);
    }
  }

  lemma {:induction false} RunPodsNext(rows: Rows, runId: string, k: nat)
    requires k < |rows|
    ensures RunPods(rows[..k + 1], runId)
            == RunPods(rows[..k], runId)
               + (if rows[k].runId == Some(runId) && rows[k].podId.Some? then [rows[k].podId.value] else [])
  {
    assert rows[..k + 1][..k] == rows[..k];
  }

  lemma {:induction false} IdsUpTo(pods: seq<Pod>, k: nat)
    requires 0 < k <= |pods|
    ensures IdsOf(pods[..k]) == IdsOf(pods[..k - 1]) + [pods[k - 1].id]
  {
    IdsSnoc(pods[..k - 1], pods[k - 1]);
    assert pods[..k] == pods[..k - 1] + [pods[k - 1]];
  }

  lemma {:induction false} RunPodsHit(rows: Rows, runId: string, m: nat, id: string)
    requires 0 < m <= |rows| && rows[m - 1].runId == Some(runId) && rows[m - 1].podId == Some(id)
    ensures RunPods(rows[..m], runId) == RunPods(rows[..m - 1], runId) + [id]
  {
    RunPodsNext(rows, runId, m - 1);
  }

  lemma {:induction false} RunPodsUpTo(ctx: Ctx, rows: Rows, resources: seq<Resource>, g: Gathering, k: nat, m: nat)
    requires Recorded(ctx, rows, resources, g) && k <= |g.pods| && m == |rows| + k && RunPods(rows, ctx.runId) == []
    ensures RunPods(g.rows[..m], ctx.runId) == IdsOf(g.pods[..k])
    decreases k
  {
    if k == 0 {
      assert g.pods[..0] == [];
    } else {
      RunPodsUpTo(ctx, rows, resources, g, k - 1, m - 1);
      assert RecordedAt(ctx, rows, resources, g, k - 1);
      RunPodsHit(g.rows, ctx.runId, m, g.pods[k - 1].id);
      IdsUpTo(g.pods, k);
    }
  }

  lemma {:induction false} RunPodsLast(ctx: Ctx, rows: Rows, resources: seq<Resource>, g: Gathering, m: nat)
    requires Recorded(ctx, rows, resources, g) && m == |rows| + |g.pods|
             && RunPods(g.rows[..m], ctx.runId) == IdsOf(g.pods)
    ensures RunPods(g.rows, ctx.runId) == IdsOf(g.pods)
  {
    if |g.rows| == m {
      assert g.rows[..m] == g.rows;
    } else {
      assert RecordedAt(ctx, rows, resources, g, |g.pods|);
      RunPodsNext(g.rows, ctx.runId, m);
      assert g.rows[..m + 1] == g.rows;
    }
  }

  lemma {:induction false} RowsNamePods(ctx: Ctx, rows: Rows, resources: seq<Resource>, g: Gathering)
    requires Recorded(ctx, rows, resources, g) && FreshRun(rows, ctx, resources)
    ensures RunPods(g.rows, ctx.runId) == IdsOf(g.pods)
  {
    NoPodsOfOthers(rows, ctx.runId);
    RunPodsUpTo(ctx, rows, resources, g, |g.pods|, |rows| + |g.pods|);
    assert g.pods[..|g.pods|] == g.pods;
    RunPodsLast(ctx, rows, resources, g, |rows| + |g.pods|);
  }

  /** What is known of the ledger once the resource loop has ended, normally or not. */
  ghost predicate NoneLost(o: Oracle, n: nat, runId: string, rows: Rows, g: Gathering) {
    && RunPods(g.rows, runId) == IdsOf(g.pods) == PodsOfEvents(g.events)
    && (forall id :: id in CreatedIds(o, n, g.calls) ==> id in RunPods(g.rows, runId))
    && |g.rows| >= |rows| && g.rows[..|rows|] == rows
  }

  /** No leak: at whatever call the resource loop fails, or if it succeeds, the rows of this run name exactly the pods
      acquired, in order, which are the pods that the events call reused, resumed or created; every pod created is among
      them; and no earlier row has changed. */
  lemma {:induction false} NothingLost(o: Oracle, n: nat, ctx: Ctx, rows: Rows, clock: nat, resources: seq<Resource>,
                                       g: Gathering)
    requires AllTraced(o, ctx) && FreshRun(rows, ctx, resources) && DistinctRows(ctx, resources)
    requires g == Gather(o, n, ctx, rows, clock, resources)
    ensures NoneLost(o, n, ctx.runId, rows, g)
  {
    assert resources[..|resources|] == resources;
    GatherRecorded(o, n, ctx, rows, clock, resources, |resources|, g);
    GatherIsTraced(o, n, ctx, rows, clock, resources, g);
    RowsNamePods(ctx, rows, resources, g);
  }

  /** stop_pod or terminate_pod */
  function EndCall(terminate: bool, id: string): Call {
    if terminate then TerminatePodCall(id) else StopPodCall(id)
  }

  function CleanupOf(row: ResourceRow, runId: string, terminate: bool): seq<Call> {
    if row.runId == Some(runId) && row.podId.Some? then [EndCall(terminate, row.podId.value)] else []
  }

  /** The calls of _cleanup_created: one per row of the run that has a pod, newest first. */
  function CleanupCalls(rows: Rows, runId: string, terminate: bool): seq<Call> {
    if rows == [] then []
    else CleanupOf(rows[|rows| - 1], runId, terminate) + CleanupCalls(rows[..|rows| - 1], runId, terminate)
  }

  /** The k oldest rows are still to be dealt with. */
  ghost predicate Cleaning(rows: Rows, runId: string, terminate: bool, k: nat, made: seq<Call>) {
    k <= |rows| && made + CleanupCalls(rows[..k], runId, terminate) == CleanupCalls(rows, runId, terminate)
  }

  lemma {:induction false} CleaningStart(rows: Rows, runId: string, terminate: bool)
    ensures Cleaning(rows, runId, terminate, |rows|, [])
  {
    assert rows[..|rows|] == rows;
    var all := CleanupCalls(rows, runId, terminate);
    assert [] + all == all;
  }

  lemma {:induction false} Shift(a: seq<Call>, b: seq<Call>, c: seq<Call>)
    ensures a + (b + c) == (a + b) + c
  {
  }

  lemma {:induction false} CleaningNext(rows: Rows, runId: string, terminate: bool, k: nat, made: seq<Call>)
    requires 0 < k && Cleaning(rows, runId, terminate, k, made)
    ensures Cleaning(rows, runId, terminate, k - 1, made + CleanupOf(rows[k - 1], runId, terminate))
  {
    assert rows[..k][..k - 1] == rows[..k - 1];
    Shift(made, CleanupOf(rows[k - 1], runId, terminate), CleanupCalls(rows[..k - 1], runId, terminate));
  }

  lemma {:induction false} CleaningEnd(rows: Rows, runId: string, terminate: bool, made: seq<Call>)
    requires Cleaning(rows, runId, terminate, 0, made)
    ensures made == CleanupCalls(rows, runId, terminate)
  {
    assert rows[..0] == [] && made + [] == made;
  }

  /** One call per pod, in reverse order: all pods are terminated, or all are stopped. */
  predicate Mirrors(calls: seq<Call>, pods: seq<string>, terminate: bool) {
    && |calls| == |pods|
    && (terminate ==> forall i :: 0 <= i < |calls| ==> calls[i] == TerminatePodCall(pods[|pods| - 1 - i]))
    && (!terminate ==> forall i :: 0 <= i < |calls| ==> calls[i] == StopPodCall(pods[|pods| - 1 - i]))
  }

  lemma {:induction false} MirrorsNext(calls: seq<Call>, pods: seq<string>, terminate: bool, id: string)
    requires Mirrors(calls, pods, terminate)
    ensures Mirrors([EndCall(terminate, id)] + calls, pods + [id], terminate)
  {
  }

  /** Cleanup attempts each pod of the run, once per row, in the reverse order of acquisition, and no other pod. */
  lemma {:induction false} CleanupReversesRunPods(rows: Rows, runId: string, terminate: bool)
    ensures Mirrors(CleanupCalls(rows, runId, terminate), RunPods(rows, runId), terminate)
    decreases |rows|
  {
    if rows != [] {
      var front, last := rows[..|rows| - 1], rows[|rows| - 1];
      CleanupReversesRunPods(front, runId, terminate);
      var calls, pods := CleanupCalls(front, runId, terminate), RunPods(front, runId);
      if last.runId == Some(runId) && last.podId.Some? {
        MirrorsNext(calls, pods, terminate, last.podId.value);
      } else {
        assert [] + calls == calls && pods + [] == pods;
      }
    }
  }

  lemma {:induction false} CleanupReaches(rows: Rows, runId: string, terminate: bool, id: string)
    requires id in RunPods(rows, runId)
    ensures EndCall(terminate, id) in CleanupCalls(rows, runId, terminate)
  {
    CleanupReversesRunPods(rows, runId, terminate);
    var pods, calls := RunPods(rows, runId), CleanupCalls(rows, runId, terminate);
    var i :| 0 <= i < |pods| && pods[i] == id;
    assert calls[|pods| - 1 - i] == EndCall(terminate, id);
  }

  // ---------------------------------------------------------------------------------------------
  // Reconciling

  /** Pods whose name starts with "crag-". */
  predicate Managed(pod: Pod) {
    "crag-" <= pod.name
  }

  /** reconcile_managed_pods: the ledger after the listed pods have been recorded, with no run id of their own. */
  function Reconciled(rows: Rows, clock: nat, pods: seq<Pod>): (r: (Rows, nat)) {
    if pods == [] then (rows, clock)
    else
      var front, last := Reconciled(rows, clock, pods[..|pods| - 1]), pods[|pods| - 1];
      if Managed(last) then (Upsert(front.0, RemoteEntry(last, None, front.1)), front.1 + 1) else front
  }

  lemma {:induction false} ReconciledNext(rows: Rows, clock: nat, pods: seq<Pod>, i: nat)
    requires i < |pods|
    ensures var front := Reconciled(rows, clock, pods[..i]);
            Reconciled(rows, clock, pods[..i + 1])
            == if Managed(pods[i]) then (Upsert(front.0, RemoteEntry(pods[i], None, front.1)), front.1 + 1) else front
  {
    assert pods[..i + 1][..i] == pods[..i];
  }

  /** A listing adds rows for exactly the pods with names that begin with "crag-", under their ids, and loses none. */
  lemma {:induction false} ReconciledExactly(rows: Rows, clock: nat, pods: seq<Pod>, id: string)
    ensures Known(Reconciled(rows, clock, pods).0, id)
            <==> Known(rows, id) || exists i :: 0 <= i < |pods| && pods[i].id == id && "crag-" <= pods[i].name
    decreases |pods|
  {
    if pods != [] {
      var m := |pods| - 1;
      ReconciledExactly(rows, clock, pods[..m], id);
      var front := Reconciled(rows, clock, pods[..m]);
      KnownAfter(front.0, RemoteEntry(pods[m], None, front.1), id);
      if i :| 0 <= i < m && pods[..m][i].id == id && "crag-" <= pods[..m][i].name {
        assert pods[i].id == id;
      }
    }
  }

  lemma {:induction false} KnownAfter(rows: Rows, row: ResourceRow, id: string)
    ensures Known(Upsert(rows, row), id) <==> Known(rows, id) || row.id == id
  {
    var i, now := StateStore.Find(rows, row.id), Upsert(rows, row);
    assert |now| > i && now[i].id == row.id;
    if Known(rows, id) {
      var k :| 0 <= k < |rows| && rows[k].id == id;
      assert now[k].id == id;
    }
    if Known(now, id) && row.id != id {
      var k :| 0 <= k < |now| && now[k].id == id;
      assert rows[k].id == id;
    }
  }

  /** Listed pods do not have the ids of rows of a run to come. */
  ghost predicate Foreign(ctx: Ctx, resources: seq<Resource>, pods: seq<Pod>) {
    forall i, j :: 0 <= i < |pods| && 0 <= j < |resources| ==> pods[i].id != ctx.rowId(resources[j])
  }

  lemma {:induction false} UpsertKeepsFresh(rows: Rows, ctx: Ctx, resources: seq<Resource>, row: ResourceRow)
    requires FreshRun(rows, ctx, resources) && row.runId != Some(ctx.runId)
    requires forall j :: 0 <= j < |resources| ==> row.id != ctx.rowId(resources[j])
    ensures FreshRun(Upsert(rows, row), ctx, resources)
  {
    forall j | 0 <= j < |resources| ensures NoRowYet(Upsert(rows, row), ctx, resources[j]) {
      assert NoRowYet(rows, ctx, resources[j]);
    }
  }

  lemma {:induction false} ReconciledFresh(rows: Rows, clock: nat, pods: seq<Pod>, ctx: Ctx, resources: seq<Resource>)
    requires FreshRun(rows, ctx, resources) && Foreign(ctx, resources, pods)
    ensures FreshRun(Reconciled(rows, clock, pods).0, ctx, resources)
    decreases |pods|
  {
    if pods != [] {
      var m := |pods| - 1;
      ReconciledFresh(rows, clock, pods[..m], ctx, resources);
      var front := Reconciled(rows, clock, pods[..m]);
      var row := RemoteEntry(pods[m], None, front.1);
      assert row.id == pods[m].id && row.runId == None;
      UpsertKeepsFresh(front.0, ctx, resources, row);
    }
  }
}
