/** Reuse over whole histories: any number of runs on one ledger, of which those that concern the watched hashes are
    reuse_matching runs with pods staying live. */
module History {
  import opened Options
  import opened Roles
  import opened Names
  import opened Planner
  import Contracts
  import opened Cloud
  import opened StateStore
  import opened Reuse
  import Volumes

  /** A pod that some run created, under what name and for which desired hash. */
  datatype Made = Made(podId: string, name: string, hash: string)

  /** The ledger and everything created so far. */
  datatype State = State(rows: Rows, made: seq<Made>)

  /** One run: what it listed and when, and its resource loop. */
  datatype HistoryRun = HistoryRun(o: Oracle, run: Run, listedAt: nat, listed: seq<Pod>, loop: Turning)

  function MadeBy(o: Oracle, n: nat, a: Acquired, r: Resource): seq<Made> {
    var created := CreatedIds(o, n, a.calls);
    if created == [] then [] else [Made(created[0], r.podInput.name, r.desiredHash)]
  }

  /** What the turns of a resource loop create. */
  function MadeIn(o: Oracle, n: nat, ctx: Ctx, rows: Rows, clock: nat, resources: seq<Resource>): seq<Made> {
    if resources == [] then []
    else
      var m := |resources| - 1;
      var g := Gather(o, n, ctx, rows, clock, resources[..m]);
      MadeIn(o, n, ctx, rows, clock, resources[..m]) + MadeInTurn(o, n, ctx, g, resources[m])
  }

  function MadeInTurn(o: Oracle, n: nat, ctx: Ctx, g: Gathering, r: Resource): seq<Made> {
    if g.ok then MadeBy(o, n + |g.calls|, ctx.acquire(n + |g.calls|, Pending(ctx, g, r), r), r) else []
  }

  /** The ledger when the resource loop of a run begins. */
  function Ledger(rows: Rows, h: HistoryRun): Rows {
    Reconciled(rows, h.listedAt, h.listed).0
  }

  /** The resource loop of a run that starts with the given rows. */
  function Loop(rows: Rows, h: HistoryRun): Gathering {
    Gather(h.o, h.loop.n, CtxOf(h.o, h.run), Ledger(rows, h), h.loop.clock, h.loop.resources)
  }

  function MadeByRun(rows: Rows, h: HistoryRun): seq<Made> {
    MadeIn(h.o, h.loop.n, CtxOf(h.o, h.run), Ledger(rows, h), h.loop.clock, h.loop.resources)
  }

  /** Reconcile, then go through the resources; whether that succeeds or not, no pod is taken down. */
  function Next(s: State, h: HistoryRun): State {
    State(Loop(s.rows, h).rows, s.made + MadeByRun(s.rows, h))
  }

  function After(s: State, runs: seq<HistoryRun>): State {
    if runs == [] then s else Next(After(s, runs[..|runs| - 1]), runs[|runs| - 1])
  }

  // ---------------------------------------------------------------------------------------------
  // The invariant

  predicate IsMade(made: seq<Made>, podId: string, hash: string) {
    exists i :: 0 <= i < |made| && made[i].podId == podId && made[i].hash == hash
  }

  /** A row with a watched hash names a pod made for it; a row without a run is about the pod that is its key; the key
      of a row with a run holds a colon. */
  ghost predicate GoodRow(w: set<string>, made: seq<Made>, row: ResourceRow) {
    && (row.podId.Some? && row.hash != "" && row.hash in w ==> IsMade(made, row.podId.value, row.hash))
    && (row.runId.None? ==> row.podId == Some(row.id))
    && (row.runId.Some? ==> ':' in row.id)
  }

  predicate WellNamed(name: string, hash: string) {
    hash != "" && ParseManagedName(name).Some? && ParseManagedName(name).value.desiredHash == hash
  }

  ghost predicate GoodRows(w: set<string>, made: seq<Made>, rows: Rows) {
    forall k :: 0 <= k < |rows| ==> GoodRow(w, made, rows[k])
  }

  /** Made for one watched hash only once. */
  predicate MadeOnce(w: set<string>, made: seq<Made>) {
    forall i, j :: 0 <= i < j < |made| && made[i].hash in w ==> made[i].hash != made[j].hash
  }

  /** Everything made is well named and, if it was made for a watched hash, can be found in the ledger. */
  ghost predicate MadeFound(w: set<string>, made: seq<Made>, rows: Rows) {
    forall i :: 0 <= i < |made| ==>
      WellNamed(made[i].name, made[i].hash) && (made[i].hash in w ==> Newest(rows, made[i].hash).Some?)
  }

  ghost predicate Sound(w: set<string>, made: seq<Made>, rows: Rows) {
    GoodRows(w, made, rows) && MadeOnce(w, made) && MadeFound(w, made, rows)
  }

  /** All rows with one watched hash and a pod carry one pod id. */
  lemma {:induction false} OnePodPerHash(w: set<string>, made: seq<Made>, rows: Rows, i: nat, j: nat)
    requires Sound(w, made, rows) && i < |rows| && j < |rows| && rows[i].hash == rows[j].hash != "" && rows[i].hash in w
    requires rows[i].podId.Some? && rows[j].podId.Some?
    ensures rows[i].podId == rows[j].podId
  {
    assert GoodRow(w, made, rows[i]) && GoodRow(w, made, rows[j]);
    SameMade(w, made, rows[i].podId.value, rows[j].podId.value, rows[i].hash);
  }

  lemma {:induction false} SameMade(w: set<string>, made: seq<Made>, p: string, q: string, hash: string)
    requires hash in w && MadeOnce(w, made) && IsMade(made, p, hash) && IsMade(made, q, hash)
    ensures p == q
  {
    var i :| 0 <= i < |made| && made[i].podId == p && made[i].hash == hash;
    var j :| 0 <= j < |made| && made[j].podId == q && made[j].hash == hash;
    assert i == j;
  }

  lemma {:induction false} NewestIsRow(rows: Rows, hash: string) returns (k: nat)
    requires Newest(rows, hash).Some?
    ensures k < |rows| && rows[k].hash == hash && rows[k].podId == Newest(rows, hash)
    decreases |rows|
  {
    k := |rows| - 1;
    if !(rows[k].hash == hash && rows[k].podId.Some?) {
      k := NewestIsRow(rows[..|rows| - 1], hash);
    }
  }

  lemma {:induction false} NewestAppend(rows: Rows, row: ResourceRow, hash: string)
    ensures Newest(rows + [row], hash) == if row.hash == hash && row.podId.Some? then row.podId else Newest(rows, hash)
  {
    assert (rows + [row])[..|rows|] == rows;
  }

  // ---------------------------------------------------------------------------------------------
  // Acquisitions while pods stay live

  /** Pods asked for are there, under their own id, and live. */
  ghost predicate Peaceful(o: Oracle) {
    forall n: nat, id: string :: o.pod(n, GetPod(id)).Some? ==>
      o.pod(n, GetPod(id)).value.id == id && o.pod(n, GetPod(id)).value.status.Live?
  }

  /** A known hash gets its pod and nothing is created; an unknown one gets what is created. */
  ghost predicate Faithful(o: Oracle, n: nat, rows: Rows, r: Resource, a: Acquired) {
    var known := Newest(rows, r.desiredHash);
    if known.Some? then CreatedIds(o, n, a.calls) == [] && (a.pod.Some? ==> a.pod.value.id == known.value)
    else CreatedIds(o, n, a.calls) == Ids(a.pod)
  }

  lemma {:induction false} NewPod(o: Oracle, n: nat, run: Run, r: Resource, rowId: string)
    ensures CreatedIds(o, n, Create(o, n, run, r, rowId, []).calls) == Ids(Create(o, n, run, r, rowId, []).pod)
  {
    assert [] + [CreatePod(r.podInput)] == [CreatePod(r.podInput)];
    OneCall(o, n, CreatePod(r.podInput));
  }

  lemma {:induction false} KeepsLive(o: Oracle, n: nat, run: Run, r: Resource, rowId: string, podId: string)
    requires Peaceful(o) && run.reuse == ReuseMatching
    ensures var reply := o.pod(n, GetPod(podId));
            FromExisting(o, n, run, r, rowId, podId, reply) == ReuseAsIs(run, rowId, podId, reply)
                && (reply.Some? ==> reply.value.id == podId)
  {
  }

  lemma {:induction false} AcquireKinds(o: Oracle, n: nat, run: Run, rows: Rows, r: Resource, rowId: string)
    requires Peaceful(o) && run.reuse == ReuseMatching
    ensures var a, known := Acquire(o, n, run, rows, r, rowId), Newest(rows, r.desiredHash);
            || a == Acquired([], [], None)
            || (known.None? && a == Create(o, n, run, r, rowId, []))
            || (known.Some? && a == ReuseAsIs(run, rowId, known.value, o.pod(n, GetPod(known.value))))
  {
    var known := Newest(rows, r.desiredHash);
    if known.Some? {
      KeepsLive(o, n, run, r, rowId, known.value);
    }
  }

  lemma {:induction false} AcquireFaithful(o: Oracle, n: nat, run: Run, rows: Rows, r: Resource, rowId: string,
                                           a: Acquired)
    requires Peaceful(o) && run.reuse == ReuseMatching && a == Acquire(o, n, run, rows, r, rowId)
    ensures Faithful(o, n, rows, r, a)
  {
    AcquireKinds(o, n, run, rows, r, rowId);
    NewPod(o, n, run, r, rowId);
    NoneCreated(o, n, "");
    var known := Newest(rows, r.desiredHash);
    if known.Some? {
      NoneCreated(o, n, known.value);
      KeepsLive(o, n, run, r, rowId, known.value);
    }
  }

  ghost predicate AllFaithful(o: Oracle, ctx: Ctx) {
    forall n: nat, rows: Rows, r: Resource :: Faithful(o, n, rows, r, ctx.acquire(n, rows, r))
  }

  lemma {:induction false} AcquisitionsFaithful(o: Oracle, run: Run)
    requires Peaceful(o) && run.reuse == ReuseMatching
    ensures AllFaithful(o, CtxOf(o, run))
  {
    forall n: nat, rows: Rows, r: Resource ensures Faithful(o, n, rows, r, CtxOf(o, run).acquire(n, rows, r)) {
      AcquireFaithful(o, n, run, rows, r, RowId(run.runId)(r), CtxOf(o, run).acquire(n, rows, r));
    }
  }

  // ---------------------------------------------------------------------------------------------
  // One turn

  lemma {:induction false} MoreMade(made: seq<Made>, more: seq<Made>, podId: string, hash: string)
    requires IsMade(made, podId, hash)
    ensures IsMade(made + more, podId, hash)
  {
    var i :| 0 <= i < |made| && made[i].podId == podId && made[i].hash == hash;
    assert (made + more)[i] == made[i];
  }

  lemma {:induction false} RowsStayGood(w: set<string>, made: seq<Made>, more: seq<Made>, rows: Rows)
    requires GoodRows(w, made, rows)
    ensures GoodRows(w, made + more, rows)
  {
    forall k | 0 <= k < |rows| ensures GoodRow(w, made + more, rows[k]) {
      assert GoodRow(w, made, rows[k]);
      if rows[k].podId.Some? && rows[k].hash != "" && rows[k].hash in w {
        MoreMade(made, more, rows[k].podId.value, rows[k].hash);
      }
    }
  }

  /** A further row about a pod already made, or about none, or for a hash that is not watched. */
  lemma {:induction false} AppendKnown(w: set<string>, made: seq<Made>, rows: Rows, row: ResourceRow)
    requires Sound(w, made, rows) && GoodRow(w, made, row)
    ensures Sound(w, made, rows + [row])
  {
    forall i | 0 <= i < |made|
      ensures WellNamed(made[i].name, made[i].hash) && (made[i].hash in w ==> Newest(rows + [row], made[i].hash).Some?)
    {
      NewestAppend(rows, row, made[i].hash);
    }
  }

  /** One more pod made, if it is the first for a watched hash. */
  lemma {:induction false} MakeOne(w: set<string>, made: seq<Made>, rows: Rows, m: Made)
    requires MadeOnce(w, made) && MadeFound(w, made, rows) && (m.hash in w ==> Newest(rows, m.hash).None?)
    ensures MadeOnce(w, made + [m])
  {
    forall i | 0 <= i < |made| && made[i].hash in w ensures made[i].hash != m.hash {
      assert Newest(rows, made[i].hash).Some?;
    }
  }

  /** A further row about a pod just made, for a hash that had none or is not watched. */
  lemma {:induction false} AppendNew(w: set<string>, made: seq<Made>, rows: Rows, row: ResourceRow, m: Made)
    requires Sound(w, made, rows) && (m.hash in w ==> Newest(rows, m.hash).None?) && WellNamed(m.name, m.hash)
    requires row.hash == m.hash && row.podId == Some(m.podId) && row.runId.Some? && ':' in row.id
    ensures Sound(w, made + [m], rows + [row])
  {
    var all := made + [m];
    MakeOne(w, made, rows, m);
    forall i | 0 <= i < |all|
      ensures WellNamed(all[i].name, all[i].hash) && (all[i].hash in w ==> Newest(rows + [row], all[i].hash).Some?)
    {
      NewestAppend(rows, row, all[i].hash);
      assert i < |made| ==> all[i] == made[i];
    }
    RowsStayGood(w, made, [m], rows);
    assert all[|made|] == m;
    assert IsMade(all, m.podId, m.hash);
  }

  /** The pods acquired so far for watched hashes were made for them. */
  ghost predicate PodsMade(w: set<string>, made: seq<Made>, resources: seq<Resource>, pods: seq<Pod>) {
    |pods| <= |resources|
    && forall i :: 0 <= i < |pods| && resources[i].desiredHash in w ==>
         IsMade(made, pods[i].id, resources[i].desiredHash)
  }

  /** Plans name their resources so that the parser gives back the hash, and pods are created under that name. */
  predicate Proper(r: Resource) {
    WellNamed(r.podInput.name, r.desiredHash)
  }

  ghost predicate Colons(ctx: Ctx) {
    forall r: Resource :: ':' in ctx.rowId(r)
  }

  /** The outcome of one turn: the row added to the ledger, and the pod, if any. */
  lemma {:induction false} TurnSound(w: set<string>, o: Oracle, n: nat, ctx: Ctx, g: Gathering, r: Resource,
                                     q: Gathering, made: seq<Made>, all: seq<Made>)
    requires (r.desiredHash in w ==> AllFaithful(o, ctx)) && Colons(ctx) && Proper(r)
    requires g.ok && NoRowYet(g.rows, ctx, r) && Sound(w, made, g.rows)
    requires q == GatherOne(o, n, ctx, g, r) && all == made + MadeInTurn(o, n, ctx, g, r)
    ensures Sound(w, all, q.rows)
    ensures |q.pods| == |g.pods| + 1 ==>
              q.pods[..|g.pods|] == g.pods && (r.desiredHash in w ==> IsMade(all, q.pods[|g.pods|].id, r.desiredHash))
  {
    hide Sound, Newest, IsMade;
    GatherOneAppends(o, n, ctx, g, r);
    var first := ResourceEntry(ctx.rowId(r), ctx.runId, r, None, Creating, g.clock);
    UpsertNew(g.rows, first);
    NewestAppend(g.rows, first, r.desiredHash);
    var m := n + |g.calls|;
    var a := ctx.acquire(m, g.rows + [first], r);
    assert r.desiredHash in w ==> Faithful(o, m, g.rows + [first], r, a);
    TurnPods(o, n, ctx, g, r, q, a);
    TurnRow(ctx, g, r, q, a);
    if r.desiredHash in w {
      TurnKinds(w, o, m, ctx, g.rows, r, q.rows, q.rows[|g.rows|], a, made, all);
    } else {
      OtherTurn(w, o, m, ctx, g.rows, r, q.rows, q.rows[|g.rows|], a, made, all);
    }
  }

  /** A turn for a hash that is not watched, whatever it does. */
  lemma {:induction false} OtherTurn(w: set<string>, o: Oracle, m: nat, ctx: Ctx, rows: Rows, r: Resource, after: Rows,
                                     row: ResourceRow, a: Acquired, made: seq<Made>, all: seq<Made>)
    requires Sound(w, made, rows) && Proper(r) && Colons(ctx) && after == rows + [row] && r.desiredHash !in w
    requires row.id == ctx.rowId(r) && row.runId == Some(ctx.runId) && row.hash == r.desiredHash
    requires all == made + MadeBy(o, m, a, r)
    ensures Sound(w, all, after)
  {
    AppendKnown(w, made, rows, row);
    var created := CreatedIds(o, m, a.calls);
    if created == [] {
      assert all == made;
    } else {
      MakeOther(w, made, after, Made(created[0], r.podInput.name, r.desiredHash));
    }
  }

  lemma {:induction false} MakeOther(w: set<string>, made: seq<Made>, rows: Rows, m: Made)
    requires Sound(w, made, rows) && m.hash !in w && WellNamed(m.name, m.hash)
    ensures Sound(w, made + [m], rows)
  {
    RowsStayGood(w, made, [m], rows);
    MakeOne(w, made, rows, m);
    var all := made + [m];
    forall i | 0 <= i < |all|
      ensures WellNamed(all[i].name, all[i].hash) && (all[i].hash in w ==> Newest(rows, all[i].hash).Some?)
    {
      assert i < |made| ==> all[i] == made[i];
    }
  }

  lemma {:induction false} TurnPods(o: Oracle, n: nat, ctx: Ctx, g: Gathering, r: Resource, q: Gathering, a: Acquired)
    requires g.ok && q == GatherOne(o, n, ctx, g, r) && a == ctx.acquire(n + |g.calls|, Pending(ctx, g, r), r)
    ensures q.pods == g.pods + (if a.pod.None? then [] else [a.pod.value])
  {
  }

  lemma {:induction false} TurnRow(ctx: Ctx, g: Gathering, r: Resource, q: Gathering, a: Acquired)
    requires OneMore(ctx, g, r, q) && q.pods == g.pods + (if a.pod.None? then [] else [a.pod.value])
    ensures q.rows == g.rows + [q.rows[|g.rows|]]
    ensures RowFor(q.rows[|g.rows|], ctx, r, a.pod)
  {
    assert q.rows == q.rows[..|g.rows|] + [q.rows[|g.rows|]];
  }

  lemma {:induction false} TurnKinds(w: set<string>, o: Oracle, m: nat, ctx: Ctx, rows: Rows, r: Resource, after: Rows,
                                     row: ResourceRow, a: Acquired, made: seq<Made>, all: seq<Made>)
    requires Sound(w, made, rows) && Proper(r) && Colons(ctx) && after == rows + [row] && r.desiredHash in w
    requires RowFor(row, ctx, r, a.pod)
    requires var known := Newest(rows, r.desiredHash);
             if known.Some? then CreatedIds(o, m, a.calls) == [] && (a.pod.Some? ==> a.pod.value.id == known.value)
             else CreatedIds(o, m, a.calls) == Ids(a.pod)
    requires all == made + MadeBy(o, m, a, r)
    ensures Sound(w, all, after)
    ensures a.pod.Some? ==> IsMade(all, a.pod.value.id, r.desiredHash)
  {
    var known := Newest(rows, r.desiredHash);
    if known.Some? {
      var k := NewestIsRow(rows, r.desiredHash);
      assert GoodRow(w, made, rows[k]);
      assert all == made;
      AppendKnown(w, made, rows, row);
    } else if a.pod.None? {
      assert all == made;
      AppendKnown(w, made, rows, row);
    } else {
      var new_ := Made(a.pod.value.id, r.podInput.name, r.desiredHash);
      assert all == made + [new_];
      AppendNew(w, made, rows, row, new_);
      assert all[|made|] == new_;
    }
  }

  // ---------------------------------------------------------------------------------------------
  // One run

  ghost predicate AllProper(resources: seq<Resource>) {
    forall i :: 0 <= i < |resources| ==> Proper(resources[i])
  }

  lemma {:induction false} PodsMadeNext(w: set<string>, made: seq<Made>, more: seq<Made>, resources: seq<Resource>,
                                        i: nat, pods: seq<Pod>, next: seq<Pod>)
    requires i < |resources| && PodsMade(w, made, resources, pods) && |pods| == i
    requires next == pods ||
             (|next| == i + 1 && next[..i] == pods
              && (resources[i].desiredHash in w ==> IsMade(made + more, next[i].id, resources[i].desiredHash)))
    ensures PodsMade(w, made + more, resources, next)
  {
    forall k | 0 <= k < |next| && resources[k].desiredHash in w
      ensures IsMade(made + more, next[k].id, resources[k].desiredHash)
    {
      if k < i {
        assert next[k] == pods[k];
        MoreMade(made, more, pods[k].id, resources[k].desiredHash);
      }
    }
  }

  /** What holds after some turns of the loop. */
  ghost predicate LoopSound(w: set<string>, made: seq<Made>, resources: seq<Resource>, i: nat, g: Gathering) {
    Sound(w, made, g.rows) && PodsMade(w, made, resources, g.pods) && (g.ok ==> |g.pods| == i)
  }

  lemma {:induction false} MadeInNext(o: Oracle, n: nat, ctx: Ctx, rows: Rows, clock: nat, resources: seq<Resource>,
                                      i: nat, g: Gathering)
    requires i < |resources| && g == Gather(o, n, ctx, rows, clock, resources[..i])
    ensures MadeIn(o, n, ctx, rows, clock, resources[..i + 1])
            == MadeIn(o, n, ctx, rows, clock, resources[..i]) + MadeInTurn(o, n, ctx, g, resources[i])
  {
    assert resources[..i + 1][..i] == resources[..i];
  }

  /** Some resource of the run has a watched hash. */
  ghost predicate Watches(w: set<string>, resources: seq<Resource>) {
    exists i :: 0 <= i < |resources| && resources[i].desiredHash in w
  }

  ghost predicate LoopInput(w: set<string>, o: Oracle, ctx: Ctx, rows: Rows, resources: seq<Resource>) {
    && (Watches(w, resources) ==> AllFaithful(o, ctx)) && Colons(ctx) && AllProper(resources)
    && FreshRun(rows, ctx, resources) && DistinctRows(ctx, resources)
  }

  lemma {:induction false} TurnLoop(w: set<string>, o: Oracle, n: nat, ctx: Ctx, rows: Rows, resources: seq<Resource>,
                                    i: nat, g: Gathering, q: Gathering, made: seq<Made>, more: seq<Made>)
    requires i < |resources| && LoopInput(w, o, ctx, rows, resources) && Recorded(ctx, rows, resources[..i], g)
    requires LoopSound(w, made, resources, i, g) && q == GatherOne(o, n, ctx, g, resources[i])
    requires more == MadeInTurn(o, n, ctx, g, resources[i])
    ensures LoopSound(w, made + more, resources, i + 1, q)
  {
    if g.ok {
      NextHasNoRow(ctx, rows, resources, i, g);
      assert resources[i].desiredHash in w ==> Watches(w, resources);
      TurnSound(w, o, n, ctx, g, resources[i], q, made, made + more);
      GatherOneAppends(o, n, ctx, g, resources[i]);
      if |q.pods| == |g.pods| {
        assert q.pods == q.pods[..|g.pods|];
      }
      PodsMadeNext(w, made, more, resources, i, g.pods, q.pods);
    } else {
      assert made + more == made;
    }
  }

  lemma {:induction false} LoopStep(w: set<string>, o: Oracle, n: nat, ctx: Ctx, rows: Rows, clock: nat,
                                    resources: seq<Resource>, i: nat, g: Gathering, q: Gathering, made: seq<Made>,
                                    last: seq<Made>)
    requires i < |resources| && g == Gather(o, n, ctx, rows, clock, resources[..i])
    requires q == GatherOne(o, n, ctx, g, resources[i]) && last == MadeInTurn(o, n, ctx, g, resources[i])
    ensures LoopInput(w, o, ctx, rows, resources) && LoopSound(w, made, resources, i, g)
            ==> LoopSound(w, made + last, resources, i + 1, q)
  {
    if LoopInput(w, o, ctx, rows, resources) && LoopSound(w, made, resources, i, g) {
      GatherRecorded(o, n, ctx, rows, clock, resources, i, g);
      TurnLoop(w, o, n, ctx, rows, resources, i, g, q, made, last);
    }
  }

  lemma {:induction false} LoopStart(w: set<string>, made: seq<Made>, rows: Rows, clock: nat, resources: seq<Resource>)
    ensures Sound(w, made, rows) ==> LoopSound(w, made + [], resources, 0, Gathering([], rows, [], clock, [], true))
  {
    assert made + [] == made;
  }

  /** Every turn of the resource loop keeps the ledger sound, whether the run goes on or breaks off. */
  lemma {:induction false} LoopKeepsSound(w: set<string>, o: Oracle, n: nat, ctx: Ctx, rows: Rows, clock: nat,
                                          resources: seq<Resource>, i: nat, q: Gathering, made: seq<Made>,
                                          more: seq<Made>)
    requires i <= |resources| && q == Gather(o, n, ctx, rows, clock, resources[..i])
             && more == MadeIn(o, n, ctx, rows, clock, resources[..i])
    ensures LoopInput(w, o, ctx, rows, resources) && Sound(w, made, rows) ==> LoopSound(w, made + more, resources, i, q)
    decreases i
  {
    hide LoopInput, LoopSound, MadeInTurn;
    if i == 0 {
      LoopStart(w, made, rows, clock, resources);
    } else {
      var j := i - 1;
      var g, before := Gather(o, n, ctx, rows, clock, resources[..j]), MadeIn(o, n, ctx, rows, clock, resources[..j]);
      LoopKeepsSound(w, o, n, ctx, rows, clock, resources, j, g, made, before);
      GatherNext(o, n, ctx, rows, clock, resources, j);
      MadeInNext(o, n, ctx, rows, clock, resources, j, g);
      var last := MadeInTurn(o, n, ctx, g, resources[j]);
      LoopStep(w, o, n, ctx, rows, clock, resources, j, g, q, made + before, last);
      assert (made + before) + last == made + more;
    }
  }

  // What is made is what the calls of the loop create.

  function IdsMade(made: seq<Made>): seq<string> {
    if made == [] then [] else IdsMade(made[..|made| - 1]) + [made[|made| - 1].podId]
  }

  lemma {:induction false} IdsMadeConcat(a: seq<Made>, b: seq<Made>)
    ensures IdsMade(a + b) == IdsMade(a) + IdsMade(b)
    decreases |b|
  {
    if b == [] {
      assert a + b == a;
    } else {
      var m := |b| - 1;
      IdsMadeConcat(a, b[..m]);
      assert (a + b)[..|a| + m] == a + b[..m];
    }
  }

  lemma {:induction false} OneMadeBy(o: Oracle, n: nat, a: Acquired, r: Resource)
    requires Traced(o, n, a)
    ensures IdsMade(MadeBy(o, n, a, r)) == CreatedIds(o, n, a.calls)
  {
    var made := MadeBy(o, n, a, r);
    if made != [] {
      assert made[..0] == [];
    }
  }

  lemma {:induction false} SettleMakes(o: Oracle, n: nat, ctx: Ctx, g: Gathering, r: Resource, pending: Rows,
                                       a: Acquired, q: Gathering)
    requires Traced(o, n + |g.calls|, a) && q == Settle(o, n, ctx, g, r, pending, a)
    ensures CreatedIds(o, n, q.calls) == CreatedIds(o, n, g.calls) + IdsMade(MadeBy(o, n + |g.calls|, a, r))
  {
    hide CreatedIds, MadeBy, Traced, IdsMade;
    OneMadeBy(o, n + |g.calls|, a, r);
    CreatedConcat(o, n, g.calls, a.calls);
    if a.pod.Some? {
      AwaitCreatesNothing(o, n, g.calls + a.calls, a.pod.value.id);
    }
  }

  lemma {:induction false} TurnMakes(o: Oracle, n: nat, ctx: Ctx, g: Gathering, r: Resource, q: Gathering)
    requires AllTraced(o, ctx) && q == GatherOne(o, n, ctx, g, r)
    ensures CreatedIds(o, n, q.calls) == CreatedIds(o, n, g.calls) + IdsMade(MadeInTurn(o, n, ctx, g, r))
  {
    hide CreatedIds, MadeBy, Traced, Settle;
    if g.ok {
      var pending := Pending(ctx, g, r);
      var a := ctx.acquire(n + |g.calls|, pending, r);
      assert Traced(o, n + |g.calls|, a);
      SettleMakes(o, n, ctx, g, r, pending, a, q);
    } else {
      assert CreatedIds(o, n, g.calls) + [] == CreatedIds(o, n, g.calls);
    }
  }

  /** The pods made in a loop are those its calls create, in order. */
  lemma {:induction false} MadeAreCreated(o: Oracle, n: nat, ctx: Ctx, rows: Rows, clock: nat, resources: seq<Resource>,
                                          g: Gathering)
    requires AllTraced(o, ctx) && g == Gather(o, n, ctx, rows, clock, resources)
    ensures IdsMade(MadeIn(o, n, ctx, rows, clock, resources)) == CreatedIds(o, n, g.calls)
    decreases |resources|
  {
    if resources != [] {
      var m := |resources| - 1;
      var front := Gather(o, n, ctx, rows, clock, resources[..m]);
      MadeAreCreated(o, n, ctx, rows, clock, resources[..m], front);
      TurnMakes(o, n, ctx, front, resources[m], g);
      IdsMadeConcat(MadeIn(o, n, ctx, rows, clock, resources[..m]), MadeInTurn(o, n, ctx, front, resources[m]));
    }
  }

  // ---------------------------------------------------------------------------------------------
  // Reconciling

  /** The listing shows, under managed names, only pods that were made under those names; pod ids hold no colon. */
  ghost predicate Truthful(made: seq<Made>, listed: seq<Pod>) {
    forall i :: 0 <= i < |listed| ==>
      && ':' !in listed[i].id
      && (Managed(listed[i]) && ParseManagedName(listed[i].name).Some? ==> MadeAs(made, listed[i].id, listed[i].name))
  }

  predicate MadeAs(made: seq<Made>, podId: string, name: string) {
    exists i :: 0 <= i < |made| && made[i].podId == podId && made[i].name == name
  }

  /** A remote row is good: the hash parsed from the name is the hash the pod was made for. */
  lemma {:induction false} RemoteGood(w: set<string>, made: seq<Made>, rows: Rows, pod: Pod, clock: nat)
    requires Sound(w, made, rows) && ':' !in pod.id
             && (ParseManagedName(pod.name).Some? ==> MadeAs(made, pod.id, pod.name))
    ensures GoodRow(w, made, RemoteEntry(pod, None, clock))
  {
    var parsed := ParseManagedName(pod.name);
    if parsed.Some? {
      var i :| 0 <= i < |made| && made[i].podId == pod.id && made[i].name == pod.name;
      assert WellNamed(made[i].name, made[i].hash);
      assert IsMade(made, pod.id, parsed.value.desiredHash);
    }
  }

  lemma {:induction false} SameNewest(rows: Rows, i: nat, row: ResourceRow, hash: string)
    requires i < |rows| && row.hash == rows[i].hash && row.podId == rows[i].podId
    ensures Newest(rows[i := row], hash) == Newest(rows, hash)
    decreases |rows|
  {
    var m := |rows| - 1;
    if i < m {
      SameNewest(rows[..m], i, row, hash);
      assert rows[i := row][..m] == rows[..m][i := row];
    } else {
      assert rows[i := row][..m] == rows[..m];
    }
  }

  lemma {:induction false} UpdateSound(w: set<string>, made: seq<Made>, rows: Rows, i: nat, row: ResourceRow)
    requires Sound(w, made, rows) && i < |rows| && SameOwner(rows[i], row) && row.podId == rows[i].podId
    ensures Sound(w, made, rows[i := row])
  {
    assert GoodRow(w, made, rows[i]);
    forall k | 0 <= k < |made|
      ensures WellNamed(made[k].name, made[k].hash)
      ensures made[k].hash in w ==> Newest(rows[i := row], made[k].hash).Some?
    {
      SameNewest(rows, i, row, made[k].hash);
    }
  }

  lemma {:induction false} RemoteSound(w: set<string>, made: seq<Made>, rows: Rows, row: ResourceRow)
    requires Sound(w, made, rows) && GoodRow(w, made, row) && row.podId == Some(row.id) && ':' !in row.id
    ensures Sound(w, made, Upsert(rows, row))
  {
    var i := Find(rows, row.id);
    if i == |rows| {
      AppendKnown(w, made, rows, row);
    } else {
      assert GoodRow(w, made, rows[i]);
      UpdateSound(w, made, rows, i, rows[i].(podId := row.podId, status := row.status, lastSeen := row.lastSeen));
    }
  }

  lemma {:induction false} RemoteEntryShape(pod: Pod, clock: nat)
    ensures var row := RemoteEntry(pod, None, clock); row.id == pod.id && row.podId == Some(pod.id) && row.runId == None
  {
  }

  lemma {:induction false} ReconciledSound(w: set<string>, made: seq<Made>, rows: Rows, clock: nat, listed: seq<Pod>)
    requires Sound(w, made, rows) && Truthful(made, listed)
    ensures Sound(w, made, Reconciled(rows, clock, listed).0)
    decreases |listed|
  {
    if listed != [] {
      var m := |listed| - 1;
      var front := Reconciled(rows, clock, listed[..m]);
      ReconciledSound(w, made, rows, clock, listed[..m]);
      if Managed(listed[m]) {
        RemoteGood(w, made, front.0, listed[m], front.1);
        RemoteEntryShape(listed[m], front.1);
        RemoteSound(w, made, front.0, RemoteEntry(listed[m], None, front.1));
      }
    }
  }

  // ---------------------------------------------------------------------------------------------
  // Histories

  /** A run under a run id new to the ledger, in a world with truthful listings. If it concerns a watched hash, it
      reuses matching pods, and pods stay live; otherwise its policy and what becomes of pods do not matter. It may fail
      and leave its pods running. */
  ghost predicate Undisturbed(w: set<string>, s: State, h: HistoryRun) {
    && (Watches(w, h.loop.resources) ==> h.run.reuse == ReuseMatching && Peaceful(h.o))
    && Truthful(s.made, h.listed) && AllProper(h.loop.resources)
    && FreshRun(s.rows, CtxOf(h.o, h.run), h.loop.resources) && DistinctRows(CtxOf(h.o, h.run), h.loop.resources)
  }

  ghost predicate AllUndisturbed(w: set<string>, s: State, runs: seq<HistoryRun>) {
    forall k :: 0 <= k < |runs| ==> Undisturbed(w, After(s, runs[..k]), runs[k])
  }

  lemma {:induction false} RowIdsHoldColons(o: Oracle, run: Run)
    ensures Colons(CtxOf(o, run))
  {
    forall r: Resource ensures ':' in RowId(run.runId)(r) {
      assert RowId(run.runId)(r)[|run.runId|] == ':';
    }
  }

  lemma {:induction false} ListedForeign(ctx: Ctx, resources: seq<Resource>, made: seq<Made>, listed: seq<Pod>)
    requires Colons(ctx) && Truthful(made, listed)
    ensures Foreign(ctx, resources, listed)
  {
  }

  lemma {:induction false} RunInput(w: set<string>, s: State, h: HistoryRun)
    requires Undisturbed(w, s, h)
    ensures LoopInput(w, h.o, CtxOf(h.o, h.run), Ledger(s.rows, h), h.loop.resources)
  {
    var ctx := CtxOf(h.o, h.run);
    RowIdsHoldColons(h.o, h.run);
    if Watches(w, h.loop.resources) {
      AcquisitionsFaithful(h.o, h.run);
    }
    ListedForeign(ctx, h.loop.resources, s.made, h.listed);
    ReconciledFresh(s.rows, h.listedAt, h.listed, ctx, h.loop.resources);
  }

  /** One undisturbed run keeps the ledger sound, and each pod it got for a watched hash was made for it. */
  lemma {:induction false} RunKeepsSound(w: set<string>, s: State, h: HistoryRun, t: State)
    requires Sound(w, s.made, s.rows) && Undisturbed(w, s, h) && t == Next(s, h)
    ensures Sound(w, t.made, t.rows) && s.made <= t.made && PodsMade(w, t.made, h.loop.resources, Loop(s.rows, h).pods)
  {
    RunInput(w, s, h);
    ReconciledSound(w, s.made, s.rows, h.listedAt, h.listed);
    var rs := h.loop.resources;
    assert rs[..|rs|] == rs;
    LoopKeepsSound(w, h.o, h.loop.n, CtxOf(h.o, h.run), Ledger(s.rows, h), h.loop.clock, rs, |rs|, Loop(s.rows, h),
                   s.made, MadeByRun(s.rows, h));
  }

  lemma {:induction false} AfterNext(s: State, runs: seq<HistoryRun>, k: nat)
    requires k < |runs|
    ensures After(s, runs[..k + 1]) == Next(After(s, runs[..k]), runs[k])
  {
    assert runs[..k + 1][..k] == runs[..k];
  }

  lemma {:induction false} HistorySound(w: set<string>, s: State, runs: seq<HistoryRun>, k: nat, t: State)
    requires Sound(w, s.made, s.rows) && AllUndisturbed(w, s, runs) && k <= |runs| && t == After(s, runs[..k])
    ensures Sound(w, t.made, t.rows)
    decreases k
  {
    if k > 0 {
      var u := After(s, runs[..k - 1]);
      HistorySound(w, s, runs, k - 1, u);
      AfterNext(s, runs, k - 1);
      RunKeepsSound(w, u, runs[k - 1], t);
    }
  }

  lemma {:induction false} NextGrows(s: State, h: HistoryRun, t: State)
    requires t == Next(s, h)
    ensures s.made <= t.made
  {
  }

  lemma {:induction false} OneRunGrows(s: State, runs: seq<HistoryRun>, k: nat, v: State, t: State)
    requires k < |runs| && v == After(s, runs[..k]) && t == After(s, runs[..k + 1])
    ensures v.made <= t.made
  {
    AfterNext(s, runs, k);
    NextGrows(v, runs[k], t);
  }

  /** `made(k)` is what has been made after k runs. */
  lemma {:induction false} GrowsFromTo(made: nat -> seq<Made>, i: nat, j: nat, n: nat)
    requires i <= j <= n && forall k: nat :: k < n ==> made(k) <= made(k + 1)
    ensures made(i) <= made(j)
    decreases j
  {
    if i < j {
      GrowsFromTo(made, i, j - 1, n);
      assert made(j - 1) <= made((j - 1) + 1);
      PrefixTrans(made(i), made(j - 1), made(j));
    }
  }

  lemma {:induction false} MadeGrows(s: State, runs: seq<HistoryRun>, i: nat, j: nat, u: State, t: State)
    requires i <= j <= |runs| && u == After(s, runs[..i]) && t == After(s, runs[..j])
    ensures u.made <= t.made
  {
    ghost var made: nat -> seq<Made> := (k: nat) => if k <= |runs| then After(s, runs[..k]).made else [];
    forall k: nat | k < |runs| ensures made(k) <= made(k + 1) {
      OneRunGrows(s, runs, k, After(s, runs[..k]), After(s, runs[..k + 1]));
    }
    GrowsFromTo(made, i, j, |runs|);
  }

  lemma {:induction false} PrefixTrans(a: seq<Made>, b: seq<Made>, c: seq<Made>)
    requires a <= b && b <= c
    ensures a <= c
  {
  }

  lemma {:induction false} StillMade(a: seq<Made>, b: seq<Made>, podId: string, hash: string)
    requires a <= b && IsMade(a, podId, hash)
    ensures IsMade(b, podId, hash)
  {
    assert b == a + b[|a|..];
    MoreMade(a, b[|a|..], podId, hash);
  }

  /** The pod that the i-th run got for its a-th resource. */
  function Got(s: State, runs: seq<HistoryRun>, i: nat, a: nat): Option<string>
    requires i < |runs|
  {
    var pods := Loop(After(s, runs[..i]).rows, runs[i]).pods;
    if a < |pods| then Some(pods[a].id) else None
  }

  lemma {:induction false} GotWasMade(w: set<string>, s: State, runs: seq<HistoryRun>, i: nat, a: nat, made: seq<Made>)
    requires Sound(w, s.made, s.rows) && AllUndisturbed(w, s, runs) && i < |runs|
    requires Got(s, runs, i, a).Some? && made == After(s, runs).made
    ensures a < |runs[i].loop.resources|
    ensures runs[i].loop.resources[a].desiredHash in w
            ==> IsMade(made, Got(s, runs, i, a).value, runs[i].loop.resources[a].desiredHash)
  {
    hide Gather, MadeByRun;
    var u, v := After(s, runs[..i]), After(s, runs[..i + 1]);
    HistorySound(w, s, runs, i, u);
    AfterNext(s, runs, i);
    RunKeepsSound(w, u, runs[i], v);
    assert runs[..|runs|] == runs;
    MadeGrows(s, runs, i + 1, |runs|, v, After(s, runs));
    if runs[i].loop.resources[a].desiredHash in w {
      StillMade(v.made, made, Got(s, runs, i, a).value, runs[i].loop.resources[a].desiredHash);
    }
  }

  /** Over any number of runs, of any deployments: wherever two runs get a pod for resources with the same watched hash,
      they get the same pod. */
  lemma {:induction false} SamePodEveryTime(w: set<string>, s: State, runs: seq<HistoryRun>, i: nat, j: nat, a: nat,
                                            b: nat)
    requires Sound(w, s.made, s.rows) && AllUndisturbed(w, s, runs) && i < |runs| && j < |runs|
    requires a < |runs[i].loop.resources| && b < |runs[j].loop.resources|
    requires runs[i].loop.resources[a].desiredHash == runs[j].loop.resources[b].desiredHash
    requires runs[i].loop.resources[a].desiredHash in w
    ensures Got(s, runs, i, a).Some? && Got(s, runs, j, b).Some? ==> Got(s, runs, i, a) == Got(s, runs, j, b)
  {
    hide Loop, After;
    if Got(s, runs, i, a).Some? && Got(s, runs, j, b).Some? {
      var made := After(s, runs).made;
      GotWasMade(w, s, runs, i, a, made);
      GotWasMade(w, s, runs, j, b, made);
      assert runs[..|runs|] == runs;
      HistorySound(w, s, runs, |runs|, After(s, runs));
      SameMade(w, made, Got(s, runs, i, a).value, Got(s, runs, j, b).value, runs[i].loop.resources[a].desiredHash);
    }
  }

  predicate SameKnownHash(w: set<string>, a: ResourceRow, b: ResourceRow) {
    a.hash == b.hash != "" && a.hash in w && a.podId.Some? && b.podId.Some?
  }

  ghost predicate OnePodEach(w: set<string>, rows: Rows) {
    forall i: nat, j: nat :: i < |rows| && j < |rows| && SameKnownHash(w, rows[i], rows[j]) ==>
      rows[i].podId == rows[j].podId
  }

  /** Over the same histories: nothing is created twice for one watched hash, and the ledger never names two pods for
      one. */
  lemma {:induction false} CreatedOnce(w: set<string>, s: State, runs: seq<HistoryRun>)
    requires Sound(w, s.made, s.rows) && AllUndisturbed(w, s, runs)
    ensures var t := After(s, runs);
            s.made <= t.made && MadeOnce(w, t.made) && OnePodEach(w, t.rows)
  {
    assert runs[..|runs|] == runs && runs[..0] == [];
    HistorySound(w, s, runs, |runs|, After(s, runs));
    MadeGrows(s, runs, 0, |runs|, s, After(s, runs));
    var t := After(s, runs);
    forall i: nat, j: nat | i < |t.rows| && j < |t.rows| && SameKnownHash(w, t.rows[i], t.rows[j])
      ensures t.rows[i].podId == t.rows[j].podId
    {
      OnePodPerHash(w, t.made, t.rows, i, j);
    }
  }

  /** The empty ledger is sound, so all of this holds from the start. */
  lemma {:induction false} StartsSound(w: set<string>)
    ensures Sound(w, [], [])
  {
  }

  // ---------------------------------------------------------------------------------------------
  // Plans of the planner

  predicate PodNamed(r: Resource) {
    r.podInput.name == r.name
  }

  lemma {:induction false} InputNamed(templateId: string, name: string, role: Role, nodeId: Option<string>,
                                      hash: string, c: Contracts.Contract, storage: Option<Storage>, imageName: string)
    ensures MakePodInput(templateId, name, role, nodeId, hash, c, storage, imageName).name == name
  {
  }

  predicate PodFor(r: Resource, hash: string) {
    PodNamed(r) && r.desiredHash == hash
  }

  lemma {:induction false} DependencyPodFor(t: Tables, inputs: RunInputs, role: Role, dep: Dependency)
    ensures PodFor(DependencyResource(t, inputs, role, dep), Take(t.hash(dep.spec), 12))
  {
    var hash := Take(t.hash(dep.spec), 12);
    InputNamed(dep.templateId, ManagedName(t.unicode, inputs.workflowHash, RoleText(role), dep.nodeId, hash), role,
               dep.nodeId, hash, DependencyPodContract(role, dep.contract), dep.storage, "");
  }

  lemma {:induction false} AgentPodFor(t: Tables, d: Deployment, inputs: RunInputs)
    ensures PodFor(AgentResource(t, d, inputs), Take(t.hash(d.agent.spec), 12))
  {
    var hash := Take(t.hash(d.agent.spec), 12);
    InputNamed(d.agent.templateId, ManagedName(t.unicode, inputs.workflowHash, RoleText(Agent), d.agent.nodeId, hash),
               Agent, d.agent.nodeId, hash,
               AgentContract(d, inputs).(ports := Contracts.MergeAll(LocalContracts(d)).ports), d.storage,
               d.agent.imageName);
  }

  lemma {:induction false} BuiltPodNamed(t: Tables, d: Deployment, inputs: RunInputs, i: nat)
    requires i < |Build(t, d, inputs).resources|
    ensures PodFor(Build(t, d, inputs).resources[i], HashAt(t, d, i))
  {
    var deps := OwnPodDependencies(d);
    ResourceAt(t, d, inputs, i);
    AgentPodFor(t, d, inputs);
    if i < |deps| {
      DependencyPodFor(t, inputs, deps[i].0, deps[i].1);
    }
  }

  lemma {:induction false} ProperName(u: Unicode, w: string, r: Resource)
    requires PodNamed(r) && r.name == ManagedName(u, w, RoleText(r.role), r.nodeId, r.desiredHash)
    requires u.Sane() && DashFree(Take(w, 12)) && DashFree(r.desiredHash) && 0 < |r.desiredHash| <= 12
    ensures Proper(r)
  {
    RoleTextPlain(r.role);
    NamePrinted(u, w, RoleText(r.role), r.nodeId, r.desiredHash);
  }

  /** What the planner builds is proper: hashes are hexadecimal, so neither empty nor dashed. */
  lemma {:induction false} BuiltIsProper(t: Tables, d: Deployment, inputs: RunInputs, i: nat)
    requires i < |Build(t, d, inputs).resources| && t.unicode.Sane() && DashFree(Take(inputs.workflowHash, 12))
    requires HashAt(t, d, i) != "" && DashFree(HashAt(t, d, i))
    ensures Proper(Build(t, d, inputs).resources[i])
  {
    PlanResources(t, d, inputs);
    BuiltPodNamed(t, d, inputs, i);
    var r := Build(t, d, inputs).resources[i];
    assert NamedBy(t, inputs, r);
    ProperName(t.unicode, inputs.workflowHash, r);
  }

  // The resource loop goes through the resources after their volumes have been settled.

  lemma {:induction false} SettledIsProper(r: Resource, id: string)
    ensures var q := Volumes.Settled(r, id); q.desiredHash == r.desiredHash && (Proper(r) ==> Proper(q))
  {
  }

  /** Settling the volumes of a plan keeps it proper. */
  lemma {:induction false} SettledPlanIsProper(resources: seq<Resource>, ids: seq<string>)
    requires |ids| == |resources| && AllProper(resources)
    ensures AllProper(Volumes.AllSettled(resources, ids))
  {
    forall i | 0 <= i < |resources| ensures Proper(Volumes.AllSettled(resources, ids)[i]) {
      Volumes.SettledAtIndex(resources, ids, i);
      SettledIsProper(resources[i], ids[i]);
    }
  }

  /** The run goes through the resources that the planner builds of the deployment, with their volumes settled. */
  ghost predicate RunsDeployment(h: HistoryRun, t: Tables, d: Deployment, inputs: RunInputs, ids: seq<string>) {
    var planned := Build(t, d, inputs).resources;
    |ids| == |planned| && h.loop.resources == Volumes.AllSettled(planned, ids)
  }

  lemma {:induction false} DeploymentHash(h: HistoryRun, t: Tables, d: Deployment, inputs: RunInputs, ids: seq<string>,
                                          k: nat)
    requires RunsDeployment(h, t, d, inputs, ids) && k < |h.loop.resources|
    ensures h.loop.resources[k].desiredHash == HashAt(t, d, k)
  {
    BuiltPodNamed(t, d, inputs, k);
    Volumes.SettledAtIndex(Build(t, d, inputs).resources, ids, k);
  }

  /** A deployment keeps its pods: two runs built from it, whatever volumes they create and whatever lies between them,
      get the same pod for the same resource. */
  lemma {:induction false} DeploymentKeepsPods(w: set<string>, s: State, runs: seq<HistoryRun>, i: nat, j: nat,
                                               t: Tables, d: Deployment, a: RunInputs, b: RunInputs, k: nat,
                                               x: seq<string>, y: seq<string>)
    requires Sound(w, s.made, s.rows) && AllUndisturbed(w, s, runs) && i < |runs| && j < |runs|
    requires RunsDeployment(runs[i], t, d, a, x) && RunsDeployment(runs[j], t, d, b, y)
    requires k < |runs[i].loop.resources| && k < |runs[j].loop.resources| && HashAt(t, d, k) in w
    ensures Got(s, runs, i, k).Some? && Got(s, runs, j, k).Some? ==> Got(s, runs, i, k) == Got(s, runs, j, k)
  {
    DeploymentHash(runs[i], t, d, a, x, k);
    DeploymentHash(runs[j], t, d, b, y, k);
    SamePodEveryTime(w, s, runs, i, j, k, k);
  }
}
