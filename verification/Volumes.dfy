/** Creation of network volumes: one per distinct (name, size, data center), shared by the resources that ask for the
    same. */
module Volumes {
  import opened Options
  import opened Planner
  import opened Cloud
  import opened StateStore

  datatype Key = Key(name: string, size: nat, center: string)

  /** A resource keeps the volume it has (or has not), or asks for a new one. */
  datatype Want = Keep(volumeId: string) | Need(key: Key)

  function WantOf(r: Resource): Want {
    var p := r.podInput;
    if p.volumeId == "" && p.privateSize > 0 && p.privateCenter != "" then
      Need(Key(if p.privateName == "" then r.name else p.privateName, p.privateSize, p.privateCenter))
    else Keep(p.volumeId)
  }

  function WantsOf(resources: seq<Resource>): (r: seq<Want>)
    ensures |r| == |resources|
  {
    if resources == [] then [] else WantsOf(resources[..|resources| - 1]) + [WantOf(resources[|resources| - 1])]
  }

  lemma {:induction false} WantAt(resources: seq<Resource>, i: nat)
    requires i < |resources|
    ensures WantsOf(resources)[i] == WantOf(resources[i])
    decreases |resources|
  {
    if i < |resources| - 1 {
      WantAt(resources[..|resources| - 1], i);
    }
  }

  /** The resource with its volume settled and the private fields gone. */
  function Settled(r: Resource, volumeId: string): Resource {
    r.(podInput := r.podInput.(volumeId := volumeId, privateName := "", privateSize := 0, privateCenter := ""))
  }

  function AllSettled(resources: seq<Resource>, ids: seq<string>): (r: seq<Resource>)
    requires |ids| == |resources|
    ensures |r| == |resources|
  {
    if resources == [] then []
    else var m := |resources| - 1; AllSettled(resources[..m], ids[..m]) + [Settled(resources[m], ids[m])]
  }

  lemma {:induction false} SettledAtIndex(resources: seq<Resource>, ids: seq<string>, i: nat)
    requires i < |resources| == |ids|
    ensures AllSettled(resources, ids)[i] == Settled(resources[i], ids[i])
    decreases |resources|
  {
    var m := |resources| - 1;
    if i < m {
      SettledAtIndex(resources[..m], ids[..m], i);
    }
  }

  datatype Progress = Progress(ids: seq<string>, memo: map<Key, string>, calls: seq<Key>, ok: bool)

  predicate Granted(reply: Option<string>) {
    reply.Some? && reply.value != ""
  }

  function Step(p: Progress, want: Want, reply: Option<string>): Progress {
    if !p.ok then p
    else if want.Keep? then p.(ids := p.ids + [want.volumeId])
    else if want.key in p.memo then p.(ids := p.ids + [p.memo[want.key]])
    else if !Granted(reply) then p.(calls := p.calls + [want.key], ok := false)
    else Progress(p.ids + [reply.value], p.memo[want.key := reply.value], p.calls + [want.key], true)
  }

  /** One pass with a memo; call number j is answered by volume(n + j). */
  function Walk(volume: nat -> Option<string>, n: nat, wants: seq<Want>): Progress {
    if wants == [] then Progress([], map[], [], true)
    else
      var p := Walk(volume, n, wants[..|wants| - 1]);
      Step(p, wants[|wants| - 1], volume(n + |p.calls|))
  }

  function Asked(calls: seq<Key>): (r: seq<Call>)
    ensures |r| == |calls|
    ensures forall i :: 0 <= i < |r| ==> r[i] == CreateVolume(calls[i].name, calls[i].size, calls[i].center)
  {
    if calls == [] then []
    else var k := calls[|calls| - 1]; Asked(calls[..|calls| - 1]) + [CreateVolume(k.name, k.size, k.center)]
  }

  lemma {:induction false} WalkNext(volume: nat -> Option<string>, n: nat, wants: seq<Want>, i: nat)
    requires i < |wants|
    ensures var p := Walk(volume, n, wants[..i]);
            Walk(volume, n, wants[..i + 1]) == Step(p, wants[i], volume(n + |p.calls|))
  {
    assert wants[..i + 1][..i] == wants[..i];
  }

  lemma {:induction false} FailureStays(volume: nat -> Option<string>, n: nat, wants: seq<Want>, i: nat)
    requires i <= |wants| && !Walk(volume, n, wants[..i]).ok
    ensures Walk(volume, n, wants) == Walk(volume, n, wants[..i])
    decreases |wants| - i
  {
    if i == |wants| {
      assert wants[..i] == wants;
    } else {
      WalkNext(volume, n, wants, i);
      FailureStays(volume, n, wants, i + 1);
    }
  }

  lemma {:induction false} AskedNext(calls: seq<Key>, k: Key)
    ensures Asked(calls + [k]) == Asked(calls) + [CreateVolume(k.name, k.size, k.center)]
  {
  }

  lemma {:induction false} SettledNext(resources: seq<Resource>, i: nat, ids: seq<string>, id: string)
    requires i < |resources| && |ids| == i
    ensures AllSettled(resources[..i + 1], ids + [id]) == AllSettled(resources[..i], ids) + [Settled(resources[i], id)]
  {
    assert resources[..i + 1][..i] == resources[..i] && (ids + [id])[..i] == ids;
  }

  /** The walk has reached want i without a refusal. */
  ghost predicate Following(volume: nat -> Option<string>, n: nat, wants: seq<Want>, i: nat, p: Progress) {
    i <= |wants| && p == Walk(volume, n, wants[..i]) && p.ok && |p.ids| == i
  }

  lemma {:induction false} StepLength(p: Progress, want: Want, reply: Option<string>)
    ensures var q := Step(p, want, reply); p.ok && q.ok ==> |q.ids| == |p.ids| + 1 && q.ids == p.ids + [q.ids[|p.ids|]]
  {
  }

  lemma {:induction false} FollowOn(volume: nat -> Option<string>, n: nat, wants: seq<Want>, i: nat, p: Progress,
                                    q: Progress)
    requires i < |wants| && Following(volume, n, wants, i, p) && q == Step(p, wants[i], volume(n + |p.calls|))
    ensures if q.ok then Following(volume, n, wants, i + 1, q) else q == Walk(volume, n, wants)
  {
    WalkNext(volume, n, wants, i);
    StepLength(p, wants[i], volume(n + |p.calls|));
    if !q.ok {
      FailureStays(volume, n, wants, i + 1);
    }
  }

  lemma {:induction false} FollowEnd(volume: nat -> Option<string>, n: nat, wants: seq<Want>, p: Progress)
    requires Following(volume, n, wants, |wants|, p)
    ensures p == Walk(volume, n, wants) && p.ok && |p.ids| == |wants|
  {
    assert wants[..|wants|] == wants;
  }

  lemma {:induction false} FollowStart(volume: nat -> Option<string>, n: nat, wants: seq<Want>)
    ensures Following(volume, n, wants, 0, Progress([], map[], [], true))
  {
  }

  ghost predicate SettledSoFar(resources: seq<Resource>, i: nat, ids: seq<string>, settled: seq<Resource>) {
    i <= |resources| && |ids| == i && settled == AllSettled(resources[..i], ids)
  }

  lemma {:induction false} SettleOne(resources: seq<Resource>, i: nat, ids: seq<string>, settled: seq<Resource>,
                                     id: string)
    requires i < |resources| && SettledSoFar(resources, i, ids, settled)
    ensures SettledSoFar(resources, i + 1, ids + [id], settled + [Settled(resources[i], id)])
  {
    SettledNext(resources, i, ids, id);
  }

  lemma {:induction false} SettledAll(resources: seq<Resource>, ids: seq<string>, settled: seq<Resource>)
    requires SettledSoFar(resources, |resources|, ids, settled)
    ensures settled == AllSettled(resources, ids)
  {
    assert resources[..|resources|] == resources;
  }

  /** What the method does: the calls it makes and the resources it returns, None when it raises. */
  ghost predicate Materialized(volume: nat -> Option<string>, n: nat, resources: seq<Resource>, calls: seq<Call>,
                               out: Option<seq<Resource>>) {
    var p := Walk(volume, n, WantsOf(resources));
    && calls == Asked(p.calls) && (out.Some? <==> p.ok)
    && (p.ok ==> |p.ids| == |resources| && out.value == AllSettled(resources, p.ids))
  }

  /** The resource has no volume, but a size and a data center for a new one; without a name of its own the volume is
      called after the resource. */
  predicate Missing(r: Resource, name: string, size: nat, center: string) {
    && r.podInput.volumeId == "" && r.podInput.privateSize == size > 0 && r.podInput.privateCenter == center != ""
    && name == if r.podInput.privateName != "" then r.podInput.privateName else r.name
  }

  /** The volume that a resource has in the end, if creation call j was answered by volume(n + j). */
  ghost predicate Provided(volume: nat -> Option<string>, n: nat, calls: seq<Call>, r: Resource, id: string) {
    && (r.podInput.volumeId != "" ==> id == r.podInput.volumeId)
    && (r.podInput.volumeId == "" && (r.podInput.privateSize == 0 || r.podInput.privateCenter == "") ==> id == "")
    && forall j: nat :: j < |calls| && AsksFor(calls[j], r) ==> volume(n + j) == Some(id)
  }

  predicate AsksFor(c: Call, r: Resource) {
    c.CreateVolume? && Missing(r, c.name, c.size, c.center)
  }

  /** Volumes are created for exactly what is missing, and every resource gets its volume. */
  ghost predicate AllProvided(volume: nat -> Option<string>, n: nat, resources: seq<Resource>, calls: seq<Call>,
                              out: seq<Resource>) {
    && (forall name, size, center :: CreateVolume(name, size, center) in calls
          <==> exists i :: 0 <= i < |resources| && Missing(resources[i], name, size, center))
    && |out| == |resources|
    && forall i :: 0 <= i < |out| ==> Provided(volume, n, calls, resources[i], out[i].podInput.volumeId)
  }

  /** The volume of one resource: its own, a remembered one, or a new one; None when it raises. */
  method SettleVolume(world: World, store: Store, runId: string, want: Want, created: map<Key, string>,
                      ghost p: Progress, ghost before: seq<Call>)
      returns (volumeId: Option<string>, memo: map<Key, string>, ghost q: Progress)
    requires p.ok && created == p.memo && world.log == before + Asked(p.calls)
    modifies world, store`events
    ensures q == Step(p, want, world.oracle.volume(|before| + |p.calls|)) && world.log == before + Asked(q.calls)
    ensures (volumeId.Some? <==> q.ok) && memo == q.memo && (q.ok ==> q.ids == p.ids + [volumeId.value])
    ensures PodsOfEvents(store.events) == PodsOfEvents(old(store.events))
  {
    hide PodsOfEvents, Asked;
    q := Step(p, want, world.oracle.volume(|before| + |p.calls|));
    memo := created;
    if want.Keep? {
      volumeId := Some(want.volumeId);
    } else if want.key in created {
      volumeId := Some(created[want.key]);
    } else {
      var key := want.key;
      AskedNext(p.calls, key);
      var reply := world.AskVolume(key.name, key.size, key.center);
      if reply.None? || reply.value == "" {
        return None, memo, q;
      }
      volumeId := reply;
      memo := created[key := reply.value];
      NoPodEvents(store.events, [Event(runId, VolumeCreated, None, key.name)]);
      store.AddEvent(runId, VolumeCreated, None, key.name);
    }
  }

  lemma {:induction false} MaterializedWhenDone(volume: nat -> Option<string>, n: nat, resources: seq<Resource>,
                                                p: Progress, settled: seq<Resource>)
    requires Following(volume, n, WantsOf(resources), |resources|, p)
             && SettledSoFar(resources, |resources|, p.ids, settled)
    ensures Materialized(volume, n, resources, Asked(p.calls), Some(settled))
  {
    FollowEnd(volume, n, WantsOf(resources), p);
    SettledAll(resources, p.ids, settled);
  }

  lemma {:induction false} MaterializedWhenRefused(volume: nat -> Option<string>, n: nat, resources: seq<Resource>,
                                                   q: Progress)
    requires q == Walk(volume, n, WantsOf(resources)) && !q.ok
    ensures Materialized(volume, n, resources, Asked(q.calls), None)
  {
  }

  /** _materialize_network_volumes */
  method MaterializeNetworkVolumes(world: World, store: Store, runId: string, resources: seq<Resource>)
    returns (out: Option<seq<Resource>>, ghost calls: seq<Call>)
    modifies world, store`events
    ensures world.log == old(world.log) + calls
    ensures Materialized(world.oracle.volume, |old(world.log)|, resources, calls, out)
    ensures out.Some? ==> AllProvided(world.oracle.volume, |old(world.log)|, resources, calls, out.value)
    ensures PodsOfEvents(store.events) == PodsOfEvents(old(store.events))
  {
    hide PodsOfEvents, Walk, AllSettled, WantsOf, AllProvided;
    ghost var before, volume := world.log, world.oracle.volume;
    ghost var n, wants := |before|, WantsOf(resources);
    var settled := [];
    var created: map<Key, string> := map[];
    ghost var p := Progress([], map[], [], true);
    FollowStart(volume, n, wants);
    for i := 0 to |resources|
      invariant Following(volume, n, wants, i, p) && created == p.memo
      invariant SettledSoFar(resources, i, p.ids, settled)
      invariant world.log == before + Asked(p.calls)
      invariant PodsOfEvents(store.events) == PodsOfEvents(old(store.events))
    {
      WantAt(resources, i);
      var volumeId;
      ghost var q;
      volumeId, created, q := SettleVolume(world, store, runId, WantOf(resources[i]), created, p, before);
      FollowOn(volume, n, wants, i, p, q);
      if volumeId.None? {
        MaterializedWhenRefused(volume, n, resources, q);
        return None, Asked(q.calls);
      }
      SettleOne(resources, i, p.ids, settled, volumeId.value);
      settled := settled + [Settled(resources[i], volumeId.value)];
      p := q;
    }
    MaterializedWhenDone(volume, n, resources, p, settled);
    out, calls := Some(settled), Asked(p.calls);
    MissingIsCreated(volume, n, resources, calls, settled);
  }

  // ---------------------------------------------------------------------------------------------
  // What the walk achieves

  predicate NoRepeats(calls: seq<Key>) {
    forall i, j :: 0 <= i < j < |calls| ==> calls[i] != calls[j]
  }

  predicate SettledAt(p: Progress, want: Want, id: string) {
    match want
    case Keep(volumeId) => id == volumeId
    case Need(key) => key in p.memo && id == p.memo[key]
  }

  ghost predicate AllSettledAt(p: Progress, wants: seq<Want>) {
    |p.ids| == |wants| && forall i :: 0 <= i < |wants| ==> SettledAt(p, wants[i], p.ids[i])
  }

  ghost predicate Answered(volume: nat -> Option<string>, n: nat, p: Progress) {
    forall j :: 0 <= j < |p.calls| ==> p.calls[j] in p.memo && Some(p.memo[p.calls[j]]) == volume(n + j)
  }

  ghost predicate CallsAreKeys(p: Progress) {
    NoRepeats(p.calls) && forall k :: k in p.memo <==> k in p.calls
  }

  lemma {:induction false} StepSettles(p: Progress, wants: seq<Want>, want: Want, reply: Option<string>)
    requires AllSettledAt(p, wants) && Step(p, want, reply).ok
    ensures AllSettledAt(Step(p, want, reply), wants + [want])
  {
    var q := Step(p, want, reply);
    forall i | 0 <= i < |wants| ensures SettledAt(q, wants[i], q.ids[i]) {
      assert SettledAt(p, wants[i], p.ids[i]);
    }
  }

  lemma {:induction false} StepAnswers(volume: nat -> Option<string>, n: nat, p: Progress, want: Want)
    requires Answered(volume, n, p) && CallsAreKeys(p) && Step(p, want, volume(n + |p.calls|)).ok
    ensures var q := Step(p, want, volume(n + |p.calls|)); Answered(volume, n, q) && CallsAreKeys(q)
  {
  }

  lemma {:induction false} WalkFaithful(volume: nat -> Option<string>, n: nat, wants: seq<Want>)
    requires Walk(volume, n, wants).ok
    ensures var p := Walk(volume, n, wants); AllSettledAt(p, wants) && Answered(volume, n, p) && CallsAreKeys(p)
    decreases |wants|
  {
    if wants != [] {
      var m := |wants| - 1;
      var p := Walk(volume, n, wants[..m]);
      WalkFaithful(volume, n, wants[..m]);
      StepSettles(p, wants[..m], wants[m], volume(n + |p.calls|));
      StepAnswers(volume, n, p, wants[m]);
      assert wants[..m] + [wants[m]] == wants;
    }
  }

  function KeysOf(wants: seq<Want>): set<Key> {
    set w | w in wants && w.Need? :: w.key
  }

  lemma {:induction false} CallsWanted(volume: nat -> Option<string>, n: nat, wants: seq<Want>)
    ensures forall k :: k in Walk(volume, n, wants).calls ==> Need(k) in wants
    decreases |wants|
  {
    if wants != [] {
      CallsWanted(volume, n, wants[..|wants| - 1]);
    }
  }

  lemma {:induction false} CountCalls(calls: seq<Key>, keys: set<Key>)
    requires NoRepeats(calls) && (forall k :: k in keys <==> k in calls)
    ensures |calls| == |keys|
    decreases |calls|
  {
    if calls == [] {
      assert keys == {};
    } else {
      var m := |calls| - 1;
      var rest := keys - {calls[m]};
      assert forall k :: k in rest <==> k in calls[..m];
      CountCalls(calls[..m], rest);
    }
  }

  /** One call per distinct key among the resources that ask for a volume. */
  lemma {:induction false} OneCallPerKey(volume: nat -> Option<string>, n: nat, wants: seq<Want>)
    requires Walk(volume, n, wants).ok
    ensures |Walk(volume, n, wants).calls| == |KeysOf(wants)|
  {
    var p := Walk(volume, n, wants);
    WalkFaithful(volume, n, wants);
    CallsWanted(volume, n, wants);
    forall k | k in KeysOf(wants) ensures k in p.calls {
      var i :| 0 <= i < |wants| && wants[i] == Need(k);
      assert SettledAt(p, wants[i], p.ids[i]);
    }
    CountCalls(p.calls, KeysOf(wants));
  }

  ghost predicate FreshIds(volume: nat -> Option<string>, n: nat, calls: nat) {
    forall a, b :: n <= a < b < n + calls ==> volume(a) != volume(b)
  }

  lemma {:induction false} FreshDiffer(volume: nat -> Option<string>, n: nat, p: Progress, a: Key, b: Key)
    requires Answered(volume, n, p) && CallsAreKeys(p) && FreshIds(volume, n, |p.calls|)
    requires a in p.memo && b in p.memo && a != b
    ensures p.memo[a] != p.memo[b]
  {
    var x :| 0 <= x < |p.calls| && p.calls[x] == a;
    var y :| 0 <= y < |p.calls| && p.calls[y] == b;
    assert volume(n + x) == Some(p.memo[a]) && volume(n + y) == Some(p.memo[b]);
    assert x < y ==> volume(n + x) != volume(n + y);
    assert y < x ==> volume(n + y) != volume(n + x);
  }

  /** Equal keys share an id and, if the cloud never repeats an id, different keys have different ids. */
  lemma {:induction false} KeysShareIds(volume: nat -> Option<string>, n: nat, wants: seq<Want>, i: nat, j: nat)
    requires Walk(volume, n, wants).ok && i < |wants| && j < |wants| && wants[i].Need? && wants[j].Need?
    ensures var p := Walk(volume, n, wants);
            && |p.ids| == |wants|
            && (wants[i].key == wants[j].key ==> p.ids[i] == p.ids[j])
            && (FreshIds(volume, n, |p.calls|) && wants[i].key != wants[j].key ==> p.ids[i] != p.ids[j])
  {
    var p := Walk(volume, n, wants);
    WalkFaithful(volume, n, wants);
    assert SettledAt(p, wants[i], p.ids[i]) && SettledAt(p, wants[j], p.ids[j]);
    if FreshIds(volume, n, |p.calls|) && wants[i].key != wants[j].key {
      FreshDiffer(volume, n, p, wants[i].key, wants[j].key);
    }
  }

  /** Order and every other field are kept, the private fields are gone, and a resource that asks for nothing keeps its
      volume. */
  lemma {:induction false} OnlyVolumesChange(volume: nat -> Option<string>, n: nat, resources: seq<Resource>, i: nat)
    requires Walk(volume, n, WantsOf(resources)).ok && i < |resources|
    ensures var p := Walk(volume, n, WantsOf(resources));
            && |p.ids| == |resources|
            && (WantOf(resources[i]).Keep? ==> p.ids[i] == resources[i].podInput.volumeId)
            && var r := AllSettled(resources, p.ids)[i];
               r == resources[i].(podInput := resources[i].podInput.(volumeId := p.ids[i], privateName := "",
                                                                     privateSize := 0, privateCenter := ""))
  {
    WalkFaithful(volume, n, WantsOf(resources));
    WantAt(resources, i);
    SettledAtIndex(resources, Walk(volume, n, WantsOf(resources)).ids, i);
    assert SettledAt(Walk(volume, n, WantsOf(resources)), WantsOf(resources)[i],
                     Walk(volume, n, WantsOf(resources)).ids[i]);
  }

  ghost predicate GrantedUpTo(volume: nat -> Option<string>, n: nat, calls: int) {
    forall j :: n <= j < n + calls ==> Granted(volume(j))
  }

  /** It raises exactly when a creation fails or returns no id, and then that call is the last one. */
  lemma {:induction false} FailsAtFirstRefusal(volume: nat -> Option<string>, n: nat, wants: seq<Want>)
    ensures var p := Walk(volume, n, wants);
            && (p.ok <==> GrantedUpTo(volume, n, |p.calls|))
            && (!p.ok ==> |p.calls| > 0 && GrantedUpTo(volume, n, |p.calls| - 1))
    decreases |wants|
  {
    if wants != [] {
      var p := Walk(volume, n, wants[..|wants| - 1]);
      FailsAtFirstRefusal(volume, n, wants[..|wants| - 1]);
      StepRefused(volume, n, p, wants[|wants| - 1]);
    }
  }

  lemma {:induction false} StepRefused(volume: nat -> Option<string>, n: nat, p: Progress, want: Want)
    requires (p.ok <==> GrantedUpTo(volume, n, |p.calls|))
             && (!p.ok ==> |p.calls| > 0 && GrantedUpTo(volume, n, |p.calls| - 1))
    ensures var q := Step(p, want, volume(n + |p.calls|));
            && (q.ok <==> GrantedUpTo(volume, n, |q.calls|))
            && (!q.ok ==> |q.calls| > 0 && GrantedUpTo(volume, n, |q.calls| - 1))
  {
  }

  lemma {:induction false} WantIsMissing(r: Resource, k: Key)
    ensures WantOf(r) == Need(k) <==> Missing(r, k.name, k.size, k.center)
  {
  }

  lemma {:induction false} AskedAt(keys: seq<Key>, k: Key)
    ensures CreateVolume(k.name, k.size, k.center) in Asked(keys) <==> k in keys
  {
    var calls := Asked(keys);
    if CreateVolume(k.name, k.size, k.center) in calls {
      var i :| 0 <= i < |calls| && calls[i] == CreateVolume(k.name, k.size, k.center);
      assert keys[i] == k;
    }
    if k in keys {
      var i :| 0 <= i < |keys| && keys[i] == k;
      assert calls[i] == CreateVolume(k.name, k.size, k.center);
    }
  }

  lemma {:induction false} KeyIsCalled(p: Progress, wants: seq<Want>, i: nat)
    requires AllSettledAt(p, wants) && CallsAreKeys(p) && i < |wants| && wants[i].Need?
    ensures wants[i].key in p.calls && p.ids[i] == p.memo[wants[i].key]
  {
    assert SettledAt(p, wants[i], p.ids[i]);
  }

  /** A key is asked for exactly if some resource misses it. */
  lemma {:induction false} CalledIsMissing(volume: nat -> Option<string>, n: nat, resources: seq<Resource>, k: Key)
    requires Walk(volume, n, WantsOf(resources)).ok
    ensures k in Walk(volume, n, WantsOf(resources)).calls
            <==> exists i :: 0 <= i < |resources| && Missing(resources[i], k.name, k.size, k.center)
  {
    hide Walk, WantsOf;
    var wants := WantsOf(resources);
    var p := Walk(volume, n, wants);
    WalkFaithful(volume, n, wants);
    if k in p.calls {
      CallsWanted(volume, n, wants);
      var i :| 0 <= i < |wants| && wants[i] == Need(k);
      WantAt(resources, i);
      WantIsMissing(resources[i], k);
    }
    if i :| 0 <= i < |resources| && Missing(resources[i], k.name, k.size, k.center) {
      WantAt(resources, i);
      WantIsMissing(resources[i], k);
      KeyIsCalled(p, wants, i);
    }
  }

  lemma {:induction false} ProvidedAt(volume: nat -> Option<string>, n: nat, resources: seq<Resource>, i: nat)
    requires Walk(volume, n, WantsOf(resources)).ok && i < |resources|
    ensures var p := Walk(volume, n, WantsOf(resources));
            |p.ids| == |resources| && Provided(volume, n, Asked(p.calls), resources[i], p.ids[i])
  {
    hide Walk, WantsOf, Asked, WantOf, Missing, Answered, CallsAreKeys;
    var wants := WantsOf(resources);
    var p := Walk(volume, n, wants);
    WalkFaithful(volume, n, wants);
    WantAt(resources, i);
    assert SettledAt(p, wants[i], p.ids[i]);
    var calls, r := Asked(p.calls), resources[i];
    forall j: nat | j < |calls| && AsksFor(calls[j], r) ensures volume(n + j) == Some(p.ids[i]) {
      WantIsMissing(r, p.calls[j]);
      AnsweredAt(volume, n, p, j);
    }
    KeptAt(r, p.ids[i], p);
  }

  lemma {:induction false} AnsweredAt(volume: nat -> Option<string>, n: nat, p: Progress, j: nat)
    requires Answered(volume, n, p) && j < |p.calls|
    ensures p.calls[j] in p.memo && volume(n + j) == Some(p.memo[p.calls[j]])
  {
  }

  lemma {:induction false} KeptAt(r: Resource, id: string, p: Progress)
    requires SettledAt(p, WantOf(r), id)
    ensures r.podInput.volumeId != "" ==> id == r.podInput.volumeId
    ensures r.podInput.volumeId == "" && (r.podInput.privateSize == 0 || r.podInput.privateCenter == "") ==> id == ""
  {
  }

  /** In terms of pod inputs alone: a call is made for a name, size and data center exactly if some resource lacks that
      volume; it ends with the id answered to that call, a resource with a volume keeps it, and one that asks for
      nothing has none. */
  lemma {:induction false} MissingIsCreated(volume: nat -> Option<string>, n: nat, resources: seq<Resource>,
                                            calls: seq<Call>, out: seq<Resource>)
    requires Materialized(volume, n, resources, calls, Some(out))
    ensures AllProvided(volume, n, resources, calls, out)
  {
    hide Walk, WantsOf, AllSettled, Missing, Provided;
    var p := Walk(volume, n, WantsOf(resources));
    forall name, size, center
      ensures CreateVolume(name, size, center) in calls
              <==> exists i :: 0 <= i < |resources| && Missing(resources[i], name, size, center)
    {
      AskedAt(p.calls, Key(name, size, center));
      CalledIsMissing(volume, n, resources, Key(name, size, center));
    }
    forall i | 0 <= i < |out| ensures Provided(volume, n, calls, resources[i], out[i].podInput.volumeId) {
      ProvidedAt(volume, n, resources, i);
      SettledAtIndex(resources, p.ids, i);
    }
  }
}
