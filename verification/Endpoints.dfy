/** Resolution of dependency endpoints by the remote runner: the environment is rewritten in place, prefix by prefix,
    dependency by dependency. */
module Endpoints {
  import opened Options
  import opened Roles
  import opened Placeholders

  type Env = map<string, string>

  /** A pod of a plan and the public endpoint found on it, if any. */
  datatype Reached = Reached(role: Role, endpoint: Option<string>)

  function Mapped(env: Env, f: string -> string): Env {
    map k | k in env :: f(env[k])
  }

  /** replace_prefix: one pass over a copy of the items, assigning to the dictionary. */
  method ReplacePrefixIn(env: Env, placeholder: string, endpoint: string) returns (result: Env)
    ensures result == Mapped(env, (value: string) => ReplacePrefix(value, placeholder, endpoint))
  {
    var keys := env.Keys;
    result := env;
    while keys != {}
      invariant keys <= env.Keys == result.Keys
      invariant forall k :: k in env ==>
                  result[k] == if k in keys then env[k] else ReplacePrefix(env[k], placeholder, endpoint)
      decreases keys
    {
      var key :| key in keys;
      if placeholder <= env[key] {
        result := result[key := endpoint + env[key][|placeholder|..]];
      }
      keys := keys - {key};
    }
  }

  /** What the pods visited so far make of one value. */
  function Rewritten(value: string, pods: seq<Reached>): string {
    if pods == [] then value
    else
      var last := pods[|pods| - 1];
      var front := Rewritten(value, pods[..|pods| - 1]);
      if last.role == Agent || last.endpoint.None? then front else RemoteRewrite(front, last.role, last.endpoint.value)
  }

  /** resolve_dependency_endpoints, on the environment of the runtime contract */
  method ResolveDependencyEndpoints(env: Env, pods: seq<Reached>) returns (result: Env)
    ensures result == Mapped(env, (value: string) => Rewritten(value, pods))
  {
    result := env;
    for i := 0 to |pods|
      invariant result == Mapped(env, (value: string) => Rewritten(value, pods[..i]))
    {
      assert pods[..i + 1][..i] == pods[..i];
      ghost var before := result;
      var pod := pods[i];
      if pod.role != Agent && pod.endpoint.Some? {
        result := ReplacePrefixIn(result, EnginePattern(RemoteEngines(pod.role).0), pod.endpoint.value);
        result := ReplacePrefixIn(result, EnginePattern(RemoteEngines(pod.role).1), pod.endpoint.value);
      }
      assert forall k :: k in env ==> before[k] == Rewritten(env[k], pods[..i]);
      assert forall k :: k in env ==> result[k] == Rewritten(env[k], pods[..i + 1]);
    }
    assert pods[..|pods|] == pods;
  }

  // ---------------------------------------------------------------------------------------------
  // Every value is resolved by the pod of its own role

  lemma {:induction false} OtherRoleLeaves(e: Engine, rest: string, role: Role, endpoint: string)
    requires role != Agent && role != RoleOf(e)
    ensures RemoteRewrite(EnginePattern(e) + rest, role, endpoint) == EnginePattern(e) + rest
  {
    var engines := RemoteEngines(role);
    EnginesApart(engines.0, e, "", rest);
    EnginesApart(engines.1, e, "", rest);
    assert EnginePattern(engines.0) + "" == EnginePattern(engines.0)
        && EnginePattern(engines.1) + "" == EnginePattern(engines.1);
  }

  lemma {:induction false} ResolvedStays(value: string, role: Role, endpoint: string)
    requires role != Agent && value != "" && value[0] == 'h'
    ensures RemoteRewrite(value, role, endpoint) == value
  {
    var engines := RemoteEngines(role);
    FirstDifference(EnginePattern(engines.0), value, 0);
    FirstDifference(EnginePattern(engines.1), value, 0);
  }

  /** The endpoint that the pods offer for a role: that of the first pod with the role that has one. */
  function OfferedFor(role: Role, pods: seq<Reached>): Option<string> {
    if pods == [] then None
    else
      var earlier := OfferedFor(role, pods[..|pods| - 1]);
      if earlier.Some? then earlier else if pods[|pods| - 1].role == role then pods[|pods| - 1].endpoint else None
  }

  predicate AllHttp(pods: seq<Reached>) {
    forall i :: 0 <= i < |pods| && pods[i].endpoint.Some? ==>
      pods[i].endpoint.value != "" && pods[i].endpoint.value[0] == 'h'
  }

  lemma {:induction false} OfferIsHttp(role: Role, pods: seq<Reached>)
    requires AllHttp(pods)
    ensures var o := OfferedFor(role, pods); o.Some? ==> o.value != "" && o.value[0] == 'h'
    decreases |pods|
  {
    if pods != [] {
      OfferIsHttp(role, pods[..|pods| - 1]);
    }
  }

  lemma {:induction false} RewriteOnce(e: Engine, rest: string, front: Option<string>, pod: Reached)
    requires pod.role != Agent && pod.endpoint.Some? && pod.endpoint.value != "" && pod.endpoint.value[0] == 'h'
    requires front.Some? ==> front.value != "" && front.value[0] == 'h'
    ensures var before := if front.Some? then front.value + rest else EnginePattern(e) + rest;
            RemoteRewrite(before, pod.role, pod.endpoint.value)
            == if front.Some? then front.value + rest
               else if pod.role == RoleOf(e) then pod.endpoint.value + rest else EnginePattern(e) + rest
  {
    if front.Some? {
      ResolvedStays(front.value + rest, pod.role, pod.endpoint.value);
    } else if pod.role == RoleOf(e) {
      RemoteResult(e, rest, pod.endpoint.value);
    } else {
      OtherRoleLeaves(e, rest, pod.role, pod.endpoint.value);
    }
  }

  /** For any pods with http endpoints: a value that starts with a placeholder has it replaced by the endpoint of the
      pod of its own role, keeping the rest, and is left alone when there is none; no other pod touches it. */
  lemma {:induction false} ResolvedByItsRole(e: Engine, rest: string, pods: seq<Reached>)
    requires AllHttp(pods)
    ensures var o := OfferedFor(RoleOf(e), pods);
            Rewritten(EnginePattern(e) + rest, pods) == if o.Some? then o.value + rest else EnginePattern(e) + rest
    decreases |pods|
  {
    if pods != [] {
      var front, last := pods[..|pods| - 1], pods[|pods| - 1];
      ResolvedByItsRole(e, rest, front);
      OfferIsHttp(RoleOf(e), front);
      if last.role != Agent && last.endpoint.Some? {
        RewriteOnce(e, rest, OfferedFor(RoleOf(e), front), last);
      }
    }
  }
}
