/** The outside world of a run: the cloud, the SSH connection and the waiting loops. Every call is logged, and its
    answer is an arbitrary function of its place in the log, so that statements about all oracles are statements about
    all faults. */
module Cloud {
  import opened Options
  import opened Planner

  /** The upper-cased status of a pod; everything but the three ended states counts as live. */
  datatype PodStatus = Live(text: string) | Stopped | Exited | Terminated

  datatype Pod = Pod(id: string, name: string, status: PodStatus)

  datatype Call =
    | CreateVolume(name: string, size: nat, center: string)
    | ListPods
    | GetPod(id: string)
    | CreatePod(input: PodInput)
    | ResumePod(id: string)
    | StopPodCall(id: string)
    | TerminatePodCall(id: string)
    | AwaitReady(id: string)
    | AwaitEndpoint(id: string)
    | AwaitSsh
    | Schedule(id: string)
    | Ssh(command: string)
    | WriteFile(path: string)
    | AwaitResponse

  /** An SSH command raises (a timeout, say) or exits. */
  datatype Outcome = Raised | Exit(code: int)

  /** What the world answers to a call made when the log has a given length; None stands for an exception. */
  datatype Oracle = Oracle(
    volume: nat -> Option<string>,
    listing: nat -> Option<seq<Pod>>,
    pod: (nat, Call) -> Option<Pod>,
    done: (nat, Call) -> bool,
    exit: (nat, Call) -> Outcome)

  class World {
    const oracle: Oracle
    var log: seq<Call>

    constructor (oracle: Oracle)
      ensures this.oracle == oracle && log == []
    {
      this.oracle := oracle;
      log := [];
    }

    method AskVolume(name: string, size: nat, center: string) returns (id: Option<string>)
      modifies this
      ensures log == old(log) + [CreateVolume(name, size, center)] && id == oracle.volume(|old(log)|)
    {
      id := oracle.volume(|log|);
      log := log + [CreateVolume(name, size, center)];
    }

    method AskListing() returns (pods: Option<seq<Pod>>)
      modifies this
      ensures log == old(log) + [ListPods] && pods == oracle.listing(|old(log)|)
    {
      pods := oracle.listing(|log|);
      log := log + [ListPods];
    }

    /** A call that answers with a pod: get, create, resume, or waiting until it is ready. */
    method AskPod(call: Call) returns (pod: Option<Pod>)
      modifies this
      ensures log == old(log) + [call] && pod == oracle.pod(|old(log)|, call)
    {
      pod := oracle.pod(|log|, call);
      log := log + [call];
    }

    /** A call that answers with nothing. */
    method Do(call: Call) returns (ok: bool)
      modifies this
      ensures log == old(log) + [call] && ok == oracle.done(|old(log)|, call)
    {
      ok := oracle.done(|log|, call);
      log := log + [call];
    }

    method RunCommand(command: string) returns (outcome: Outcome)
      modifies this
      ensures log == old(log) + [Ssh(command)] && outcome == oracle.exit(|old(log)|, Ssh(command))
    {
      outcome := oracle.exit(|log|, Ssh(command));
      log := log + [Ssh(command)];
    }
  }
}
