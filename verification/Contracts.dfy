/** Runtime contracts and their right-biased merging. */
module Contracts {
  import opened Options
  import opened Commands

  datatype Secret = Secret(name: string, envVar: string, placeholder: string)
  datatype Port = Port(name: string, containerPort: nat, protocol: string, isPublic: bool)

  datatype Contract = Contract(
    env: map<string, string>,
    secrets: seq<Secret>,
    ports: seq<Port>,
    files: map<string, string>,
    commands: seq<Command>)

  const EMPTY := Contract(map[], [], [], map[], [])

  function Merge2(a: Contract, b: Contract): Contract {
    Contract(a.env + b.env, a.secrets + b.secrets, a.ports + b.ports, a.files + b.files, a.commands + b.commands)
  }

  function MergeAll(contracts: seq<Option<Contract>>): Contract {
    if contracts == [] then EMPTY
    else
      var front, last := MergeAll(contracts[..|contracts| - 1]), contracts[|contracts| - 1];
      if last.None? then front else Merge2(front, last.value)
  }

  /** merge_contracts: one pass that updates the dictionaries and extends the lists, skipping None. */
  method MergeContracts(contracts: seq<Option<Contract>>) returns (merged: Contract)
    ensures merged == MergeAll(contracts)
  {
    var env, secrets, ports, files, commands := map[], [], [], map[], [];
    for i := 0 to |contracts|
      invariant Contract(env, secrets, ports, files, commands) == MergeAll(contracts[..i])
    {
      assert contracts[..i + 1][..i] == contracts[..i];
      if contracts[i].Some? {
        var c := contracts[i].value;
        env := env + c.env;
        secrets := secrets + c.secrets;
        ports := ports + c.ports;
        files := files + c.files;
        commands := commands + c.commands;
      }
    }
    assert contracts[..|contracts|] == contracts;
    merged := Contract(env, secrets, ports, files, commands);
  }

  /** A merged variable has the value given by the last contract that sets it. */
  lemma {:induction false} LastContractWins(contracts: seq<Option<Contract>>, key: string, i: nat)
    requires i < |contracts| && contracts[i].Some? && key in contracts[i].value.env
    requires forall j :: i < j < |contracts| && contracts[j].Some? ==> key !in contracts[j].value.env
    ensures key in MergeAll(contracts).env && MergeAll(contracts).env[key] == contracts[i].value.env[key]
    decreases |contracts|
  {
    var n := |contracts| - 1;
    if i < n {
      LastContractWins(contracts[..n], key, i);
    }
  }

  /** with_env */
  function WithEnv(c: Contract, values: map<string, string>): Contract {
    c.(env := c.env + values)
  }

  function SecretEnv(secrets: seq<Secret>): map<string, string> {
    if secrets == [] then map[]
    else SecretEnv(secrets[..|secrets| - 1])[secrets[|secrets| - 1].envVar := secrets[|secrets| - 1].placeholder]
  }

  /** contract_env_for_creation: the values, then the placeholder of each secret */
  function CreationEnv(c: Contract): map<string, string> {
    c.env + SecretEnv(c.secrets)
  }
}
