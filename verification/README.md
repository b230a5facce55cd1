# Verified model of the ComfyUI RunPod agentic runtime

The repository plans deployments of an agent and its services as pods, runs a plan either on a cloud over SSH or on a
local container engine, and records what it does in a ledger. This project models the part of it that holds state,
order and hand-written text, and proves what that part is relied on for. One file holds one module.

- **Running a plan in the cloud.** `Cloud` is the outside world: every call is logged and answered by an arbitrary
  function of its place in the log, so a statement about all oracles is a statement about all faults. `StateStore` is
  the ledger, `Volumes`, `Reuse`, `Steps` and `Visits` specify the parts of a run, `Session`, `Runner` and `Progress`
  are the classes whose methods follow these specifications, and `History` is about whole sequences of runs.
- **Planning.** `Commands` (queued commands, stable sort, node chains), `Contracts` (right-biased merging), `Names`
  (managed names and ledger ids), `Planner` (resources and the flat list of actions) and `PlanInputs` (what of a
  deployment and a run can be found again in a plan).
- **The local runtime.** `ComposeNames` (what services are called), `LocalScript` (run script and command files),
  `LocalHash` and `LocalShapes` (what a container is recognized by), `LocalEngine` and `LocalRuntime` (reconciling a
  compose project with a plan).
- **Text read back by a shell or a decoder.** `Shell` is a reader for the part of the POSIX.1-2017 Shell Command
  Language that the generated text uses (sections 2.2, 2.3 and 2.7.4). `ShellLines`, `SessionEnv`, `StartupScript` and
  `SshClient` are the printers, `StartupFiles` says what the startup script leaves behind, and `TerminalOrigin` is the
  base64 form of section 5 of RFC 4648.
- **Endpoints.** `Placeholders`, `PlaceholderStages`, `PlaceholderJoins` and `PlaceholderResults` are about the local
  substitution of `crag://` placeholders (the table and the loop, the text between two replacements, all of them as one
  walk, what comes out), `Endpoints` about the remote one.
- `Options`, `Roles` and `Text` are shared helpers.

## What the code turns out not to do

Some expectations are false of the code. Each is kept as it is; a lemma names inputs for which it fails, and another
one says exactly when it holds.

- The sequential replacements differ from one left-to-right pass when a text put for a placeholder completes a
  placeholder of a later row with the text around it. There are two ways: a host name that ends in `c`, `cr`, `cra` or
  `crag` (`PlaceholderResults.HostJoinBreaks`), and the `http` put for a neko placeholder that stands after
  `crag://browser/playwrig` (`PlaceholderResults.NekoJoinBreaks`). `PlaceholderStages.SequentialIsOnePass` proves that
  these are the only ones, and `PlaceholderJoins.ReplacementsAreWalk` says what comes out in every case.
- The local and the remote form of a value differ in two ways: a plain `crag://llm/vllm` is rewritten remotely but has
  no row in the local table, and a placeholder further on in the value is replaced locally but left alone remotely
  (`PlaceholderResults.SecondPlaceholderDiffers`). `PlaceholderResults.LocalEqualsRemote` proves that these are the only
  ones.
- The lookup of a service by role also accepts a resource whose short node id spells the role
  (`Names.SpelledNodeIsTaken`; `Names.FirstServiceExact`).
- The variable `CRAG_WORKFLOW_HASH` is dropped from the local hash, but the workflow hash comes back in two ways:
  through service names put for placeholders (`LocalHash.PlaceholderLeaks`), and through the name of a new network
  volume that has none of its own and is called after its resource (`LocalHash.UnnamedVolumeLeaks`).
  `LocalHash.WorkflowHashLeaks` proves for every resource of every deployment that these are the only ones.
- The lookup of local containers goes by the name prefix `project-`, so project `a` sees the containers of project
  `a-b`. An apply can return 0 with none of its own containers (`LocalEngine.ForeignIsReused`), and on the resume path
  it can return 0 although a service does not run, because `start` starts only the project's own
  (`LocalEngine.ForeignIsNotStarted`). `LocalEngine.ApplyConverges` and `LocalEngine.ApplyOwns` say exactly when the
  services run, and when in containers of the project.
- A matching pod does not keep a second one from being made when the policy finds its state neither reusable nor
  resumable: a live pod under `resume_stopped`, an ended one under `reuse_matching`, a terminated one under either
  (`Reuse.SecondPodIsMade`; `Reuse.CreatesExactly`).
- A teardown command standing before an `after_start` command would make the local script name a file that does not
  exist; only the planner's order excludes that (`LocalScript.OrderMatters`).

## Assumptions about the world

- A failed create makes no pod and a returned pod has an id; a call for one pod is answered with that pod
  (`Reuse.Honest`). Listings carry no environment, so a listed pod is known by its name.
- Ledger writes do not fail, and rows get strictly increasing creation times. A new run id is new to the ledger, and
  pod ids are not keys of rows of runs.
- Hashes are functions given as parameters: `t.hash` for the planner, `hash` over `LocalHash.Shape` for the local
  runtime. Truncation of the local hash to twelve characters is part of that function.
- `start` starts every container of its project, `down --remove-orphans` removes them all, `up` replaces the
  containers of the plan's services and leaves orphans; a failed command leaves anything; containers do not stop by
  themselves.
- The histories assume that listings are truthful, that run ids are new, and that runs with a watched hash reuse
  matching pods, which stay live; other runs may have any policy and their pods any fate.
- Secrets replace only values in which there is no dash.
- Python's character tables enter as parameters; all that is assumed of them is that `-` is not alphanumeric and, for
  Compose names (`ComposeNames.LowersParts`), that `lower` keeps lower-case letters and digits and treats the texts
  before and after a dash separately.

## Model

| member | source | states |
|---|---|---|
| Shell.EscapedIsReplace | comfyui_runpod_agentic/runner.py:504-505 | the escaping by `str.replace` is the character-wise escaping: quotes become the five-character sequence, everything else stays |
| Shell.RunQuoted | comfyui_runpod_agentic/runner.py:504-505 | inside any command, a quoted value reads as one piece of the current word, equal to the value |
| Shell.QuoteRoundTrip | comfyui_runpod_agentic/ssh_client.py:116-117 | for every string, the shell reads the quoted form as exactly one word, equal to the string |
| Shell.QuotedListRoundTrip | comfyui_runpod_agentic/runner.py:608-621 | a line of any number of arguments, quoted after a plain prefix such as `NAME=` or plain words, reads back as exactly those words, in order |
| Shell.AndRoundTrip | comfyui_runpod_agentic/runner.py:297-298 | two such lines joined by `&&` read back as the words of both with the operator between |
| Shell.RunDocument | comfyui_runpod_agentic/runner.py:635-642 | a here-document whose content has no line equal to its marker is read as the content plus a newline |
| Shell.DocumentExact | comfyui_runpod_agentic/runner.py:635-642 | the marker condition is exact: the content is read back if and only if none of its lines is the marker |
| SessionEnv.SessionEnvRoundTrip | comfyui_runpod_agentic/runner.py:384 | sourcing the generated session.env sets the whole environment, values with quotes and newlines included |
| ShellLines.RunWrite | comfyui_runpod_agentic/runner.py:635-642 | the four lines for a file have one effect: the file gets its content and a newline |
| ShellLines.RunScript | comfyui_runpod_agentic/runner.py:645-651 | the three lines for a command have one effect: bash runs the command |
| ShellLines.ScriptExact | comfyui_runpod_agentic/runner.py:582 | bash gets the whole text as its script if and only if no line of the text is the marker |
| SshClient.ProxyWriteRoundTrip | comfyui_runpod_agentic/ssh_client.py:60-76 | what is typed into a proxy session is read as two commands, one that writes exactly the content and a newline to exactly the path and `exit`, if and only if no line is the marker |
| StartupScript.BuildStartupScript | comfyui_runpod_agentic/runner.py:576-632 | the loop that appends line by line builds the script that the round trip is about |
| StartupScript.StartupScriptRoundTrip | comfyui_runpod_agentic/runner.py:576-651 | reading the outer and then the inner here-documents yields exactly the planned writes and before_start commands, in order |
| StartupScript.OuterMarkerExact | comfyui_runpod_agentic/runner.py:582-631 | the shell runs the whole body if and only if no line of the body is the outer marker |
| StartupScript.OuterMarkerByParts | comfyui_runpod_agentic/runner.py:582-631 | the body avoids the outer marker if and only if every file content, every before_start command and every line put around them do; of the latter only the launch line can fail to when workspace and paths are single lines |
| StartupFiles.ScriptLeavesFiles | comfyui_runpod_agentic/runner.py:576-607 | reading the script leaves at the seven fixed paths under the runtime directory: the resources, the environment, the commands, and the values of AGENT_SYSTEM_PROMPT, AGENT_PROMPT, MCP_SERVERS_JSON and CRAG_SUBAGENTS_JSON, each under its own name and only if it is set |
| StartupFiles.EveryFileIsWritten | comfyui_runpod_agentic/runner.py:600-607 | every file of the contracts is written from the root on, whatever slashes surround its path, and the files of subagents, harness and launcher are written in the runtime directory |
| StartupFiles.LinksLineReads | comfyui_runpod_agentic/runner.py:608-621 | the shell reads one command: the links script, with the workspace, the runtime directory and the four files under the names it expects |
| StartupFiles.LaunchText | comfyui_runpod_agentic/runner.py:508-544 | the agent is started in the workspace by the configured or the own launcher unless the mode is manual; the keep-alive timer is started in either mode if there is one; without both the line only says so |
| StartupFiles.FrameText | comfyui_runpod_agentic/runner.py:581-632 | the script fails at the first error, works in the workspace, forgets an earlier success first, launches last of all but one and reports success at the very end |
| TerminalOrigin.PaddingRestored | comfyui_runpod_agentic/routes.py:291-299 | the padding computed from the stripped length is what was stripped; a stripped length is never 1 modulo 4 |
| TerminalOrigin.TerminalOriginRoundTrip | comfyui_runpod_agentic/routes.py:291-299 | every byte string survives encoding, stripping, padding and decoding |
| Commands.SortSorted | comfyui_runpod_agentic/planner.py:325 | the sort orders by order and keeps the multiset of commands |
| Commands.SortStable | comfyui_runpod_agentic/planner.py:264 | commands of equal order keep their relative order |
| Commands.FilterSort | comfyui_runpod_agentic/planner.py:325 | selecting a phase and sorting commute |
| Commands.ChainOrder | comfyui_runpod_agentic/nodes.py:1061-1064 | a chain of k command nodes holds its commands in chain order with orders 0, 100, ..., 100 (k - 1), and every re-sort is the identity |
| Commands.NextNode | comfyui_runpod_agentic/nodes.py:788-791 | one more node takes the next multiple of 100 and goes last |
| Contracts.MergeContracts | comfyui_runpod_agentic/runtime_contracts.py:14-34 | the one pass over the contracts computes the right-biased merge, skipping missing contracts |
| Contracts.LastContractWins | comfyui_runpod_agentic/runtime_contracts.py:14-34 | a merged variable has the value given by the last contract that sets it |
| Names.ManagedNameRoundTrip | comfyui_runpod_agentic/state_store.py:265-269 | parsing a managed name gives back its four parts, for every node id, if and only if the truncated hashes and the role hold no dash |
| Names.ManagedNameText | comfyui_runpod_agentic/planner.py:401-402 | the text of a managed name: crag, twelve characters of the workflow hash, the role, the short node id and twelve characters of the hash, with dashes between |
| Names.ShortNodeIdText | comfyui_runpod_agentic/planner.py:395-398 | a short node id has one to ten letters or digits, "node" if there is no id; a short alphanumeric id is only lowered |
| Names.RolesTellNamesApart | comfyui_runpod_agentic/planner.py:401-402 | names of one workflow differ as soon as the roles do |
| Names.RolesTellIdsApart | comfyui_runpod_agentic/state_store.py:108 | ledger ids of one run differ as soon as the roles do |
| Names.RoleTestExact | comfyui_runpod_agentic/local_runtime.py:217 | the role test on a managed name accepts exactly the name's role, workflow hash and short node id |
| Names.FirstServiceExact | comfyui_runpod_agentic/local_runtime.py:215-219 | the lookup returns the first resource with the role or with a node id spelling it, and nothing only if there is none |
| Names.SpelledNodeIsTaken | comfyui_runpod_agentic/local_runtime.py:215-219 | with an llm resource whose node is called "sql", the lookup for SQL returns the llm resource |
| Placeholders.MatchIsLongest | comfyui_runpod_agentic/local_runtime.py:184-198 | the order of the table finds the longest placeholder that starts at a position |
| Placeholders.PlaceholdersAsWritten | comfyui_runpod_agentic/local_runtime.py:184-198 | the thirteen placeholders, letter by letter, in the order in which they are replaced |
| Placeholders.TextsAsWritten | comfyui_runpod_agentic/local_runtime.py:205-210 | the text that each of them is replaced by, letter by letter, for any service name |
| Placeholders.RolesAsWritten | comfyui_runpod_agentic/local_runtime.py:199-204 | the role whose service each of them waits for |
| Placeholders.ResolveCragPlaceholders | comfyui_runpod_agentic/local_runtime.py:183-212 | the loop over the table computes the thirteen sequential replacements |
| PlaceholderStages.SequentialIsOnePass | comfyui_runpod_agentic/local_runtime.py:199-212 | the sequential replacements equal one left-to-right longest-match pass if and only if no text put for a placeholder completes a placeholder of a later row whose role has a service |
| PlaceholderJoins.ReplacementsAreWalk | comfyui_runpod_agentic/local_runtime.py:199-212 | for every value, the thirteen replacements leave what one walk from left to right does, in which a host name and the text after it may complete a placeholder of a later row |
| PlaceholderResults.WellFormedIsPlaced | comfyui_runpod_agentic/local_runtime.py:199-212 | a value whose placeholders are followed by '/' or the end meets that condition, whatever the services, and is clean if they are all there |
| PlaceholderResults.NothingLeft | comfyui_runpod_agentic/local_runtime.py:199-212 | for every value, the replacements leave no `crag://` if and only if every one they meet starts a placeholder of a role with a service and no host name that they leave makes up another one with the text after it; where they equal the pass these are the clean values |
| PlaceholderResults.PassLeavesNothing | comfyui_runpod_agentic/local_runtime.py:183-212 | the one pass leaves no `crag://` if and only if every one it meets starts a placeholder of a role with a service and no host name makes up another one |
| PlaceholderResults.ChangedIfHeld | comfyui_runpod_agentic/local_runtime.py:199-212 | the replacements change a value if and only if it holds a placeholder of a role that has a service |
| PlaceholderResults.LocalEqualsRemote | comfyui_runpod_agentic/runner.py:1202-1222 | for a value that begins with an llm, browser or vector placeholder, whatever follows it, the thirteen replacements equal the remote rewriting with endpoint http://service:port if and only if a vllm value goes on with /v1 and the text after the placeholder holds no placeholder of a role that has a service |
| PlaceholderResults.SecondPlaceholderDiffers | comfyui_runpod_agentic/runner.py:1202-1222 | two ollama placeholders with a slash between them: the table replaces both, the remote rewriting only the first |
| PlaceholderResults.HostJoinBreaks | comfyui_runpod_agentic/local_runtime.py:183-212 | for every SQL service name ending in 'c', a value on which the sequential replacements and the one pass differ |
| PlaceholderResults.NekoJoinBreaks | comfyui_runpod_agentic/local_runtime.py:183-212 | for any services, a value on which the http put for neko completes a playwright placeholder, so that replacements and pass differ |
| PlaceholderResults.ValueTells | comfyui_runpod_agentic/local_runtime.py:199-212 | with services under other names a value comes out the same if and only if it holds no placeholder of a role that has one |
| Endpoints.ReplacePrefixIn | comfyui_runpod_agentic/runner.py:1252-1255 | rewriting the dictionary in place rewrites each value on its own |
| Endpoints.ResolveDependencyEndpoints | comfyui_runpod_agentic/runner.py:1202-1222 | the walk over the pods rewrites each value by each reachable pod in turn |
| Endpoints.ResolvedByItsRole | comfyui_runpod_agentic/runner.py:1202-1222 | a value that starts with a placeholder is resolved by the first reachable pod of its own role, once, and by no other pod |
| Planner.BuildActions | comfyui_runpod_agentic/planner.py:251-278 | the appending loops build the action list in its parts: dependencies, agent, before_start, files, launch, after, keep-alive, teardown |
| Planner.AppendChain | comfyui_runpod_agentic/planner.py:264-266 | the loop over the sorted chain appends the selected commands in order |
| Planner.PlanCommands | comfyui_runpod_agentic/planner.py:263-277 | the commands of a plan are its before_start group, its after group and its teardown group, in this order |
| Planner.SelectGroups | comfyui_runpod_agentic/local_runtime.py:338-343 | selecting a phase group from such a list gives back exactly that group |
| Planner.PlanTeardown | comfyui_runpod_agentic/runner.py:473 | the teardown commands of a plan are those of the chain, in order |
| Planner.ChainKeepsOrder | comfyui_runpod_agentic/planner.py:263-277 | each phase group of a plan is the contract's commands by order followed by the chain's commands in chain order |
| Planner.PlanResources | comfyui_runpod_agentic/planner.py:87-160 | a plan has one resource per role, the agent's last, all named after workflow, role, node and hash |
| Planner.NamesDistinct | comfyui_runpod_agentic/planner.py:178-186 | within one plan all resource names and all ledger ids are pairwise distinct |
| PlanInputs.PlanFollowsPolicies | comfyui_runpod_agentic/planner.py:162-176 | a plan carries the run id, workflow hash, prompt, reuse and keep-alive policy it was made with, and announces the monitoring exactly if there is a keep-alive policy |
| PlanInputs.NoCommandLost | comfyui_runpod_agentic/planner.py:251-278 | a plan runs every command of the chain, and every command of the merged contracts but those of the teardown phase, exactly as often as it is there |
| PlanInputs.ContractsAreRanked | comfyui_runpod_agentic/planner.py:111-123 | the contracts are merged in one order: agent, services in its pod, external services, services with pods of their own; with `Contracts.LastContractWins`, the last one that sets a variable counts |
| PlanInputs.LastSecretWins | comfyui_runpod_agentic/planner.py:281-285 | a pod sees the placeholder of the last secret for a variable, whatever plain value the contracts give it |
| PlanInputs.ServicesHavePods | comfyui_runpod_agentic/planner.py:90-111 | exactly the services with pods of their own have a resource, of their role, node, template and hash; the last resource is the agent, with its own |
| PlanInputs.PodsSayWhatTheyAre | comfyui_runpod_agentic/planner.py:203-216 | every pod of a plan has its template, name, node, role, hash and owner in its input |
| PlanInputs.AgentVariables | comfyui_runpod_agentic/planner.py:124-137 | the agent's pod has the prompt, run id, workflow hash, workspace and runtime directory of the run under their names, whatever the contracts set, unless a secret or a limit is called so |
| PlanInputs.AgentKnowsPolicy | comfyui_runpod_agentic/planner.py:288-302 | the agent's pod has the mode, the action and the enforcement of the keep-alive policy under their names, unless the policy is manual or a secret or a limit is called so |
| PlanInputs.DependencyVariables | comfyui_runpod_agentic/planner.py:305-320 | a service does not see the endpoint that it answers on, an Ollama server listens on all interfaces, and every other variable of its contract is there |
| PlanInputs.PodsHaveSsh | comfyui_runpod_agentic/planner.py:333-337 | every pod has the ports of its contract, and a public tcp port 22 besides if that is not among them |
| PlanInputs.PlanOpens | comfyui_runpod_agentic/planner.py:251-262 | a plan creates its services, waits for each, resolves their contracts, creates the agent and waits for SSH, in this order |
| LocalScript.RunScriptLines | comfyui_runpod_agentic/local_runtime.py:281-317 | the two loops print one line per command, numbered within the phase and naming the file by the running index |
| LocalScript.WriteCommandFiles | comfyui_runpod_agentic/local_runtime.py:386-387 | the loop writes one file per command, numbered over all commands |
| LocalScript.ScriptNamesRightFiles | comfyui_runpod_agentic/local_runtime.py:281-343 | for every plan of the planner, line i of the script names the file that holds the i-th command the SSH runner would execute, with its policy and retries, under its source or else its phase and place |
| LocalScript.OrderMatters | comfyui_runpod_agentic/local_runtime.py:306 | with a teardown command in front, the line of an after_start command names a file that was never written |
| LocalHash.TransientInputsIgnored | comfyui_runpod_agentic/local_runtime.py:233-266 | two plans of one deployment and workflow, with any prompts and run ids, give equal hashes for every resource |
| LocalHash.OnlyTransientIgnored | comfyui_runpod_agentic/local_runtime.py:233-266 | under an injective hash two agents have one hash if and only if they agree in the image, every variable but CRAG_RUN_ID, AGENT_PROMPT and CRAG_WORKFLOW_HASH as it resolves, the commands of both phase groups, the launcher, the ports and the mount |
| LocalShapes.ServiceShape | comfyui_runpod_agentic/local_runtime.py:222-253 | the local hash of a service is taken of the default image of its kind, no ports, its storage under the name of its volume (or its own) with the retention or "preserve", and a command only for an Ollama server or a Playwright browser |
| LocalShapes.AgentShape | comfyui_runpod_agentic/local_runtime.py:233-274 | that of the agent is taken of the deployment's image or the default one, the terminal's port if it is on, its storage, the two groups of commands of the plan, and a launcher in the workspace of the deployment |
| LocalHash.SqlVariables | comfyui_runpod_agentic/local_runtime.py:144-157 | a postgres or mysql service gets the variables of its image from the general ones, or "app"; what it sets itself and everything else stays, and no other service gets any |
| LocalHash.StoredAt | comfyui_runpod_agentic/planner.py:233-240 | every resource of a plan mounts the storage of its node: an existing volume by its id, a new one with its size, data center and name, or that of the resource |
| LocalHash.WorkflowHashLeaks | comfyui_runpod_agentic/local_runtime.py:144-147 | another workflow hash keeps the local hash of a resource if and only if none of its counting variables holds a placeholder of a role that has a service and it mounts no new volume without a name |
| LocalHash.UnnamedVolumeLeaks | comfyui_runpod_agentic/planner.py:233-240 | with a new volume without a name, another workflow hash gives the agent another local hash |
| LocalHash.PlaceholderLeaks | comfyui_runpod_agentic/local_runtime.py:144-147 | with a variable that holds the placeholder of a service, another workflow hash gives another local hash |
| LocalHash.ManagedNamesTell | comfyui_runpod_agentic/local_runtime.py:497-498 | whatever the node id and the hash, the managed names of two workflows stay apart in Compose, before their last four characters |
| LocalHash.BuiltServicesOk | comfyui_runpod_agentic/local_runtime.py:234 | the services of every built plan have names that begin with `crag-` and hold no colon, which is what the results about placeholders ask of them |
| ComposeNames.SqueezeText | comfyui_runpod_agentic/local_runtime.py:497-498 | characters of names are kept, and each whole run of others becomes one dash |
| ComposeNames.StripText | comfyui_runpod_agentic/local_runtime.py:497-498 | the dashes at both ends go, and only these |
| ComposeNames.ManagedInCompose | comfyui_runpod_agentic/local_runtime.py:493-498 | a managed name keeps its workflow and role in Compose; only what follows them is changed |
| ComposeNames.ServicesDistinct | comfyui_runpod_agentic/local_runtime.py:101 | the services of every built plan have pairwise different names in Compose |
| Volumes.MaterializeNetworkVolumes | comfyui_runpod_agentic/runner.py:127-146 | the loop with its dictionary makes the calls of the memoizing walk and returns its resources, or raises when the walk fails; on return a volume of a name, size and data center was created if and only if some resource without a volume asks for it, each such resource has the id answered to that call, and every other one keeps its own |
| Volumes.MissingIsCreated | comfyui_runpod_agentic/runner.py:130-146 | told from the pod inputs alone: a volume is created if and only if a resource without a volume id has a size and a data center, under its volume name or else its own; such a resource ends with the id answered to that call |
| Volumes.SettleVolume | comfyui_runpod_agentic/runner.py:132-142 | a resource's volume is its own, a remembered one or a newly created one, and the memo grows accordingly |
| Volumes.OneCallPerKey | comfyui_runpod_agentic/runner.py:132-140 | there are as many creation calls as distinct (name, size, data center) keys |
| Volumes.KeysShareIds | comfyui_runpod_agentic/runner.py:132-142 | equal keys share one id, and different keys have different ids if the cloud never repeats one |
| Volumes.OnlyVolumesChange | comfyui_runpod_agentic/runner.py:142-145 | order and every other field are kept, the private fields are gone everywhere |
| Volumes.FailsAtFirstRefusal | comfyui_runpod_agentic/runner.py:136-139 | it raises if and only if a creation fails or returns no id, and that call is the last |
| StateStore.Store.RecordRun | comfyui_runpod_agentic/state_store.py:94-104 | a new run gets a row, a known one keeps its hash and age and takes mode and status |
| StateStore.Store.RecordResource | comfyui_runpod_agentic/state_store.py:106-135 | the resource table is upserted under the key of run, role and hash |
| StateStore.Store.RecordRemoteResource | comfyui_runpod_agentic/state_store.py:137-167 | a listed pod is upserted under its id, with what its name says |
| StateStore.ListedIsKnown | comfyui_runpod_agentic/state_store.py:137-167 | a listed pod with a printed name is recorded with its role, short node id, hash, pod id and reported status |
| StateStore.Store.ListResources | comfyui_runpod_agentic/state_store.py:220-222 | all rows, newest first |
| StateStore.Store.MarkResourceStatus | comfyui_runpod_agentic/state_store.py:240-242 | only the addressed row's status and time change |
| StateStore.Store.StartCommand | comfyui_runpod_agentic/state_store.py:169-179 | a running command row is added at the end |
| StateStore.Store.FinishCommand | comfyui_runpod_agentic/state_store.py:181-186 | exactly the started row gets its status and exit code |
| StateStore.Store.IncrementCounter | comfyui_runpod_agentic/state_store.py:195-208 | the counter goes up by one from its old value or zero |
| StateStore.UpsertFrame | comfyui_runpod_agentic/state_store.py:111-117 | an upsert keeps keys unique and rows in order of age, loses no row, keeps every row's owner, hash and age, and leaves other rows alone |
| StateStore.UpsertTwice | comfyui_runpod_agentic/state_store.py:87-90 | after two writes under one key, pod, status and time are those of the second; a known key leaves no trace of the first write, a new one keeps its owner, hash, name and age |
| Reuse.ReconciledExactly | comfyui_runpod_agentic/runner.py:497-501 | after a listing the ledger knows an id if and only if it did before or a listed pod with that id has a name that begins with crag- |
| Reuse.AcquireTraced | comfyui_runpod_agentic/runner.py:148-183 | whatever fails, a pod created is the pod returned, and the pod returned is the one the events name |
| Reuse.CreatesExactly | comfyui_runpod_agentic/runner.py:148-191 | a pod is asked for if and only if the template id is not a placeholder and no row matches or the matching pod answers and is neither live under reuse_matching nor stopped or exited under resume_stopped |
| Reuse.ExistingIsNewest | comfyui_runpod_agentic/runner.py:185-191 | the pod of a row is taken if and only if pods are not always to be created and it is the last row with the hash and a pod |
| Reuse.ResumesExactly | comfyui_runpod_agentic/runner.py:148-183 | a pod is asked to resume if and only if the template id is not a placeholder, the policy is resume_stopped, the pod is the matching one, answers, and is stopped or exited; the acquisition then fails if and only if that call is refused, and otherwise the pod has the status that call answered |
| Reuse.ReusesExactly | comfyui_runpod_agentic/runner.py:155-158 | a pod is taken as it is if and only if the policy is reuse_matching and the matching pod answers and is live |
| Reuse.AcquireEnds | comfyui_runpod_agentic/runner.py:148-183 | an acquisition without calls is that of a placeholder template and fails; any other fails if and only if its last call is refused; a created pod is the one answered, with the input asked for, and all events carry the run and the row |
| Reuse.SecondPodIsMade | comfyui_runpod_agentic/runner.py:148-183 | a live or terminated pod under resume_stopped, and one that is not live under reuse_matching, gets a second pod beside it |
| Reuse.GatherRecorded | comfyui_runpod_agentic/runner.py:85-94 | at every fault point, earlier rows are untouched and each attempted resource has one row of this run, with its role, node, name and hash, and with its pod and the status reported for it, or still without a pod if it is the one that failed |
| Reuse.GatherAwaits | comfyui_runpod_agentic/runner.py:92-94 | when the resource loop ends normally, every pod but those of agents has been waited for successfully |
| Reuse.NothingLost | comfyui_runpod_agentic/runner.py:85-94 | at every fault point, the rows of the run name exactly the pods created, reused or resumed, in order, and every pod created is among them |
| Reuse.CleanupReversesRunPods | comfyui_runpod_agentic/runner.py:482-495 | cleanup makes one call per row of the run with a pod, newest first, and nothing else: each a stop when the mode is stop_created, each a terminate when it is terminate_created |
| Steps.RetryCount | comfyui_runpod_agentic/runner.py:248-257 | without the policy retry a command is run once; with it, until the first exit code 0 or until it cannot be run at all, at most retry_count + 1 times; every run but the last ended with another code, and the outcome is that of the last |
| Steps.RunsAreUnique | comfyui_runpod_agentic/runner.py:248-257 | the number of runs is the only one that stops at the first success or when the attempts are used up |
| Steps.CommandsArePrefix | comfyui_runpod_agentic/runner.py:193-205 | under every sequence of outcomes the commands executed form a prefix of plan order without teardown; every step but the last is a command that ended with 0 or has the policy continue, a complete write, or a launch that ended with 0; the prefix is proper only if the last step raised, left files unwritten, or ended nonzero under the policy fail or retry |
| Steps.LaunchIsGated | comfyui_runpod_agentic/runner.py:193-223 | for every plan of the planner, the launch comes only after all files were written and every before_start command ended with 0 or ended under the policy continue |
| Steps.LaunchInLog | comfyui_runpod_agentic/runner.py:193-223 | told from the calls and their outcomes alone: before the launch stand all before_start commands of the plan in order, each run at least once and the last time ending with 0, or with any code under the policy continue, then all files, each written; anything after the launch means that it ended with 0 |
| Steps.LaunchLineTells | comfyui_runpod_agentic/runner.py:207-216 | a session whose log holds the launch line is one that launched, if no command is that line |
| Session.AgentSession.RunWithRetries | comfyui_runpod_agentic/runner.py:248-257 | the attempt loop makes the specified number of runs and records one retry event less |
| Session.AgentSession.RunSshCommandAction | comfyui_runpod_agentic/runner.py:235-266 | the ledger row goes from running to completed or failed with the last exit code, and stays running if the command could not be run; it returns normally if and only if the code is 0 or the policy is continue |
| Session.AgentSession.WriteRuntimeFiles | comfyui_runpod_agentic/runner.py:380-405 | files are written in order up to the first failure |
| Session.AgentSession.PerformStep | comfyui_runpod_agentic/runner.py:197-225 | what one action does to the world and the ledger, with at most one progress update |
| Session.AgentSession.RunAgentSshSteps | comfyui_runpod_agentic/runner.py:193-233 | the session is the specified walk over the plan's actions, call by call and row by row; it returns normally only if every command ended with 0 or under continue, all files were written and the launch ended with 0, and it waits for a response, successfully, only after a launch |
| Runner.RunpodRunner.MatchingExistingResource | comfyui_runpod_agentic/runner.py:185-191 | the newest row with the hash and a pod, unless pods are always to be created |
| Runner.RunpodRunner.ReuseOrCreatePod | comfyui_runpod_agentic/runner.py:148-183 | the calls, events and pod of the specified acquisition |
| Runner.RunpodRunner.GatherPods | comfyui_runpod_agentic/runner.py:85-94 | the resource loop leaves world and ledger where the specified gathering ends, at whatever call it fails |
| Runner.RunpodRunner.CleanupCreated | comfyui_runpod_agentic/runner.py:482-495 | every pod of the run is attempted whatever the calls answer: newest first, each stopped or each terminated as told |
| Runner.RunpodRunner.ReconcileManagedPods | comfyui_runpod_agentic/runner.py:497-501 | the ledger is upserted with every listed pod of a managed name |
| Runner.RunpodRunner.ScheduleTimeKeepAlive | comfyui_runpod_agentic/runner.py:331-339 | one call to schedule the end exactly for a time policy enforced by the server |
| Runner.RunpodRunner.EnforceResponseKeepAlive | comfyui_runpod_agentic/runner.py:308-329 | the counter goes up exactly for a response under a turns policy of the server, and the pod gets one call exactly when the turn limit, or the limit of the cost estimated from uptime and price, is reached: terminate if the action is to terminate, stop otherwise |
| Runner.RunpodRunner.WorkOnAgent | comfyui_runpod_agentic/runner.py:100-111 | schedule, endpoint, SSH, the walk, the response, the image, the keep-alive, in this order, and nothing after a failure |
| Runner.RunpodRunner.Apply | comfyui_runpod_agentic/runner.py:80-125 | at every fault point, the ledger is where the resource loop over the settled resources has taken it, its rows of the run name exactly the pods that the events call created, reused or resumed, every pod created is among them, no earlier row has changed, and SSH is used only for the walk over the plan and the image |
| Runner.RunpodRunner.VisitRow | comfyui_runpod_agentic/runner.py:455-480 | the agent's row gets all teardown commands in order and then one call, other rows only the call: terminate for a terminate run, stop for a stop run |
| Runner.RunpodRunner.Lifecycle | comfyui_runpod_agentic/runner.py:451-465 | a stop or terminate that ends normally is one visit per concerned row, newest first, marks exactly those rows, and holds only calls of its own kind |
| Runner.RunpodRunner.HandleFailure | comfyui_runpod_agentic/runner.py:73-77 | the run is recorded as failed; under leave_running nothing is called, under stop_created the pods of the run are stopped and under terminate_created terminated, newest first |
| Runner.RunpodRunner.Run | comfyui_runpod_agentic/runner.py:60-78 | no pod leaks: when an apply fails at any call, the pods that its events call created, reused or resumed, and no others, get a stop attempt under stop_created and a terminate attempt under terminate_created; a stop run never terminates and a terminate run never stops; the ledger has gone one step of a history; progress never exceeds the announced total; the recorded status fits the end, the new row carries the workflow, and no other run's row changes |
| Runner.BuiltIsAnnounced | comfyui_runpod_agentic/runner.py:348-352 | for any dependencies, commands and keep-alive policy, the announced total covers all updates of an apply |
| Runner.BuiltIsReady | comfyui_runpod_agentic/planner.py:82-176 | a plan of the planner meets what a run needs on any ledger its run id is new to |
| Progress.ComfyProgress.SetTotal | comfyui_runpod_agentic/nodes.py:1543-1546 | the total is at least one and counting starts again |
| Progress.ComfyProgress.Update | comfyui_runpod_agentic/nodes.py:1557-1558 | the bar shows the number of updates, but never more than the total |
| Visits.OneEndPerRow | comfyui_runpod_agentic/runner.py:455-464 | the trace of a stop holds exactly one lifecycle call per row dealt with, in the order of the rows: a stop of its pod, or a terminate of its pod |
| Visits.VisitTells | comfyui_runpod_agentic/runner.py:467-480 | told call by call: the agent's pod, if there are teardown commands, is looked up and reached over SSH, gets each command in order, the last run of each ending with 0 or under the policy continue, and then its one call; every other pod gets only that call |
| Visits.StopIsExact | comfyui_runpod_agentic/runner.py:451-465 | the rows dealt with are exactly those with a pod and a hash of the plan; a stop run stops and never terminates, a terminate run the reverse; each row dealt with is marked accordingly and no other row changes |
| Runner.StopRunIsExact | comfyui_runpod_agentic/runner.py:451-465 | told from the log and the ledger alone: a stop run makes one stop call, a terminate run one terminate call, for each row with a pod and a hash of the plan, and marks exactly these rows so |
| Runner.ImageCommandReads | comfyui_runpod_agentic/runner.py:297-298 | for every path, the shell reads a test of exactly that file and, only after it, the encoding of exactly that file |
| History.LoopKeepsSound | comfyui_runpod_agentic/runner.py:85-94 | every turn of the resource loop keeps the invariant that a row's pod was made for the row's hash, and each hash had one pod made |
| History.ReconciledSound | comfyui_runpod_agentic/state_store.py:137-167 | recording a truthful listing keeps that invariant, because the parsed hash is the printed one |
| History.SamePodEveryTime | comfyui_runpod_agentic/runner.py:148-191 | over any number of runs of any deployments, of which those with a watched hash reuse matching live pods, resources with equal watched hashes get the same pod in every run |
| History.CreatedOnce | comfyui_runpod_agentic/runner.py:148-191 | over the same histories nothing is created twice for one watched hash, and all rows with one such hash and a pod carry one pod id |
| History.DeploymentKeepsPods | comfyui_runpod_agentic/runner.py:127-191 | two runs of one deployment, going through its resources with their volumes settled, get the same pod for the same resource, whatever lies between them |
| History.SettledPlanIsProper | comfyui_runpod_agentic/runner.py:127-146 | settling the volumes of a plan keeps the names by which its pods are known |
| History.MadeAreCreated | comfyui_runpod_agentic/runner.py:85-94 | the pods that a step of a history makes are those that the calls of the resource loop create, in order |
| History.StartsSound | comfyui_runpod_agentic/state_store.py:137-167 | the empty ledger is sound, so a history can start from it |
| History.BuiltIsProper | comfyui_runpod_agentic/planner.py:93-94 | the name under which the planner creates a pod parses back to the resource's desired hash |
| LocalEngine.ApplyConverges | comfyui_runpod_agentic/local_runtime.py:561-644 | after an apply that returns 0 every service runs with its role and hash, on every path; on the resume path if and only if each service had a fitting container that ran or belonged to the project |
| LocalEngine.ApplyOwns | comfyui_runpod_agentic/local_runtime.py:561-644 | after an apply that returns 0 the services run in containers of the project always after `up`, and on the other paths if and only if the containers it found belonged to it |
| LocalEngine.SeparateConverges | comfyui_runpod_agentic/local_runtime.py:962-975 | with names kept apart both hold on every path |
| LocalEngine.ForeignIsReused | comfyui_runpod_agentic/local_runtime.py:962-975 | an apply returns 0 on a container of a project whose name extends its name and makes none of its own |
| LocalEngine.ForeignIsNotStarted | comfyui_runpod_agentic/local_runtime.py:582-596 | an apply under resume_stopped returns 0 although a service whose container belongs to such a project does not run |
| LocalEngine.NothingStaleStays | comfyui_runpod_agentic/local_runtime.py:647-659 | an outdated project that is applied successfully and not resumed holds exactly the plan's containers, whatever other projects there are |
| LocalEngine.ApplyIssues | comfyui_runpod_agentic/local_runtime.py:561-644 | for every outcome of an apply: the commands issued, path by path (exec when reused; start and exec when resumed; down if outdated, up, and watching if asked for when brought up), and the code is 0 if and only if each of them answered 0 |
| LocalEngine.ApplyTakes | comfyui_runpod_agentic/local_runtime.py:561-659 | with a working `ps`, reused if and only if converged and not always_create; start is tried first if all containers exist under resume_stopped; otherwise down comes before up if and only if containers are outdated |
| LocalEngine.ConvergedIsReused | comfyui_runpod_agentic/local_runtime.py:575-580 | a converged project is reused without a compose command or any change |
| LocalRuntime.LocalRuntimeClient.FindContainer | comfyui_runpod_agentic/local_runtime.py:962-975 | a container is found exactly when `ps` works and one of the project's name prefix has the role and hash |
| LocalRuntime.LocalRuntimeClient.FindAllContainers | comfyui_runpod_agentic/local_runtime.py:713-718 | the lookups stop at the first resource that is not found |
| LocalRuntime.LocalRuntimeClient.ReconcileStale | comfyui_runpod_agentic/local_runtime.py:647-659 | the project is taken down exactly when containers are listed and some resource is not found running |
| LocalRuntime.LocalRuntimeClient.ApplyLocalRuntimePlan | comfyui_runpod_agentic/local_runtime.py:561-644 | the imperative reconciler takes the specified path, call by call, with the specified end state |
| LocalRuntime.NewPromptReuses | comfyui_runpod_agentic/local_runtime.py:575-580 | a second apply of a deployment with a new prompt reuses the containers and issues no compose command |
| LocalRuntime.ProjectServices | comfyui_runpod_agentic/local_runtime.py:101-142 | the services of a plan have the roles and local hashes of its resources, pairwise different names, and the agent last |

## Left out

- Runner.RunpodRunner.Run: building the plan, validation, tokens generated at apply time and the result dictionary are
  not part of the method; it starts from a plan, the site data and what the response was like.
- Runner.RunpodRunner.WorkOnAgent: the texts of responses and errors and the local copy of an image file are not
  modelled; uptime and price of the pod enter as numbers.
- Waiting loops (dependency readiness, SSH endpoint, SSH readiness, agent response) are single calls that succeed or
  raise; their polling, clocks and events are not modelled.
- Session.AgentSession.WriteRuntimeFiles: the parent directory that is made before each file is part of the write.
- The content of a pod's public endpoint, SSH endpoint selection, HTTP probes and terminal URLs.
- Planner.BuildActions: details carried by actions other than the command, such as template ids, and the command hash
  added to contract commands.
- Planner.PlanResources: disk, GPU and CPU hints, the internal sshd command and the stop or terminate time of pod
  inputs; specifications enter as canonical text whose hash is a parameter.
- Contract commands of the teardown phase are never planned by the code; the model keeps that.
- StateStore.Store.ListResources: ties of creation times, which would leave the order open.
- Cost columns, template columns, the pod environment of listings and event payloads other than the pod id.
- Shell.DocumentExact: the reader knows quoted here-documents, words, operators, comments and simple commands;
  `$(...)` is ordinary text to it, and expansions and other compound commands are not read.
- SshClient.ProxyWriteRoundTrip: that the remote side ends at `exit` is taken as a command read; the terminal's own
  line handling is not modelled.
- `shlex.quote`, JSON and YAML: library quoting; the local script lines are modelled before quoting, and JSON bodies
  enter the startup script as text.
- The template of the local run script is not part of this model; only that it holds the before commands, the launch
  and the after commands in that order.
- LocalHash.TransientInputsIgnored: default images, the printed launch command, port parsing and secret files are
  functions given as parameters.
- LocalRuntime.LocalRuntimeClient.ApplyLocalRuntimePlan: the actions save_only, plan, stop and terminate, writing the
  runtime files, and retention volumes.
- PlaceholderResults.LocalEqualsRemote: SQL values, which the two sides render differently on purpose.
- Secret redaction, authentication headers, the HTTP clients, node widgets and the proxies.
