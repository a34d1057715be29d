# Hetzner node provisioning, modelled in Dafny

This project models the Hetzner Cloud provider of hetzner-kube. That provider creates a Kubernetes cluster's servers: etcd, master and worker nodes. Its core is `CreateNodes`, which provisions nodes `1..count`.

For each node `i`, `CreateNodes`:
- builds the name `<cluster>-<suffix>-NN` from the number `i + offset`;
- picks the datacenter round-robin as `datacenters[i % len(datacenters)]`;
- creates the server or fetches it, via `runCreateServer`;
- gives the node a private address `10.0.1.<block>`, whose block depends on the role;
- appends the node to the provider's list.

`runCreateServer` works as follows:
- It first looks the name up. An existing server is reused without being created.
- Otherwise it creates the server.
- If the cloud rejects the create because the name is taken (`uniqueness_error`), it fetches the existing server instead.
- Any other rejection is returned as an error.
- After a fresh create, it waits for the creation action (`actionProgress`). Only when that action ends without an error does it set the provider's `wait` flag.

Around `CreateNodes` sit three role wrappers and the read side of the provider:
- The wrappers are `CreateEtcdNodes`, `CreateMasterNodes` and `CreateWorkerNodes`.
- The read side is the node list, the master/etcd/worker views, the first master, the cluster snapshot and `MustWait`.

Modules:
- `Results` (`results.dfy`): `Option` and `Result`.
- `Types` (`types.dfy`): `Template`, `Node`, `Server`, `Error`, `Provider` and `Cluster`.
- `GoFormat` (`goformat.dfy`): Go's `%.02d` and `%d` on integers, with their parse-back round trips. It also has `strings.Replace(s, old, new, 1)` (first occurrence only) with its specification.
- `Cloud` (`cloud.dfy`): the cloud as an oracle record `Api`, and the cloud state. That state is the servers by name plus a log of every request sent. The module also holds `runCreateServer` and `actionProgress`.
- `Provision` (`provision.dfy`): names, private addresses, placement, the node loop and `CreateNodes`. The loop's `Plan` carries the name and address renderers as function values, so the loop lemmas hold for any renderer. `PlanFor` fills in the two Go formats used by `CreateNodes`.
- `Queries` (`queries.dfy`): `GetAllNodes`, `SetNodes`, the role views, `GetMasterNode`, `GetCluster` and `MustWait`.
- `Roles` (`roles.dfy`): the three wrappers and what each batch does to the views, the snapshot and the wait flag.
- `Scenarios` (`scenarios.dfy`): concrete runs on any reliable cloud.

The provider is a value: `Provider(clusterName, nodes, wait)`. Every operation that talks to the cloud returns an `Outcome(provider, cloud, result)`. The call log makes statements observable, such as "no create request was sent" and "no action was awaited".

The loop counts from 1 and indexes `datacenters[i % len]`, so with two datacenters node 1 goes to the second; `Scenarios.TwoMastersPlacement` proves this.

## Model

| member | source | states |
|---|---|---|
| GoFormat.FormatPrecision2 | pkg/hetzner/hetzner_provider.go:74 | Go's `%.02d`; its contract is carried by `FormatPrecision2RoundTrip`, `FormatPrecision2Injective` and `FormatPrecision2Width` |
| GoFormat.FormatDecimal | pkg/hetzner/hetzner_provider.go:97 | Go's `%d`; its contract is carried by `FormatDecimalRoundTrip` and `FormatDecimalInjective` |
| GoFormat.ReplaceFirst | pkg/hetzner/hetzner_provider.go:74 | Go's `strings.Replace(s, old, new, 1)`; its contract is carried by `ReplaceFirstSpec` and `ReplaceFirstAt` |
| GoFormat.FormatPrecision2RoundTrip | pkg/hetzner/hetzner_provider.go:74 | parsing the `%.02d` text of any integer, sign included, gives the integer back |
| GoFormat.FormatPrecision2Injective | pkg/hetzner/hetzner_provider.go:74 | two node numbers get the same `%.02d` text exactly when they are equal |
| GoFormat.FormatPrecision2Width | pkg/hetzner/hetzner_provider.go:74 | below 10 the text is `0` and the digit; from 10 on it is the plain decimal; it has two characters exactly below 100, so it is never truncated |
| GoFormat.FormatDecimalRoundTrip | pkg/hetzner/hetzner_provider.go:97 | parsing the `%d` text of any integer gives the integer back |
| GoFormat.FormatDecimalInjective | pkg/hetzner/hetzner_provider.go:97 | two address blocks print the same exactly when they are equal |
| GoFormat.ReplaceFirstSpec | pkg/hetzner/hetzner_provider.go:74 | replacing with count 1 leaves a text without the pattern unchanged; otherwise it replaces exactly the first occurrence |
| GoFormat.ReplaceFirstAt | pkg/hetzner/hetzner_provider.go:74 | when the first occurrence is at `p`, the result is the text before `p`, the replacement, then the text after the occurrence |
| Provision.ServerNameShape | pkg/hetzner/hetzner_provider.go:73-74 | when neither the cluster name nor the suffix contains `@idx`, the name is `<cluster>-<suffix>-` followed by the `%.02d` text of the node number |
| Provision.ServerNameInjective | pkg/hetzner/hetzner_provider.go:73-74 | under the same condition, two node numbers of a role get the same name exactly when they are equal |
| Provision.PrivateBlock | pkg/hetzner/hetzner_provider.go:90-96 | the last address block is the node number for an etcd node (master or not), the number + 10 for a master without etcd, and the number + 20 for a worker |
| Provision.PrivateIpInjective | pkg/hetzner/hetzner_provider.go:90-97 | two private addresses are equal exactly when their last blocks are equal |
| Provision.PrivateIpCollision | pkg/hetzner/hetzner_provider.go:90-97 | two private addresses coincide exactly when the node number plus 0, 10 or 20 for the role (etcd, master-only, worker) coincide |
| Provision.PartitionsDisjointUpToTen | pkg/hetzner/hetzner_provider.go:90-97 | nodes numbered 1..10 of different roles never share a private address |
| Provision.PartitionsOverlapPastTen | pkg/hetzner/hetzner_provider.go:90-97 | from number 11 on the role blocks meet, since nothing bounds the number: etcd node n+10 and master-only node n share an address, as do master-only node n+10 and worker node n, and etcd node n+20 and worker node n |
| Provision.ServerName | pkg/hetzner/hetzner_provider.go:46-74 | the name of node number `n`: the first `@idx` of `<cluster>-<suffix>-@idx` replaced by `%.02d` of `n`; its contract is carried by `ServerNameShape` and `ServerNameInjective` |
| Provision.PrivateIp | pkg/hetzner/hetzner_provider.go:90-97 | `10.0.1.` followed by `%d` of the role's block; its contract is carried by `PrivateBlock`, `PrivateIpInjective` and `PrivateIpCollision` |
| Provision.Loop | pkg/hetzner/hetzner_provider.go:70-112 | the node loop from index `i` on; its contract is carried by the `Loop*` lemmas below |
| Provision.LoopAppends | pkg/hetzner/hetzner_provider.go:70-112 | from index `i`, the loop only appends to the node list and keeps the cluster name; a full run appends one node per remaining index; an error stops it short |
| Provision.LoopOrder | pkg/hetzner/hetzner_provider.go:99-109 | the appended nodes are the plan's nodes `i, i+1, …` in order; each carries the template's type, flags and key, and the name and private address of its number |
| Provision.LoopReturnsAdded | pkg/hetzner/hetzner_provider.go:108-112 | on success the returned batch is the earlier batch followed by exactly the nodes appended to the provider's list |
| Provision.LoopServers | pkg/hetzner/hetzner_provider.go:80-86 | servers are never removed; every appended node's name is held by the cloud, and the node's public address is that server's |
| Provision.LoopWait | pkg/hetzner/hetzner_provider.go:80-84 | the call log only grows; afterwards the flag is set exactly when it was set before or some creation action awaited by the loop ended without error |
| Provision.LoopRequests | pkg/hetzner/hetzner_provider.go:70-80 | every create request the loop sends is the request of some index still ahead of it |
| Provision.LoopStopsAtFailure | pkg/hetzner/hetzner_provider.go:70-84 | on failure, node `j = i + appended` is within the plan; every request the loop sent is about one of nodes `i..j`; the returned error, cloud and flag are exactly those of node `j`'s create-or-fetch from the state the loop had reached, whose flag is the starting flag or'ed with whether an earlier awaited action succeeded |
| Provision.LoopAllExisting | pkg/hetzner/hetzner_provider.go:250-253 | when all remaining names exist and look up without error, the loop: succeeds; changes neither the servers nor the flag; sends no create and awaits no action; takes each node's address from the existing server |
| Provision.LoopSucceeds | pkg/hetzner/hetzner_provider.go:70-112 | on a reliable cloud the loop always runs to the end |
| Provision.CreateNodesBatch | pkg/hetzner/hetzner_provider.go:39-113 | a success returns `max(count, 0)` nodes, the plan's nodes 1..count in order, and the list becomes old nodes + batch; a failure keeps the nodes already appended and appends fewer than `count`; a failed SSH-key lookup changes nothing and returns its error |
| Provision.CreateNodes | pkg/hetzner/hetzner_provider.go:39-113 | the SSH-key lookup followed by the loop over 1..count; its contract is carried by `CreateNodesBatch`, `CreateNodesStopsAtFailure` and the other `CreateNodes*` lemmas |
| Provision.CreateNodesStopsAtFailure | pkg/hetzner/hetzner_provider.go:70-84 | a failing node ends the call with its own error: with `j` the first node not appended, `1 <= j <= count`; after the key lookup every request is about nodes 1..j; the error, cloud and flag are those of node `j`'s create-or-fetch, for name `j + offset` in `datacenters[j % len]`, started with the old flag or'ed with whether an earlier awaited action succeeded |
| Provision.CreateNodesWait | pkg/hetzner/hetzner_provider.go:70-84 | after the call the flag is set exactly when it was set before or a creation awaited during the call succeeded |
| Provision.CreateNodesPlacement | pkg/hetzner/hetzner_provider.go:67-77 | each create request is for some `i` in 1..count; it asks for datacenter `datacenters[i % len]` (i, not i + offset), the name of number `i + offset`, and the template's server type |
| Provision.CreateNodesAddresses | pkg/hetzner/hetzner_provider.go:80-104 | servers are kept; every node the call adds has the public address of the server the cloud holds under its name |
| Provision.BatchServersExist | pkg/hetzner/hetzner_provider.go:80-109 | after a successful call the cloud holds a server under every name of the batch, and each name looks up without error |
| Provision.CreateNodesRerun | pkg/hetzner/hetzner_provider.go:223-253 | re-running a successful call on the cloud it left: returns the same nodes; sends no create and awaits nothing; keeps the flag and the servers; appends the same batch once more |
| Provision.CreateNodesSucceeds | pkg/hetzner/hetzner_provider.go:39-113 | when the SSH key is found on a reliable cloud, the call succeeds |
| Cloud.ActionProgress | pkg/hetzner/hetzner_provider.go:256-282 | the result is the error value of the action's first terminal event, whatever progress events came before; every terminal event that follows only progress events carries that same value |
| Cloud.ActionProgressIgnoresLaterEvents | pkg/hetzner/hetzner_provider.go:256-282 | events after the terminal one change nothing |
| Cloud.RunCreateServer | pkg/hetzner/hetzner_provider.go:220-254 | lookup, reuse, create, conflict fetch and awaited action; its contract is carried by the `CreateOrFetch*` lemmas and one lemma per path below |
| Cloud.CreateOrFetchSubject | pkg/hetzner/hetzner_provider.go:220-254 | every request a create-or-fetch sends is about the requested server name |
| Cloud.CreateOrFetchCalls | pkg/hetzner/hetzner_provider.go:220-254 | the log only grows; the first request is the lookup by name; any create request carries the given options; at most one action is awaited |
| Cloud.CreateOrFetchServers | pkg/hetzner/hetzner_provider.go:220-254 | no server is removed; at most the requested name is added; a success returns the server now held under the name, and happens only when the lookup did not fail |
| Cloud.CreateOrFetchWait | pkg/hetzner/hetzner_provider.go:243-249 | the flag afterwards is the flag before, or whether an action this call awaited ended without error |
| Cloud.ExistingServerReused | pkg/hetzner/hetzner_provider.go:250-253 | an existing name is reused: nothing is created or awaited; servers and flag are unchanged; when the lookup does not fail, the existing server is returned |
| Cloud.LookupErrorPropagates | pkg/hetzner/hetzner_provider.go:223-226 | a failed lookup is returned as is, before any create |
| Cloud.ConflictFallsBackToFetch | pkg/hetzner/hetzner_provider.go:228-238 | a create rejected with `uniqueness_error` is followed by a fetch by name; its answer is returned; no action is awaited; the flag is unchanged |
| Cloud.OtherRejectionPropagates | pkg/hetzner/hetzner_provider.go:229-241 | any other rejection is returned as the cloud's error; servers and flag are unchanged and the log ends with the lookup and the create, so no fetch or awaited action follows |
| Cloud.FreshCreateAwaitsAction | pkg/hetzner/hetzner_provider.go:243-249 | after a fresh create, a successful action sets the flag and returns the server; a failed action returns its error and leaves the flag unchanged |
| Cloud.ConflictMatchesCleanCreate | pkg/hetzner/hetzner_provider.go:228-249 | losing the naming race ends with the same server and the same servers as a clean create; but no request of the racing call awaits an action, and the flag is not set |
| Cloud.ReliableStepSucceeds | pkg/hetzner/hetzner_provider.go:220-254 | the four error paths are the only ones: on a reliable cloud every create-or-fetch succeeds |
| Queries.NewProvider | pkg/hetzner/hetzner_provider.go:28-31 | a new provider has the cluster's name, no nodes and the flag clear |
| Queries.GetAllNodes | pkg/hetzner/hetzner_provider.go:137-140 | the accumulated node list; its contract is carried by `SetNodes`, `SetNodesRoundTrip` and `GetCluster` |
| Queries.SetNodes | pkg/hetzner/hetzner_provider.go:143-145 | setting the nodes replaces the list read by `GetAllNodes` and keeps name and flag |
| Queries.SetNodesRoundTrip | pkg/hetzner/hetzner_provider.go:137-145 | what is set is read back; setting what was read changes nothing; the last of two sets wins |
| Queries.Filter | pkg/hetzner/hetzner_provider.go:148-182 | reference definition of a role view: a node is in it exactly when it is in the list and has the role |
| Queries.FilterConcat | pkg/hetzner/hetzner_provider.go:148-157 | the view of a list followed by a batch is the list's view followed by the batch's view |
| Queries.FilterKeepsOrder | pkg/hetzner/hetzner_provider.go:148-157 | the view's nodes appear in the list at strictly increasing positions |
| Queries.FilterAll | pkg/hetzner/hetzner_provider.go:148-157 | a batch whose nodes all have the role is its own view |
| Queries.FilterNone | pkg/hetzner/hetzner_provider.go:148-157 | a batch with no node of the role has an empty view |
| Queries.WorkerPartition | pkg/hetzner/hetzner_provider.go:173-182 | a node of the list is a worker exactly when it is neither in the master view nor in the etcd view |
| Queries.SelectNodes | pkg/hetzner/hetzner_provider.go:148-157 | the one-pass append loop computes the role view |
| Queries.GetMasterNodes | pkg/hetzner/hetzner_provider.go:148-157 | the result is the master view: exactly the list's masters, in list order |
| Queries.GetEtcdNodes | pkg/hetzner/hetzner_provider.go:160-170 | the result is exactly the list's etcd nodes, in list order |
| Queries.GetWorkerNodes | pkg/hetzner/hetzner_provider.go:173-182 | the result is exactly the list's nodes with neither flag, in list order |
| Queries.GetMasterNode | pkg/hetzner/hetzner_provider.go:185-193 | succeeds exactly when some node is a master and then returns the first master; otherwise fails with the no-master error |
| Queries.MasterNodeIsFirstOfView | pkg/hetzner/hetzner_provider.go:185-193 | the first master is the head of the master view, and there is none when the view is empty |
| Queries.GetCluster | pkg/hetzner/hetzner_provider.go:196-202 | the snapshot carries the provider's cluster name and the list `GetAllNodes` returns |
| Queries.ClusterAfterSetNodes | pkg/hetzner/hetzner_provider.go:196-202 | a snapshot after `SetNodes` lists exactly the nodes set, under the unchanged name |
| Roles.CreateEtcdNodes | pkg/hetzner/hetzner_provider.go:116-120 | `CreateNodes` with suffix `etcd`, an etcd-only template and offset 0, returning only the error; its contract is carried by `EtcdNodesCreated` and `ViewsAfterEtcdBatch` |
| Roles.CreateMasterNodes | pkg/hetzner/hetzner_provider.go:123-127 | `CreateNodes` with suffix `master`, a master template that is etcd when asked and offset 0, returning only the error; its contract is carried by `MasterNodesCreated` and `ViewsAfterMasterBatch` |
| Roles.CreateWorkerNodes | pkg/hetzner/hetzner_provider.go:130-134 | `CreateNodes` with suffix `worker`, a template with neither flag and the given offset; its contract is carried by `WorkerNodesCreated`, `ViewsAfterWorkerBatch` and `WorkerScaleOut` |
| Roles.ErrorOnly | pkg/hetzner/hetzner_provider.go:116-127 | the etcd and master wrappers keep provider and cloud and report success or the batch's error |
| Roles.RoleNameShape | pkg/hetzner/hetzner_provider.go:46 | with a cluster name free of `@idx`, the role suffixes give names `<cluster>-<role>-NN` |
| Roles.BatchOfRole | pkg/hetzner/hetzner_provider.go:99-107 | each added node carries the template's flags, type and key, and the name and private address of its number |
| Roles.EtcdNodesCreated | pkg/hetzner/hetzner_provider.go:116-120 | etcd nodes are etcd and not master; they are named `etcd` 1..count with addresses 10.0.1.n; a success appends `count` of them; a failure is the batch's error |
| Roles.MasterNodesCreated | pkg/hetzner/hetzner_provider.go:123-127 | master nodes are masters and etcd members exactly when asked; they are named `master` 1..count; their address is 10.0.1.n when etcd and 10.0.1.(n+10) otherwise |
| Roles.WorkerNodesCreated | pkg/hetzner/hetzner_provider.go:130-134 | worker nodes have neither flag; they are numbered from `offset + 1` with addresses 10.0.1.(n+20); a success returns exactly the nodes appended |
| Roles.ViewsAfterWorkerBatch | pkg/hetzner/hetzner_provider.go:130-134 | a worker batch extends the worker view by the nodes appended and leaves the master and etcd views alone |
| Roles.ViewsAfterMasterBatch | pkg/hetzner/hetzner_provider.go:123-127 | a master batch extends the master view; it extends the etcd view exactly when `isEtcd`; the worker view is unchanged |
| Roles.ViewsAfterEtcdBatch | pkg/hetzner/hetzner_provider.go:116-120 | an etcd batch extends the etcd view and leaves the master and worker views alone |
| Roles.FirstMasterAfterMasterBatch | pkg/hetzner/hetzner_provider.go:185-193 | on a provider without masters, the first node of a master batch, `master` number 1, becomes the master node; with no node appended there is still none |
| Roles.ClusterAfterBatch | pkg/hetzner/hetzner_provider.go:196-202 | after a batch the snapshot lists the old nodes followed by the appended ones, which on success are the batch |
| Queries.MustWait | pkg/hetzner/hetzner_provider.go:211-213 | the provider's wait flag; its contract is carried by `CreateNodesWait` and `MustWaitAfterBatch` |
| Roles.MustWaitAfterBatch | pkg/hetzner/hetzner_provider.go:211-213 | `MustWait` after a batch holds exactly when it held before or an awaited creation succeeded; a batch never clears it |
| Roles.WorkerScaleOut | pkg/hetzner/hetzner_provider.go:130-134 | `count` workers at offset 0 then `more` at offset `count` number the workers 1..count+more consecutively, with addresses from 21 up |
| Scenarios.FormatExamples | pkg/hetzner/hetzner_provider.go:74 | `%.02d` gives 1 as "01", 10 as "10", 100 as "100" and -3 as "-03" |
| Scenarios.ClusterKName | pkg/hetzner/hetzner_provider.go:46 | cluster `k`'s nodes are named `k-<role>-NN` |
| Scenarios.TwoMastersScenario | pkg/hetzner/hetzner_provider.go:123-127 | two masters for cluster `k`: `k-master-01` at 10.0.1.11 and `k-master-02` at 10.0.1.12, the first being the master node |
| Scenarios.TwoMastersPlacement | pkg/hetzner/hetzner_provider.go:75-77 | over fsn1 and nbg1, master 01 is requested in nbg1 and master 02 in fsn1 |
| Scenarios.WorkerScaleOutScenario | pkg/hetzner/hetzner_provider.go:130-134 | scaling from two workers to four creates `k-worker-03` and `k-worker-04`; worker 04 is at 10.0.1.24 |

## Left out

- The hcloud client is an oracle record `Api`. Its lookup, create, fetch and SSH-key answers are parameters, so the model says nothing about how the cloud computes them.
- The SSH key itself is not modelled: only whether its lookup failed. The create request carries the key's name in place of the `*hcloud.SSHKey` Go attaches. A key the cloud does not know comes back without an error in Go, so only the create outcome the `Api` gives can reflect it.
- An action that never ends is not modelled. `ActionTrace` requires a terminal event, while Go's `actionProgress` has no timeout and blocks forever on an action whose error channel never delivers.
- The server image, `ubuntu-16.04`, is left out, and so is the cloud-init file. The file is read from disk; when that read fails, the user data is silently dropped. Neither affects names, placement, addresses or the node list.
- `actionProgress` is modelled only as returning the error value of the action's terminal event. The progress bar, the terminal check, the channels and `waitAction` are left out; `waitAction` is not part of this model.
- Logging, the request context, `Token`, `NewHetznerProvider`'s client and token, `SetCloudInitFile` and `GetAdditionalMasterInstallCommands` are left out. They have no bearing on the modelled behaviour.
- Two Go runtime failures are left out:
  - The type assertion `err.(hcloud.Error)` panics on an error that is not an `hcloud.Error`. The model treats every create error as one that carries a code.
  - The conflict fetch can return no server without an error, after which the node's address dereferences nil. The model's fetch returns a server or an error.
- Provision.CreateNodesBatch: a failed Go call returns a nil node slice. The model returns the error alone, which carries the same information.
- Provision.Loop: Go's `int` is 64-bit. The node number `i + offset` is an unbounded integer here, so wrap-around is not modelled.
- Placement indexes `datacenters[i % len]`, which panics in Go when the list is empty and `count >= 1`. `CreateNodes` therefore requires `count <= 0 || |datacenters| > 0`.
- Provision.LoopServers: the public address is opaque text taken from the server. Formatting `net.IP` as text is not modelled.
- Concurrency is left out: the provider is used from one goroutine, and the cloud's own concurrency shows only as the naming-conflict outcome.
