/** `CreateNodes`: turn a template, a count and an index offset into
    addressed nodes, one create-or-fetch at a time, appending each node to
    the provider's accumulated list. */
module Provision {
  import opened Results
  import opened Types
  import opened GoFormat
  import opened Cloud

  /** The placeholder in the server-name template. */
  const IndexMarker: string := "@idx"

  /** `"<cluster>-<suffix>-@idx"`. */
  function NameTemplate(clusterName: string, suffix: string): string {
    clusterName + "-" + suffix + "-" + IndexMarker
  }

  /** The server name of node number `n`: the first marker of the template
      replaced by `n` padded to two digits. */
  function ServerName(clusterName: string, suffix: string, n: int): string {
    ReplaceFirst(NameTemplate(clusterName, suffix), IndexMarker, FormatPrecision2(n))
  }

  /** When neither the cluster name nor the suffix holds the marker, the only
      occurrence is the trailing one, so the name is the plain concatenation. */
  lemma ServerNameShape(clusterName: string, suffix: string, n: int)
    requires !Contains(clusterName, IndexMarker) && !Contains(suffix, IndexMarker)
    ensures ServerName(clusterName, suffix, n)
      == clusterName + "-" + suffix + "-" + FormatPrecision2(n)
  {
    var prefix := clusterName + "-" + suffix + "-";
    var s := NameTemplate(clusterName, suffix);
    assert s == prefix + IndexMarker;
    var p := |prefix|;
    assert s[p..p + 4] == IndexMarker;
    forall q | 0 <= q < p
      ensures !OccursAt(s, IndexMarker, q)
    {
      NoMarkerBefore(clusterName, suffix, q);
    }
    ReplaceFirstAt(s, IndexMarker, FormatPrecision2(n), p);
    assert s[..p] == prefix;
    assert s[p + 4..] == [];
  }

  lemma NoMarkerBefore(clusterName: string, suffix: string, q: int)
    requires !Contains(clusterName, IndexMarker) && !Contains(suffix, IndexMarker)
    requires 0 <= q < |clusterName| + |suffix| + 2
    ensures !OccursAt(NameTemplate(clusterName, suffix), IndexMarker, q)
  {
    var s := NameTemplate(clusterName, suffix);
    var a := |clusterName|;
    var b := a + 1 + |suffix|;
    assert s[a] == '-' && s[b] == '-';
    if OccursAt(s, IndexMarker, q) {
      var w := s[q..q + 4];
      assert w == IndexMarker;
      if q + 4 <= a {
        assert clusterName[q..q + 4] == w;
        assert OccursAt(clusterName, IndexMarker, q);
        assert false;
      } else if q <= a {
        assert false;
      } else if q + 4 <= b {
        assert suffix[q - a - 1..q - a + 3] == w;
        assert OccursAt(suffix, IndexMarker, q - a - 1);
        assert false;
      } else {
        assert false;
      }
    }
  }

  /** Node numbers of one batch give pairwise distinct server names. */
  lemma ServerNameInjective(clusterName: string, suffix: string, m: int, n: int)
    requires !Contains(clusterName, IndexMarker) && !Contains(suffix, IndexMarker)
    ensures ServerName(clusterName, suffix, m) == ServerName(clusterName, suffix, n) <==> m == n
  {
    ServerNameShape(clusterName, suffix, m);
    ServerNameShape(clusterName, suffix, n);
    var prefix := clusterName + "-" + suffix + "-";
    if ServerName(clusterName, suffix, m) == ServerName(clusterName, suffix, n) {
      assert (prefix + FormatPrecision2(m))[|prefix|..] == FormatPrecision2(m);
      assert (prefix + FormatPrecision2(n))[|prefix|..] == FormatPrecision2(n);
      FormatPrecision2Injective(m, n);
    }
  }

  /** The last block of the private address: the node number, shifted by 10
      unless the template is etcd, and by 10 more unless it is also master. */
  function PrivateBlock(t: Template, n: int): (b: int)
    ensures t.isEtcd ==> b == n
    ensures !t.isEtcd && t.isMaster ==> b == n + 10
    ensures !t.isEtcd && !t.isMaster ==> b == n + 20
  {
    var shift := if !t.isEtcd then 10 + (if !t.isMaster then 10 else 0) else 0;
    n + shift
  }

  function PrivateIp(t: Template, n: int): string {
    "10.0.1." + FormatDecimal(PrivateBlock(t, n))
  }

  /** Two private addresses agree exactly when their last blocks agree. */
  lemma PrivateIpInjective(t1: Template, n1: int, t2: Template, n2: int)
    ensures PrivateIp(t1, n1) == PrivateIp(t2, n2) <==> PrivateBlock(t1, n1) == PrivateBlock(t2, n2)
  {
    var a := FormatDecimal(PrivateBlock(t1, n1));
    var b := FormatDecimal(PrivateBlock(t2, n2));
    if PrivateIp(t1, n1) == PrivateIp(t2, n2) {
      assert ("10.0.1." + a)[7..] == a;
      assert ("10.0.1." + b)[7..] == b;
    }
    FormatDecimalInjective(PrivateBlock(t1, n1), PrivateBlock(t2, n2));
  }

  /** The address partition a template falls into: etcd (also for a master
      that is etcd), master, or worker. */
  function Partition(t: Template): nat {
    if t.isEtcd then 0 else if t.isMaster then 1 else 2
  }

  /** The blocks of the three partitions are shifted by 0, 10 and 20, so two
      private addresses coincide exactly when the node number plus ten times
      the partition coincide. */
  lemma PrivateIpCollision(t1: Template, n1: int, t2: Template, n2: int)
    ensures PrivateIp(t1, n1) == PrivateIp(t2, n2) <==> n1 + 10 * Partition(t1) == n2 + 10 * Partition(t2)
  {
    PrivateIpInjective(t1, n1, t2, n2);
  }

  /** For node numbers 1 to 10 the three partitions do not share an address. */
  lemma PartitionsDisjointUpToTen(t1: Template, n1: int, t2: Template, n2: int)
    requires 1 <= n1 <= 10 && 1 <= n2 <= 10
    requires Partition(t1) != Partition(t2)
    ensures PrivateIp(t1, n1) != PrivateIp(t2, n2)
  {
    PrivateIpCollision(t1, n1, t2, n2);
  }

  /** There is no bound check: from number 11 on, a partition runs into the
      next one. Etcd node `n + 10` shares its address with master-only node
      `n`, master-only node `n + 10` with worker node `n`, and etcd node
      `n + 20` with worker node `n`. */
  lemma PartitionsOverlapPastTen(etcd: Template, master: Template, worker: Template, n: int)
    requires Partition(etcd) == 0 && Partition(master) == 1 && Partition(worker) == 2
    ensures PrivateIp(etcd, n + 10) == PrivateIp(master, n)
    ensures PrivateIp(master, n + 10) == PrivateIp(worker, n)
    ensures PrivateIp(etcd, n + 20) == PrivateIp(worker, n)
  {
  }

  /** The parameters of one `CreateNodes` call; `name` and `address`
      render the server name and the private address of a node number. */
  datatype Plan = Plan(
    name: int -> string,
    address: int -> string,
    template: Template,
    datacenters: seq<string>,
    count: int,
    offset: int)

  /** The plan of a `CreateNodes` call for `clusterName`: node `n` is named
      `<cluster>-<suffix>-` with `@idx` replaced by the number, and its
      private address is the one of its number for the template's role. */
  function PlanFor(
    clusterName: string, suffix: string, template: Template, datacenters: seq<string>, count: int, offset: int)
    : (plan: Plan)
    ensures forall n :: plan.name(n) == ServerName(clusterName, suffix, n)
    ensures forall n :: plan.address(n) == PrivateIp(template, n)
    ensures plan.template == template && plan.datacenters == datacenters
    ensures plan.count == count && plan.offset == offset
  {
    Plan(n => ServerName(clusterName, suffix, n), n => PrivateIp(template, n), template, datacenters, count, offset)
  }

  /** The loop indexes the datacenters only when it runs at least once. */
  predicate Placeable(plan: Plan) {
    plan.count <= 0 || |plan.datacenters| > 0
  }

  /** Round-robin placement of the `i`-th node, counting from 1. */
  function Datacenter(plan: Plan, i: int): string
    requires 1 <= i && |plan.datacenters| > 0
  {
    plan.datacenters[i % |plan.datacenters|]
  }

  /** The create request of the `i`-th node. */
  function OptsFor(plan: Plan, i: int): ServerOpts
    requires 1 <= i && |plan.datacenters| > 0
  {
    ServerOpts(
      plan.name(i + plan.offset),
      plan.template.serverType,
      Datacenter(plan, i),
      plan.template.sshKeyName)
  }

  /** The `i`-th node built from the server the cloud returned for it. */
  function NodeFor(plan: Plan, i: int, server: Server): Node {
    var t := plan.template;
    Node(
      plan.name(i + plan.offset),
      t.serverType,
      t.isMaster,
      t.isEtcd,
      server.ipv4,
      plan.address(i + plan.offset),
      t.sshKeyName)
  }

  /** `n` is the `i`-th node of the batch, whatever its public address. */
  predicate Provisioned(n: Node, plan: Plan, i: int) {
    && n.name == plan.name(i + plan.offset)
    && n.serverType == plan.template.serverType
    && n.isMaster == plan.template.isMaster
    && n.isEtcd == plan.template.isEtcd
    && n.privateIpAddress == plan.address(i + plan.offset)
    && n.sshKeyName == plan.template.sshKeyName
  }

  /** Number of loop iterations left from index `i`. */
  function Remaining(plan: Plan, i: int): nat {
    if i > plan.count then 0 else plan.count - i + 1
  }

  /** What a provider operation leaves behind: the provider, the cloud, and
      the returned value or error. */
  datatype Outcome<T> = Outcome(provider: Provider, cloud: CloudState, result: Result<T, Error>)

  /** The loop of `CreateNodes` from index `i` on, with `batch` the nodes
      returned so far. */
  function Loop(p: Provider, c: CloudState, api: Api, plan: Plan, i: int, batch: seq<Node>)
    : Outcome<seq<Node>>
    requires 1 <= i && Placeable(plan)
    decreases plan.count - i
  {
    if i > plan.count then Outcome(p, c, Success(batch))
    else
      var step := RunCreateServer(p.wait, c, api, OptsFor(plan, i));
      match step.result
      case Failure(e) => Outcome(p.(wait := step.wait), step.cloud, Failure(e))
      case Success(server) =>
        var node := NodeFor(plan, i, server);
        Loop(p.(nodes := p.nodes + [node], wait := step.wait), step.cloud, api, plan, i + 1, batch + [node])
  }

  /** Nodes of `after` past the first `|before|` were added by the call; the
      first `|before|` are `before` itself: nothing was removed or changed. */
  predicate Extends(before: seq<Node>, after: seq<Node>) {
    |before| <= |after| && after[..|before|] == before
  }

  /** Every node added past `base` is, in order, the next one of the plan
      starting from index `i`. */
  predicate AddedInOrder(nodes: seq<Node>, base: nat, plan: Plan, i: int) {
    forall k :: base <= k < |nodes| ==> Provisioned(nodes[k], plan, i + k - base)
  }

  /** One unfolding of the loop at index `i <= count`. */
  lemma LoopUnfold(p: Provider, c: CloudState, api: Api, plan: Plan, i: int, batch: seq<Node>)
    requires 1 <= i <= plan.count && Placeable(plan)
    ensures var step := RunCreateServer(p.wait, c, api, OptsFor(plan, i));
      Loop(p, c, api, plan, i, batch) ==
        if step.result.Failure? then Outcome(p.(wait := step.wait), step.cloud, Failure(step.result.error))
        else
          var node := NodeFor(plan, i, step.result.value);
          Loop(p.(nodes := p.nodes + [node], wait := step.wait), step.cloud, api, plan, i + 1, batch + [node])
  {
  }

  /** The loop only appends: the nodes it finds stay, and the nodes it adds
      are one per index reached, all of them on success. */
  lemma {:induction false} LoopAppends(p: Provider, c: CloudState, api: Api, plan: Plan, i: int, batch: seq<Node>)
    requires 1 <= i && Placeable(plan)
    ensures var o := Loop(p, c, api, plan, i, batch);
      && o.provider.clusterName == p.clusterName
      && Extends(p.nodes, o.provider.nodes)
      && (o.result.Success? ==> |o.provider.nodes| == |p.nodes| + Remaining(plan, i))
      && (o.result.Failure? ==> |o.provider.nodes| < |p.nodes| + Remaining(plan, i))
    decreases plan.count - i
  {
    hide RunCreateServer;
    var o := Loop(p, c, api, plan, i, batch);
    if i > plan.count {
      assert p.nodes[..|p.nodes|] == p.nodes;
    } else {
      var step := RunCreateServer(p.wait, c, api, OptsFor(plan, i));
      LoopUnfold(p, c, api, plan, i, batch);
      if step.result.Failure? {
        assert p.nodes[..|p.nodes|] == p.nodes;
      } else {
        var node := NodeFor(plan, i, step.result.value);
        var p' := p.(nodes := p.nodes + [node], wait := step.wait);
        LoopAppends(p', step.cloud, api, plan, i + 1, batch + [node]);
        assert o.provider.nodes[..|p.nodes|] == o.provider.nodes[..|p'.nodes|][..|p.nodes|];
      }
    }
  }

  /** The nodes the loop adds are, in order, the plan's nodes from index
      `i` on. */
  lemma {:induction false} LoopOrder(p: Provider, c: CloudState, api: Api, plan: Plan, i: int, batch: seq<Node>)
    requires 1 <= i && Placeable(plan)
    ensures var o := Loop(p, c, api, plan, i, batch);
      && |p.nodes| <= |o.provider.nodes|
      && AddedInOrder(o.provider.nodes, |p.nodes|, plan, i)
    decreases plan.count - i
  {
    hide RunCreateServer;
    LoopAppends(p, c, api, plan, i, batch);
    var o := Loop(p, c, api, plan, i, batch);
    if i <= plan.count {
      var step := RunCreateServer(p.wait, c, api, OptsFor(plan, i));
      LoopUnfold(p, c, api, plan, i, batch);
      if step.result.Success? {
        var node := NodeFor(plan, i, step.result.value);
        var p' := p.(nodes := p.nodes + [node], wait := step.wait);
        LoopAppends(p', step.cloud, api, plan, i + 1, batch + [node]);
        LoopOrder(p', step.cloud, api, plan, i + 1, batch + [node]);
        assert o.provider.nodes[|p.nodes|] == node by {
          assert o.provider.nodes[..|p'.nodes|] == p'.nodes;
        }
        forall k | |p.nodes| <= k < |o.provider.nodes|
          ensures Provisioned(o.provider.nodes[k], plan, i + k - |p.nodes|)
        {
          if k > |p.nodes| {
            assert Provisioned(o.provider.nodes[k], plan, i + 1 + k - |p'.nodes|);
          }
        }
      }
    }
  }

  /** On success the returned batch is the batch so far followed by exactly
      the nodes the loop added. */
  lemma {:induction false} LoopReturnsAdded(p: Provider, c: CloudState, api: Api, plan: Plan, i: int, batch: seq<Node>)
    requires 1 <= i && Placeable(plan)
    ensures var o := Loop(p, c, api, plan, i, batch);
      && |p.nodes| <= |o.provider.nodes|
      && (o.result.Success? ==> o.result.value == batch + o.provider.nodes[|p.nodes|..])
    decreases plan.count - i
  {
    hide RunCreateServer;
    LoopAppends(p, c, api, plan, i, batch);
    var o := Loop(p, c, api, plan, i, batch);
    if i <= plan.count {
      var step := RunCreateServer(p.wait, c, api, OptsFor(plan, i));
      LoopUnfold(p, c, api, plan, i, batch);
      if step.result.Success? {
        var node := NodeFor(plan, i, step.result.value);
        var p' := p.(nodes := p.nodes + [node], wait := step.wait);
        LoopAppends(p', step.cloud, api, plan, i + 1, batch + [node]);
        LoopReturnsAdded(p', step.cloud, api, plan, i + 1, batch + [node]);
        if o.result.Success? {
          assert o.provider.nodes[..|p'.nodes|] == p'.nodes;
          assert o.provider.nodes[|p.nodes|..] == [node] + o.provider.nodes[|p'.nodes|..];
        }
      }
    } else {
      assert o.provider.nodes[|p.nodes|..] == [];
    }
  }

  /** Every node added past `base` names a server the cloud holds, carries
      that server's public address, and its lookup did not fail. */
  ghost predicate BackedByServers(nodes: seq<Node>, base: nat, servers: map<string, Server>, api: Api) {
    forall k :: base <= k < |nodes| ==>
      && nodes[k].name in servers
      && servers[nodes[k].name].ipv4 == nodes[k].ipAddress
      && api.getByNameError(nodes[k].name).None?
  }

  lemma {:induction false} LoopServers(p: Provider, c: CloudState, api: Api, plan: Plan, i: int, batch: seq<Node>)
    requires 1 <= i && Placeable(plan)
    ensures var o := Loop(p, c, api, plan, i, batch);
      && SubMap(c.servers, o.cloud.servers)
      && BackedByServers(o.provider.nodes, |p.nodes|, o.cloud.servers, api)
    decreases plan.count - i
  {
    hide RunCreateServer;
    if i <= plan.count {
      var opts := OptsFor(plan, i);
      var step := RunCreateServer(p.wait, c, api, opts);
      LoopUnfold(p, c, api, plan, i, batch);
      CreateOrFetchServers(p.wait, c, api, opts);
      if step.result.Success? {
        var node := NodeFor(plan, i, step.result.value);
        var p' := p.(nodes := p.nodes + [node], wait := step.wait);
        LoopAppends(p', step.cloud, api, plan, i + 1, batch + [node]);
        LoopServers(p', step.cloud, api, plan, i + 1, batch + [node]);
        var o := Loop(p', step.cloud, api, plan, i + 1, batch + [node]);
        assert o.provider.nodes[|p.nodes|] == node by {
          assert o.provider.nodes[..|p'.nodes|] == p'.nodes;
        }
      }
    }
  }

  lemma AwaitedOkConcat(a: seq<Call>, b: seq<Call>)
    ensures AwaitedOk(a + b) <==> AwaitedOk(a) || AwaitedOk(b)
  {
    if AwaitedOk(b) {
      var k :| 0 <= k < |b| && b[k].AwaitAction? && b[k].outcome.None?;
      assert (a + b)[|a| + k] == b[k];
    }
    if AwaitedOk(a) {
      var k :| 0 <= k < |a| && a[k].AwaitAction? && a[k].outcome.None?;
      assert (a + b)[k] == a[k];
    }
    if AwaitedOk(a + b) {
      var k :| 0 <= k < |a + b| && (a + b)[k].AwaitAction? && (a + b)[k].outcome.None?;
      if k >= |a| {
        assert b[k - |a|] == (a + b)[k];
      } else {
        assert a[k] == (a + b)[k];
      }
    }
  }

  lemma NoProvisioningConcat(a: seq<Call>, b: seq<Call>)
    ensures NoProvisioning(a + b) <==> NoProvisioning(a) && NoProvisioning(b)
  {
    if NoProvisioning(a + b) {
      forall k | 0 <= k < |a|
        ensures !a[k].CreateServer? && !a[k].AwaitAction?
      {
        assert (a + b)[k] == a[k];
      }
      forall k | 0 <= k < |b|
        ensures !b[k].CreateServer? && !b[k].AwaitAction?
      {
        assert (a + b)[|a| + k] == b[k];
      }
    }
  }

  /** The calls of `after` past the prefix `before`. */
  function NewCalls(before: CloudState, after: CloudState): seq<Call>
    requires |before.calls| <= |after.calls|
  {
    after.calls[|before.calls|..]
  }

  /** Splitting a three-stage call log at the middle stage. */
  lemma NewCallsSplit(a: seq<Call>, b: seq<Call>, c: seq<Call>)
    requires |a| <= |b| <= |c| && b[..|a|] == a && c[..|b|] == b
    ensures c[..|a|] == a
    ensures c[|a|..] == b[|a|..] + c[|b|..]
  {
    assert c[..|b|][..|a|] == c[..|a|];
  }

  /** The loop only appends to the call log, and sets the provider's flag
      exactly when some action it awaited finished without error. */
  lemma {:induction false} LoopWait(p: Provider, c: CloudState, api: Api, plan: Plan, i: int, batch: seq<Node>)
    requires 1 <= i && Placeable(plan)
    ensures var o := Loop(p, c, api, plan, i, batch);
      && |c.calls| <= |o.cloud.calls| && o.cloud.calls[..|c.calls|] == c.calls
      && o.provider.wait == (p.wait || AwaitedOk(NewCalls(c, o.cloud)))
    decreases plan.count - i
  {
    hide RunCreateServer;
    if i > plan.count {
      assert c.calls[..|c.calls|] == c.calls;
      assert !AwaitedOk(c.calls[|c.calls|..]);
    } else {
      var opts := OptsFor(plan, i);
      var step := RunCreateServer(p.wait, c, api, opts);
      LoopUnfold(p, c, api, plan, i, batch);
      CreateOrFetchCalls(p.wait, c, api, opts);
      CreateOrFetchWait(p.wait, c, api, opts);
      if step.result.Success? {
        var node := NodeFor(plan, i, step.result.value);
        var p' := p.(nodes := p.nodes + [node], wait := step.wait);
        LoopWait(p', step.cloud, api, plan, i + 1, batch + [node]);
        var o := Loop(p', step.cloud, api, plan, i + 1, batch + [node]);
        NewCallsSplit(c.calls, step.cloud.calls, o.cloud.calls);
        AwaitedOkConcat(step.cloud.calls[|c.calls|..], o.cloud.calls[|step.cloud.calls|..]);
      }
    }
  }

  /** Every create request the loop sends is the request of one of the
      nodes from index `i` on. */
  lemma {:induction false} LoopRequests(p: Provider, c: CloudState, api: Api, plan: Plan, i: int, batch: seq<Node>)
    requires 1 <= i && Placeable(plan)
    ensures var o := Loop(p, c, api, plan, i, batch);
      && |c.calls| <= |o.cloud.calls|
      && (forall k :: |c.calls| <= k < |o.cloud.calls| && o.cloud.calls[k].CreateServer? ==>
            exists j :: i <= j <= plan.count && o.cloud.calls[k].opts == OptsFor(plan, j))
    decreases plan.count - i
  {
    hide RunCreateServer;
    if i <= plan.count {
      var opts := OptsFor(plan, i);
      var step := RunCreateServer(p.wait, c, api, opts);
      LoopUnfold(p, c, api, plan, i, batch);
      CreateOrFetchCalls(p.wait, c, api, opts);
      if step.result.Success? {
        var node := NodeFor(plan, i, step.result.value);
        var p' := p.(nodes := p.nodes + [node], wait := step.wait);
        LoopWait(p', step.cloud, api, plan, i + 1, batch + [node]);
        LoopRequests(p', step.cloud, api, plan, i + 1, batch + [node]);
        var o := Loop(p', step.cloud, api, plan, i + 1, batch + [node]);
        forall k | |c.calls| <= k < |o.cloud.calls| && o.cloud.calls[k].CreateServer?
          ensures exists j :: i <= j <= plan.count && o.cloud.calls[k].opts == OptsFor(plan, j)
        {
          if k < |step.cloud.calls| {
            assert o.cloud.calls[k] == step.cloud.calls[k] by {
              assert o.cloud.calls[..|step.cloud.calls|] == step.cloud.calls;
            }
            assert o.cloud.calls[k].opts == OptsFor(plan, i);
          }
        }
      }
    }
  }

  /** The server name of the `i`-th node of the plan. */
  function NameOf(plan: Plan, i: int): string {
    plan.name(i + plan.offset)
  }

  /** The server names of the plan's nodes `lo..hi`, in order. */
  function NamesBetween(plan: Plan, lo: int, hi: int): (r: seq<string>)
    ensures |r| == if lo <= hi then hi - lo + 1 else 0
    ensures forall m :: 0 <= m < |r| ==> r[m] == NameOf(plan, lo + m)
    decreases hi - lo
  {
    if lo > hi then [] else [NameOf(plan, lo)] + NamesBetween(plan, lo + 1, hi)
  }

  /** Every request of `calls` from position `from` on is about one of the
      plan's nodes `lo..hi`. */
  predicate AboutNodes(calls: seq<Call>, from: int, plan: Plan, lo: int, hi: int) {
    forall k :: 0 <= from <= k < |calls| ==>
      Subject(calls[k]).Some? && Subject(calls[k]).value in NamesBetween(plan, lo, hi)
  }

  /** The loop fails fast. When it fails at index `j`, the nodes before `j`
      were appended and `j` is still within the plan; every request the loop
      sent is about a node between `i` and `j`; and the returned error, the
      cloud and the flag are exactly what the create-or-fetch of node `j`
      produced from the state the loop had reached. */
  lemma {:induction false} LoopStopsAtFailure(p: Provider, c: CloudState, api: Api, plan: Plan, i: int, batch: seq<Node>)
    requires 1 <= i && Placeable(plan)
    ensures var o := Loop(p, c, api, plan, i, batch);
      && |p.nodes| <= |o.provider.nodes| && |c.calls| <= |o.cloud.calls|
      && (o.result.Failure? ==>
            var j := i + (|o.provider.nodes| - |p.nodes|);
            && j <= plan.count
            && AboutNodes(o.cloud.calls, |c.calls|, plan, i, j)
            && exists w: bool, cj: CloudState ::
                 && |c.calls| <= |cj.calls| && cj.calls[..|c.calls|] == c.calls
                 && w == (p.wait || AwaitedOk(cj.calls[|c.calls|..]))
                 && var step := RunCreateServer(w, cj, api, OptsFor(plan, j));
                    && step.result.Failure?
                    && o.result.error == step.result.error
                    && o.cloud == step.cloud
                    && o.provider.wait == step.wait)
    decreases plan.count - i
  {
    hide RunCreateServer;
    LoopAppends(p, c, api, plan, i, batch);
    LoopWait(p, c, api, plan, i, batch);
    var o := Loop(p, c, api, plan, i, batch);
    if i <= plan.count {
      var opts := OptsFor(plan, i);
      var step := RunCreateServer(p.wait, c, api, opts);
      LoopUnfold(p, c, api, plan, i, batch);
      CreateOrFetchSubject(p.wait, c, api, opts);
      if step.result.Failure? {
        assert c.calls[..|c.calls|] == c.calls;
        assert o.provider.nodes == p.nodes;
        var j := i + (|o.provider.nodes| - |p.nodes|);
        assert NameOf(plan, i) == NamesBetween(plan, i, j)[0];
        assert !AwaitedOk(c.calls[|c.calls|..]);
      } else {
        var node := NodeFor(plan, i, step.result.value);
        var p' := p.(nodes := p.nodes + [node], wait := step.wait);
        LoopAppends(p', step.cloud, api, plan, i + 1, batch + [node]);
        LoopWait(p', step.cloud, api, plan, i + 1, batch + [node]);
        LoopStopsAtFailure(p', step.cloud, api, plan, i + 1, batch + [node]);
        CreateOrFetchCalls(p.wait, c, api, opts);
        if o.result.Failure? {
          var j := i + (|o.provider.nodes| - |p.nodes|);
          assert NamesBetween(plan, i, j) == [NameOf(plan, i)] + NamesBetween(plan, i + 1, j);
          forall k | |c.calls| <= k < |o.cloud.calls|
            ensures Subject(o.cloud.calls[k]).Some? && Subject(o.cloud.calls[k]).value in NamesBetween(plan, i, j)
          {
            if k < |step.cloud.calls| {
              assert o.cloud.calls[k] == step.cloud.calls[k] by {
                assert o.cloud.calls[..|step.cloud.calls|] == step.cloud.calls;
              }
            }
          }
          var w: bool, cj: CloudState :| 
            && |step.cloud.calls| <= |cj.calls| && cj.calls[..|step.cloud.calls|] == step.cloud.calls
            && w == (step.wait || AwaitedOk(cj.calls[|step.cloud.calls|..]))
            && var s := RunCreateServer(w, cj, api, OptsFor(plan, j));
               && s.result.Failure? && o.result.error == s.result.error
               && o.cloud == s.cloud && o.provider.wait == s.wait;
          NewCallsSplit(c.calls, step.cloud.calls, cj.calls);
          CreateOrFetchWait(p.wait, c, api, opts);
          AwaitedOkConcat(step.cloud.calls[|c.calls|..], cj.calls[|step.cloud.calls|..]);
        }
      }
    }
  }

  /** Every server of the plan from index `i` on exists and can be looked up. */
  ghost predicate AllExist(c: CloudState, api: Api, plan: Plan, i: int) {
    forall n :: i + plan.offset <= n <= plan.count + plan.offset ==>
      && plan.name(n) in c.servers
      && api.getByNameError(plan.name(n)).None?
  }

  /** When every server already exists the loop only looks them up: it
      succeeds, creates nothing, awaits nothing, leaves the servers and the
      flag alone, and each node carries its existing server's address. */
  lemma {:induction false} LoopAllExisting(p: Provider, c: CloudState, api: Api, plan: Plan, i: int, batch: seq<Node>)
    requires 1 <= i && Placeable(plan)
    requires AllExist(c, api, plan, i)
    ensures var o := Loop(p, c, api, plan, i, batch);
      && o.result.Success?
      && o.cloud.servers == c.servers
      && o.provider.wait == p.wait
      && |c.calls| <= |o.cloud.calls| && NoProvisioning(NewCalls(c, o.cloud))
      && |p.nodes| <= |o.provider.nodes|
      && (forall k :: |p.nodes| <= k < |o.provider.nodes| ==>
            o.provider.nodes[k].name in c.servers
            && o.provider.nodes[k].ipAddress == c.servers[o.provider.nodes[k].name].ipv4)
    decreases plan.count - i
  {
    hide RunCreateServer;
    LoopWait(p, c, api, plan, i, batch);
    LoopServers(p, c, api, plan, i, batch);
    LoopAppends(p, c, api, plan, i, batch);
    if i > plan.count {
      assert NoProvisioning(c.calls[|c.calls|..]);
    } else {
      var opts := OptsFor(plan, i);
      assert opts.name == plan.name(i + plan.offset);
      var step := RunCreateServer(p.wait, c, api, opts);
      LoopUnfold(p, c, api, plan, i, batch);
      CreateOrFetchCalls(p.wait, c, api, opts);
      ExistingServerReused(p.wait, c, api, opts);
      var node := NodeFor(plan, i, step.result.value);
      var p' := p.(nodes := p.nodes + [node], wait := step.wait);
      assert AllExist(step.cloud, api, plan, i + 1);
      LoopAllExisting(p', step.cloud, api, plan, i + 1, batch + [node]);
      LoopWait(p', step.cloud, api, plan, i + 1, batch + [node]);
      var o := Loop(p', step.cloud, api, plan, i + 1, batch + [node]);
      NewCallsSplit(c.calls, step.cloud.calls, o.cloud.calls);
      NoProvisioningConcat(step.cloud.calls[|c.calls|..], o.cloud.calls[|step.cloud.calls|..]);
    }
  }

  /** `CreateNodes`: look up the SSH key, then create or fetch nodes
      1..count in order. */
  function CreateNodes(
    p: Provider, c: CloudState, api: Api,
    suffix: string, template: Template, datacenters: seq<string>, count: int, offset: int)
    : Outcome<seq<Node>>
    requires count <= 0 || |datacenters| > 0
  {
    var c1 := c.(calls := c.calls + [GetSshKey(template.sshKeyName)]);
    match api.sshKeyError(template.sshKeyName)
    case Some(e) => Outcome(p, c1, Failure(e))
    case None => Loop(p, c1, api, PlanFor(p.clusterName, suffix, template, datacenters, count, offset), 1, [])
  }

  /** A successful call returns exactly `count` nodes, the plan's nodes in
      order, and appends them to the provider's list; a failed call leaves
      the nodes it already appended in place and appends fewer than `count`;
      a failed SSH-key lookup changes nothing. */
  lemma CreateNodesBatch(
    p: Provider, c: CloudState, api: Api,
    suffix: string, template: Template, datacenters: seq<string>, count: int, offset: int)
    requires count <= 0 || |datacenters| > 0
    ensures var o := CreateNodes(p, c, api, suffix, template, datacenters, count, offset);
      && o.provider.clusterName == p.clusterName
      && Extends(p.nodes, o.provider.nodes)
      && AddedInOrder(o.provider.nodes, |p.nodes|, PlanFor(p.clusterName, suffix, template, datacenters, count, offset), 1)
      && (o.result.Success? ==>
            && |o.result.value| == (if count > 0 then count else 0)
            && o.provider.nodes == p.nodes + o.result.value)
      && (o.result.Failure? && count > 0 ==> |o.provider.nodes| < |p.nodes| + count)
      && (api.sshKeyError(template.sshKeyName).Some? ==>
            o.provider == p && o.result == Failure(api.sshKeyError(template.sshKeyName).value))
  {
    hide ServerName, PrivateIp, RunCreateServer, Loop, PlanFor;
    if api.sshKeyError(template.sshKeyName).None? {
      var plan := PlanFor(p.clusterName, suffix, template, datacenters, count, offset);
      var c1 := c.(calls := c.calls + [GetSshKey(template.sshKeyName)]);
      LoopAppends(p, c1, api, plan, 1, []);
      LoopOrder(p, c1, api, plan, 1, []);
      LoopReturnsAdded(p, c1, api, plan, 1, []);
      var o := Loop(p, c1, api, plan, 1, []);
      if o.result.Success? {
        assert o.provider.nodes == o.provider.nodes[..|p.nodes|] + o.provider.nodes[|p.nodes|..];
      }
    } else {
      assert p.nodes[..|p.nodes|] == p.nodes;
    }
  }

  /** A failing node ends the call at once with its own error. Node `j` is
      the first node not appended, and it is within the batch. After the
      SSH-key lookup every request is about one of the nodes 1..j. The
      returned error, the cloud and the flag are exactly those of node `j`'s
      create-or-fetch, from the state the earlier nodes left behind. */
  lemma CreateNodesStopsAtFailure(
    p: Provider, c: CloudState, api: Api,
    suffix: string, template: Template, datacenters: seq<string>, count: int, offset: int)
    requires count <= 0 || |datacenters| > 0
    ensures var o := CreateNodes(p, c, api, suffix, template, datacenters, count, offset);
      && |p.nodes| <= |o.provider.nodes| && |c.calls| < |o.cloud.calls|
      && o.cloud.calls[|c.calls|] == GetSshKey(template.sshKeyName)
      && (o.result.Failure? && api.sshKeyError(template.sshKeyName).None? ==>
            var j := 1 + (|o.provider.nodes| - |p.nodes|);
            && 1 <= j <= count
            && AboutNodes(o.cloud.calls, |c.calls| + 1, PlanFor(p.clusterName, suffix, template, datacenters, count, offset), 1, j)
            && var opts := ServerOpts(ServerName(p.clusterName, suffix, j + offset), template.serverType,
                                      datacenters[j % |datacenters|], template.sshKeyName);
               exists w: bool, cj: CloudState ::
                 && |c.calls| < |cj.calls| && cj.calls[..|c.calls|] == c.calls
                 && w == (p.wait || AwaitedOk(cj.calls[|c.calls|..]))
                 && var step := RunCreateServer(w, cj, api, opts);
                    && step.result.Failure?
                    && o.result.error == step.result.error
                    && o.cloud == step.cloud
                    && o.provider.wait == step.wait)
  {
    hide ServerName, PrivateIp, RunCreateServer, Loop, PlanFor;
    var c1 := c.(calls := c.calls + [GetSshKey(template.sshKeyName)]);
    var o := CreateNodes(p, c, api, suffix, template, datacenters, count, offset);
    if api.sshKeyError(template.sshKeyName).None? {
      var plan := PlanFor(p.clusterName, suffix, template, datacenters, count, offset);
      LoopStopsAtFailure(p, c1, api, plan, 1, []);
      LoopWait(p, c1, api, plan, 1, []);
      assert o.cloud.calls[|c.calls|] == GetSshKey(template.sshKeyName) by {
        assert o.cloud.calls[..|c1.calls|] == c1.calls;
      }
      if o.result.Failure? {
        var j := 1 + (|o.provider.nodes| - |p.nodes|);
        var w: bool, cj: CloudState :|
          && |c1.calls| <= |cj.calls| && cj.calls[..|c1.calls|] == c1.calls
          && w == (p.wait || AwaitedOk(cj.calls[|c1.calls|..]))
          && var s := RunCreateServer(w, cj, api, OptsFor(plan, j));
             && s.result.Failure? && o.result.error == s.result.error
             && o.cloud == s.cloud && o.provider.wait == s.wait;
        NewCallsSplit(c.calls, c1.calls, cj.calls);
        assert !AwaitedOk(c1.calls[|c.calls|..]);
        AwaitedOkConcat(c1.calls[|c.calls|..], cj.calls[|c1.calls|..]);
        assert OptsFor(plan, j) == ServerOpts(ServerName(p.clusterName, suffix, j + offset), template.serverType,
                                              datacenters[j % |datacenters|], template.sshKeyName);
      }
    }
  }

  /** After the call the provider must wait exactly when it had to before or
      some creation action awaited during the call finished without error. */
  lemma CreateNodesWait(
    p: Provider, c: CloudState, api: Api,
    suffix: string, template: Template, datacenters: seq<string>, count: int, offset: int)
    requires count <= 0 || |datacenters| > 0
    ensures var o := CreateNodes(p, c, api, suffix, template, datacenters, count, offset);
      && |c.calls| <= |o.cloud.calls| && o.cloud.calls[..|c.calls|] == c.calls
      && o.provider.wait == (p.wait || AwaitedOk(NewCalls(c, o.cloud)))
  {
    hide ServerName, PrivateIp, RunCreateServer, Loop, PlanFor;
    var c1 := c.(calls := c.calls + [GetSshKey(template.sshKeyName)]);
    assert !AwaitedOk(c1.calls[|c.calls|..]);
    if api.sshKeyError(template.sshKeyName).None? {
      var plan := PlanFor(p.clusterName, suffix, template, datacenters, count, offset);
      LoopWait(p, c1, api, plan, 1, []);
      var o := Loop(p, c1, api, plan, 1, []);
      NewCallsSplit(c.calls, c1.calls, o.cloud.calls);
      AwaitedOkConcat(c1.calls[|c.calls|..], o.cloud.calls[|c1.calls|..]);
    }
  }

  /** Round-robin placement: every create request the call sends is the
      request of some node `i` in 1..count and asks for datacenter
      `datacenters[i % |datacenters|]`, `i` not shifted by the offset. */
  lemma CreateNodesPlacement(
    p: Provider, c: CloudState, api: Api,
    suffix: string, template: Template, datacenters: seq<string>, count: int, offset: int)
    requires count <= 0 || |datacenters| > 0
    ensures var o := CreateNodes(p, c, api, suffix, template, datacenters, count, offset);
      && |c.calls| <= |o.cloud.calls|
      && forall k :: |c.calls| <= k < |o.cloud.calls| && o.cloud.calls[k].CreateServer? ==>
           exists i :: (1 <= i <= count
             && o.cloud.calls[k].opts.datacenter == datacenters[i % |datacenters|]
             && o.cloud.calls[k].opts.name == ServerName(p.clusterName, suffix, i + offset)
             && o.cloud.calls[k].opts.serverType == template.serverType)
  {
    hide ServerName, PrivateIp, RunCreateServer, Loop, PlanFor;
    var plan := PlanFor(p.clusterName, suffix, template, datacenters, count, offset);
    var c1 := c.(calls := c.calls + [GetSshKey(template.sshKeyName)]);
    if api.sshKeyError(template.sshKeyName).None? {
      LoopRequests(p, c1, api, plan, 1, []);
      LoopWait(p, c1, api, plan, 1, []);
      var o := Loop(p, c1, api, plan, 1, []);
      forall k | |c.calls| <= k < |o.cloud.calls| && o.cloud.calls[k].CreateServer?
        ensures exists i :: (1 <= i <= count
             && o.cloud.calls[k].opts.datacenter == datacenters[i % |datacenters|]
             && o.cloud.calls[k].opts.name == ServerName(p.clusterName, suffix, i + offset)
             && o.cloud.calls[k].opts.serverType == template.serverType)
      {
        assert o.cloud.calls[|c.calls|] == GetSshKey(template.sshKeyName) by {
          assert o.cloud.calls[..|c1.calls|] == c1.calls;
        }
        var i :| 1 <= i <= count && o.cloud.calls[k].opts == OptsFor(plan, i);
      }
    }
  }

  /** Each node a call adds carries the public address of the server the
      cloud holds under the node's name. */
  lemma CreateNodesAddresses(
    p: Provider, c: CloudState, api: Api,
    suffix: string, template: Template, datacenters: seq<string>, count: int, offset: int)
    requires count <= 0 || |datacenters| > 0
    ensures var o := CreateNodes(p, c, api, suffix, template, datacenters, count, offset);
      && SubMap(c.servers, o.cloud.servers)
      && BackedByServers(o.provider.nodes, |p.nodes|, o.cloud.servers, api)
  {
    hide ServerName, PrivateIp, RunCreateServer, Loop, PlanFor;
    if api.sshKeyError(template.sshKeyName).None? {
      var c1 := c.(calls := c.calls + [GetSshKey(template.sshKeyName)]);
      LoopServers(p, c1, api, PlanFor(p.clusterName, suffix, template, datacenters, count, offset), 1, []);
    }
  }

  /** After a successful call every server of the plan exists and looks
      up without error. */
  lemma BatchServersExist(
    p: Provider, c: CloudState, api: Api,
    suffix: string, template: Template, datacenters: seq<string>, count: int, offset: int)
    requires count <= 0 || |datacenters| > 0
    requires CreateNodes(p, c, api, suffix, template, datacenters, count, offset).result.Success?
    ensures AllExist(CreateNodes(p, c, api, suffix, template, datacenters, count, offset).cloud, api,
                     PlanFor(p.clusterName, suffix, template, datacenters, count, offset), 1)
  {
    hide ServerName, PrivateIp, RunCreateServer, Loop;
    var plan := PlanFor(p.clusterName, suffix, template, datacenters, count, offset);
    var o1 := CreateNodes(p, c, api, suffix, template, datacenters, count, offset);
    CreateNodesBatch(p, c, api, suffix, template, datacenters, count, offset);
    CreateNodesAddresses(p, c, api, suffix, template, datacenters, count, offset);
    var base := |p.nodes|;
    forall n | 1 + offset <= n <= count + offset
      ensures plan.name(n) in o1.cloud.servers
      ensures api.getByNameError(plan.name(n)).None?
    {
      var k := base + n - offset - 1;
      assert Provisioned(o1.provider.nodes[k], plan, 1 + k - base);
    }
  }

  /** Re-running a successful call with the same parameters against the
      cloud it left behind finds every server: it returns the same nodes,
      creates nothing, awaits nothing, leaves the flag as it was, and appends
      the same batch to the provider's list once more. */
  lemma CreateNodesRerun(
    p: Provider, c: CloudState, api: Api,
    suffix: string, template: Template, datacenters: seq<string>, count: int, offset: int)
    requires count <= 0 || |datacenters| > 0
    requires CreateNodes(p, c, api, suffix, template, datacenters, count, offset).result.Success?
    ensures var o1 := CreateNodes(p, c, api, suffix, template, datacenters, count, offset);
      var o2 := CreateNodes(o1.provider, o1.cloud, api, suffix, template, datacenters, count, offset);
      && o2.result == o1.result
      && o2.provider.wait == o1.provider.wait
      && o2.provider.nodes == o1.provider.nodes + o1.result.value
      && o2.cloud.servers == o1.cloud.servers
      && |o1.cloud.calls| <= |o2.cloud.calls|
      && NoProvisioning(NewCalls(o1.cloud, o2.cloud))
  {
    hide ServerName, PrivateIp, RunCreateServer, Loop;
    var plan := PlanFor(p.clusterName, suffix, template, datacenters, count, offset);
    var o1 := CreateNodes(p, c, api, suffix, template, datacenters, count, offset);
    CreateNodesBatch(p, c, api, suffix, template, datacenters, count, offset);
    CreateNodesAddresses(p, c, api, suffix, template, datacenters, count, offset);
    var value := o1.result.value;
    var base := |p.nodes|;
    var c2 := o1.cloud.(calls := o1.cloud.calls + [GetSshKey(template.sshKeyName)]);
    BatchServersExist(p, c, api, suffix, template, datacenters, count, offset);
    assert AllExist(c2, api, plan, 1);
    LoopAllExisting(o1.provider, c2, api, plan, 1, []);
    LoopAppends(o1.provider, c2, api, plan, 1, []);
    LoopOrder(o1.provider, c2, api, plan, 1, []);
    LoopReturnsAdded(o1.provider, c2, api, plan, 1, []);
    var o2 := Loop(o1.provider, c2, api, plan, 1, []);
    var value2 := o2.result.value;
    assert |value2| == |value|;
    forall k | 0 <= k < |value|
      ensures value2[k] == value[k]
    {
      assert value2[k] == o2.provider.nodes[|o1.provider.nodes| + k];
      assert value[k] == o1.provider.nodes[base + k];
      assert Provisioned(value2[k], plan, 1 + k);
      assert Provisioned(value[k], plan, 1 + k);
    }
    assert value2 == value;
    assert o2.provider.nodes == o1.provider.nodes + value by {
      assert o2.provider.nodes[..|o1.provider.nodes|] == o1.provider.nodes;
    }
    NoProvisioningConcat(c2.calls[|o1.cloud.calls|..], o2.cloud.calls[|c2.calls|..]);
    LoopWait(o1.provider, c2, api, plan, 1, []);
    NewCallsSplit(o1.cloud.calls, c2.calls, o2.cloud.calls);
  }

  /** On a reliable cloud the loop runs to the end. */
  lemma {:induction false} LoopSucceeds(p: Provider, c: CloudState, api: Api, plan: Plan, i: int, batch: seq<Node>)
    requires 1 <= i && Placeable(plan)
    requires Reliable(api)
    ensures Loop(p, c, api, plan, i, batch).result.Success?
    decreases plan.count - i
  {
    hide RunCreateServer;
    if i <= plan.count {
      var step := RunCreateServer(p.wait, c, api, OptsFor(plan, i));
      LoopUnfold(p, c, api, plan, i, batch);
      ReliableStepSucceeds(p.wait, c, api, OptsFor(plan, i));
      var node := NodeFor(plan, i, step.result.value);
      LoopSucceeds(p.(nodes := p.nodes + [node], wait := step.wait), step.cloud, api, plan, i + 1, batch + [node]);
    }
  }

  /** With its SSH key found on a reliable cloud, a call always succeeds. */
  lemma CreateNodesSucceeds(
    p: Provider, c: CloudState, api: Api,
    suffix: string, template: Template, datacenters: seq<string>, count: int, offset: int)
    requires count <= 0 || |datacenters| > 0
    requires Reliable(api) && api.sshKeyError(template.sshKeyName).None?
    ensures CreateNodes(p, c, api, suffix, template, datacenters, count, offset).result.Success?
  {
    hide ServerName, PrivateIp, RunCreateServer, Loop, PlanFor;
    var c1 := c.(calls := c.calls + [GetSshKey(template.sshKeyName)]);
    LoopSucceeds(p, c1, api, PlanFor(p.clusterName, suffix, template, datacenters, count, offset), 1, []);
  }
}
