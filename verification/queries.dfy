/** The read side of the provider: the node list and its role views, the
    first master, the cluster snapshot and the wait flag. */
module Queries {
  import opened Results
  import opened Types

  /** A fresh provider for a cluster: no nodes yet, nothing to wait for. */
  function NewProvider(clusterName: string): (p: Provider)
    ensures p.clusterName == clusterName
    ensures |p.nodes| == 0 && !p.wait
  {
    Provider(clusterName, [], false)
  }

  /** `GetAllNodes`: the accumulated node list, in insertion order. */
  function GetAllNodes(p: Provider): seq<Node> {
    p.nodes
  }

  /** `SetNodes`: replaces the node list and nothing else. */
  function SetNodes(p: Provider, nodes: seq<Node>): (r: Provider)
    ensures GetAllNodes(r) == nodes
    ensures r.clusterName == p.clusterName && r.wait == p.wait
  {
    p.(nodes := nodes)
  }

  /** What was set is what is read back, reading and setting back changes
      nothing, and only the last of two sets counts. */
  lemma SetNodesRoundTrip(p: Provider, nodes: seq<Node>, later: seq<Node>)
    ensures GetAllNodes(SetNodes(p, nodes)) == nodes
    ensures SetNodes(p, GetAllNodes(p)) == p
    ensures SetNodes(SetNodes(p, nodes), later) == SetNodes(p, later)
  {
  }

  /** The three views of the node list. A node with neither flag is a
      worker; a node may be both master and etcd. */
  datatype Role = Master | Etcd | Worker

  predicate HasRole(n: Node, role: Role) {
    match role
    case Master => n.isMaster
    case Etcd => n.isEtcd
    case Worker => !n.isMaster && !n.isEtcd
  }

  /** Reference definition of a role view: the nodes of `nodes` that have
      `role`, in their order in `nodes`. */
  function Filter(nodes: seq<Node>, role: Role): (r: seq<Node>)
    ensures |r| <= |nodes|
    ensures forall n :: n in r <==> n in nodes && HasRole(n, role)
  {
    if |nodes| == 0 then []
    else
      var last := nodes[|nodes| - 1];
      Filter(nodes[..|nodes| - 1], role) + (if HasRole(last, role) then [last] else [])
  }

  /** Filtering distributes over concatenation: the view of a list extended
      by a batch is the old view followed by the batch's view. */
  lemma {:induction false} FilterConcat(a: seq<Node>, b: seq<Node>, role: Role)
    ensures Filter(a + b, role) == Filter(a, role) + Filter(b, role)
    decreases |b|
  {
    if |b| == 0 {
      assert a + b == a;
    } else {
      var b' := b[..|b| - 1];
      assert (a + b)[..|a + b| - 1] == a + b';
      FilterConcat(a, b', role);
    }
  }

  /** A batch whose nodes all have the role is its own view. */
  lemma {:induction false} FilterAll(nodes: seq<Node>, role: Role)
    requires forall k :: 0 <= k < |nodes| ==> HasRole(nodes[k], role)
    ensures Filter(nodes, role) == nodes
  {
    if |nodes| > 0 {
      FilterAll(nodes[..|nodes| - 1], role);
      assert nodes[..|nodes| - 1] + [nodes[|nodes| - 1]] == nodes;
    }
  }

  /** A batch none of whose nodes has the role has an empty view. */
  lemma {:induction false} FilterNone(nodes: seq<Node>, role: Role)
    requires forall k :: 0 <= k < |nodes| ==> !HasRole(nodes[k], role)
    ensures Filter(nodes, role) == []
  {
    if |nodes| > 0 {
      FilterNone(nodes[..|nodes| - 1], role);
    }
  }

  /** A role view keeps the order of the node list: its `j`-th node is the
      node at position `idx[j]` of the list, with `idx` strictly increasing. */
  lemma {:induction false} FilterKeepsOrder(nodes: seq<Node>, role: Role) returns (idx: seq<int>)
    ensures |idx| == |Filter(nodes, role)|
    ensures forall j :: 0 <= j < |idx| ==> 0 <= idx[j] < |nodes| && nodes[idx[j]] == Filter(nodes, role)[j]
    ensures forall j, k :: 0 <= j < k < |idx| ==> idx[j] < idx[k]
  {
    if |nodes| == 0 {
      idx := [];
    } else {
      var init := nodes[..|nodes| - 1];
      var last := nodes[|nodes| - 1];
      var idx0 := FilterKeepsOrder(init, role);
      if HasRole(last, role) {
        idx := idx0 + [|nodes| - 1];
      } else {
        idx := idx0;
      }
    }
  }

  /** A node of the list is a worker exactly when it is in neither the
      master view nor the etcd view. */
  lemma WorkerPartition(nodes: seq<Node>, n: Node)
    requires n in nodes
    ensures n in Filter(nodes, Worker) <==> n !in Filter(nodes, Master) && n !in Filter(nodes, Etcd)
  {
  }

  /** The loop of `GetMasterNodes`, `GetEtcdNodes` and `GetWorkerNodes`:
      one pass that appends every node with the role. */
  method SelectNodes(nodes: seq<Node>, role: Role) returns (r: seq<Node>)
    ensures r == Filter(nodes, role)
  {
    r := [];
    for i := 0 to |nodes|
      invariant r == Filter(nodes[..i], role)
    {
      assert nodes[..i + 1][..i] == nodes[..i];
      if HasRole(nodes[i], role) {
        r := r + [nodes[i]];
      }
    }
    assert nodes[..|nodes|] == nodes;
  }

  /** `GetMasterNodes`: the master nodes, in order. */
  method GetMasterNodes(p: Provider) returns (r: seq<Node>)
    ensures r == Filter(p.nodes, Master)
    ensures forall n :: n in r <==> n in p.nodes && n.isMaster
  {
    r := SelectNodes(p.nodes, Master);
  }

  /** `GetEtcdNodes`: the etcd nodes, in order. */
  method GetEtcdNodes(p: Provider) returns (r: seq<Node>)
    ensures r == Filter(p.nodes, Etcd)
    ensures forall n :: n in r <==> n in p.nodes && n.isEtcd
  {
    r := SelectNodes(p.nodes, Etcd);
  }

  /** `GetWorkerNodes`: the nodes with neither flag, in order. */
  method GetWorkerNodes(p: Provider) returns (r: seq<Node>)
    ensures r == Filter(p.nodes, Worker)
    ensures forall n :: n in r <==> n in p.nodes && !n.isMaster && !n.isEtcd
  {
    r := SelectNodes(p.nodes, Worker);
  }

  /** `GetMasterNode`: the first master node of the list, or the error that
      no master node was found. */
  function GetMasterNode(p: Provider): (r: Result<Node, Error>)
    ensures r.Success? <==> exists i :: 0 <= i < |p.nodes| && p.nodes[i].isMaster
    ensures r.Success? ==> exists i :: (0 <= i < |p.nodes| && p.nodes[i] == r.value && r.value.isMaster
                                       && forall j :: 0 <= j < i ==> !p.nodes[j].isMaster)
    ensures r.Failure? ==> r.error == NoMasterNode
    decreases |p.nodes|
  {
    if |p.nodes| == 0 then Failure(NoMasterNode)
    else if p.nodes[0].isMaster then Success(p.nodes[0])
    else
      GetMasterNode(p.(nodes := p.nodes[1..]))
  }

  /** The first master is the head of the master view. */
  lemma {:induction false} MasterNodeIsFirstOfView(p: Provider)
    ensures GetMasterNode(p) ==
      (if |Filter(p.nodes, Master)| > 0 then Success(Filter(p.nodes, Master)[0]) else Failure(NoMasterNode))
    decreases |p.nodes|
  {
    if |p.nodes| > 0 {
      assert p.nodes == [p.nodes[0]] + p.nodes[1..];
      FilterConcat([p.nodes[0]], p.nodes[1..], Master);
      assert [p.nodes[0]][..0] == [];
      if !p.nodes[0].isMaster {
        MasterNodeIsFirstOfView(p.(nodes := p.nodes[1..]));
      }
    }
  }

  /** `GetCluster`: a snapshot of the provider's name and nodes. */
  function GetCluster(p: Provider): (r: Cluster)
    ensures r.name == p.clusterName
    ensures r.nodes == GetAllNodes(p)
  {
    Cluster(p.clusterName, p.nodes)
  }

  /** A snapshot taken after `SetNodes` holds exactly the nodes set, under
      the unchanged cluster name. */
  lemma ClusterAfterSetNodes(p: Provider, nodes: seq<Node>)
    ensures GetCluster(SetNodes(p, nodes)) == Cluster(p.clusterName, nodes)
  {
  }

  /** `MustWait`: whether some creation since the provider was made had to
      be awaited. */
  function MustWait(p: Provider): bool {
    p.wait
  }
}
