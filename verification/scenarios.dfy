/** Concrete runs of the provisioner: the names and addresses a small
    cluster gets, where its first masters are placed, and a worker
    scale-out, each against any reliable cloud. */
module Scenarios {
  import opened Results
  import opened Types
  import opened GoFormat
  import opened Cloud
  import opened Provision
  import opened Queries
  import opened Roles

  /** `%.02d` pads to two digits, never truncates, and puts the sign first;
      `%d` prints the plain decimal. */
  lemma FormatExamples()
    ensures FormatPrecision2(1) == "01"
    ensures FormatPrecision2(10) == "10"
    ensures FormatPrecision2(100) == "100"
    ensures FormatPrecision2(-3) == "-03"
    ensures FormatDecimal(11) == "11"
    ensures FormatDecimal(21) == "21"
  {
    assert Digits(1) == "1";
    assert Digits(10) == "10" by { assert Digits(1) == "1"; }
    assert Digits(100) == "100" by { assert Digits(10) == "10" by { assert Digits(1) == "1"; } }
    assert Digits(3) == "3";
    assert Digits(11) == "11" by { assert Digits(1) == "1"; }
    assert Digits(21) == "21" by { assert Digits(2) == "2"; }
  }

  /** The name of node `n` of cluster "k" for a role. */
  lemma ClusterKName(suffix: string, n: int)
    requires suffix in {"etcd", "master", "worker"}
    ensures ServerName("k", suffix, n) == "k-" + suffix + "-" + FormatPrecision2(n)
  {
    NoAtSignNoOccurrence("k", IndexMarker);
    RoleNameShape("k", suffix, n);
  }

  /** Two masters for a fresh cluster "k": `k-master-01` at 10.0.1.11 and
      `k-master-02` at 10.0.1.12, the first of them being the cluster's
      master node. */
  lemma TwoMastersScenario(c: CloudState, api: Api)
    requires Reliable(api) && api.sshKeyError("key1").None?
    ensures var o := CreateMasterNodes(NewProvider("k"), c, api, "key1", "cx11", ["fsn1", "nbg1"], 2, false);
      && o.result.Success?
      && |o.provider.nodes| == 2
      && o.provider.nodes[0].name == "k-master-01"
      && o.provider.nodes[0].privateIpAddress == "10.0.1.11"
      && o.provider.nodes[1].name == "k-master-02"
      && o.provider.nodes[1].privateIpAddress == "10.0.1.12"
      && GetMasterNode(o.provider) == Success(o.provider.nodes[0])
  {
    hide RunCreateServer, Loop, PlanFor, ServerName, PrivateIp;
    var p := NewProvider("k");
    var dcs := ["fsn1", "nbg1"];
    CreateNodesSucceeds(p, c, api, "master", MasterTemplate("key1", "cx11", false), dcs, 2, 0);
    MasterNodesCreated(p, c, api, "key1", "cx11", dcs, 2, false);
    FirstMasterAfterMasterBatch(p, c, api, "key1", "cx11", dcs, 2, false);
    var o := CreateMasterNodes(p, c, api, "key1", "cx11", dcs, 2, false);
    ClusterKName("master", 1);
    ClusterKName("master", 2);
    assert FormatPrecision2(1) == "01" by { assert Digits(1) == "1"; }
    assert FormatPrecision2(2) == "02" by { assert Digits(2) == "2"; }
    assert FormatDecimal(11) == "11" by { assert Digits(1) == "1"; }
    assert FormatDecimal(12) == "12" by { assert Digits(1) == "1"; }
    assert o.provider.nodes[0].name == ServerName("k", "master", 1);
    assert o.provider.nodes[1].name == ServerName("k", "master", 2);
  }

  /** Placement of those two masters over datacenters fsn1 and nbg1: the
      request for `k-master-01` asks for nbg1 (index 1 % 2) and the request
      for `k-master-02` for fsn1 (index 2 % 2). */
  lemma TwoMastersPlacement(c: CloudState, api: Api)
    ensures var o := CreateMasterNodes(NewProvider("k"), c, api, "key1", "cx11", ["fsn1", "nbg1"], 2, false);
      && |c.calls| <= |o.cloud.calls|
      && (forall k :: |c.calls| <= k < |o.cloud.calls| && o.cloud.calls[k].CreateServer? ==>
            && (o.cloud.calls[k].opts.name == ServerName("k", "master", 1) ==> o.cloud.calls[k].opts.datacenter == "nbg1")
            && (o.cloud.calls[k].opts.name == ServerName("k", "master", 2) ==> o.cloud.calls[k].opts.datacenter == "fsn1"))
  {
    hide RunCreateServer, Loop, PlanFor, ServerName, PrivateIp;
    var p := NewProvider("k");
    var dcs := ["fsn1", "nbg1"];
    CreateNodesPlacement(p, c, api, "master", MasterTemplate("key1", "cx11", false), dcs, 2, 0);
    var o := CreateMasterNodes(p, c, api, "key1", "cx11", dcs, 2, false);
    NoAtSignNoOccurrence("k", IndexMarker);
    NoAtSignNoOccurrence("master", IndexMarker);
    forall k | |c.calls| <= k < |o.cloud.calls| && o.cloud.calls[k].CreateServer?
      ensures o.cloud.calls[k].opts.name == ServerName("k", "master", 1) ==> o.cloud.calls[k].opts.datacenter == "nbg1"
      ensures o.cloud.calls[k].opts.name == ServerName("k", "master", 2) ==> o.cloud.calls[k].opts.datacenter == "fsn1"
    {
      var i :| (1 <= i <= 2
        && o.cloud.calls[k].opts.datacenter == dcs[i % |dcs|]
        && o.cloud.calls[k].opts.name == ServerName("k", "master", i + 0)
        && o.cloud.calls[k].opts.serverType == "cx11");
      ServerNameInjective("k", "master", i, 1);
      ServerNameInjective("k", "master", i, 2);
    }
  }

  /** Scaling the workers of cluster "k" from two to four: the second call,
      at offset 2, creates `k-worker-03` and `k-worker-04` at 10.0.1.23 and
      10.0.1.24, after `k-worker-01` and `k-worker-02` at 10.0.1.21 and
      10.0.1.22. */
  lemma WorkerScaleOutScenario(p: Provider, c: CloudState, api: Api)
    requires p.clusterName == "k" && |p.nodes| == 0
    requires Reliable(api) && api.sshKeyError("key1").None?
    ensures var o1 := CreateWorkerNodes(p, c, api, "key1", "cx21", ["fsn1"], 2, 0);
      var o2 := CreateWorkerNodes(o1.provider, o1.cloud, api, "key1", "cx21", ["fsn1"], 2, 2);
      && o1.result.Success? && o2.result.Success?
      && |o2.provider.nodes| == 4
      && o2.result.value == o2.provider.nodes[2..]
      && o2.provider.nodes[2].name == "k-worker-03"
      && o2.provider.nodes[3].name == "k-worker-04"
      && o2.provider.nodes[0].privateIpAddress == "10.0.1.21"
      && o2.provider.nodes[3].privateIpAddress == "10.0.1.24"
  {
    hide RunCreateServer, Loop, PlanFor, ServerName;
    var t := WorkerTemplate("key1", "cx21");
    CreateNodesSucceeds(p, c, api, "worker", t, ["fsn1"], 2, 0);
    var o1 := CreateWorkerNodes(p, c, api, "key1", "cx21", ["fsn1"], 2, 0);
    CreateNodesBatch(p, c, api, "worker", t, ["fsn1"], 2, 0);
    CreateNodesSucceeds(o1.provider, o1.cloud, api, "worker", t, ["fsn1"], 2, 2);
    CreateNodesBatch(o1.provider, o1.cloud, api, "worker", t, ["fsn1"], 2, 2);
    WorkerScaleOut(p, c, api, "key1", "cx21", ["fsn1"], 2, 2);
    var o2 := CreateWorkerNodes(o1.provider, o1.cloud, api, "key1", "cx21", ["fsn1"], 2, 2);
    ClusterKName("worker", 3);
    ClusterKName("worker", 4);
    assert FormatPrecision2(3) == "03" by { assert Digits(3) == "3"; }
    assert FormatPrecision2(4) == "04" by { assert Digits(4) == "4"; }
    assert FormatDecimal(21) == "21" by { assert Digits(2) == "2"; }
    assert FormatDecimal(24) == "24" by { assert Digits(2) == "2"; }
    assert o2.provider.nodes[2].name == ServerName("k", "worker", 3);
    assert o2.provider.nodes[3].name == ServerName("k", "worker", 4);
    assert o2.provider.nodes[0].privateIpAddress == "10.0.1." + FormatDecimal(21);
    assert o2.provider.nodes[3].privateIpAddress == "10.0.1." + FormatDecimal(24);
  }
}
