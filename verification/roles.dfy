/** The role wrappers around `CreateNodes` (`CreateEtcdNodes`,
    `CreateMasterNodes`, `CreateWorkerNodes`) and what a batch of each role
    does to the provider's views, snapshot and wait flag. */
module Roles {
  import opened Results
  import opened Types
  import opened GoFormat
  import opened Cloud
  import opened Provision
  import opened Queries

  /** The result of a wrapper that reports only whether the batch failed. */
  function ErrorOnly(o: Outcome<seq<Node>>): (r: Outcome<()>)
    ensures r.provider == o.provider && r.cloud == o.cloud
    ensures r.result.Success? <==> o.result.Success?
    ensures r.result.Failure? ==> r.result.error == o.result.error
  {
    Outcome(o.provider, o.cloud, if o.result.Success? then Success(()) else Failure(o.result.error))
  }

  function EtcdTemplate(sshKeyName: string, serverType: string): Template {
    Template(sshKeyName, serverType, false, true)
  }

  function MasterTemplate(sshKeyName: string, serverType: string, isEtcd: bool): Template {
    Template(sshKeyName, serverType, true, isEtcd)
  }

  function WorkerTemplate(sshKeyName: string, serverType: string): Template {
    Template(sshKeyName, serverType, false, false)
  }

  /** `CreateEtcdNodes`: etcd-only nodes named `<cluster>-etcd-NN`, numbered
      from 1; only the error is returned. */
  function CreateEtcdNodes(
    p: Provider, c: CloudState, api: Api,
    sshKeyName: string, masterServerType: string, datacenters: seq<string>, count: int)
    : Outcome<()>
    requires count <= 0 || |datacenters| > 0
  {
    ErrorOnly(CreateNodes(p, c, api, "etcd", EtcdTemplate(sshKeyName, masterServerType), datacenters, count, 0))
  }

  /** `CreateMasterNodes`: master nodes named `<cluster>-master-NN`,
      numbered from 1, also etcd members when `isEtcd`; only the error is
      returned. */
  function CreateMasterNodes(
    p: Provider, c: CloudState, api: Api,
    sshKeyName: string, masterServerType: string, datacenters: seq<string>, count: int, isEtcd: bool)
    : Outcome<()>
    requires count <= 0 || |datacenters| > 0
  {
    ErrorOnly(CreateNodes(p, c, api, "master", MasterTemplate(sshKeyName, masterServerType, isEtcd), datacenters, count, 0))
  }

  /** `CreateWorkerNodes`: worker nodes named `<cluster>-worker-NN`,
      numbered from `offset + 1`; the new nodes are returned. */
  function CreateWorkerNodes(
    p: Provider, c: CloudState, api: Api,
    sshKeyName: string, workerServerType: string, datacenters: seq<string>, count: int, offset: int)
    : Outcome<seq<Node>>
    requires count <= 0 || |datacenters| > 0
  {
    CreateNodes(p, c, api, "worker", WorkerTemplate(sshKeyName, workerServerType), datacenters, count, offset)
  }

  /** The role's fixed suffix carries no index marker, so a node's name is
      the plain concatenation whenever the cluster name carries none. */
  lemma RoleNameShape(clusterName: string, suffix: string, n: int)
    requires suffix in {"etcd", "master", "worker"}
    requires !Contains(clusterName, IndexMarker)
    ensures ServerName(clusterName, suffix, n) == clusterName + "-" + suffix + "-" + FormatPrecision2(n)
  {
    NoAtSignNoOccurrence(suffix, IndexMarker);
    ServerNameShape(clusterName, suffix, n);
  }

  /** Node `n`, numbered `m` in a batch created from `template` with
      `suffix`, has the template's fields, the name numbered `m` and the
      private address of number `m` for its role. */
  ghost predicate RoleNode(n: Node, clusterName: string, suffix: string, template: Template, m: int) {
    && n.isMaster == template.isMaster
    && n.isEtcd == template.isEtcd
    && n.serverType == template.serverType
    && n.sshKeyName == template.sshKeyName
    && n.name == ServerName(clusterName, suffix, m)
    && (!Contains(clusterName, IndexMarker) ==> n.name == clusterName + "-" + suffix + "-" + FormatPrecision2(m))
    && n.privateIpAddress == "10.0.1." + FormatDecimal(PrivateBlock(template, m))
  }

  /** What every wrapper guarantees about the nodes it appends. */
  lemma BatchOfRole(
    p: Provider, c: CloudState, api: Api,
    suffix: string, template: Template, datacenters: seq<string>, count: int, offset: int)
    requires suffix in {"etcd", "master", "worker"}
    requires count <= 0 || |datacenters| > 0
    ensures var o := CreateNodes(p, c, api, suffix, template, datacenters, count, offset);
      && Extends(p.nodes, o.provider.nodes)
      && (forall k :: |p.nodes| <= k < |o.provider.nodes| ==>
            RoleNode(o.provider.nodes[k], p.clusterName, suffix, template, k - |p.nodes| + 1 + offset))
  {
    hide RunCreateServer, Loop, PlanFor, ServerName, FormatPrecision2;
    CreateNodesBatch(p, c, api, suffix, template, datacenters, count, offset);
    var o := CreateNodes(p, c, api, suffix, template, datacenters, count, offset);
    var plan := PlanFor(p.clusterName, suffix, template, datacenters, count, offset);
    forall k | |p.nodes| <= k < |o.provider.nodes|
      ensures RoleNode(o.provider.nodes[k], p.clusterName, suffix, template, k - |p.nodes| + 1 + offset)
    {
      assert Provisioned(o.provider.nodes[k], plan, 1 + k - |p.nodes|);
      if !Contains(p.clusterName, IndexMarker) {
        RoleNameShape(p.clusterName, suffix, k - |p.nodes| + 1 + offset);
      }
    }
  }

  /** Etcd nodes are etcd and not master, numbered 1..count, with private
      addresses `10.0.1.<n>`; on success exactly `count` are appended; a
      failure returns the batch's error. */
  lemma EtcdNodesCreated(
    p: Provider, c: CloudState, api: Api,
    sshKeyName: string, masterServerType: string, datacenters: seq<string>, count: int)
    requires count <= 0 || |datacenters| > 0
    ensures var o := CreateEtcdNodes(p, c, api, sshKeyName, masterServerType, datacenters, count);
      var batch := CreateNodes(p, c, api, "etcd", EtcdTemplate(sshKeyName, masterServerType), datacenters, count, 0);
      && o.provider.clusterName == p.clusterName
      && Extends(p.nodes, o.provider.nodes)
      && (forall k :: |p.nodes| <= k < |o.provider.nodes| ==>
            var n := o.provider.nodes[k];
            var m := k - |p.nodes| + 1;
            && n.isEtcd && !n.isMaster
            && n.serverType == masterServerType && n.sshKeyName == sshKeyName
            && n.name == ServerName(p.clusterName, "etcd", m)
            && n.privateIpAddress == "10.0.1." + FormatDecimal(m))
      && (o.result.Success? ==> |o.provider.nodes| == |p.nodes| + (if count > 0 then count else 0))
      && (o.result.Failure? ==> batch.result.Failure? && o.result.error == batch.result.error)
  {
    hide RunCreateServer, Loop, PlanFor, ServerName, FormatPrecision2;
    var t := EtcdTemplate(sshKeyName, masterServerType);
    BatchOfRole(p, c, api, "etcd", t, datacenters, count, 0);
    CreateNodesBatch(p, c, api, "etcd", t, datacenters, count, 0);
    var o := CreateEtcdNodes(p, c, api, sshKeyName, masterServerType, datacenters, count);
    forall k | |p.nodes| <= k < |o.provider.nodes|
      ensures o.provider.nodes[k].name == ServerName(p.clusterName, "etcd", k - |p.nodes| + 1)
      ensures o.provider.nodes[k].privateIpAddress == "10.0.1." + FormatDecimal(k - |p.nodes| + 1)
    {
      assert RoleNode(o.provider.nodes[k], p.clusterName, "etcd", t, k - |p.nodes| + 1 + 0);
    }
  }

  /** Master nodes are masters and etcd members exactly when asked, numbered
      1..count; their private address is `10.0.1.<n>` when they are etcd
      members and `10.0.1.<n+10>` otherwise. */
  lemma MasterNodesCreated(
    p: Provider, c: CloudState, api: Api,
    sshKeyName: string, masterServerType: string, datacenters: seq<string>, count: int, isEtcd: bool)
    requires count <= 0 || |datacenters| > 0
    ensures var o := CreateMasterNodes(p, c, api, sshKeyName, masterServerType, datacenters, count, isEtcd);
      var batch := CreateNodes(p, c, api, "master", MasterTemplate(sshKeyName, masterServerType, isEtcd), datacenters, count, 0);
      && o.provider.clusterName == p.clusterName
      && Extends(p.nodes, o.provider.nodes)
      && (forall k :: |p.nodes| <= k < |o.provider.nodes| ==>
            var n := o.provider.nodes[k];
            var m := k - |p.nodes| + 1;
            && n.isMaster && n.isEtcd == isEtcd
            && n.serverType == masterServerType && n.sshKeyName == sshKeyName
            && n.name == ServerName(p.clusterName, "master", m)
            && n.privateIpAddress == "10.0.1." + FormatDecimal(if isEtcd then m else m + 10))
      && (o.result.Success? ==> |o.provider.nodes| == |p.nodes| + (if count > 0 then count else 0))
      && (o.result.Failure? ==> batch.result.Failure? && o.result.error == batch.result.error)
  {
    hide RunCreateServer, Loop, PlanFor, ServerName, FormatPrecision2;
    var t := MasterTemplate(sshKeyName, masterServerType, isEtcd);
    BatchOfRole(p, c, api, "master", t, datacenters, count, 0);
    CreateNodesBatch(p, c, api, "master", t, datacenters, count, 0);
    var o := CreateMasterNodes(p, c, api, sshKeyName, masterServerType, datacenters, count, isEtcd);
    forall k | |p.nodes| <= k < |o.provider.nodes|
      ensures o.provider.nodes[k].name == ServerName(p.clusterName, "master", k - |p.nodes| + 1)
      ensures var m := k - |p.nodes| + 1;
        o.provider.nodes[k].privateIpAddress == "10.0.1." + FormatDecimal(if isEtcd then m else m + 10)
    {
      assert RoleNode(o.provider.nodes[k], p.clusterName, "master", t, k - |p.nodes| + 1 + 0);
    }
  }

  /** Worker nodes have neither flag and are numbered from `offset + 1`,
      with private addresses `10.0.1.<n+20>`; on success the call returns
      exactly the nodes it appended. */
  lemma WorkerNodesCreated(
    p: Provider, c: CloudState, api: Api,
    sshKeyName: string, workerServerType: string, datacenters: seq<string>, count: int, offset: int)
    requires count <= 0 || |datacenters| > 0
    ensures var o := CreateWorkerNodes(p, c, api, sshKeyName, workerServerType, datacenters, count, offset);
      && o.provider.clusterName == p.clusterName
      && Extends(p.nodes, o.provider.nodes)
      && (forall k :: |p.nodes| <= k < |o.provider.nodes| ==>
            var n := o.provider.nodes[k];
            var m := k - |p.nodes| + 1 + offset;
            && !n.isMaster && !n.isEtcd
            && n.serverType == workerServerType && n.sshKeyName == sshKeyName
            && n.name == ServerName(p.clusterName, "worker", m)
            && n.privateIpAddress == "10.0.1." + FormatDecimal(m + 20))
      && (o.result.Success? ==>
            && |o.result.value| == (if count > 0 then count else 0)
            && o.provider.nodes == p.nodes + o.result.value)
  {
    hide RunCreateServer, Loop, PlanFor, ServerName, FormatPrecision2;
    var t := WorkerTemplate(sshKeyName, workerServerType);
    BatchOfRole(p, c, api, "worker", t, datacenters, count, offset);
    CreateNodesBatch(p, c, api, "worker", t, datacenters, count, offset);
  }

  /** The nodes a call appended to the provider's list. */
  function Appended(before: Provider, after: Provider): seq<Node>
    requires |before.nodes| <= |after.nodes|
  {
    after.nodes[|before.nodes|..]
  }

  /** The view of a role after a batch: the old view followed by the
      batch's nodes when they have the role, the old view otherwise. */
  lemma ViewAfterBatch(before: seq<Node>, after: seq<Node>, role: Role, added: bool)
    requires Extends(before, after)
    requires forall k :: |before| <= k < |after| ==> HasRole(after[k], role) == added
    ensures Filter(after, role) == Filter(before, role) + (if added then after[|before|..] else [])
  {
    assert after == before + after[|before|..];
    FilterConcat(before, after[|before|..], role);
    if added {
      FilterAll(after[|before|..], role);
    } else {
      FilterNone(after[|before|..], role);
    }
  }

  /** A worker batch extends the worker view by the returned nodes and
      leaves the master and etcd views as they were, whether or not it
      fails part-way. */
  lemma ViewsAfterWorkerBatch(
    p: Provider, c: CloudState, api: Api,
    sshKeyName: string, workerServerType: string, datacenters: seq<string>, count: int, offset: int)
    requires count <= 0 || |datacenters| > 0
    ensures var o := CreateWorkerNodes(p, c, api, sshKeyName, workerServerType, datacenters, count, offset);
      && |p.nodes| <= |o.provider.nodes|
      && Filter(o.provider.nodes, Worker) == Filter(p.nodes, Worker) + Appended(p, o.provider)
      && Filter(o.provider.nodes, Master) == Filter(p.nodes, Master)
      && Filter(o.provider.nodes, Etcd) == Filter(p.nodes, Etcd)
      && (o.result.Success? ==> Appended(p, o.provider) == o.result.value)
  {
    hide RunCreateServer, Loop, PlanFor, ServerName, FormatPrecision2, CreateWorkerNodes;
    WorkerNodesCreated(p, c, api, sshKeyName, workerServerType, datacenters, count, offset);
    var o := CreateWorkerNodes(p, c, api, sshKeyName, workerServerType, datacenters, count, offset);
    ViewAfterBatch(p.nodes, o.provider.nodes, Worker, true);
    ViewAfterBatch(p.nodes, o.provider.nodes, Master, false);
    ViewAfterBatch(p.nodes, o.provider.nodes, Etcd, false);
  }

  /** A master batch extends the master view by the appended nodes, extends
      the etcd view by them exactly when they are etcd members, and leaves
      the worker view as it was. */
  lemma ViewsAfterMasterBatch(
    p: Provider, c: CloudState, api: Api,
    sshKeyName: string, masterServerType: string, datacenters: seq<string>, count: int, isEtcd: bool)
    requires count <= 0 || |datacenters| > 0
    ensures var o := CreateMasterNodes(p, c, api, sshKeyName, masterServerType, datacenters, count, isEtcd);
      && |p.nodes| <= |o.provider.nodes|
      && Filter(o.provider.nodes, Master) == Filter(p.nodes, Master) + Appended(p, o.provider)
      && Filter(o.provider.nodes, Etcd) == Filter(p.nodes, Etcd) + (if isEtcd then Appended(p, o.provider) else [])
      && Filter(o.provider.nodes, Worker) == Filter(p.nodes, Worker)
  {
    hide RunCreateServer, Loop, PlanFor, ServerName, FormatPrecision2, CreateMasterNodes;
    MasterNodesCreated(p, c, api, sshKeyName, masterServerType, datacenters, count, isEtcd);
    var o := CreateMasterNodes(p, c, api, sshKeyName, masterServerType, datacenters, count, isEtcd);
    ViewAfterBatch(p.nodes, o.provider.nodes, Master, true);
    ViewAfterBatch(p.nodes, o.provider.nodes, Etcd, isEtcd);
    ViewAfterBatch(p.nodes, o.provider.nodes, Worker, false);
  }

  /** An etcd batch extends the etcd view by the appended nodes and leaves
      the master and worker views as they were. */
  lemma ViewsAfterEtcdBatch(
    p: Provider, c: CloudState, api: Api,
    sshKeyName: string, masterServerType: string, datacenters: seq<string>, count: int)
    requires count <= 0 || |datacenters| > 0
    ensures var o := CreateEtcdNodes(p, c, api, sshKeyName, masterServerType, datacenters, count);
      && |p.nodes| <= |o.provider.nodes|
      && Filter(o.provider.nodes, Etcd) == Filter(p.nodes, Etcd) + Appended(p, o.provider)
      && Filter(o.provider.nodes, Master) == Filter(p.nodes, Master)
      && Filter(o.provider.nodes, Worker) == Filter(p.nodes, Worker)
  {
    hide RunCreateServer, Loop, PlanFor, ServerName, FormatPrecision2, CreateEtcdNodes;
    EtcdNodesCreated(p, c, api, sshKeyName, masterServerType, datacenters, count);
    var o := CreateEtcdNodes(p, c, api, sshKeyName, masterServerType, datacenters, count);
    ViewAfterBatch(p.nodes, o.provider.nodes, Etcd, true);
    ViewAfterBatch(p.nodes, o.provider.nodes, Master, false);
    ViewAfterBatch(p.nodes, o.provider.nodes, Worker, false);
  }

  /** On a provider without masters, a master batch that created at least
      one node makes its first node, `<cluster>-master-01`, the master that
      `GetMasterNode` returns; while no node was appended it still fails. */
  lemma FirstMasterAfterMasterBatch(
    p: Provider, c: CloudState, api: Api,
    sshKeyName: string, masterServerType: string, datacenters: seq<string>, count: int, isEtcd: bool)
    requires count <= 0 || |datacenters| > 0
    requires Filter(p.nodes, Master) == []
    ensures var o := CreateMasterNodes(p, c, api, sshKeyName, masterServerType, datacenters, count, isEtcd);
      && |p.nodes| <= |o.provider.nodes|
      && (|o.provider.nodes| == |p.nodes| ==> GetMasterNode(o.provider) == Failure(NoMasterNode))
      && (|o.provider.nodes| > |p.nodes| ==>
            && GetMasterNode(o.provider) == Success(o.provider.nodes[|p.nodes|])
            && o.provider.nodes[|p.nodes|].name == ServerName(p.clusterName, "master", 1))
  {
    hide RunCreateServer, Loop, PlanFor, ServerName, FormatPrecision2, CreateMasterNodes;
    MasterNodesCreated(p, c, api, sshKeyName, masterServerType, datacenters, count, isEtcd);
    ViewsAfterMasterBatch(p, c, api, sshKeyName, masterServerType, datacenters, count, isEtcd);
    var o := CreateMasterNodes(p, c, api, sshKeyName, masterServerType, datacenters, count, isEtcd);
    MasterNodeIsFirstOfView(o.provider);
  }

  /** After any batch the snapshot names the same cluster and lists the old
      nodes followed by the appended ones; on success those are the batch. */
  lemma ClusterAfterBatch(
    p: Provider, c: CloudState, api: Api,
    suffix: string, template: Template, datacenters: seq<string>, count: int, offset: int)
    requires count <= 0 || |datacenters| > 0
    ensures var o := CreateNodes(p, c, api, suffix, template, datacenters, count, offset);
      && |p.nodes| <= |o.provider.nodes|
      && GetCluster(o.provider) == Cluster(p.clusterName, p.nodes + Appended(p, o.provider))
      && (o.result.Success? ==> GetCluster(o.provider) == Cluster(p.clusterName, p.nodes + o.result.value))
  {
    hide RunCreateServer, Loop, PlanFor, ServerName, FormatPrecision2, PrivateIp;
    CreateNodesBatch(p, c, api, suffix, template, datacenters, count, offset);
    var o := CreateNodes(p, c, api, suffix, template, datacenters, count, offset);
    assert o.provider.nodes == p.nodes + Appended(p, o.provider);
  }

  /** `MustWait` after a batch holds exactly when it held before or a
      creation awaited during the batch succeeded; a batch never clears it. */
  lemma MustWaitAfterBatch(
    p: Provider, c: CloudState, api: Api,
    suffix: string, template: Template, datacenters: seq<string>, count: int, offset: int)
    requires count <= 0 || |datacenters| > 0
    ensures var o := CreateNodes(p, c, api, suffix, template, datacenters, count, offset);
      && |c.calls| <= |o.cloud.calls|
      && MustWait(o.provider) == (MustWait(p) || AwaitedOk(NewCalls(c, o.cloud)))
      && (MustWait(p) ==> MustWait(o.provider))
  {
    hide RunCreateServer, Loop, PlanFor, ServerName, FormatPrecision2;
    CreateNodesWait(p, c, api, suffix, template, datacenters, count, offset);
  }

  /** Scaling out: `count` workers at offset 0 followed by `more` workers at
      offset `count` number the workers 1..count+more consecutively, with
      private addresses 21 upwards. */
  lemma WorkerScaleOut(
    p: Provider, c: CloudState, api: Api,
    sshKeyName: string, workerServerType: string, datacenters: seq<string>, count: nat, more: nat)
    requires |datacenters| > 0
    ensures var o1 := CreateWorkerNodes(p, c, api, sshKeyName, workerServerType, datacenters, count, 0);
      var o2 := CreateWorkerNodes(o1.provider, o1.cloud, api, sshKeyName, workerServerType, datacenters, more, count);
      o1.result.Success? && o2.result.Success? ==>
        && |o2.provider.nodes| == |p.nodes| + count + more
        && o2.provider.nodes == p.nodes + o1.result.value + o2.result.value
        && forall k :: |p.nodes| <= k < |o2.provider.nodes| ==>
             var n := o2.provider.nodes[k];
             var m := k - |p.nodes| + 1;
             && !n.isMaster && !n.isEtcd
             && n.name == ServerName(p.clusterName, "worker", m)
             && n.privateIpAddress == "10.0.1." + FormatDecimal(m + 20)
  {
    hide RunCreateServer, Loop, PlanFor, ServerName, FormatPrecision2, CreateWorkerNodes;
    WorkerNodesCreated(p, c, api, sshKeyName, workerServerType, datacenters, count, 0);
    var o1 := CreateWorkerNodes(p, c, api, sshKeyName, workerServerType, datacenters, count, 0);
    WorkerNodesCreated(o1.provider, o1.cloud, api, sshKeyName, workerServerType, datacenters, more, count);
    var o2 := CreateWorkerNodes(o1.provider, o1.cloud, api, sshKeyName, workerServerType, datacenters, more, count);
    if o1.result.Success? && o2.result.Success? {
      forall k | |p.nodes| <= k < |o2.provider.nodes|
        ensures var n := o2.provider.nodes[k];
          var m := k - |p.nodes| + 1;
          && !n.isMaster && !n.isEtcd
          && n.name == ServerName(p.clusterName, "worker", m)
          && n.privateIpAddress == "10.0.1." + FormatDecimal(m + 20)
      {
        if k < |o1.provider.nodes| {
          assert o2.provider.nodes[k] == o1.provider.nodes[k];
        } else {
          var m2 := k - |o1.provider.nodes| + 1 + count;
          assert m2 == k - |p.nodes| + 1;
          assert o2.provider.nodes[k].name == ServerName(p.clusterName, "worker", m2);
          assert o2.provider.nodes[k].privateIpAddress == "10.0.1." + FormatDecimal(m2 + 20);
        }
      }
    }
  }
}
