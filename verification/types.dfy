/** The records the provisioner works with: the node template, the
    provisioned node, the cluster snapshot, and the provider's own state. */
module Types {

  /** The desired shape of a batch: a `clustermanager.Node` of which the
      provisioner reads only these four fields. */
  datatype Template = Template(
    sshKeyName: string,
    serverType: string,
    isMaster: bool,
    isEtcd: bool)

  /** A provisioned cluster member. A node with neither role flag is a worker. */
  datatype Node = Node(
    name: string,
    serverType: string,
    isMaster: bool,
    isEtcd: bool,
    ipAddress: string,
    privateIpAddress: string,
    sshKeyName: string)

  /** A machine as the cloud reports it; the public IPv4 address is opaque text. */
  datatype Server = Server(name: string, ipv4: string)

  /** Errors the provider reports (`hcloud.Error`, with its code) and the one
      the provider raises itself when no master node exists. */
  datatype Error = ApiError(code: string, message: string) | NoMasterNode

  /** The error code with which the cloud rejects a create for a taken name. */
  const UniquenessError: string := "uniqueness_error"

  /** The provider's state: the cluster's name, the nodes accumulated so far
      in insertion order, and whether any server creation has been awaited. */
  datatype Provider = Provider(clusterName: string, nodes: seq<Node>, wait: bool)

  datatype Cluster = Cluster(name: string, nodes: seq<Node>)
}
