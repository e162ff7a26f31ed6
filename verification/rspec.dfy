/**
 * Plain records standing in for the resource-description objects the
 * profile scripts build (raw PCs, blockstores, services, a LAN and the
 * request that owns them). Only the fields the scripts set are kept.
 */
module Rspec {

  datatype Option<T> = None | Some(value: T)

  /** A post-boot service: fetch an archive to a path, or run a shell command. */
  datatype Service =
    | Install(url: string, path: string)
    | Execute(shell: string, command: string)

  datatype Blockstore = Blockstore(name: string, mount: string, size: string)

  /**
   * A raw PC. An empty hardware type or disk image stands for "not set",
   * which is how a node starts before the script assigns them.
   */
  datatype Node = Node(
    name: string,
    hardwareType: string,
    diskImage: string,
    site: Option<string>,
    blockstore: Option<Blockstore>,
    services: seq<Service>,
    interfaces: seq<string>)

  /** One LAN endpoint: an interface of a named node. */
  datatype Member = Member(node: string, iface: string)

  /** A LAN; a bandwidth, when set, is in kbps. */
  datatype Lan = Lan(bandwidth: Option<nat>, members: seq<Member>)

  /** A reference to a resource, in the order resources were added to the request. */
  datatype ResourceRef = NodeResource(name: string) | LanResource

  /**
   * The request: the nodes and the LAN as they stand when the script has
   * finished with them, and the order in which they were added.
   */
  datatype Request = Request(nodes: seq<Node>, lan: Lan, resources: seq<ResourceRef>)

  /** The bound profile parameters: disk image, node type and cluster size. */
  datatype Params = Params(image: string, hardwareType: string, size: int)

  const Eth0: string := "eth0"

  /** A freshly created raw PC with nothing but its name. */
  function RawPC(name: string): Node {
    Node(name, "", "", None, None, [], [])
  }

  /** The disk image reference: an image of the emulab-ops project. */
  function ImageUrn(image: string): string {
    "emulab-ops:" + image
  }

  function EmptyRequest(): Request {
    Request([], Lan(None, []), [])
  }
}
