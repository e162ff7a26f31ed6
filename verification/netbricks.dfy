/**
 * The NetBricks test profile: `size` homogeneous raw PCs named
 * "netbricks01", "netbricks02", ... at "Site 1", each running the NetBricks
 * setup script, all on one 10 Gbps LAN that is added to the request after
 * the nodes. There is no lower bound on the size.
 */
module NetbricksTest {
  import opened Rspec
  import opened Format

  /** Declared by the profile but never attached to any node. */
  const Disks: seq<string> := ["/dev/sdb", "/dev/sdc"]

  /** 10 Gbps, in kbps. */
  const LanBandwidthKbps: nat := 10000000
  const SiteName: string := "Site 1"

  const ScriptsArchive: string := "https://github.com/chinkulkarni/cloudLab-scripts/archive/master.tar.gz"
  const MoveScripts: string := "sudo mv /local/cloudLab-scripts-master /local/scripts"
  const SetupCommand: string := "sudo /local/scripts/netbricks_setup.sh"

  /** The number of iterations of a loop over `range(size)`. */
  function SlotCount(size: int): nat {
    if size < 0 then 0 else size
  }

  /** The name of the node in slot k (0-based): numbering starts at 01. */
  function Alias(k: nat): string {
    "netbricks" + Pad2(k + 1)
  }

  /** The three services of every node: fetch, relocate, run the setup script. */
  function SetupServices(): seq<Service> {
    [ Install(ScriptsArchive, "/local"),
      Execute("sh", MoveScripts),
      Execute("sh", SetupCommand) ]
  }

  /** The per-node settings the script applies; none depends on the slot. */
  ghost predicate IsConfigured(p: Params, n: Node) {
    && n.hardwareType == p.hardwareType
    && n.diskImage == ImageUrn(p.image)
    && n.site == Some(SiteName)
    && n.blockstore == None
    && n.services == SetupServices()
  }

  /** What the node in slot k looks like once the script is done with it. */
  ghost predicate IsTestNode(p: Params, k: nat, n: Node) {
    n.name == Alias(k) && IsConfigured(p, n) && n.interfaces == [Eth0]
  }

  /** The request the script builds. */
  ghost predicate IsTestRequest(p: Params, req: Request) {
    && |req.nodes| == SlotCount(p.size)
    && (forall k :: 0 <= k < |req.nodes| ==> IsTestNode(p, k, req.nodes[k]))
    && req.lan.bandwidth == Some(LanBandwidthKbps)
    && |req.lan.members| == |req.nodes|
    && (forall k :: 0 <= k < |req.lan.members| ==> req.lan.members[k] == Member(Alias(k), Eth0))
    && |req.resources| == |req.nodes| + 1
    && (forall k :: 0 <= k < |req.nodes| ==> req.resources[k] == NodeResource(Alias(k)))
    && req.resources[|req.nodes|] == LanResource
  }

  /** The alias list: one sequential name per slot, in ascending order. */
  method Aliases(size: int) returns (aliases: seq<string>)
    ensures |aliases| == SlotCount(size)
    ensures forall k :: 0 <= k < |aliases| ==> aliases[k] == Alias(k)
    ensures forall j, k :: 0 <= j < k < |aliases| ==> aliases[j] != aliases[k]
  {
    aliases := [];
    var i := 0;
    while i < size
      invariant 0 <= i
      invariant i <= SlotCount(size)
      invariant |aliases| == i
      invariant forall k :: 0 <= k < i ==> aliases[k] == Alias(k)
    {
      aliases := aliases + ["netbricks" + Pad2(i + 1)];
      i := i + 1;
    }
    forall j, k | 0 <= j < k < |aliases| ensures aliases[j] != aliases[k] {
      AliasInjective(j, k);
    }
  }

  /**
   * One pass of the node loop up to adding the node to the request: create
   * the raw PC, set type, image and site, queue the services.
   */
  method SetupNode(p: Params, name: string) returns (node: Node)
    ensures node.name == name && node.interfaces == []
    ensures IsConfigured(p, node)
  {
    node := RawPC(name);
    node := node.(hardwareType := p.hardwareType);
    node := node.(diskImage := ImageUrn(p.image));
    node := node.(site := Some(SiteName));

    node := node.(services := node.services + [Install(ScriptsArchive, "/local")]);
    node := node.(services := node.services + [Execute("sh", MoveScripts)]);
    node := node.(services := node.services + [Execute("sh", SetupCommand)]);
  }

  /**
   * Builds the request: a LAN with the fixed bandwidth, one node per slot in
   * order, and the LAN added to the request last.
   */
  method Build(p: Params) returns (request: Request)
    ensures IsTestRequest(p, request)
  {
    request := EmptyRequest();
    var lan := Lan(None, []);
    lan := lan.(bandwidth := Some(LanBandwidthKbps));

    var aliases := Aliases(p.size);
    request, lan := AddNodes(p, aliases, request, lan);

    // The LAN is added last, with all its members.
    request := request.(resources := request.resources + [LanResource], lan := lan);
  }

  /**
   * The node loop: one node per alias, in order. Each is added to the
   * request and joined to the LAN through its single interface, eth0.
   */
  method AddNodes(p: Params, aliases: seq<string>, request0: Request, lan0: Lan)
    returns (request: Request, lan: Lan)
    requires request0.nodes == [] && lan0.members == []
    ensures request.lan == request0.lan && lan.bandwidth == lan0.bandwidth
    ensures |request.nodes| == |lan.members| == |aliases|
    ensures |request.resources| == |request0.resources| + |aliases|
    ensures request.resources[..|request0.resources|] == request0.resources
    ensures forall k :: 0 <= k < |aliases| ==>
      && request.nodes[k].name == aliases[k]
      && IsConfigured(p, request.nodes[k])
      && request.nodes[k].interfaces == [Eth0]
      && request.resources[|request0.resources| + k] == NodeResource(aliases[k])
      && lan.members[k] == Member(aliases[k], Eth0)
  {
    request, lan := request0, lan0;
    var i := 0;
    while i < |aliases|
      invariant 0 <= i <= |aliases|
      invariant request.lan == request0.lan && lan.bandwidth == lan0.bandwidth
      invariant |request.nodes| == |lan.members| == i
      invariant |request.resources| == |request0.resources| + i
      invariant request.resources[..|request0.resources|] == request0.resources
      invariant forall k :: 0 <= k < i ==>
        && request.nodes[k].name == aliases[k]
        && IsConfigured(p, request.nodes[k])
        && request.nodes[k].interfaces == [Eth0]
        && request.resources[|request0.resources| + k] == NodeResource(aliases[k])
        && lan.members[k] == Member(aliases[k], Eth0)
    {
      var node := SetupNode(p, aliases[i]);

      request := request.(resources := request.resources + [NodeResource(node.name)]);

      node := node.(interfaces := node.interfaces + [Eth0]);
      lan := lan.(members := lan.members + [Member(node.name, Eth0)]);
      // The request holds the node itself, so it sees the interface added above.
      request := request.(nodes := request.nodes + [node]);
      i := i + 1;
    }
  }

  /** Distinct slots get distinct names. */
  lemma AliasInjective(j: nat, k: nat)
    ensures Alias(j) == Alias(k) ==> j == k
  {
    var s, t := Pad2(j + 1), Pad2(k + 1);
    Pad2Injective(j + 1, k + 1);
    assert ("netbricks" + s)[9..] == s;
    assert ("netbricks" + t)[9..] == t;
  }

  /** All node names in the request are pairwise distinct. */
  lemma NamesDistinct(p: Params, req: Request)
    requires IsTestRequest(p, req)
    ensures forall j, k :: 0 <= j < k < |req.nodes| ==> req.nodes[j].name != req.nodes[k].name
  {
    forall j, k | 0 <= j < k < |req.nodes| ensures req.nodes[j].name != req.nodes[k].name {
      AliasInjective(j, k);
    }
  }

  /** The nodes are identical apart from their names. */
  lemma Homogeneous(p: Params, req: Request)
    requires IsTestRequest(p, req)
    ensures forall j, k :: 0 <= j < |req.nodes| && 0 <= k < |req.nodes| ==>
      req.nodes[j].(name := "") == req.nodes[k].(name := "")
  {
  }

  /**
   * No node gets a blockstore or a disk-permission command although disks
   * are declared: each has exactly the three setup services.
   */
  lemma NoDiskSetup(p: Params, req: Request)
    requires IsTestRequest(p, req)
    ensures forall k :: 0 <= k < |req.nodes| ==>
      req.nodes[k].blockstore == None && |req.nodes[k].services| == 3
    ensures forall k, d :: 0 <= k < |req.nodes| && 0 <= d < |Disks| ==>
      Execute("sh", "sudo chmod 777 " + Disks[d]) !in req.nodes[k].services
  {
  }

  /**
   * The LAN carries the 10 Gbps limit, has one member per node (that node's
   * only interface, eth0) and is added to the request after every node.
   */
  lemma LanJoinsEveryNode(p: Params, req: Request)
    requires IsTestRequest(p, req)
    ensures req.lan.bandwidth == Some(10000000)
    ensures |req.lan.members| == |req.nodes|
    ensures forall k :: 0 <= k < |req.nodes| ==>
      req.nodes[k].interfaces == [Eth0] && req.lan.members[k] == Member(req.nodes[k].name, Eth0)
    ensures req.resources == seq(|req.nodes|, k requires 0 <= k < |req.nodes| => NodeResource(req.nodes[k].name)) + [LanResource]
  {
  }

  /** A size of zero or less gives no nodes and an empty LAN, added alone. */
  lemma EmptyWhenNonPositive(p: Params, req: Request)
    requires IsTestRequest(p, req) && p.size <= 0
    ensures req.nodes == [] && req.lan.members == [] && req.resources == [LanResource]
  {
  }

  /** The request is determined by the parameters: building twice gives the same result. */
  lemma Deterministic(p: Params, a: Request, b: Request)
    requires IsTestRequest(p, a) && IsTestRequest(p, b)
    ensures a == b
  {
  }

  /** With the default size of two: netbricks01 and netbricks02. */
  lemma DefaultSizeNames(p: Params, req: Request)
    requires IsTestRequest(p, req) && p.size == 2
    ensures req.nodes[0].name == "netbricks01" && req.nodes[1].name == "netbricks02"
  {
  }
}
