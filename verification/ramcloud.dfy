/**
 * The RAMCloud cluster profile: at least eight homogeneous raw PCs on one
 * LAN. The first two carry the reserved names "rcmaster" (management) and
 * "rcnfs" (NFS server with a 200GB blockstore); the rest are "rc01",
 * "rc02", ... and get write access to the raw disks used for segment
 * replicas. Every node downloads the setup scripts and runs startup.sh
 * with the cluster size.
 */
module RamcloudCluster {
  import opened Rspec
  import opened Format

  const MinClusterSize: int := 8
  const SizeErrorMessage: string := "The cluster must consist of atleast 8 nodes."

  const MasterName: string := "rcmaster"
  const NfsName: string := "rcnfs"

  /** The disks on which RAMCloud stores segment replicas. */
  const Disks: seq<string> := ["/dev/sdb", "/dev/sdc"]

  const ScriptsArchive: string :=
    "https://github.com/chinkulkarni/RAMCloud-CloudLab-Scripts/archive/master.tar.gz"
  const MoveScripts: string := "sudo mv /local/RAMCloud-CloudLab-Scripts-master /local/scripts"
  const StartupPrefix: string := "sudo /local/scripts/startup.sh "
  const NfsBlockstore: Blockstore := Blockstore("bs", "/shome", "200GB")

  /** The outcome of building the profile: a request, or the parameter error reported. */
  datatype BuildResult = Built(request: Request) | ParameterError(message: string)

  /** The name of the node in slot k (0-based). */
  function Alias(k: nat): string {
    if k == 0 then MasterName
    else if k == 1 then NfsName
    else "rc" + Pad2(k - 1)
  }

  predicate IsReserved(name: string) {
    name == MasterName || name == NfsName
  }

  /** The three services every node starts with: fetch, relocate, run startup.sh. */
  function StartupServices(size: int): seq<Service> {
    [ Install(ScriptsArchive, "/local"),
      Execute("sh", MoveScripts),
      Execute("sh", StartupPrefix + FormatInt(size)) ]
  }

  function DiskPermission(disk: string): Service {
    Execute("sh", "sudo chmod 777 " + disk)
  }

  /** One permission-relaxing command per disk, in list order. */
  function DiskPermissions(disks: seq<string>): seq<Service> {
    seq(|disks|, d requires 0 <= d < |disks| => DiskPermission(disks[d]))
  }

  /**
   * The per-node settings the script applies, all decided by the node's
   * name: hardware type and image from the parameters, the blockstore for
   * "rcnfs", the startup services and, off the reserved names, disk access.
   */
  ghost predicate IsConfigured(p: Params, n: Node) {
    && n.hardwareType == p.hardwareType
    && n.diskImage == ImageUrn(p.image)
    && n.site == None
    && n.blockstore == (if n.name == NfsName then Some(NfsBlockstore) else None)
    && n.services == ServicesFor(p.size, n.name)
  }

  /** The services of a node: the startup three, then disk access off the reserved names. */
  function ServicesFor(size: int, name: string): seq<Service> {
    StartupServices(size) + (if IsReserved(name) then [] else DiskPermissions(Disks))
  }

  /** What the node in slot k looks like once the script is done with it. */
  ghost predicate IsClusterNode(p: Params, k: nat, n: Node) {
    n.name == Alias(k) && IsConfigured(p, n) && n.interfaces == [Eth0]
  }

  /** The request the script builds for a size that passed the check. */
  ghost predicate IsClusterRequest(p: Params, req: Request) {
    && p.size >= MinClusterSize
    && |req.nodes| == p.size
    && (forall k :: 0 <= k < |req.nodes| ==> IsClusterNode(p, k, req.nodes[k]))
    && req.lan.bandwidth == None
    && |req.lan.members| == p.size
    && (forall k :: 0 <= k < |req.lan.members| ==> req.lan.members[k] == Member(Alias(k), Eth0))
    && |req.resources| == p.size + 1
    && req.resources[0] == LanResource
    && (forall k :: 1 <= k < |req.resources| ==> req.resources[k] == NodeResource(Alias(k - 1)))
  }

  /**
   * The alias list: the two reserved names, then one sequential name per
   * remaining slot. A size below 2 leaves just the reserved names.
   */
  method Aliases(size: int) returns (aliases: seq<string>)
    ensures |aliases| == if size < 2 then 2 else size
    ensures forall k :: 0 <= k < |aliases| ==> aliases[k] == Alias(k)
    ensures aliases[0] == MasterName && aliases[1] == NfsName
    ensures forall j, k :: 0 <= j < k < |aliases| ==> aliases[j] != aliases[k]
  {
    aliases := [MasterName, NfsName];
    var i := 0;
    while i < size - 2
      invariant 0 <= i
      invariant size >= 2 ==> i <= size - 2
      invariant size < 2 ==> i == 0
      invariant |aliases| == i + 2
      invariant forall k :: 0 <= k < |aliases| ==> aliases[k] == Alias(k)
    {
      aliases := aliases + ["rc" + Pad2(i + 1)];
      i := i + 1;
    }
    forall j, k | 0 <= j < k < |aliases| ensures aliases[j] != aliases[k] {
      AliasInjective(j, k);
    }
  }

  /**
   * One pass of the node loop up to adding the node to the request: create
   * the raw PC, set type and image, attach the NFS blockstore, queue the
   * services.
   */
  method SetupNode(p: Params, name: string) returns (node: Node)
    ensures node.name == name && node.interfaces == []
    ensures IsConfigured(p, node)
  {
    node := RawPC(name);
    node := node.(hardwareType := p.hardwareType);
    node := node.(diskImage := ImageUrn(p.image));

    if name == NfsName {
      node := node.(blockstore := Some(NfsBlockstore));
    }

    node := node.(services := node.services + [Install(ScriptsArchive, "/local")]);
    node := node.(services := node.services + [Execute("sh", MoveScripts)]);
    node := node.(services := node.services
                    + [Execute("sh", StartupPrefix + FormatInt(p.size))]);

    if name != MasterName && name != NfsName {
      ghost var before := node;
      for d := 0 to |Disks|
        invariant node == before.(services := before.services + DiskPermissions(Disks[..d]))
      {
        assert DiskPermissions(Disks[..d + 1]) == DiskPermissions(Disks[..d]) + [DiskPermission(Disks[d])];
        node := node.(services := node.services + [DiskPermission(Disks[d])]);
      }
      assert Disks[..|Disks|] == Disks;
    }
  }

  /**
   * Builds the request: rejects a size below eight before anything is
   * built; otherwise adds the LAN first, then one node per slot in order.
   */
  method Build(p: Params) returns (r: BuildResult)
    ensures r.ParameterError? <==> p.size < MinClusterSize
    ensures r.ParameterError? ==> r.message == SizeErrorMessage
    ensures r.Built? ==> IsClusterRequest(p, r.request)
  {
    if p.size < MinClusterSize {
      return ParameterError(SizeErrorMessage);
    }
    var request := EmptyRequest();
    var lan := Lan(None, []);
    request := request.(resources := request.resources + [LanResource]);

    var aliases := Aliases(p.size);
    request, lan := AddNodes(p, aliases, request, lan);

    // The LAN was added first, but the request sees it with all its members.
    request := request.(lan := lan);
    r := Built(request);
  }

  /**
   * The node loop: one node per alias, in order. Each is added to the
   * request and joined to the LAN through its single interface, eth0.
   */
  method AddNodes(p: Params, aliases: seq<string>, request0: Request, lan0: Lan)
    returns (request: Request, lan: Lan)
    requires request0.nodes == [] && lan0.members == []
    ensures request.lan == request0.lan && lan.bandwidth == lan0.bandwidth
    ensures |request.nodes| == |lan.members| == |aliases|
    ensures |request.resources| == |request0.resources| + |aliases|
    ensures request.resources[..|request0.resources|] == request0.resources
    ensures forall k :: 0 <= k < |aliases| ==>
      && request.nodes[k].name == aliases[k]
      && IsConfigured(p, request.nodes[k])
      && request.nodes[k].interfaces == [Eth0]
      && request.resources[|request0.resources| + k] == NodeResource(aliases[k])
      && lan.members[k] == Member(aliases[k], Eth0)
  {
    request, lan := request0, lan0;
    var i := 0;
    while i < |aliases|
      invariant 0 <= i <= |aliases|
      invariant request.lan == request0.lan && lan.bandwidth == lan0.bandwidth
      invariant |request.nodes| == |lan.members| == i
      invariant |request.resources| == |request0.resources| + i
      invariant request.resources[..|request0.resources|] == request0.resources
      invariant forall k :: 0 <= k < i ==>
        && request.nodes[k].name == aliases[k]
        && IsConfigured(p, request.nodes[k])
        && request.nodes[k].interfaces == [Eth0]
        && request.resources[|request0.resources| + k] == NodeResource(aliases[k])
        && lan.members[k] == Member(aliases[k], Eth0)
    {
      var node := SetupNode(p, aliases[i]);

      request := request.(resources := request.resources + [NodeResource(node.name)]);

      node := node.(interfaces := node.interfaces + [Eth0]);
      lan := lan.(members := lan.members + [Member(node.name, Eth0)]);
      // The request holds the node itself, so it sees the interface added above.
      request := request.(nodes := request.nodes + [node]);
      i := i + 1;
    }
  }

  /** Slots get distinct names: the reserved names are not of the form "rc" + digits. */
  lemma AliasInjective(j: nat, k: nat)
    ensures Alias(j) == Alias(k) ==> j == k
  {
    if j != k {
      if j >= 2 && k >= 2 {
        SequentialInjective(j - 1, k - 1);
      } else if j >= 2 {
        SequentialNotReserved(j - 1);
      } else if k >= 2 {
        SequentialNotReserved(k - 1);
      } else {
        assert |MasterName| != |NfsName|;
      }
    }
  }

  lemma SequentialInjective(a: nat, b: nat)
    ensures "rc" + Pad2(a) == "rc" + Pad2(b) ==> a == b
  {
    var s, t := Pad2(a), Pad2(b);
    Pad2Injective(a, b);
    assert ("rc" + s)[2..] == s;
    assert ("rc" + t)[2..] == t;
  }

  lemma SequentialNotReserved(a: nat)
    ensures !IsReserved("rc" + Pad2(a))
  {
    var s := Pad2(a);
    var name := "rc" + s;
    assert name[2] == s[0];
    assert IsDigit(name[2]);
    assert MasterName[2] == 'm' && NfsName[2] == 'n';
  }

  /** Exactly the first two slots carry reserved names. */
  lemma ReservedSlots(k: nat)
    ensures IsReserved(Alias(k)) <==> k < 2
    ensures Alias(k) == NfsName <==> k == 1
  {
    AliasInjective(k, 0);
    AliasInjective(k, 1);
  }

  /** All node names in the request are pairwise distinct. */
  lemma NamesDistinct(p: Params, req: Request)
    requires IsClusterRequest(p, req)
    ensures forall j, k :: 0 <= j < k < |req.nodes| ==> req.nodes[j].name != req.nodes[k].name
  {
    forall j, k | 0 <= j < k < |req.nodes| ensures req.nodes[j].name != req.nodes[k].name {
      AliasInjective(j, k);
    }
  }

  /** Only the "rcnfs" node, in slot 1, gets the 200GB blockstore mounted at /shome. */
  lemma OnlyNfsHasBlockstore(p: Params, req: Request)
    requires IsClusterRequest(p, req)
    ensures req.nodes[1].name == NfsName
    ensures req.nodes[1].blockstore == Some(Blockstore("bs", "/shome", "200GB"))
    ensures forall k :: 0 <= k < |req.nodes| && k != 1 ==> req.nodes[k].blockstore == None
  {
    forall k | 0 <= k < |req.nodes| && k != 1 ensures req.nodes[k].blockstore == None {
      ReservedSlots(k);
    }
  }

  /**
   * Every node starts with the same three services; the nodes after the two
   * reserved ones then get one chmod per disk, in list order, and the
   * reserved ones get nothing more.
   */
  lemma ServicesPerSlot(p: Params, req: Request)
    requires IsClusterRequest(p, req)
    ensures forall k :: 0 <= k < |req.nodes| ==>
      |req.nodes[k].services| == 3 + (if k < 2 then 0 else |Disks|)
    ensures forall k :: 0 <= k < |req.nodes| ==> req.nodes[k].services[..3] == StartupServices(p.size)
    ensures forall k, d :: 2 <= k < |req.nodes| && 0 <= d < |Disks| ==>
      req.nodes[k].services[3 + d] == Execute("sh", "sudo chmod 777 " + Disks[d])
  {
    forall k | 0 <= k < |req.nodes|
      ensures |req.nodes[k].services| == 3 + (if k < 2 then 0 else |Disks|)
      ensures req.nodes[k].services[..3] == StartupServices(p.size)
      ensures k >= 2 ==> req.nodes[k].services[3..] == DiskPermissions(Disks)
    {
      ReservedSlots(k);
    }
  }

  /**
   * startup.sh receives the cluster size as its one argument, in shortest
   * decimal form: digits whose value is the size, with no leading zero.
   */
  lemma StartupGetsSize(p: Params, req: Request)
    requires IsClusterRequest(p, req)
    ensures forall k :: 0 <= k < |req.nodes| ==>
      && req.nodes[k].services[2].Execute?
      && var c := req.nodes[k].services[2].command;
         && |c| > |StartupPrefix|
         && c[..|StartupPrefix|] == StartupPrefix
         && AllDigits(c[|StartupPrefix|..])
         && ValueOf(c[|StartupPrefix|..]) == p.size
         && c[|StartupPrefix|] != '0'
  {
  }

  /**
   * One LAN, no bandwidth limit, added to the request first; each node has
   * the single interface eth0 and it is the LAN member for that node.
   */
  lemma LanJoinsEveryNode(p: Params, req: Request)
    requires IsClusterRequest(p, req)
    ensures req.lan.bandwidth == None && req.resources[0] == LanResource
    ensures |req.lan.members| == |req.nodes| == p.size
    ensures forall k :: 0 <= k < |req.nodes| ==>
      req.nodes[k].interfaces == [Eth0] && req.lan.members[k] == Member(req.nodes[k].name, Eth0)
    ensures forall m :: m in req.lan.members ==>
      exists k :: 0 <= k < |req.nodes| && m == Member(req.nodes[k].name, Eth0)
  {
  }

  /** The request is determined by the parameters: building twice gives the same result. */
  lemma Deterministic(p: Params, a: Request, b: Request)
    requires IsClusterRequest(p, a) && IsClusterRequest(p, b)
    ensures a == b
  {
  }

  /** With the default size of eight: the two reserved names, then rc01 to rc06. */
  lemma DefaultSizeNames(p: Params, req: Request)
    requires IsClusterRequest(p, req) && p.size == 8
    ensures req.nodes[0].name == "rcmaster" && req.nodes[1].name == "rcnfs"
    ensures req.nodes[2].name == "rc01" && req.nodes[3].name == "rc02"
    ensures req.nodes[4].name == "rc03" && req.nodes[5].name == "rc04"
    ensures req.nodes[6].name == "rc05" && req.nodes[7].name == "rc06"
  {
  }
}
