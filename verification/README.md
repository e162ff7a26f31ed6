# CloudLab cluster profiles, modelled in Dafny

Two CloudLab profile scripts each build a resource request for a cluster of
identical raw PCs on one LAN:

- `ramcloud-cluster.py` (a RAMCloud cluster): rejects a size below eight. It
  names the nodes `rcmaster`, `rcnfs`, `rc01`, `rc02`, … and gives `rcnfs` a
  200GB blockstore at `/shome`. Every node fetches the RAMCloud setup scripts
  and runs `startup.sh <size>`. Nodes other than `rcmaster` and `rcnfs` also
  get `chmod 777` on each replica disk. The LAN is added to the request first
  and has no bandwidth limit.
- `netbricks-test.py` (a NetBricks test bed): names the nodes `netbricks01`,
  `netbricks02`, …, places them at `Site 1` and runs `netbricks_setup.sh` on
  each. It has no size check. The LAN is limited to 10000000 kbps and is added
  to the request after the nodes.

The resource objects of the scripts' library become plain records (module
`Rspec`): a `Request` holds its nodes, its LAN and the order in which
resources were added to it. The scripts' loops become methods with `while`
loops. Each method is proved against a predicate that describes the finished
request (`IsClusterRequest`, `IsTestRequest`), and lemmas derive the
properties the profiles rely on from that predicate: distinct names, which
node gets which blockstore and services, LAN membership, resource order and
determinism.

Module `Format` models Python's `"%d"` and `"%02d"`. A decimal string has a
reference reading, `ValueOf`. Both formats round-trip through it, so `"%02d"`
is injective, and that is why all generated node names are distinct.

Some details of the scripts that the model keeps as they are:

- The reserved names are `rcmaster` and `rcnfs`.
- The size is any integer. A loop over `range(size)` with a negative size
  does not run.
- The size error is the library's parameter error. It carries the script's
  own message, including the spelling "atleast".
- The setup steps are an Install (fetch and unpack in one step), then an
  `mv`, then the startup command.

## Model

| member | source | states |
|---|---|---|
| `Format.FormatInt` | ramcloud-cluster.py:91 | `"%d"`: a non-negative number renders as digits that read back as the number; a negative one renders as a minus sign followed by such digits; 0 renders as "0", and for any other number the first digit is not a zero, so the rendering is the shortest one |
| `Format.Pad2` | ramcloud-cluster.py:67 | `"%02d"` always gives at least two characters, all of them digits |
| `Format.Pad2Shape` | netbricks-test.py:60 | below 10, `"%02d"` gives a zero and then the digit; from 10 on, it gives exactly the decimal rendering (it never truncates, so 100 gives "100") |
| `Format.Decimal` | ramcloud-cluster.py:91 | the decimal rendering of a natural number is a non-empty digit string, one digit long exactly below 10, and it starts with '0' exactly for 0 |
| `Format.DecimalRoundTrip` | ramcloud-cluster.py:91 | reading the decimal rendering of n back gives n |
| `Format.Pad2RoundTrip` | ramcloud-cluster.py:67 | reading `"%02d"` of n back gives n: the padding loses nothing |
| `Format.Pad2Injective` | netbricks-test.py:60 | two numbers with the same `"%02d"` rendering are equal |
| `Format.Pad2Examples` | netbricks-test.py:60 | 1, 9, 10 and 100 render as "01", "09", "10" and "100" |
| `RamcloudCluster.Aliases` | ramcloud-cluster.py:65-67 | the alias list is "rcmaster", then "rcnfs", then "rc" + `"%02d"`(k) for k = 1..size-2 (only the two reserved names when size < 2); it has `size` entries for size ≥ 2, and they are pairwise distinct |
| `RamcloudCluster.SetupNode` | ramcloud-cluster.py:71-97 | a node built for a name has that name, the bound hardware type and image `emulab-ops:<image>`, no site and no interface yet; it has the blockstore exactly when its name is "rcnfs"; its services are the three startup services, followed, exactly when the name is neither reserved name, by what the loop over the disks adds: one `chmod 777` per disk, in disk order |
| `RamcloudCluster.AddNodes` | ramcloud-cluster.py:70-103 | the node loop adds one node per alias, in alias order, each configured as above and with the single interface eth0; it appends one node resource per alias after the resources already in the request; it makes each node's eth0 a LAN member in the same order; it leaves the LAN's bandwidth alone |
| `RamcloudCluster.Build` | ramcloud-cluster.py:53-103 | a size below 8 yields the parameter error "The cluster must consist of atleast 8 nodes." and nothing else; any other size yields a request satisfying `IsClusterRequest`: `size` nodes in slot order, the LAN first in the resource order, unlimited, with one eth0 member per node |
| `RamcloudCluster.AliasInjective` | ramcloud-cluster.py:65-67 | different slots get different names: "rcmaster" and "rcnfs" are not of the form "rc" + digits, and `"%02d"` is injective |
| `RamcloudCluster.ReservedSlots` | ramcloud-cluster.py:94 | a slot's name is reserved exactly for slots 0 and 1, and it is "rcnfs" exactly for slot 1 |
| `RamcloudCluster.NamesDistinct` | ramcloud-cluster.py:70-71 | in a built request, all node names are pairwise distinct |
| `RamcloudCluster.OnlyNfsHasBlockstore` | ramcloud-cluster.py:77-79 | only the node in slot 1, named "rcnfs", has a blockstore, which is "bs" at "/shome" of "200GB"; every other node has none |
| `RamcloudCluster.ServicesPerSlot` | ramcloud-cluster.py:82-97 | every node's services start with the same three: the install to /local, the `mv`, then startup.sh. Nodes in slots 0 and 1 have nothing more; every later node has one `chmod 777` per disk, in disk order, after those three |
| `RamcloudCluster.StartupGetsSize` | ramcloud-cluster.py:89-91 | every node's third service runs startup.sh with one argument, a digit string whose value is the cluster size and whose first digit is not a zero; together these fix the argument as the `"%d"` rendering of the size |
| `RamcloudCluster.LanJoinsEveryNode` | ramcloud-cluster.py:60-103 | the LAN has no bandwidth and is the first resource; it has one member per node (`size` in all); each node has exactly the interface eth0, and that interface is its LAN member; the LAN has no other members |
| `RamcloudCluster.Deterministic` | ramcloud-cluster.py:70-103 | two requests built from the same parameters are equal |
| `RamcloudCluster.DefaultSizeNames` | ramcloud-cluster.py:65-67 | with size 8 the eight names are, in order, rcmaster, rcnfs, rc01, rc02, rc03, rc04, rc05 and rc06 |
| `NetbricksTest.Aliases` | netbricks-test.py:58-60 | the alias list is "netbricks" + `"%02d"`(k + 1) for k = 0..size-1, in ascending order (empty for size ≤ 0), and its entries are pairwise distinct |
| `NetbricksTest.SetupNode` | netbricks-test.py:64-81 | a node built for a name has that name, the bound hardware type, image `emulab-ops:<image>`, site "Site 1" and no blockstore. Its services are exactly: install of the cloudLab-scripts archive to /local, the `mv`, then `netbricks_setup.sh` with no argument. It has no interface yet |
| `NetbricksTest.AddNodes` | netbricks-test.py:63-87 | the node loop adds one node per alias, in alias order, each configured as above and with the single interface eth0; it appends one node resource per alias; it makes each node's eth0 a LAN member in the same order; it leaves the LAN's bandwidth alone |
| `NetbricksTest.Build` | netbricks-test.py:51-90 | the request satisfies `IsTestRequest`: one node per slot (none for size ≤ 0), named in order; the LAN has a bandwidth of 10000000 kbps and one eth0 member per node; the LAN is added after every node |
| `NetbricksTest.AliasInjective` | netbricks-test.py:58-60 | different slots get different names |
| `NetbricksTest.NamesDistinct` | netbricks-test.py:63-64 | in a built request, all node names are pairwise distinct |
| `NetbricksTest.Homogeneous` | netbricks-test.py:66-81 | any two nodes of a built request are equal apart from their names |
| `NetbricksTest.NoDiskSetup` | netbricks-test.py:63-87 | no node has a blockstore; every node has exactly three services, none of them a `chmod 777` on a declared disk |
| `NetbricksTest.LanJoinsEveryNode` | netbricks-test.py:54-90 | the LAN bandwidth is exactly 10000000 kbps; there is one LAN member per node, and it is that node's single eth0 interface; the resource order is all nodes in slot order, then the LAN |
| `NetbricksTest.EmptyWhenNonPositive` | netbricks-test.py:58-63 | a size of 0 or less gives no nodes and a LAN with no members, and the LAN is the only resource |
| `NetbricksTest.Deterministic` | netbricks-test.py:63-90 | two requests built from the same parameters are equal |
| `NetbricksTest.DefaultSizeNames` | netbricks-test.py:58-60 | with size 2, the names are netbricks01 and netbricks02 |

## Left out

- Parameter declaration and binding (the portal context, `defineParameter`, `bindParameters`, the enumerated image and node-type choices and their defaults) belong to the profile library. The bound parameters are an input, `Params`.
- The `images` and `nodes` display tables only feed the portal's user interface.
- Serialising the request (`printRequestRSpec`) is library code and output.
- Image references are resolved through the library's URN helper against the Utah aggregate. The model keeps the image reference as the string `emulab-ops:<image>`, with the aggregate fixed.
- The size check is modelled as an error result, and nothing is built after it. Whether the script really stops after `reportError` is up to the library, so the model does not capture building after the error is reported.
- Library objects are references: the script adds the LAN (and each node) to the request and mutates it afterwards. The model keeps the final node and LAN values plus the order in which resources were added. It does not model object identity.
- The node's blockstore is created with its name and mount, and its size is assigned afterwards. The model builds it as one record.
- What the shell commands and downloaded scripts do on the machines. The commands are kept as plain strings.
