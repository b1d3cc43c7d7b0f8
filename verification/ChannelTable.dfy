/**
 The table of DMA channels: how `axidma_of.c` counts and checks the channels of the device tree,
 and how `libaxidma.c` sorts them into arrays of the sizes counted and finds one by its id.
 */
module ChannelTable {
  datatype Dir = Write | Read
  datatype Type = Dma | Vdma
  datatype Chan = Chan(dir: Dir, typ: Type, id: int)

  /** What a device-tree node says it is compatible with. */
  datatype Compatible = Channel(dir: Dir, typ: Type) | Lacking | Other

  /** One entry of the `dmas` property and what it leads to: the return code of looking it up, its
      arguments, the number of channel nodes below it, and of the channel node whether its id and
      its name can be read, and what it is compatible with. */
  datatype Node = Node(lookup: int, args: nat, channel: int, children: nat, hasId: bool, id: int,
                       compatible: Compatible, named: bool)

  const ENOMEM: int := 12
  const EINVAL: int := 22

  /** The counters the driver keeps and reports. */
  datatype Counts = Counts(dmaTx: nat, dmaRx: nat, vdmaTx: nat, vdmaRx: nat) {
    function Total(): nat {
      dmaTx + dmaRx + vdmaTx + vdmaRx
    }

    predicate AtMost(that: Counts) {
      dmaTx <= that.dmaTx && dmaRx <= that.dmaRx && vdmaTx <= that.vdmaTx && vdmaRx <= that.vdmaRx
    }

    function Bump(dir: Dir, typ: Type): Counts {
      match (dir, typ)
      case (Write, Dma) => this.(dmaTx := dmaTx + 1)
      case (Read, Dma) => this.(dmaRx := dmaRx + 1)
      case (Write, Vdma) => this.(vdmaTx := vdmaTx + 1)
      case (Read, Vdma) => this.(vdmaRx := vdmaRx + 1)
    }
  }

  const NO_COUNTS := Counts(0, 0, 0, 0)

  /** The ids of the channels of one kind, in the order of the table. */
  function Ids(chans: seq<Chan>, dir: Dir, typ: Type): seq<int> {
    if chans == [] then []
    else
      var c := chans[|chans| - 1];
      Ids(chans[..|chans| - 1], dir, typ) + if c.dir == dir && c.typ == typ then [c.id] else []
  }

  function CountsOf(chans: seq<Chan>): Counts {
    Counts(|Ids(chans, Write, Dma)|, |Ids(chans, Read, Dma)|, |Ids(chans, Write, Vdma)|, |Ids(chans, Read, Vdma)|)
  }

  predicate Unique(chans: seq<Chan>) {
    forall i, j :: 0 <= i < j < |chans| ==> chans[i].id != chans[j].id
  }

  // ----- the driver's side

  /** Why an entry is refused, 0 if it is not. The second channel of a device with one channel node
      has no id to read. */
  function NodeError(n: Node): int {
    if n.lookup < 0 then n.lookup
    else if n.args >= 1 && n.channel in {0, 1} && n.channel < n.children <= 2 && n.hasId
              && !n.compatible.Other? && n.named then 0
    else -EINVAL
  }

  /** An entry is accepted if and only if it was found, has a channel argument of 0 or 1, leads to a
      device with one or two channel nodes of which the one asked for is there and has an id, a known
      or missing `compatible` and a name; it is refused with the code of the lookup or with -EINVAL. */
  lemma AcceptedIff(n: Node)
    ensures NodeError(n) == 0 <==>
      && n.lookup >= 0 && n.args >= 1 && (n.channel == 0 || n.channel == 1)
      && (n.children == 1 || n.children == 2) && n.channel < n.children
      && n.hasId && (n.compatible.Channel? || n.compatible.Lacking?) && n.named
    ensures NodeError(n) != 0 ==> NodeError(n) == if n.lookup < 0 then n.lookup else -EINVAL
  {
  }

  /** Entry k is the first that is refused. */
  predicate FirstRefused(nodes: seq<Node>, k: nat)
    requires k < |nodes|
  {
    NodeError(nodes[k]) != 0 && forall j :: 0 <= j < k ==> NodeError(nodes[j]) == 0
  }

  /** The record of a node: one without a `compatible` property leaves the direction and type that
      were in memory before. */
  function Parsed(node: Node, before: Chan): Chan {
    if node.compatible.Channel? then Chan(node.compatible.dir, node.compatible.typ, node.id)
    else before.(id := node.id)
  }

  function Counted(node: Node, counts: Counts): Counts {
    if node.compatible.Channel? then counts.Bump(node.compatible.dir, node.compatible.typ) else counts
  }

  function Records(nodes: seq<Node>, before: seq<Chan>): (chans: seq<Chan>)
    requires |before| == |nodes|
    ensures |chans| == |nodes|
  {
    seq(|nodes|, i requires 0 <= i < |nodes| => Parsed(nodes[i], before[i]))
  }

  function AllCounted(nodes: seq<Node>): Counts {
    if nodes == [] then NO_COUNTS else Counted(nodes[|nodes| - 1], AllCounted(nodes[..|nodes| - 1]))
  }

  function Nameless(nodes: seq<Node>): nat {
    if nodes == [] then 0
    else Nameless(nodes[..|nodes| - 1]) + if nodes[|nodes| - 1].compatible.Lacking? then 1 else 0
  }

  lemma CountStep(node: Node, before: Chan, counts: Counts, table: Counts)
    requires counts.AtMost(table) && !node.compatible.Other?
    ensures var chan := Parsed(node, before);
      && Counted(node, counts).AtMost(table.Bump(chan.dir, chan.typ))
      && table.Bump(chan.dir, chan.typ).Total() == table.Total() + 1
      && Counted(node, counts).Total() == counts.Total() + if node.compatible.Lacking? then 0 else 1
  {
  }

  lemma RecordsGrow(nodes: seq<Node>, before: seq<Chan>)
    requires |before| == |nodes| > 0
    ensures var k := |nodes| - 1;
      Records(nodes, before) == Records(nodes[..k], before[..k]) + [Parsed(nodes[k], before[k])]
  {
    hide Parsed;
  }

  /** The driver's counters never exceed the table's counts. */
  lemma {:induction false} CountsAtMostTable(nodes: seq<Node>, before: seq<Chan>)
    requires |before| == |nodes|
    requires forall n :: n in nodes ==> !n.compatible.Other?
    ensures AllCounted(nodes).AtMost(CountsOf(Records(nodes, before)))
    ensures AllCounted(nodes).Total() + Nameless(nodes) == |nodes|
    ensures CountsOf(Records(nodes, before)).Total() == |nodes|
  {
    if nodes == [] {
      assert Records(nodes, before) == [];
    } else {
      hide CountsOf, Counted, Parsed, Records;
      hide Counts.Bump, Counts.AtMost, Counts.Total;
      var k := |nodes| - 1;
      var rest, olds := nodes[..k], before[..k];
      CountsAtMostTable(rest, olds);
      RecordsGrow(nodes, before);
      CountsGrow(Records(rest, olds), Parsed(nodes[k], before[k]));
      CountStep(nodes[k], before[k], AllCounted(rest), CountsOf(Records(rest, olds)));
    }
  }

  /** The driver's counts fit the table exactly, whatever was in memory before, if and only if no
      node lacks its `compatible` property. */
  lemma CountsFitIffNamed(nodes: seq<Node>, before: seq<Chan>)
    requires |before| == |nodes|
    requires forall n :: n in nodes ==> !n.compatible.Other?
    ensures AllCounted(nodes) == CountsOf(Records(nodes, before)) <==> Nameless(nodes) == 0
  {
    CountsAtMostTable(nodes, before);
  }

  /** The part of the driver's device structure that `axidma_of.c` fills in. */
  class Driver {
    const channels: array<Chan>
    var counts: Counts

    constructor (channels: array<Chan>)
      ensures this.channels == channels
    {
      this.channels := channels;
    }

    /** `axidma_check_unique_ids`. */
    method CheckUniqueIds() returns (rc: int)
      ensures rc == if Unique(channels[..]) then 0 else -EINVAL
    {
      for i := 0 to channels.Length
        invariant forall k, l :: 0 <= k < i && k < l < channels.Length ==> channels[k].id != channels[l].id
      {
        for j := i + 1 to channels.Length
          invariant forall l :: i < l < j ==> channels[i].id != channels[l].id
        {
          if channels[i].id == channels[j].id {
            assert channels[..][i].id == channels[..][j].id;
            return -EINVAL;
          }
        }
      }
      return 0;
    }

    /** `axidma_of_parse_channel` with `axidma_parse_compatible_property`, and the name. */
    method ParseNode(i: nat, node: Node) returns (rc: int)
      requires i < channels.Length && node.lookup >= 0
      modifies this`counts, channels
      ensures rc == NodeError(node)
      ensures rc == 0 ==> counts == Counted(node, old(counts)) && channels[i] == Parsed(node, old(channels[i]))
      ensures forall k :: 0 <= k < channels.Length && k != i ==> channels[k] == old(channels[k])
    {
      if node.args < 1 {
        return -EINVAL;
      } else if node.channel != 0 && node.channel != 1 {
        return -EINVAL;
      }
      if node.children < 1 {
        return -EINVAL;
      } else if node.children > 2 {
        return -EINVAL;
      }
      if node.channel >= node.children || !node.hasId {
        return -EINVAL;
      }
      channels[i] := channels[i].(id := node.id);
      match node.compatible {
        case Channel(dir, typ) =>
          channels[i] := channels[i].(dir := dir, typ := typ);
          counts := counts.Bump(dir, typ);
        case Lacking =>
        case Other =>
          return -EINVAL;
      }
      return if node.named then 0 else -EINVAL;
    }

    /** The loop of `axidma_of_parse_dma_nodes` over the channels. */
    method ParseNodes(nodes: seq<Node>) returns (rc: int)
      requires |nodes| == channels.Length
      modifies this`counts, channels
      ensures forall k :: 0 <= k < |nodes| && FirstRefused(nodes, k) ==> rc == NodeError(nodes[k])
      ensures (forall k :: 0 <= k < |nodes| ==> NodeError(nodes[k]) == 0) ==>
        rc == if Unique(Records(nodes, old(channels[..]))) then 0 else -EINVAL
      ensures rc == 0 <==>
        && (forall j, k :: 0 <= j < k < |nodes| ==> nodes[j].id != nodes[k].id)
        && forall k :: 0 <= k < |nodes| ==>
             var n := nodes[k];
             && n.lookup >= 0 && n.args >= 1 && (n.channel == 0 || n.channel == 1)
             && (n.children == 1 || n.children == 2) && n.channel < n.children
             && n.hasId && (n.compatible.Channel? || n.compatible.Lacking?) && n.named
      ensures rc == 0 ==> channels[..] == Records(nodes, old(channels[..])) && counts == AllCounted(nodes)
    {
      hide NodeError, Counted, Parsed;
      forall k | 0 <= k < |nodes|
        ensures NodeError(nodes[k]) == 0 <==>
          var n := nodes[k];
          && n.lookup >= 0 && n.args >= 1 && (n.channel == 0 || n.channel == 1)
          && (n.children == 1 || n.children == 2) && n.channel < n.children
          && n.hasId && (n.compatible.Channel? || n.compatible.Lacking?) && n.named
      {
        AcceptedIff(nodes[k]);
      }
      ghost var before := channels[..];
      counts := NO_COUNTS;
      for i := 0 to |nodes|
        invariant counts == AllCounted(nodes[..i])
        invariant forall k :: 0 <= k < i ==> NodeError(nodes[k]) == 0
        invariant forall k :: 0 <= k < i ==> channels[k] == Parsed(nodes[k], before[k])
        invariant forall k :: i <= k < |nodes| ==> channels[k] == before[k]
      {
        if nodes[i].lookup < 0 {
          LookupFails(nodes[i]);
          return nodes[i].lookup;
        }
        rc := ParseNode(i, nodes[i]);
        if rc != 0 {
          return;
        }
        assert nodes[..i + 1][..i] == nodes[..i];
      }
      assert nodes[..|nodes|] == nodes;
      assert channels[..] == Records(nodes, before);
      UniqueIff(nodes, before);
      rc := CheckUniqueIds();
    }

    /** The entries of the board: a DMA with two channel nodes, named once for each channel. */
    method ParseBothChannels(tx: Node, rx: Node) returns (rc: int)
      requires channels.Length == 2
      requires tx == Node(0, 1, 0, 2, true, 0, Channel(Write, Dma), true)
      requires rx == Node(0, 1, 1, 2, true, 1, Channel(Read, Dma), true)
      modifies this`counts, channels
      ensures rc == 0
      ensures channels[..] == [Chan(Write, Dma, 0), Chan(Read, Dma, 1)] && counts == Counts(1, 1, 0, 0)
    {
      ghost var before := channels[..];
      rc := ParseNodes([tx, rx]);
      assert [tx, rx][..1] == [tx] && [tx][..0] == [];
      assert AllCounted([tx]) == Counts(1, 0, 0, 0);
      assert Records([tx, rx], before) == [Chan(Write, Dma, 0), Chan(Read, Dma, 1)];
    }
  }

  /** The ids recorded are those of the nodes. */
  lemma UniqueIff(nodes: seq<Node>, before: seq<Chan>)
    requires |before| == |nodes|
    ensures Unique(Records(nodes, before))
       <==> forall j, k :: 0 <= j < k < |nodes| ==> nodes[j].id != nodes[k].id
  {
    assert forall k :: 0 <= k < |nodes| ==> Records(nodes, before)[k].id == nodes[k].id;
  }

  lemma LookupFails(n: Node)
    requires n.lookup < 0
    ensures NodeError(n) == n.lookup
  {
  }

  // ----- the library's side

  lemma IdsGrow(chans: seq<Chan>, c: Chan)
    ensures forall dir, typ :: Ids(chans + [c], dir, typ)
                            == Ids(chans, dir, typ) + if c.dir == dir && c.typ == typ then [c.id] else []
  {
    assert (chans + [c])[..|chans|] == chans;
  }

  lemma CountsGrow(chans: seq<Chan>, c: Chan)
    ensures CountsOf(chans + [c]) == CountsOf(chans).Bump(c.dir, c.typ)
  {
    IdsGrow(chans, c);
    hide Ids;
  }

  lemma {:induction false} CountsGrowing(chans: seq<Chan>, k: nat)
    requires k <= |chans|
    ensures CountsOf(chans[..k]).AtMost(CountsOf(chans))
  {
    hide CountsOf;
    if k == |chans| {
      assert chans[..k] == chans;
    } else {
      var n := |chans| - 1;
      CountsGrowing(chans[..n], k);
      assert chans[..n][..k] == chans[..k];
      assert chans[..n] + [chans[n]] == chans;
      CountsGrow(chans[..n], chans[n]);
    }
  }

  /** The ids of the four kinds, one kind after the other. */
  function ByKind(chans: seq<Chan>): seq<int> {
    Ids(chans, Write, Dma) + Ids(chans, Read, Dma) + Ids(chans, Write, Vdma) + Ids(chans, Read, Vdma)
  }

  /** How often an id stands among the channels of one kind. */
  function Times(chans: seq<Chan>, dir: Dir, typ: Type, id: int): nat {
    multiset(Ids(chans, dir, typ))[id]
  }

  lemma KindsAddUp(chans: seq<Chan>, id: int)
    ensures multiset(ByKind(chans))[id]
         == Times(chans, Write, Dma, id) + Times(chans, Read, Dma, id)
            + Times(chans, Write, Vdma, id) + Times(chans, Read, Vdma, id)
  {
    hide Ids;
  }

  lemma TimesGrow(chans: seq<Chan>, c: Chan, dir: Dir, typ: Type, id: int)
    ensures Times(chans + [c], dir, typ, id)
         == Times(chans, dir, typ, id) + if c == Chan(dir, typ, id) then 1 else 0
  {
    IdsGrow(chans, c);
    hide Ids;
  }

  lemma AllGrow(chans: seq<Chan>, c: Chan, id: int)
    ensures multiset(AllIds(chans + [c]))[id] == multiset(AllIds(chans))[id] + if c.id == id then 1 else 0
  {
    assert (chans + [c])[..|chans|] == chans;
  }

  /** A channel counts for exactly one of the four kinds. */
  lemma KindsGrow(chans: seq<Chan>, c: Chan, id: int)
    ensures multiset(ByKind(chans + [c]))[id] == multiset(ByKind(chans))[id] + if c.id == id then 1 else 0
  {
    KindsAddUp(chans, id);
    KindsAddUp(chans + [c], id);
    hide ByKind, Times;
    TimesGrow(chans, c, Write, Dma, id);
    TimesGrow(chans, c, Read, Dma, id);
    TimesGrow(chans, c, Write, Vdma, id);
    TimesGrow(chans, c, Read, Vdma, id);
    assert c == Chan(c.dir, c.typ, c.id) && (c.dir == Write || c.dir == Read) && (c.typ == Dma || c.typ == Vdma);
  }

  lemma {:induction false} EachAsOften(chans: seq<Chan>, id: int)
    ensures multiset(ByKind(chans))[id] == multiset(AllIds(chans))[id]
  {
    if chans == [] {
      NoIds();
    } else {
      hide ByKind, AllIds;
      var rest, c := chans[..|chans| - 1], chans[|chans| - 1];
      assert rest + [c] == chans;
      EachAsOften(rest, id);
      KindsGrow(rest, c, id);
      AllGrow(rest, c, id);
    }
  }

  /** They hold every id of the table, each as often as the table does. */
  lemma KindsPartition(chans: seq<Chan>)
    ensures multiset(ByKind(chans)) == multiset(AllIds(chans))
  {
    hide ByKind, AllIds;
    forall id: int
      ensures multiset(ByKind(chans))[id] == multiset(AllIds(chans))[id]
    {
      EachAsOften(chans, id);
    }
  }

  lemma NoIds()
    ensures forall dir, typ :: Ids([], dir, typ) == []
  {
  }

  function AllIds(chans: seq<Chan>): (ids: seq<int>)
    ensures |ids| == |chans| && forall i :: 0 <= i < |chans| ==> ids[i] == chans[i].id
  {
    if chans == [] then [] else AllIds(chans[..|chans| - 1]) + [chans[|chans| - 1].id]
  }

  /** An array of ids and how much of it is filled. */
  class IdArray {
    const data: array<int>
    var len: nat

    constructor (size: nat)
      ensures len == 0 && data.Length == size && fresh(data)
    {
      data := new int[size];
      len := 0;
    }

    ghost predicate Fits()
      reads this
    {
      len <= data.Length
    }

    ghost function Filled(): seq<int>
      requires Fits()
      reads this, data
    {
      data[..len]
    }

    method Append(id: int)
      requires len < data.Length
      modifies this`len, data
      ensures Fits() && Filled() == old(Filled()) + [id]
    {
      data[len] := id;
      len := len + 1;
    }
  }

  /** The four arrays of the library's device structure. */
  class ChannelArrays {
    const dmaTx: IdArray
    const dmaRx: IdArray
    const vdmaTx: IdArray
    const vdmaRx: IdArray

    constructor (counts: Counts)
      ensures Valid() && fresh(Arrays()) && fresh(Data()) && Sizes() == counts
      ensures Holds([])
    {
      dmaTx := new IdArray(counts.dmaTx);
      dmaRx := new IdArray(counts.dmaRx);
      vdmaTx := new IdArray(counts.vdmaTx);
      vdmaRx := new IdArray(counts.vdmaRx);
    }

    ghost function Arrays(): set<IdArray> {
      {dmaTx, dmaRx, vdmaTx, vdmaRx}
    }

    ghost function Data(): set<array<int>> {
      {dmaTx.data, dmaRx.data, vdmaTx.data, vdmaRx.data}
    }

    ghost predicate Valid() {
      && dmaTx != dmaRx && dmaTx != vdmaTx && dmaTx != vdmaRx && dmaRx != vdmaTx && dmaRx != vdmaRx && vdmaTx != vdmaRx
      && dmaTx.data != dmaRx.data && dmaTx.data != vdmaTx.data && dmaTx.data != vdmaRx.data
      && dmaRx.data != vdmaTx.data && dmaRx.data != vdmaRx.data && vdmaTx.data != vdmaRx.data
    }

    ghost function Sizes(): Counts {
      Counts(dmaTx.data.Length, dmaRx.data.Length, vdmaTx.data.Length, vdmaRx.data.Length)
    }

    /** The arrays hold the ids of a table by kind, each in the order of the table. */
    ghost predicate Holds(chans: seq<Chan>)
      requires Valid()
      reads Arrays(), Data()
    {
      && dmaTx.Fits() && dmaRx.Fits() && vdmaTx.Fits() && vdmaRx.Fits()
      && dmaTx.Filled() == Ids(chans, Write, Dma) && dmaRx.Filled() == Ids(chans, Read, Dma)
      && vdmaTx.Filled() == Ids(chans, Write, Vdma) && vdmaRx.Filled() == Ids(chans, Read, Vdma)
    }

    /** Selects the array of the channel's kind and appends the id to it. */
    method Add(ghost before: seq<Chan>, chan: Chan)
      requires Valid() && Holds(before)
      requires CountsOf(before + [chan]).AtMost(Sizes())
      modifies Arrays(), Data()
      ensures Holds(before + [chan])
    {
      IdsGrow(before, chan);
      hide Ids;
      match (chan.dir, chan.typ) {
        case (Write, Dma) => dmaTx.Append(chan.id);
        case (Read, Dma) => dmaRx.Append(chan.id);
        case (Write, Vdma) => vdmaTx.Append(chan.id);
        case (Read, Vdma) => vdmaRx.Append(chan.id);
      }
    }
  }

  /** The memory of the process: the addresses that are allocated. */
  class Heap {
    var live: set<nat>

    constructor ()
      ensures live == {}
    {
      live := {};
    }

    /** `malloc`: `address` is what it returns, 0 if it fails. */
    method Malloc(address: nat) returns (p: nat)
      requires address !in live
      modifies this
      ensures p == address && live == if p == 0 then old(live) else old(live) + {p}
    {
      if address != 0 {
        live := live + {address};
      }
      return address;
    }

    /** `free`: only what is allocated. */
    method Free(p: nat)
      requires p in live
      modifies this
      ensures live == old(live) - {p}
    {
      live := live - {p};
    }
  }

  /** What the five allocations can return: fresh addresses, and 0 for the ones that fail. */
  predicate CanReturn(addresses: seq<nat>, live: set<nat>) {
    && |addresses| == 5
    && (forall i :: 0 <= i < 5 ==> addresses[i] !in live)
    && (forall i, j :: 0 <= i < j < 5 ==> addresses[i] == 0 || addresses[i] != addresses[j])
  }

  /** The five allocations of `categorize_channels`: on each of the five failures what was allocated
      before is freed. */
  method AllocateAll(heap: Heap, addresses: seq<nat>) returns (rc: int)
    requires CanReturn(addresses, heap.live)
    modifies heap
    ensures rc == if 0 in addresses then -ENOMEM else 0
    ensures heap.live == old(heap.live) + if rc == 0 then set p | p in addresses else {}
  {
    var channels := heap.Malloc(addresses[0]);
    if channels == 0 {
      return -ENOMEM;
    }
    var dmaTx := heap.Malloc(addresses[1]);
    if dmaTx == 0 {
      heap.Free(channels);
      return -ENOMEM;
    }
    var dmaRx := heap.Malloc(addresses[2]);
    if dmaRx == 0 {
      heap.Free(channels);
      heap.Free(dmaTx);
      return -ENOMEM;
    }
    var vdmaTx := heap.Malloc(addresses[3]);
    if vdmaTx == 0 {
      heap.Free(channels);
      heap.Free(dmaTx);
      heap.Free(dmaRx);
      return -ENOMEM;
    }
    var vdmaRx := heap.Malloc(addresses[4]);
    if vdmaRx == 0 {
      heap.Free(channels);
      heap.Free(dmaTx);
      heap.Free(dmaRx);
      heap.Free(vdmaTx);
      return -ENOMEM;
    }
    return 0;
  }

  /** `categorize_channels` with arrays of the sizes counted: without memory for all of them nothing
      stays allocated; otherwise every write is in range, every array ends up full, and each holds
      the ids of its kind in the order of the table. */
  method CategorizeChannels(heap: Heap, addresses: seq<nat>, chans: seq<Chan>, counts: Counts)
      returns (rc: int, arrays: ChannelArrays?)
    requires CanReturn(addresses, heap.live) && counts == CountsOf(chans)
    modifies heap
    ensures rc == if 0 in addresses then -ENOMEM else 0
    ensures heap.live == old(heap.live) + if rc == 0 then set p | p in addresses else {}
    ensures rc == 0 ==> arrays != null && Categorized(arrays, chans)
  {
    arrays := null;
    rc := AllocateAll(heap, addresses);
    if rc == 0 {
      arrays := PlaceIds(chans, counts);
    }
  }

  /** Each array is full of the ids of its kind, in the order of the table. */
  ghost predicate Categorized(arrays: ChannelArrays, chans: seq<Chan>)
    reads arrays.Arrays(), arrays.Data()
  {
    && arrays.Valid() && arrays.Sizes() == CountsOf(chans) && arrays.Holds(chans)
    && arrays.dmaTx.data[..] == Ids(chans, Write, Dma) && arrays.dmaRx.data[..] == Ids(chans, Read, Dma)
    && arrays.vdmaTx.data[..] == Ids(chans, Write, Vdma) && arrays.vdmaRx.data[..] == Ids(chans, Read, Vdma)
  }

  method PlaceIds(chans: seq<Chan>, counts: Counts) returns (arrays: ChannelArrays)
    requires counts == CountsOf(chans)
    ensures Categorized(arrays, chans)
  {
    hide Ids;
    arrays := new ChannelArrays(counts);
    for i := 0 to |chans|
      invariant fresh(arrays.Arrays()) && fresh(arrays.Data()) && arrays.Valid() && arrays.Sizes() == counts
      invariant arrays.Holds(chans[..i])
    {
      assert chans[..i] + [chans[i]] == chans[..i + 1];
      CountsGrowing(chans, i + 1);
      arrays.Add(chans[..i], chans[i]);
    }
    assert chans[..|chans|] == chans;
  }

  /** `find_channel`: the index of the first channel with an id, -1 if there is none. */
  method FindChannel(chans: seq<Chan>, id: int) returns (index: int)
    ensures -1 <= index < |chans|
    ensures index >= 0 ==> chans[index].id == id && forall k :: 0 <= k < index ==> chans[k].id != id
    ensures index == -1 ==> forall k :: 0 <= k < |chans| ==> chans[k].id != id
  {
    for i := 0 to |chans|
      invariant forall k :: 0 <= k < i ==> chans[k].id != id
    {
      if chans[i].id == id {
        return i;
      }
    }
    return -1;
  }

  /** With unique ids the lookup inverts the table. */
  method FindInverts(chans: seq<Chan>, k: nat) returns (index: int)
    requires Unique(chans) && k < |chans|
    ensures index == k
  {
    index := FindChannel(chans, chans[k].id);
  }
}
