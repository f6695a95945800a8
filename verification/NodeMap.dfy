/** The node list that the agent turns into flows, and what the tables then mean for it. */
module NodeMap {
  import opened OpenFlow
  import opened Sequences
  import opened ForwardingTypes
  import opened ForwardingWalk
  import opened ForwardingPipeline
  import opened FlowCaches
  import opened ForwardingOutcomes

  datatype AddressKind = InternalIP | OtherKind

  datatype NodeAddress = NodeAddress(kind: AddressKind, ip: nat)

  datatype Node = Node(name: string, addresses: seq<NodeAddress>, podCIDR: Destination)

  /** This node's name and Pod CIDR, as the agent knows them. */
  datatype NodeConfig = NodeConfig(nodeName: string, podCIDR: Destination)

  function FirstInternal(addresses: seq<NodeAddress>): Option<nat>
    decreases |addresses|
  {
    if addresses == [] then None
    else if addresses[0].kind.InternalIP? then Some(addresses[0].ip)
    else FirstInternal(addresses[1..])
  }

  /** `ip` is an InternalIP with no other InternalIP before it. */
  predicate IsFirstInternal(addresses: seq<NodeAddress>, ip: nat) {
    exists i | 0 <= i < |addresses| ::
      addresses[i] == NodeAddress(InternalIP, ip) && forall j | 0 <= j < i :: addresses[j].kind != InternalIP
  }

  predicate HasInternal(addresses: seq<NodeAddress>) {
    exists i | 0 <= i < |addresses| :: addresses[i].kind == InternalIP
  }

  lemma {:induction false} FirstInternalIsFirst(addresses: seq<NodeAddress>)
    ensures forall ip: nat :: FirstInternal(addresses) == Some(ip) <==> IsFirstInternal(addresses, ip)
    ensures FirstInternal(addresses).None? <==> !HasInternal(addresses)
    decreases |addresses|
  {
    if addresses != [] && addresses[0].kind != InternalIP {
      var rest := addresses[1..];
      FirstInternalIsFirst(rest);
      assert forall i | 0 <= i < |rest| :: rest[i] == addresses[i + 1];
      assert forall i | 0 < i < |addresses| :: addresses[i] == rest[i - 1];
      forall ip: nat ensures IsFirstInternal(addresses, ip) <==> IsFirstInternal(rest, ip) {
        FirstOfTail(addresses, ip);
      }
    }
  }

  lemma FirstOfTail(addresses: seq<NodeAddress>, ip: nat)
    requires addresses != [] && addresses[0].kind != InternalIP
    ensures IsFirstInternal(addresses, ip) <==> IsFirstInternal(addresses[1..], ip)
  {
  }

  /** The first InternalIP of each other node, in order; nodes without one are passed over. */
  function TunnelDestinations(config: NodeConfig, nodes: seq<Node>): seq<nat>
    decreases |nodes|
  {
    if nodes == [] then []
    else
      var rest := TunnelDestinations(config, nodes[1..]);
      var ip := FirstInternal(nodes[0].addresses);
      if nodes[0].name == config.nodeName || ip.None? then rest else [ip.value] + rest
  }

  predicate IsLocal(config: NodeConfig, node: Node) {
    node.name == config.nodeName
  }

  /** Another node that can be reached. */
  predicate IsPeer(config: NodeConfig, node: Node) {
    !IsLocal(config, node) && HasInternal(node.addresses)
  }

  predicate Increasing(s: seq<nat>) {
    forall k, l | 0 <= k < l < |s| :: s[k] < s[l]
  }

  /** The positions of all peers in the node list, in its order. */
  ghost predicate ListsPeers(config: NodeConfig, nodes: seq<Node>, peers: seq<nat>) {
    && Increasing(peers)
    && (forall i: nat :: i in peers <==> i < |nodes| && IsPeer(config, nodes[i]))
  }

  /** `ips` holds the first InternalIP of the k-th of these nodes at position k, and nothing else. */
  predicate FirstInternals(nodes: seq<Node>, peers: seq<nat>, ips: seq<nat>) {
    && |ips| == |peers|
    && forall k | 0 <= k < |peers| :: peers[k] < |nodes| && IsFirstInternal(nodes[peers[k]].addresses, ips[k])
  }

  /** The tunnel destinations are the first InternalIPs of the peers, each once, in the order of the node list. */
  lemma {:induction false} DestinationsArePeers(config: NodeConfig, nodes: seq<Node>) returns (peers: seq<nat>)
    ensures ListsPeers(config, nodes, peers) && FirstInternals(nodes, peers, TunnelDestinations(config, nodes))
    decreases |nodes|
  {
    if nodes == [] {
      peers := [];
    } else {
      hide ListsPeers, FirstInternals;
      var rest := DestinationsArePeers(config, nodes[1..]);
      peers := PeersOfTail(config, nodes, rest);
      DestinationsOfTail(config, nodes, rest);
    }
  }

  /** The positions in a list of what stands at positions `rest` behind its head, with the head in front or not. */
  function Behind(head: bool, rest: seq<nat>): (peers: seq<nat>)
    ensures var n := if head then 1 else 0;
            && |peers| == |rest| + n && (head ==> peers[0] == 0)
            && forall k | 0 <= k < |rest| :: peers[k + n] == rest[k] + 1
  {
    (if head then [0] else []) + seq(|rest|, k requires 0 <= k < |rest| => rest[k] + 1)
  }

  lemma DestinationsOfTail(config: NodeConfig, nodes: seq<Node>, rest: seq<nat>)
    requires nodes != [] && FirstInternals(nodes[1..], rest, TunnelDestinations(config, nodes[1..]))
    ensures FirstInternals(nodes, Behind(IsPeer(config, nodes[0]), rest), TunnelDestinations(config, nodes))
  {
    hide FirstInternals, IsFirstInternal, HasInternal, Behind;
    FirstInternalIsFirst(nodes[0].addresses);
    var tail := TunnelDestinations(config, nodes[1..]);
    if IsPeer(config, nodes[0]) {
      HeadInFront(nodes, rest, tail, FirstInternal(nodes[0].addresses).value);
    } else {
      TailAlone(nodes, rest, tail);
    }
  }

  lemma TailAlone(nodes: seq<Node>, rest: seq<nat>, tail: seq<nat>)
    requires nodes != [] && FirstInternals(nodes[1..], rest, tail)
    ensures FirstInternals(nodes, Behind(false, rest), tail)
  {
  }

  lemma HeadInFront(nodes: seq<Node>, rest: seq<nat>, tail: seq<nat>, ip: nat)
    requires nodes != [] && FirstInternals(nodes[1..], rest, tail) && IsFirstInternal(nodes[0].addresses, ip)
    ensures FirstInternals(nodes, Behind(true, rest), [ip] + tail)
  {
  }

  lemma BehindIncreases(head: bool, rest: seq<nat>)
    requires Increasing(rest)
    ensures Increasing(Behind(head, rest))
  {
  }

  lemma InBehind(head: bool, rest: seq<nat>, i: nat)
    ensures i in Behind(head, rest) <==> if i == 0 then head else i - 1 in rest
  {
  }

  lemma PeersOfTail(config: NodeConfig, nodes: seq<Node>, rest: seq<nat>) returns (peers: seq<nat>)
    requires nodes != [] && ListsPeers(config, nodes[1..], rest)
    ensures peers == Behind(IsPeer(config, nodes[0]), rest) && ListsPeers(config, nodes, peers)
  {
    hide IsPeer, Increasing, Behind;
    peers := Behind(IsPeer(config, nodes[0]), rest);
    BehindIncreases(IsPeer(config, nodes[0]), rest);
    forall i: nat ensures i in peers <==> i < |nodes| && IsPeer(config, nodes[i]) {
      InBehind(IsPeer(config, nodes[0]), rest, i);
      if 0 < i < |nodes| {
        assert nodes[1..][i - 1] == nodes[i];
      }
    }
  }

  ghost function ConstructArp(st: FlowState, config: NodeConfig, nodes: seq<Node>): FlowState {
    var ips := TunnelDestinations(config, nodes);
    if ips == [] then st else InstallARPFlow(st, ips).st
  }

  ghost function ConstructOne(st: FlowState, config: NodeConfig, node: Node): FlowState {
    var ip := FirstInternal(node.addresses);
    if node.name == config.nodeName then InstallLocalIPFlow(st, node.name, config.podCIDR).st
    else if ip.Some? then InstallTunFlow(st, node.podCIDR, 0, ip.value).st
    else st
  }

  /** An error on one node is logged, and the loop goes on to the next. */
  ghost function ConstructIPTunnels(st: FlowState, config: NodeConfig, nodes: seq<Node>): FlowState
    decreases |nodes|
  {
    if nodes == [] then st else ConstructIPTunnels(ConstructOne(st, config, nodes[0]), config, nodes[1..])
  }

  /** initOpenFlow: first the ARP flows, then the IP flows. */
  ghost function Construct(st: FlowState, config: NodeConfig, nodes: seq<Node>): FlowState {
    ConstructIPTunnels(ConstructArp(st, config, nodes), config, nodes)
  }

  /***** The tables that the loops leave *****/

  /** No later command fails. */
  ghost predicate NoFailure(sw: FwdSwitch) {
    forall i: nat | i >= sw.clock :: !sw.fails(i)
  }

  function NodeCIDR(config: NodeConfig, node: Node): Destination {
    if IsLocal(config, node) then config.podCIDR else node.podCIDR
  }

  function NodeFlow(config: NodeConfig, node: Node): Option<FwdFlow> {
    var ip := FirstInternal(node.addresses);
    if IsLocal(config, node) then LocalFlow(config.podCIDR)
    else if ip.Some? then TunnelFlow(node.podCIDR, 0, ip.value)
    else None
  }

  predicate InCIDR(ip: nat, d: Destination) {
    d.Cidr? && InNet(ip, d.net, d.len)
  }

  /** Every node has a CIDR and no address belongs to two of them. */
  ghost predicate Disjoint(config: NodeConfig, nodes: seq<Node>) {
    && (forall i | 0 <= i < |nodes| :: NodeCIDR(config, nodes[i]).Cidr?)
    && (forall i, j, ip | 0 <= i < j < |nodes| ::
          !(InCIDR(ip, NodeCIDR(config, nodes[i])) && InCIDR(ip, NodeCIDR(config, nodes[j]))))
  }

  function NodesTable(config: NodeConfig, nodes: seq<Node>): FwdTable
    decreases |nodes|
  {
    if nodes == [] then map[]
    else
      var rest := NodesTable(config, nodes[1..]);
      var f := NodeFlow(config, nodes[0]);
      if f.Some? then rest[f.value.entry := f.value.actions] else rest
  }

  lemma {:induction false} NodesTableMembers(config: NodeConfig, nodes: seq<Node>, x: FwdEntry) returns (i: nat)
    requires x in NodesTable(config, nodes)
    ensures i < |nodes| && NodeFlow(config, nodes[i]) == Some(Flow(x, NodesTable(config, nodes)[x]))
    decreases |nodes|
  {
    var f := NodeFlow(config, nodes[0]);
    if f.Some? && f.value.entry == x {
      i := 0;
    } else {
      var j := NodesTableMembers(config, nodes[1..], x);
      i := j + 1;
    }
  }

  lemma DisjointRest(config: NodeConfig, nodes: seq<Node>)
    requires nodes != [] && Disjoint(config, nodes)
    ensures Disjoint(config, nodes[1..])
    ensures var f := NodeFlow(config, nodes[0]);
            f.Some? ==> f.value.entry !in NodesTable(config, nodes[1..])
    ensures forall i | 0 < i < |nodes| && NodeFlow(config, nodes[0]).Some? && NodeFlow(config, nodes[i]).Some? ::
              TextOf(NodeFlow(config, nodes[0]).value) != TextOf(NodeFlow(config, nodes[i]).value)
  {
    forall i | 0 < i < |nodes| && NodeFlow(config, nodes[0]).Some? && NodeFlow(config, nodes[i]).Some?
      ensures NodeFlow(config, nodes[0]).value.entry.on != NodeFlow(config, nodes[i]).value.entry.on
    {
      DifferentMatches(config, nodes[0], nodes[i]) by {
        assert InCIDR(NodeCIDR(config, nodes[0]).net, NodeCIDR(config, nodes[0]));
      }
    }
    forall x | x in NodesTable(config, nodes[1..]) && NodeFlow(config, nodes[0]).Some?
      ensures x != NodeFlow(config, nodes[0]).value.entry
    {
      var i := NodesTableMembers(config, nodes[1..], x);
      assert NodeFlow(config, nodes[i + 1]).value.entry == x;
    }
    forall i, j, ip | 0 <= i < j < |nodes[1..]|
      ensures !(InCIDR(ip, NodeCIDR(config, nodes[1..][i])) && InCIDR(ip, NodeCIDR(config, nodes[1..][j])))
    {
      assert nodes[1..][i] == nodes[i + 1] && nodes[1..][j] == nodes[j + 1];
    }
  }

  lemma DifferentMatches(config: NodeConfig, a: Node, b: Node)
    requires NodeCIDR(config, a).Cidr? && NodeCIDR(config, b).Cidr?
    requires !InCIDR(NodeCIDR(config, a).net, NodeCIDR(config, b))
    requires NodeFlow(config, a).Some? && NodeFlow(config, b).Some?
    ensures NodeFlow(config, a).value.entry.on != NodeFlow(config, b).value.entry.on
  {
  }

  /** None of these nodes' match texts is cached yet. */
  ghost predicate Uncached(st: FlowState, config: NodeConfig, nodes: seq<Node>) {
    forall i, key | 0 <= i < |nodes| && NodeFlow(config, nodes[i]).Some? ::
      TextOf(NodeFlow(config, nodes[i]).value) !in CachedFlows(st, key)
  }

  lemma ConstructOneAdds(st: FlowState, config: NodeConfig, node: Node)
    requires st.sem.Exact? && NoFailure(st.sw) && Uncached(st, config, [node]) && NodeCIDR(config, node).Cidr?
    ensures var st' := ConstructOne(st, config, node);
            var f := NodeFlow(config, node);
            && st'.sem.Exact? && NoFailure(st'.sw)
            && st'.sw.flows == (if f.Some? then st.sw.flows[f.value.entry := f.value.actions] else st.sw.flows)
            && forall m, key | m in CachedFlows(st', key) :: m in CachedFlows(st, key) || (f.Some? && m == TextOf(f.value))
  {
    var f := NodeFlow(config, node);
    if f.Some? {
      var key := if IsLocal(config, node) then LocalKey(node.name) else TUNNELS;
      assert NodeFlow(config, [node][0]) == f;
      assert TextOf(f.value) !in CachedFlows(st, key);
      assert !WillFail(st.sw);
      assert f.value.actions != [];
      OneMissing(CachedFlows(st, key), st.sw, f.value);
      assert ConstructOne(st, config, node) == AddMissingFlows(st, key, [f.value]).st;
    }
  }

  /**
   One round of the loop: the flow that it adds for a peer serves the packets for the Pod CIDR of the peer, and if that is a
   plain address those from port 0 only; the one for this node serves all packets for its own.
   */
  lemma NodeGetsFlow(st: FlowState, config: NodeConfig, node: Node)
    requires IsLocal(config, node) || IsPeer(config, node)
    requires st.sem.Exact? && !WillFail(st.sw) && !NodeCIDR(config, node).Unparsable? && Uncached(st, config, [node])
    ensures var flows := ConstructOne(st, config, node).sw.flows;
            exists x :: && x in flows && x.table == FORWARD_TABLE && x.priority == PRIORITY_NORMAL
                        && (forall y | y != x :: Look(flows, y) == Look(st.sw.flows, y))
                        && (if IsLocal(config, node) then
                              && flows[x] == [Normal]
                              && forall pkt :: Hits(x.on, pkt) <==> IsFor(config.podCIDR, pkt.inPort, pkt)
                            else
                              && (exists ip :: IsFirstInternal(node.addresses, ip) && flows[x] == [SetTunnelDst(ip), Normal])
                              && forall pkt :: Hits(x.on, pkt) <==> IsFor(node.podCIDR, 0, pkt))
  {
    FirstInternalIsFirst(node.addresses);
    var f := NodeFlow(config, node).value;
    var key := if IsLocal(config, node) then LocalKey(node.name) else TUNNELS;
    assert NodeFlow(config, [node][0]).Some?;
    assert TextOf(f) !in CachedFlows(st, key);
    OneMissing(CachedFlows(st, key), st.sw, f);
    assert ConstructOne(st, config, node) == AddMissingFlows(st, key, [f]).st;
    forall pkt ensures Hits(f.entry.on, pkt) <==>
                       if IsLocal(config, node) then IsFor(config.podCIDR, pkt.inPort, pkt) else IsFor(node.podCIDR, 0, pkt)
    {
      if IsLocal(config, node) {
        LocalHits(config.podCIDR, pkt);
      } else {
        TunnelHits(node.podCIDR, 0, FirstInternal(node.addresses).value, pkt);
      }
    }
    assert f.entry in ConstructOne(st, config, node).sw.flows;
  }

  lemma OneMissing(cached: FlowCache, sw: FwdSwitch, f: FwdFlow)
    requires TextOf(f) !in cached && !WillFail(sw) && f.actions != []
    ensures AddMissing(Exact, cached, sw, [f]) == CacheResult(cached[TextOf(f) := f], Exec(sw, Add(f)), true)
  {
  }

  /** With no failing command and disjoint CIDRs, the loop adds one flow per node that has an address. */
  lemma {:induction false} TunnelsAddNodes(st: FlowState, config: NodeConfig, nodes: seq<Node>)
    requires st.sem.Exact? && NoFailure(st.sw) && Disjoint(config, nodes) && Uncached(st, config, nodes)
    ensures ConstructIPTunnels(st, config, nodes).sw.flows == st.sw.flows + NodesTable(config, nodes)
    decreases |nodes|
  {
    if nodes != [] {
      var f := NodeFlow(config, nodes[0]);
      var st1 := ConstructOne(st, config, nodes[0]);
      ConstructOneAdds(st, config, nodes[0]);
      DisjointRest(config, nodes);
      forall i, key | 0 <= i < |nodes[1..]| && NodeFlow(config, nodes[1..][i]).Some?
        ensures TextOf(NodeFlow(config, nodes[1..][i]).value) !in CachedFlows(st1, key)
      {
        assert nodes[1..][i] == nodes[i + 1];
      }
      TunnelsAddNodes(st1, config, nodes[1..]);
      if f.Some? {
        MergeOne(st.sw.flows, NodesTable(config, nodes[1..]), f.value.entry, f.value.actions);
      }
    } else {
      assert st.sw.flows + map[] == st.sw.flows;
    }
  }

  lemma MergeOne(a: FwdTable, b: FwdTable, x: FwdEntry, acts: seq<Action>)
    requires x !in b
    ensures a[x := acts] + b == a + b[x := acts]
  {
  }

  function ArpTable(ips: seq<nat>): FwdTable {
    if ips == [] then map[]
    else map[ArpFlow(1, ips).entry := ArpFlow(1, ips).actions, ArpFlow(2, ips).entry := ArpFlow(2, ips).actions]
  }

  lemma ArpAdds(st: FlowState, config: NodeConfig, nodes: seq<Node>)
    requires st.sem.Exact? && NoFailure(st.sw) && st.caches == map[]
    ensures var st' := ConstructArp(st, config, nodes);
            && st'.sem.Exact? && NoFailure(st'.sw) && st'.sw.flows == st.sw.flows + ArpTable(TunnelDestinations(config, nodes))
            && Uncached(st', config, nodes)
  {
    var ips := TunnelDestinations(config, nodes);
    if ips == [] {
      assert st.sw.flows + map[] == st.sw.flows;
    } else {
      InstallArpAdds(st, ips);
      var st' := InstallARPFlow(st, ips).st;
      forall i, key | 0 <= i < |nodes| && NodeFlow(config, nodes[i]).Some?
        ensures TextOf(NodeFlow(config, nodes[i]).value) !in CachedFlows(st', key)
      {
        assert NodeFlow(config, nodes[i]).value.entry.on[0] == IP;
      }
    }
  }

  lemma InstallArpAdds(st: FlowState, ips: seq<nat>)
    requires st.sem.Exact? && NoFailure(st.sw) && st.caches == map[] && ips != []
    ensures var r := InstallARPFlow(st, ips);
            && r.ok && r.st.sem.Exact? && NoFailure(r.st.sw) && r.st.sw.flows == st.sw.flows + ArpTable(ips)
            && forall key, m | m in CachedFlows(r.st, key) :: m.on == [ARPFlow, ArpOp(1)] || m.on == [ARPFlow, ArpOp(2)]
  {
    ArpActionsEnd(ips);
    hide AddMissing, ArpActions;
    var sw' := Exec(st.sw, Add(ArpFlow(1, ips)));
    assert !WillFail(st.sw) && !WillFail(sw');
    OneMissing(map[], st.sw, ArpFlow(1, ips));
    OneMissing(map[], sw', ArpFlow(2, ips));
    assert ARP_RESPONSE != ARP_REQUEST;
    var r1 := AddMissingFlows(st, ARP_REQUEST, [ArpFlow(1, ips)]);
    assert CachedFlows(r1.st, ARP_RESPONSE) == map[];
  }

  /** The table of a fresh agent: the default flows, two ARP flows, and one flow per node. */
  lemma ConstructedTable(st: FlowState, config: NodeConfig, nodes: seq<Node>)
    requires st.sem.Exact? && NoFailure(st.sw) && st.caches == map[] && Disjoint(config, nodes)
    ensures Construct(st, config, nodes).sw.flows
            == st.sw.flows + ArpTable(TunnelDestinations(config, nodes)) + NodesTable(config, nodes)
  {
    ArpAdds(st, config, nodes);
    TunnelsAddNodes(ConstructArp(st, config, nodes), config, nodes);
  }

  /***** What the tables mean for packets *****/

  function Defaults(): FwdTable {
    map[ArpNormalFlow().entry := ArpNormalFlow().actions,
        ClassifierDefaultFlow().entry := ClassifierDefaultFlow().actions,
        CoreDNSDefaultFlow().entry := CoreDNSDefaultFlow().actions,
        ForwardDefaultFlow().entry := ForwardDefaultFlow().actions]
  }

  /** The flows that a successful Initialize leaves on an empty switch. */
  lemma InitializeAddsDefaults(st: FlowState)
    requires st.sem.Exact? && st.sw.flows == map[] && Initialize(st, true).ok
    ensures Initialize(st, true).st.sw.flows == Defaults() && Live(Defaults())
  {
  }

  /** The table of a fresh agent for this node list. */
  function FreshTable(config: NodeConfig, nodes: seq<Node>): FwdTable {
    Defaults() + ArpTable(TunnelDestinations(config, nodes)) + NodesTable(config, nodes)
  }

  lemma NodeFlowShape(config: NodeConfig, node: Node)
    requires NodeCIDR(config, node).Cidr? && NodeFlow(config, node).Some?
    ensures var f, d := NodeFlow(config, node).value, NodeCIDR(config, node);
            && f.entry == Entry(FORWARD_TABLE, PRIORITY_NORMAL, [IP, NwDstNet(d.net, d.len)])
            && (forall p :: Hits(f.entry.on, p) <==> IsIP(p.proto) && InCIDR(p.dst, d))
  {
    var f, d := NodeFlow(config, node).value, NodeCIDR(config, node);
    forall p ensures Hits(f.entry.on, p) <==> IsIP(p.proto) && InCIDR(p.dst, d) {
      assert Hits(f.entry.on, p) <==> Hit(f.entry.on[0], p) && Hit(f.entry.on[1], p);
    }
  }

  lemma FreshTableIsLive(config: NodeConfig, nodes: seq<Node>)
    requires Disjoint(config, nodes)
    ensures Live(FreshTable(config, nodes)) && Ranked(FreshTable(config, nodes))
  {
    hide NodesTable, TunnelDestinations, Cacheable, ArpActions;
    var flows, ips := FreshTable(config, nodes), TunnelDestinations(config, nodes);
    forall x | x in NodesTable(config, nodes)
      ensures x.priority == PRIORITY_NORMAL && Cacheable(Flow(x, NodesTable(config, nodes)[x]))
    {
      var i := NodesTableMembers(config, nodes, x);
      NodeFlowShape(config, nodes[i]);
      NodeFlowCacheable(config, nodes[i]);
    }
    if ips != [] {
      InstalledFlowsAreCacheable(Unparsable, 0, 0, ips, 1);
      InstalledFlowsAreCacheable(Unparsable, 0, 0, ips, 2);
    }
    LiveIsRanked(flows);
  }

  lemma NodeFlowCacheable(config: NodeConfig, node: Node)
    requires NodeFlow(config, node).Some?
    ensures Cacheable(NodeFlow(config, node).value)
  {
  }

  lemma {:induction false} NodeFlowPresent(config: NodeConfig, nodes: seq<Node>, i: nat)
    requires Disjoint(config, nodes) && i < |nodes| && NodeFlow(config, nodes[i]).Some?
    ensures var f := NodeFlow(config, nodes[i]).value;
            f.entry in NodesTable(config, nodes) && NodesTable(config, nodes)[f.entry] == f.actions
    decreases |nodes|
  {
    DisjointRest(config, nodes);
    if i > 0 {
      assert nodes[1..][i - 1] == nodes[i];
      NodeFlowPresent(config, nodes[1..], i - 1);
    }
  }

  /** What a packet can hit in table 1. */
  ghost predicate ForwardHit(config: NodeConfig, nodes: seq<Node>, pkt: Packet, x: FwdEntry) {
    || x == ForwardDefaultFlow().entry
    || (pkt.proto.ARP? && x == ArpNormalFlow().entry)
    || (pkt.proto.ARP? && pkt.arpOp in {1, 2} && x == ArpFlow(pkt.arpOp, []).entry)
    || (IsIP(pkt.proto) && exists j :: 0 <= j < |nodes| && InCIDR(pkt.dst, NodeCIDR(config, nodes[j]))
                                    && NodeFlow(config, nodes[j]).Some? && x == NodeFlow(config, nodes[j]).value.entry)
  }

  lemma ForwardHits(config: NodeConfig, nodes: seq<Node>, pkt: Packet, x: FwdEntry)
    requires Disjoint(config, nodes) && Hit1(FreshTable(config, nodes), FORWARD_TABLE, pkt, x)
    ensures ForwardHit(config, nodes, pkt, x)
  {
    if x in NodesTable(config, nodes) {
      var j := NodesTableMembers(config, nodes, x);
      NodeFlowShape(config, nodes[j]);
    } else if x in ArpTable(TunnelDestinations(config, nodes)) {
      assert Hit(x.on[0], pkt) && Hit(x.on[1], pkt);
    } else if x == ArpNormalFlow().entry {
      assert Hit(x.on[0], pkt);
    }
  }

  /** The only flow of normal priority that an IP packet for node `i` hits in table 1 is that node's. */
  lemma NodeFlowIsChosen(config: NodeConfig, nodes: seq<Node>, choice: Choice, i: nat, pkt: Packet)
    requires Disjoint(config, nodes) && i < |nodes| && NodeFlow(config, nodes[i]).Some?
    requires IsIP(pkt.proto) && InCIDR(pkt.dst, NodeCIDR(config, nodes[i]))
    requires Legal(FreshTable(config, nodes), choice)
    ensures var f := NodeFlow(config, nodes[i]).value;
            && choice(FORWARD_TABLE, pkt) == f.entry
            && Hit1(FreshTable(config, nodes), FORWARD_TABLE, pkt, f.entry) && FreshTable(config, nodes)[f.entry] == f.actions
  {
    hide NodeFlow, NodesTable, TunnelDestinations;
    var f := NodeFlow(config, nodes[i]).value;
    NodeFlowPresent(config, nodes, i);
    NodeFlowShape(config, nodes[i]);
    assert Hit1(FreshTable(config, nodes), FORWARD_TABLE, pkt, f.entry);
    var x := choice(FORWARD_TABLE, pkt);
    assert Best(FreshTable(config, nodes), FORWARD_TABLE, pkt, x);
    ForwardHits(config, nodes, pkt, x);
    if x != ForwardDefaultFlow().entry {
      var j :| 0 <= j < |nodes| && InCIDR(pkt.dst, NodeCIDR(config, nodes[j]))
            && NodeFlow(config, nodes[j]).Some? && x == NodeFlow(config, nodes[j]).value.entry;
      assert j == i;
    }
  }

  /** No flow of this table rewrites a source address. */
  lemma SourceStays(config: NodeConfig, nodes: seq<Node>, pkt: Packet)
    requires Disjoint(config, nodes) && Live(FreshTable(config, nodes))
    ensures SourceAfter(FreshTable(config, nodes), pkt) == pkt.src && pkt.(src := pkt.src) == pkt
  {
    hide NodesTable, TunnelDestinations, ArpActions;
    var x := ClassifierEntry(pkt.inPort);
    if x in NodesTable(config, nodes) {
      var j := NodesTableMembers(config, nodes, x);
      NodeFlowShape(config, nodes[j]);
    }
  }

  /**
   Forwarding refines the node map: an IP packet for the Pods of another node that has an InternalIP leaves once, through a
   tunnel to the first one, and one for the Pods of this node leaves once without a tunnel.
   */
  lemma PacketsReachTheirNode(config: NodeConfig, nodes: seq<Node>, choice: Choice, i: nat, pkt: Packet)
    requires Disjoint(config, nodes) && i < |nodes| && Legal(FreshTable(config, nodes), choice)
    requires IsPeer(config, nodes[i]) || IsLocal(config, nodes[i])
    requires IsIP(pkt.proto) && InCIDR(pkt.dst, NodeCIDR(config, nodes[i]))
    ensures var flows := FreshTable(config, nodes);
            && Live(flows) && Ranked(flows)
            && if IsLocal(config, nodes[i]) then
                 Walk(flows, choice, CLASSIFIER_TABLE, pkt, None) == [Out(None, pkt.src)]
               else
                 exists ip :: IsFirstInternal(nodes[i].addresses, ip)
                           && Walk(flows, choice, CLASSIFIER_TABLE, pkt, None) == [Out(Some(ip), pkt.src)]
  {
    var flows := FreshTable(config, nodes);
    FirstInternalIsFirst(nodes[i].addresses);
    FreshTableIsLive(config, nodes);
    DetourIsSourceRewriting(flows, choice, pkt);
    SourceStays(config, nodes, pkt);
    hide FreshTable, Live, Ranked, Legal, NodesTable, SourceAfter, IsFirstInternal;
    NodeFlowIsChosen(config, nodes, choice, i, pkt);
    TunnelOrNot(flows, choice, pkt, NodeFlow(config, nodes[i]).value.actions);
  }

  /** What the actions of a node's flow do. */
  lemma TunnelOrNot(flows: FwdTable, choice: Choice, pkt: Packet, acts: seq<Action>)
    requires Ranked(flows) && ActionsOk(FORWARD_TABLE, acts)
    ensures acts == [Normal] ==> Perform(flows, choice, FORWARD_TABLE, acts, pkt, None) == [Out(None, pkt.src)]
    ensures forall ip :: acts == [SetTunnelDst(ip), Normal] ==>
              Perform(flows, choice, FORWARD_TABLE, acts, pkt, None) == [Out(Some(ip), pkt.src)]
  {
    assert [Normal][1..] == [];
    if |acts| == 2 && acts[0].SetTunnelDst? && acts[1] == Normal {
      assert acts[1..] == [Normal];
    }
  }

  /** The packet is for the Pods of a peer. */
  ghost predicate ForPeer(config: NodeConfig, nodes: seq<Node>, pkt: Packet) {
    IsIP(pkt.proto) && exists i :: 0 <= i < |nodes| && IsPeer(config, nodes[i]) && InCIDR(pkt.dst, NodeCIDR(config, nodes[i]))
  }

  /** The packet is an ARP request or response, and there is a peer to see it. */
  predicate ForAllPeers(config: NodeConfig, nodes: seq<Node>, pkt: Packet) {
    pkt.proto.ARP? && pkt.arpOp in {1, 2} && exists i | 0 <= i < |nodes| :: IsPeer(config, nodes[i])
  }

  /** Every other packet leaves once, without a tunnel. */
  lemma OtherPacketsAreNotTunnelled(config: NodeConfig, nodes: seq<Node>, choice: Choice, pkt: Packet)
    requires Disjoint(config, nodes) && Legal(FreshTable(config, nodes), choice)
    requires !ForPeer(config, nodes, pkt) && !ForAllPeers(config, nodes, pkt)
    ensures var flows := FreshTable(config, nodes);
            && Live(flows) && Ranked(flows)
            && Walk(flows, choice, CLASSIFIER_TABLE, pkt, None) == [Out(None, pkt.src)]
  {
    var flows := FreshTable(config, nodes);
    FreshTableIsLive(config, nodes);
    DetourIsSourceRewriting(flows, choice, pkt);
    SourceStays(config, nodes, pkt);
    PlainNormal(config, nodes, choice, pkt);
    TunnelOrNot(flows, choice, pkt, flows[choice(FORWARD_TABLE, pkt)]);
  }

  /** The flow that such a packet hits first in table 1 has the action Normal alone. */
  lemma PlainNormal(config: NodeConfig, nodes: seq<Node>, choice: Choice, pkt: Packet)
    requires Disjoint(config, nodes) && Legal(FreshTable(config, nodes), choice)
    requires !ForPeer(config, nodes, pkt) && !ForAllPeers(config, nodes, pkt)
    ensures var flows, x := FreshTable(config, nodes), choice(FORWARD_TABLE, pkt);
            Hit1(flows, FORWARD_TABLE, pkt, x) && flows[x] == [Normal]
  {
    var flows, x := FreshTable(config, nodes), choice(FORWARD_TABLE, pkt);
    FreshTableIsLive(config, nodes);
    assert Hit1(flows, FORWARD_TABLE, pkt, ForwardDefaultFlow().entry);
    assert Best(flows, FORWARD_TABLE, pkt, x);
    ForwardHits(config, nodes, pkt, x);
    if x != ForwardDefaultFlow().entry && x != ArpNormalFlow().entry {
      PlainNodeFlow(config, nodes, pkt, x);
    }
  }

  lemma SomePeer(config: NodeConfig, nodes: seq<Node>)
    ensures TunnelDestinations(config, nodes) != [] ==> exists i :: 0 <= i < |nodes| && IsPeer(config, nodes[i])
  {
    var peers := DestinationsArePeers(config, nodes);
    if peers != [] {
      assert peers[0] in peers;
    }
  }

  /** If it is neither of the default flows, it is the flow of this node. */
  lemma PlainNodeFlow(config: NodeConfig, nodes: seq<Node>, pkt: Packet, x: FwdEntry)
    requires Disjoint(config, nodes) && x in FreshTable(config, nodes) && ForwardHit(config, nodes, pkt, x)
    requires !ForPeer(config, nodes, pkt) && !ForAllPeers(config, nodes, pkt)
    requires x != ForwardDefaultFlow().entry && x != ArpNormalFlow().entry
    ensures FreshTable(config, nodes)[x] == [Normal]
  {
    if pkt.proto.ARP? {
      SomePeer(config, nodes);
      ArpIsNoNode(config, nodes, x);
      assert false;
    } else {
      var j :| 0 <= j < |nodes| && InCIDR(pkt.dst, NodeCIDR(config, nodes[j])) && NodeFlow(config, nodes[j]).Some?
            && x == NodeFlow(config, nodes[j]).value.entry;
      FirstInternalIsFirst(nodes[j].addresses);
      assert IsLocal(config, nodes[j]);
      NodeFlowPresent(config, nodes, j);
    }
  }

  /***** ARP *****/

  function ArpCopies(ips: seq<nat>, src: nat): (outs: seq<Out>)
    ensures |outs| == |ips| && forall i | 0 <= i < |ips| :: outs[i] == Out(Some(ips[i]), src)
  {
    seq(|ips|, i requires 0 <= i < |ips| => Out(Some(ips[i]), src))
  }

  lemma {:induction false} ArpActionsCopy(flows: FwdTable, choice: Choice, ips: seq<nat>, pkt: Packet, tunnel: Option<nat>)
    requires Ranked(flows) && ActionsOk(FORWARD_TABLE, ArpActions(ips))
    ensures Perform(flows, choice, FORWARD_TABLE, ArpActions(ips), pkt, tunnel) == ArpCopies(ips, pkt.src)
    decreases |ips|
  {
    if ips != [] {
      var acts := ArpActions(ips);
      assert acts[1..][1..] == ArpActions(ips[1..]);
      assert forall i | 0 <= i < |ArpActions(ips[1..])| :: ArpActions(ips[1..])[i] == acts[i + 2];
      ArpActionsCopy(flows, choice, ips[1..], pkt, Some(ips[0]));
      assert acts[0] == SetTunnelDst(ips[0]) && acts[1..][0] == Normal;
      assert ArpCopies(ips, pkt.src) == [Out(Some(ips[0]), pkt.src)] + ArpCopies(ips[1..], pkt.src);
    }
  }

  /** One copy through the tunnel to the first InternalIP of each peer, in the order of the node list. */
  ghost predicate VisitsPeers(config: NodeConfig, nodes: seq<Node>, src: nat, outs: seq<Out>) {
    exists peers, ips :: ListsPeers(config, nodes, peers) && FirstInternals(nodes, peers, ips) && outs == ArpCopies(ips, src)
  }

  /** An ARP request or response visits each peer once, in the order of the node list, and nobody else. */
  lemma ArpVisitsEveryNode(config: NodeConfig, nodes: seq<Node>, choice: Choice, pkt: Packet)
    requires Disjoint(config, nodes) && ForAllPeers(config, nodes, pkt) && Legal(FreshTable(config, nodes), choice)
    ensures var flows := FreshTable(config, nodes);
            && Live(flows) && Ranked(flows)
            && VisitsPeers(config, nodes, pkt.src, Walk(flows, choice, CLASSIFIER_TABLE, pkt, None))
  {
    var flows, ips := FreshTable(config, nodes), TunnelDestinations(config, nodes);
    var peers := DestinationsArePeers(config, nodes);
    var i :| 0 <= i < |nodes| && IsPeer(config, nodes[i]);
    assert i in peers;
    hide ListsPeers, FirstInternals, ForAllPeers, IsPeer;
    FreshTableIsLive(config, nodes);
    DetourIsSourceRewriting(flows, choice, pkt);
    SourceStays(config, nodes, pkt);
    ArpFlowIsChosen(config, nodes, choice, pkt);
    ArpActionsCopy(flows, choice, ips, pkt, None);
  }

  lemma ArpFlowIsChosen(config: NodeConfig, nodes: seq<Node>, choice: Choice, pkt: Packet)
    requires Disjoint(config, nodes) && pkt.proto.ARP? && pkt.arpOp in {1, 2} && TunnelDestinations(config, nodes) != []
    requires Legal(FreshTable(config, nodes), choice)
    ensures var flows, f := FreshTable(config, nodes), ArpFlow(pkt.arpOp, TunnelDestinations(config, nodes));
            && choice(FORWARD_TABLE, pkt) == f.entry && Hit1(flows, FORWARD_TABLE, pkt, f.entry) && flows[f.entry] == f.actions
  {
    hide NodeFlow, NodesTable, TunnelDestinations, ArpActions;
    var flows, ips := FreshTable(config, nodes), TunnelDestinations(config, nodes);
    var f := ArpFlow(pkt.arpOp, ips);
    ArpIsNoNode(config, nodes, f.entry);
    assert f.entry in ArpTable(ips) && ArpTable(ips)[f.entry] == f.actions;
    assert Hit1(flows, FORWARD_TABLE, pkt, f.entry);
    var x := choice(FORWARD_TABLE, pkt);
    assert Best(flows, FORWARD_TABLE, pkt, x);
    ForwardHits(config, nodes, pkt, x);
  }

  lemma ArpIsNoNode(config: NodeConfig, nodes: seq<Node>, x: FwdEntry)
    requires Disjoint(config, nodes) && x.on != [] && x.on[0] == ARPFlow
    ensures x !in NodesTable(config, nodes)
  {
  }

  /** ARP packets and IP packets are tunnelled to the same set of addresses. */
  lemma {:induction false} SameDestinations(config: NodeConfig, nodes: seq<Node>)
    requires forall i | 0 <= i < |nodes| :: NodeCIDR(config, nodes[i]).Cidr?
    ensures forall ip :: ip in TunnelDestinations(config, nodes) <==>
              exists i :: 0 <= i < |nodes| && NodeFlow(config, nodes[i]).Some?
                       && NodeFlow(config, nodes[i]).value.actions == [SetTunnelDst(ip), Normal]
    decreases |nodes|
  {
    if nodes != [] {
      forall i | 0 <= i < |nodes[1..]| ensures nodes[1..][i] == nodes[i + 1] {
      }
      SameDestinations(config, nodes[1..]);
      forall ip ensures ip in TunnelDestinations(config, nodes) <==>
              exists i :: 0 <= i < |nodes| && NodeFlow(config, nodes[i]).Some?
                       && NodeFlow(config, nodes[i]).value.actions == [SetTunnelDst(ip), Normal]
      {
        if ip in TunnelDestinations(config, nodes[1..]) {
          var i :| 0 <= i < |nodes[1..]| && NodeFlow(config, nodes[1..][i]).Some?
                && NodeFlow(config, nodes[1..][i]).value.actions == [SetTunnelDst(ip), Normal];
          assert NodeFlow(config, nodes[i + 1]).value.actions == [SetTunnelDst(ip), Normal];
        }
        if i :| 0 <= i < |nodes| && NodeFlow(config, nodes[i]).Some?
                && NodeFlow(config, nodes[i]).value.actions == [SetTunnelDst(ip), Normal]
        {
          if i > 0 {
            assert nodes[1..][i - 1] == nodes[i];
            assert ip in TunnelDestinations(config, nodes[1..]);
          } else {
            assert NodeFlow(config, nodes[0]).value.actions[0] == SetTunnelDst(ip);
          }
        }
      }
    }
  }

  /***** A fresh agent, from Initialize to the packets *****/

  lemma FreshAgentTable(st: FlowState, config: NodeConfig, nodes: seq<Node>)
    requires st.sem.Exact? && NoFailure(st.sw) && st.caches == map[] && st.sw.flows == map[] && Disjoint(config, nodes)
    ensures Initialize(st, true).ok
    ensures Construct(Initialize(st, true).st, config, nodes).sw.flows == FreshTable(config, nodes)
  {
    var init := Initialize(st, true);
    assert init.ok && NoFailure(init.st.sw) && init.st.sem.Exact? && init.st.caches == map[] by {
      DefaultsSucceed(st.sw, [ArpNormalFlow(), ClassifierDefaultFlow(), CoreDNSDefaultFlow(), ForwardDefaultFlow()]);
    }
    InitializeAddsDefaults(st);
    ConstructedTable(init.st, config, nodes);
  }

  lemma {:induction false} DefaultsSucceed(sw: FwdSwitch, flows: seq<FwdFlow>)
    requires NoFailure(sw) && forall f | f in flows :: f.actions != []
    ensures var r := AddAll(Exact, sw, flows);
            r.ok && NoFailure(r.sw)
    decreases |flows|
  {
    if flows != [] {
      assert flows[0] in flows;
      assert !WillFail(sw);
      DefaultsSucceed(ExecAs(Exact, sw, Add(flows[0])), flows[1..]);
    }
  }

  /**
   What the node list says about a packet: an ARP request or response visits every peer, an IP packet for a peer's Pods goes
   through a tunnel to the first InternalIP of that peer, and any other packet leaves without a tunnel.
   */
  ghost predicate Forwarded(config: NodeConfig, nodes: seq<Node>, pkt: Packet, outs: seq<Out>) {
    if ForAllPeers(config, nodes, pkt) then VisitsPeers(config, nodes, pkt.src, outs)
    else if ForPeer(config, nodes, pkt) then
      exists i, ip :: 0 <= i < |nodes| && IsPeer(config, nodes[i]) && InCIDR(pkt.dst, NodeCIDR(config, nodes[i]))
                   && IsFirstInternal(nodes[i].addresses, ip) && outs == [Out(Some(ip), pkt.src)]
    else outs == [Out(None, pkt.src)]
  }

  /**
   The whole way: on an empty switch, with disjoint CIDRs and no failing command, Initialize and the node loops leave tables
   that forward every packet as the node list says.
   */
  lemma FreshAgentForwards(st: FlowState, config: NodeConfig, nodes: seq<Node>, choice: Choice, pkt: Packet)
    requires st.sem.Exact? && NoFailure(st.sw) && st.caches == map[] && st.sw.flows == map[] && Disjoint(config, nodes)
    requires Legal(Construct(Initialize(st, true).st, config, nodes).sw.flows, choice)
    ensures var flows := Construct(Initialize(st, true).st, config, nodes).sw.flows;
            Live(flows) && Ranked(flows) && Forwarded(config, nodes, pkt, Walk(flows, choice, CLASSIFIER_TABLE, pkt, None))
  {
    hide FreshTable, Live, Ranked, Legal, Construct, Initialize, Walk, InCIDR, NodeCIDR, IsFirstInternal, IsPeer, Disjoint, VisitsPeers, ForAllPeers;
    FreshAgentTable(st, config, nodes);
    FreshTableIsLive(config, nodes);
    if ForAllPeers(config, nodes, pkt) {
      ArpVisitsEveryNode(config, nodes, choice, pkt);
    } else if ForPeer(config, nodes, pkt) {
      var i :| 0 <= i < |nodes| && IsPeer(config, nodes[i]) && InCIDR(pkt.dst, NodeCIDR(config, nodes[i]));
      assert !IsLocal(config, nodes[i]) by { PeersAreElsewhere(config, nodes[i]); }
      PacketsReachTheirNode(config, nodes, choice, i, pkt);
    } else {
      OtherPacketsAreNotTunnelled(config, nodes, choice, pkt);
    }
  }

  lemma PeersAreElsewhere(config: NodeConfig, node: Node)
    requires IsPeer(config, node)
    ensures !IsLocal(config, node)
  {
  }
}
