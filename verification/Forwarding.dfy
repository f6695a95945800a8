/** The live pipeline: tables 0 (classifier), 1 (cluster forwarding) and 2 (CoreDNS source rewriting), and their flows. */
module ForwardingTypes {
  import opened OpenFlow

  const CLASSIFIER_TABLE: TableId := 0
  const FORWARD_TABLE: TableId := 1
  const COREDNS_TABLE: TableId := 2

  datatype Action =
    | Resubmit(table: TableId)
    | SetTunnelDst(ip: nat)
    | SetSrcIP(ip: nat)
    | Normal

  type FwdEntry = Entry<seq<Matcher>>
  type FwdFlow = Flow<seq<Matcher>, seq<Action>>
  type FwdTable = map<FwdEntry, seq<Action>>
  type FwdSwitch = Switch<seq<Matcher>, seq<Action>>
  type FwdCommand = Command<seq<Matcher>, seq<Action>>

  /***** Flow constructors *****/

  function ClassifierDefaultFlow(): FwdFlow {
    Flow(Entry(CLASSIFIER_TABLE, PRIORITY_MISS, []), [Resubmit(FORWARD_TABLE)])
  }

  function CoreDNSDefaultFlow(): FwdFlow {
    Flow(Entry(COREDNS_TABLE, PRIORITY_MISS, []), [Resubmit(FORWARD_TABLE)])
  }

  function ForwardDefaultFlow(): FwdFlow {
    Flow(Entry(FORWARD_TABLE, PRIORITY_MISS, []), [Normal])
  }

  function ArpNormalFlow(): FwdFlow {
    Flow(Entry(FORWARD_TABLE, PRIORITY_LOW, [ARPFlow]), [Normal])
  }

  function ClassifierFlow(port: nat): FwdFlow {
    Flow(Entry(CLASSIFIER_TABLE, PRIORITY_NORMAL, [InPort(port)]), [Resubmit(COREDNS_TABLE)])
  }

  function CoreDNSFlow(port: nat, serviceIP: nat): FwdFlow {
    Flow(Entry(COREDNS_TABLE, PRIORITY_NORMAL, [InPort(port), TpSrc(53), UDPFlow]),
         [SetSrcIP(serviceIP), Resubmit(FORWARD_TABLE)])
  }

  function TunnelNetFlow(net: nat, len: nat, tunnelDst: nat): FwdFlow {
    Flow(Entry(FORWARD_TABLE, PRIORITY_NORMAL, [IP, NwDstNet(net, len)]), [SetTunnelDst(tunnelDst), Normal])
  }

  function TunnelIPFlow(ip: nat, inPort: nat, tunnelDst: nat): FwdFlow {
    Flow(Entry(FORWARD_TABLE, PRIORITY_NORMAL, [IP, NwDst(ip), InPort(inPort)]), [SetTunnelDst(tunnelDst), Normal])
  }

  function LocalNetFlow(net: nat, len: nat): FwdFlow {
    Flow(Entry(FORWARD_TABLE, PRIORITY_NORMAL, [IP, NwDstNet(net, len)]), [Normal])
  }

  function LocalIPFlow(ip: nat): FwdFlow {
    Flow(Entry(FORWARD_TABLE, PRIORITY_NORMAL, [IP, NwDst(ip)]), [Normal])
  }

  function ArpActions(ips: seq<nat>): seq<Action> {
    if ips == [] then [] else [SetTunnelDst(ips[0]), Normal] + ArpActions(ips[1..])
  }

  function ArpFlow(op: nat, ips: seq<nat>): FwdFlow {
    Flow(Entry(FORWARD_TABLE, PRIORITY_NORMAL, [ARPFlow, ArpOp(op)]), ArpActions(ips))
  }

  /** A destination in text: a CIDR, a plain address, or neither. */
  datatype Destination = Cidr(net: nat, len: nat) | Host(ip: nat) | Unparsable

  function TunnelFlow(d: Destination, inPort: nat, tunnelDst: nat): Option<FwdFlow> {
    match d
    case Cidr(net, len) => Some(TunnelNetFlow(net, len, tunnelDst))
    case Host(ip) => Some(TunnelIPFlow(ip, inPort, tunnelDst))
    case Unparsable => None
  }

  function LocalFlow(d: Destination): Option<FwdFlow> {
    match d
    case Cidr(net, len) => Some(LocalNetFlow(net, len))
    case Host(ip) => Some(LocalIPFlow(ip))
    case Unparsable => None
  }
}

/** What the three tables do to a packet. */
module ForwardingWalk {
  import opened OpenFlow
  import opened ForwardingTypes

  /** A packet that leaves for the L2 switch, with the tunnel endpoint and the source address it has by then. */
  datatype Out = Out(tunnel: Option<nat>, src: nat)

  /** The tables form no cycle: 0 leads to 2 and 1, 2 leads to 1, and 1 ends. */
  function Rank(t: TableId): nat {
    if t == CLASSIFIER_TABLE then 3 else if t == COREDNS_TABLE then 2 else if t == FORWARD_TABLE then 1 else 0
  }

  /** Resubmissions come last and lead to a table of lower rank. */
  predicate ActionsOk(t: TableId, acts: seq<Action>) {
    forall i | 0 <= i < |acts| && acts[i].Resubmit? :: i == |acts| - 1 && 0 < Rank(acts[i].table) < Rank(t)
  }

  predicate Ranked(flows: FwdTable) {
    forall x | x in flows :: ActionsOk(x.table, flows[x])
  }

  predicate Hit1(flows: FwdTable, t: TableId, pkt: Packet, x: FwdEntry) {
    x in flows && x.table == t && Hits(x.on, pkt)
  }

  predicate Best(flows: FwdTable, t: TableId, pkt: Packet, x: FwdEntry) {
    Hit1(flows, t, pkt, x) && forall y | y in flows && Hit1(flows, t, pkt, y) :: y.priority <= x.priority
  }

  /** How the switch chooses among several best hits, which OpenFlow leaves open. */
  type Choice = (TableId, Packet) -> FwdEntry

  ghost predicate Legal(flows: FwdTable, choice: Choice) {
    forall t, pkt | (exists x :: Hit1(flows, t, pkt, x)) :: Best(flows, t, pkt, choice(t, pkt))
  }

  /** Looking a packet up in table `t`; a packet that hits nothing goes nowhere. */
  function Walk(flows: FwdTable, choice: Choice, t: TableId, pkt: Packet, tunnel: Option<nat>): seq<Out>
    requires Ranked(flows)
    decreases Rank(t), 0
  {
    var x := choice(t, pkt);
    if Hit1(flows, t, pkt, x) then Perform(flows, choice, t, flows[x], pkt, tunnel) else []
  }

  function Perform(flows: FwdTable, choice: Choice, t: TableId, acts: seq<Action>, pkt: Packet, tunnel: Option<nat>): seq<Out>
    requires Ranked(flows) && ActionsOk(t, acts)
    decreases Rank(t), 0, |acts|
  {
    if acts == [] then []
    else match acts[0]
      case SetTunnelDst(ip) => Perform(flows, choice, t, acts[1..], pkt, Some(ip))
      case SetSrcIP(ip) => Perform(flows, choice, t, acts[1..], pkt.(src := ip), tunnel)
      case Normal => [Out(tunnel, pkt.src)] + Perform(flows, choice, t, acts[1..], pkt, tunnel)
      case Resubmit(t') => Walk(flows, choice, t', pkt, tunnel)
  }
}
