/** The calls of the client issue live commands only, whichever of them fail. */
module ForwardingCalls {
  import opened OpenFlow
  import opened WireSemantics
  import opened ForwardingTypes
  import opened ForwardingWalk
  import opened ForwardingPipeline
  import opened FlowCaches

  datatype FwdCall =
    | TunFlow(d: Destination, inPort: nat, tunnelDst: nat)
    | LocalIP(nodeName: string, d: Destination)
    | ArpPair(ips: seq<nat>)
    | CoreDNS(port: nat, containerID: string, serviceIP: nat)
    | NoTunFlow(order: seq<MatchText>)
    | NoCoreDNS(containerID: string, order: seq<MatchText>)

  ghost function DoFwdCall(st: FlowState, call: FwdCall): FlowState {
    match call
    case TunFlow(d, inPort, tunnelDst) => InstallTunFlow(st, d, inPort, tunnelDst).st
    case LocalIP(nodeName, d) => InstallLocalIPFlow(st, nodeName, d).st
    case ArpPair(ips) => InstallARPFlow(st, ips).st
    case CoreDNS(port, containerID, serviceIP) => InstallCorednsFlow(st, port, containerID, serviceIP).st
    case NoTunFlow(order) => DeleteFlows(st, TUNNELS, order).st
    case NoCoreDNS(containerID, order) => DeleteFlows(st, Pod(containerID), order).st
  }

  ghost function AfterCalls(st: FlowState, calls: seq<FwdCall>): FlowState
    decreases |calls|
  {
    if calls == [] then st else AfterCalls(DoFwdCall(st, calls[0]), calls[1..])
  }

  predicate AllCacheable(cached: FlowCache) {
    forall m | m in cached :: Cacheable(cached[m])
  }

  /** A live table, beside caches that hold cacheable flows only. */
  predicate LiveState(st: FlowState) {
    Live(st.sw.flows) && forall key | key in st.caches :: AllCacheable(st.caches[key])
  }

  /** An ARP flow without addresses would not be cacheable; its Add is refused. */
  predicate Installable(flows: seq<FwdFlow>) {
    forall f | f in flows :: Cacheable(f) || f.actions == []
  }

  lemma {:induction false} AddMissingKeepsLive(sem: Semantics, cached: FlowCache, sw: FwdSwitch, flows: seq<FwdFlow>)
    requires Live(sw.flows) && AllCacheable(cached) && Installable(flows)
    ensures var r := AddMissing(sem, cached, sw, flows);
            Live(r.sw.flows) && AllCacheable(r.cached)
    decreases |flows|
  {
    if flows != [] {
      var f := flows[0];
      assert f in flows;
      hide Live, Cacheable, Apply, WireApply;
      if TextOf(f) in cached {
        AddMissingKeepsLive(sem, cached, sw, flows[1..]);
      } else if !Refused(sw, Add(f)) {
        CommandKeepsLive(sw.flows, Add(f)) by { AddIsLive(f); }
        AddMissingKeepsLive(sem, cached[TextOf(f) := f], ExecAs(sem, sw, Add(f)), flows[1..]);
      }
    }
  }

  lemma AddIsLive(f: FwdFlow)
    requires Cacheable(f)
    ensures LiveCommand(Add(f)) && LiveCommand(Delete(f))
  {
  }

  lemma {:induction false} DeleteCachedKeepsLive(sem: Semantics, cached: FlowCache, sw: FwdSwitch, order: seq<MatchText>)
    requires Live(sw.flows) && AllCacheable(cached)
    ensures var r := DeleteCached(sem, cached, sw, order);
            Live(r.sw.flows) && AllCacheable(r.cached)
    decreases |order|
  {
    hide Live, Apply, WireApply;
    if order != [] {
      if order[0] !in cached {
        DeleteCachedKeepsLive(sem, cached, sw, order[1..]);
      } else if !WillFail(sw) {
        CommandKeepsLive(sw.flows, Delete(cached[order[0]]));
        DeleteCachedKeepsLive(sem, cached - {order[0]}, ExecAs(sem, sw, Delete(cached[order[0]])), order[1..]);
      }
    }
  }

  lemma AddMissingFlowsKeepsLive(st: FlowState, key: CacheKey, flows: seq<FwdFlow>)
    requires LiveState(st) && Installable(flows)
    ensures LiveState(AddMissingFlows(st, key, flows).st)
  {
    hide Live, Cacheable;
    AddMissingKeepsLive(st.sem, CachedFlows(st, key), st.sw, flows);
  }

  lemma DeleteFlowsKeepsLive(st: FlowState, key: CacheKey, order: seq<MatchText>)
    requires LiveState(st)
    ensures LiveState(DeleteFlows(st, key, order).st)
  {
    hide Live, Cacheable;
    DeleteCachedKeepsLive(st.sem, CachedFlows(st, key), st.sw, order);
  }

  lemma CallKeepsLive(st: FlowState, call: FwdCall)
    requires LiveState(st)
    ensures LiveState(DoFwdCall(st, call))
  {
    hide LiveState, Cacheable, AddMissingFlows, DeleteFlows;
    match call {
      case TunFlow(d, inPort, tunnelDst) =>
        InstalledFlowsAreCacheable(d, inPort, tunnelDst, [], 0);
        if TunnelFlow(d, inPort, tunnelDst).Some? {
          AddMissingFlowsKeepsLive(st, TUNNELS, [TunnelFlow(d, inPort, tunnelDst).value]);
        }
      case LocalIP(nodeName, d) =>
        InstalledFlowsAreCacheable(d, 0, 0, [], 0);
        if LocalFlow(d).Some? {
          AddMissingFlowsKeepsLive(st, LocalKey(nodeName), [LocalFlow(d).value]);
        }
      case ArpPair(ips) =>
        InstalledFlowsAreCacheable(Unparsable, 0, 0, ips, 1);
        InstalledFlowsAreCacheable(Unparsable, 0, 0, ips, 2);
        assert ips == [] ==> ArpActions(ips) == [];
        AddMissingFlowsKeepsLive(st, ARP_REQUEST, [ArpFlow(1, ips)]);
        AddMissingFlowsKeepsLive(AddMissingFlows(st, ARP_REQUEST, [ArpFlow(1, ips)]).st, ARP_RESPONSE, [ArpFlow(2, ips)]);
      case CoreDNS(port, containerID, serviceIP) =>
        InstalledFlowsAreCacheable(Unparsable, port, serviceIP, [], 0);
        AddMissingFlowsKeepsLive(st, Pod(containerID), [ClassifierFlow(port), CoreDNSFlow(port, serviceIP)]);
      case NoTunFlow(order) => DeleteFlowsKeepsLive(st, TUNNELS, order);
      case NoCoreDNS(containerID, order) => DeleteFlowsKeepsLive(st, Pod(containerID), order);
    }
  }

  lemma {:induction false} CallsKeepLive(st: FlowState, calls: seq<FwdCall>)
    requires LiveState(st)
    ensures LiveState(AfterCalls(st, calls))
    decreases |calls|
  {
    hide LiveState, DoFwdCall;
    if calls != [] {
      CallKeepsLive(st, calls[0]);
      CallsKeepLive(DoFwdCall(st, calls[0]), calls[1..]);
    }
  }

  /**
   Once Initialize has succeeded, after any calls, with any of their commands failing and whether they name entries exactly
   or not, every packet walks from table 0 to a Normal action.
   */
  lemma CallsKeepPipelineTotal(st: FlowState, calls: seq<FwdCall>, choice: Choice, pkt: Packet)
    requires LiveState(st) && Legal(AfterCalls(st, calls).sw.flows, choice)
    ensures var flows := AfterCalls(st, calls).sw.flows;
            Live(flows) && Ranked(flows) && Walk(flows, choice, CLASSIFIER_TABLE, pkt, None) != []
  {
    CallsKeepLive(st, calls);
    EveryPacketReachesNormal(AfterCalls(st, calls).sw.flows, [], AfterCalls(st, calls).sw.flows, choice, pkt);
  }

  /**
   An empty ARP list, which the agent never passes on, is an error unless an ARP request flow is cached, and changes no
   flow, so that ARP stays with the flow that Initialize has installed for it.
   */
  lemma EmptyArpListIsRefused(st: FlowState)
    ensures InstallARPFlow(st, []).st.sw.flows == st.sw.flows
    ensures InstallARPFlow(st, []).ok ==> TextOf(ArpFlow(1, [])) in CachedFlows(st, ARP_REQUEST)
    ensures TextOf(ArpFlow(1, [])) !in CachedFlows(st, ARP_REQUEST) ==> !InstallARPFlow(st, []).ok
  {
    EmptyArpFlowIsRefused(st, ARP_REQUEST, 1);
    EmptyArpFlowIsRefused(AddMissingFlows(st, ARP_REQUEST, [ArpFlow(1, [])]).st, ARP_RESPONSE, 2);
  }

  lemma EmptyArpFlowIsRefused(st: FlowState, key: CacheKey, op: nat)
    ensures var r := AddMissingFlows(st, key, [ArpFlow(op, [])]);
            && r.st.sw.flows == st.sw.flows
            && (r.ok <==> TextOf(ArpFlow(op, [])) in CachedFlows(st, key))
  {
    var f, cached := ArpFlow(op, []), CachedFlows(st, key);
    if TextOf(f) in cached {
      RepeatedInstallIsSilent(st.sem, cached, st.sw, [f]);
    } else {
      assert AddMissing(st.sem, cached, st.sw, [f]) == CacheResult(cached, ExecAs(st.sem, st.sw, Add(f)), false);
    }
  }
}
