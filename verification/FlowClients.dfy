/** The flow builder and the client of the live pipeline as the objects of the source, updated in place. */
module FlowClients {
  import opened OpenFlow
  import opened OpenFlowObjects
  import opened ForwardingTypes
  import opened Sequences
  import C = FlowCaches

  class FlowBuilder {
    const table: TableId
    var priority: nat
    var matchers: seq<Matcher>
    var actions: seq<Action>

    constructor (table: TableId)
      ensures this.table == table && Done() == Flow(Entry(table, 0, []), [])
    {
      this.table, priority, matchers, actions := table, 0, [], [];
    }

    function Done(): FwdFlow
      reads this
    {
      Flow(Entry(table, priority, matchers), actions)
    }

    method Priority(p: nat)
      modifies `priority
      ensures priority == p
    {
      priority := p;
    }

    method Match(m: Matcher)
      modifies `matchers
      ensures matchers == old(matchers) + [m]
    {
      matchers := matchers + [m];
    }

    method Act(a: Action)
      modifies `actions
      ensures actions == old(actions) + [a]
    {
      actions := actions + [a];
    }
  }

  lemma {:induction false} ArpActionsLast(ips: seq<nat>, ip: nat)
    ensures ArpActions(ips + [ip]) == ArpActions(ips) + [SetTunnelDst(ip), Normal]
    decreases |ips|
  {
    if ips == [] {
      assert [ip][1..] == [];
      assert ArpActions([ip]) == [SetTunnelDst(ip), Normal] + ArpActions([]);
    } else {
      assert (ips + [ip])[1..] == ips[1..] + [ip];
      ArpActionsLast(ips[1..], ip);
    }
  }

  /** The ARP request and response flows, filled side by side. */
  method ArpFlows(ips: seq<nat>) returns (request: FwdFlow, response: FwdFlow)
    ensures request == ArpFlow(1, ips) && response == ArpFlow(2, ips)
  {
    var forRequest := new FlowBuilder(FORWARD_TABLE);
    forRequest.Priority(PRIORITY_NORMAL);
    forRequest.Match(ARPFlow);
    forRequest.Match(ArpOp(1));
    var forResponse := new FlowBuilder(FORWARD_TABLE);
    forResponse.Priority(PRIORITY_NORMAL);
    forResponse.Match(ARPFlow);
    forResponse.Match(ArpOp(2));
    for i := 0 to |ips|
      invariant forRequest.matchers == [ARPFlow, ArpOp(1)] && forRequest.priority == PRIORITY_NORMAL
      invariant forResponse.matchers == [ARPFlow, ArpOp(2)] && forResponse.priority == PRIORITY_NORMAL
      invariant forRequest.actions == forResponse.actions == ArpActions(ips[..i])
    {
      assert ips[..i + 1] == ips[..i] + [ips[i]];
      ArpActionsLast(ips[..i], ips[i]);
      forRequest.Act(SetTunnelDst(ips[i]));
      forRequest.Act(Normal);
      forResponse.Act(SetTunnelDst(ips[i]));
      forResponse.Act(Normal);
    }
    assert ips[..|ips|] == ips;
    request, response := forRequest.Done(), forResponse.Done();
  }

  class FlowClient {
    const bridge: Bridge<seq<Matcher>, seq<Action>>
    /** generalCache and podFlowCache. */
    var caches: map<C.CacheKey, C.FlowCache>

    constructor (bridge: Bridge<seq<Matcher>, seq<Action>>)
      requires bridge.Valid()
      ensures Valid() && this.bridge == bridge && View() == C.FlowState(C.Exact, map[], bridge.View())
    {
      this.bridge, caches := bridge, map[];
    }

    ghost predicate Valid()
      reads this, bridge, bridge.counters
    {
      bridge.Valid()
    }

    ghost function View(): C.FlowState
      requires Valid()
      reads this, bridge, bridge.counters
    {
      C.FlowState(C.Exact, caches, bridge.View())
    }

    /** A flow without actions is refused before it reaches the switch. */
    method Add(flow: FwdFlow) returns (ok: bool)
      requires Valid()
      modifies bridge, bridge.counters
      ensures Valid()
      ensures bridge.View() == C.ExecAs(C.Exact, old(bridge.View()), OpenFlow.Add(flow))
      ensures ok == !C.Refused(old(bridge.View()), OpenFlow.Add(flow))
    {
      if |flow.actions| == 0 {
        bridge.Refuse();
        ok := false;
      } else {
        ok := bridge.AddFlow(flow);
      }
    }

    method AddMissingFlows(key: C.CacheKey, flows: seq<FwdFlow>) returns (ok: bool)
      requires Valid()
      modifies this, bridge, bridge.counters
      ensures Valid()
      ensures var r := C.AddMissingFlows(old(View()), key, flows);
              View() == r.st && ok == r.ok
    {
      hide C.AddMissing;
      var fCache := if key in caches then caches[key] else map[];
      caches := caches[key := fCache];
      ghost var all := C.AddMissing(C.Exact, fCache, bridge.View(), flows);
      for i := 0 to |flows|
        invariant Valid() && caches == old(caches)[key := fCache]
        invariant all == C.AddMissing(C.Exact, fCache, bridge.View(), flows[i..])
      {
        AddMissingFirst(fCache, bridge.View(), flows[i..]);
        var flowKey := C.TextOf(flows[i]);
        if flowKey in fCache {
          continue;
        }
        ok := Add(flows[i]);
        if !ok {
          return;
        }
        fCache := fCache[flowKey := flows[i]];
        caches := caches[key := fCache];
      }
      AddMissingFirst(fCache, bridge.View(), []);
      ok := true;
    }

    /** Deletes the cached flows in whatever order the map yields them; the key goes once nothing is left under it. */
    method DeleteFlows(key: C.CacheKey) returns (ok: bool, ghost order: seq<C.MatchText>)
      requires Valid()
      modifies this, bridge, bridge.counters
      ensures Valid() && Elems(order) == C.CachedFlows(old(View()), key).Keys
      ensures var r := C.DeleteFlows(old(View()), key, order);
              View() == r.st && ok == r.ok
    {
      order := [];
      if key !in caches {
        return true, order;
      }
      var fCache := caches[key];
      ok, fCache, order := DeleteEach(fCache);
      caches := if |fCache| == 0 then caches - {key} else caches[key := fCache];
    }

    method InstallTunFlow(d: Destination, inPort: nat, tunnelDst: nat) returns (ok: bool)
      requires Valid()
      modifies this, bridge, bridge.counters
      ensures Valid()
      ensures var r := C.InstallTunFlow(old(View()), d, inPort, tunnelDst);
              View() == r.st && ok == r.ok
    {
      hide C.AddMissingFlows;
      match d {
        case Cidr(net, len) => ok := AddMissingFlows(C.TUNNELS, [TunnelNetFlow(net, len, tunnelDst)]);
        case Host(ip) => ok := AddMissingFlows(C.TUNNELS, [TunnelIPFlow(ip, inPort, tunnelDst)]);
        case Unparsable => ok := false;
      }
    }

    method UninstallTunFlow() returns (ok: bool, ghost order: seq<C.MatchText>)
      requires Valid()
      modifies this, bridge, bridge.counters
      ensures Valid() && Elems(order) == C.CachedFlows(old(View()), C.TUNNELS).Keys
      ensures var r := C.DeleteFlows(old(View()), C.TUNNELS, order);
              View() == r.st && ok == r.ok
    {
      ok, order := DeleteFlows(C.TUNNELS);
    }

    method InstallLocalIPFlow(nodeName: string, d: Destination) returns (ok: bool)
      requires Valid()
      modifies this, bridge, bridge.counters
      ensures Valid()
      ensures var r := C.InstallLocalIPFlow(old(View()), nodeName, d);
              View() == r.st && ok == r.ok
    {
      hide C.AddMissingFlows;
      match d {
        case Cidr(net, len) => ok := AddMissingFlows(C.LocalKey(nodeName), [LocalNetFlow(net, len)]);
        case Host(ip) => ok := AddMissingFlows(C.LocalKey(nodeName), [LocalIPFlow(ip)]);
        case Unparsable => ok := false;
      }
    }

    method InstallARPFlow(ips: seq<nat>) returns (ok: bool)
      requires Valid()
      modifies this, bridge, bridge.counters
      ensures Valid()
      ensures var r := C.InstallARPFlow(old(View()), ips);
              View() == r.st && ok == r.ok
    {
      hide C.AddMissingFlows;
      var request, response := ArpFlows(ips);
      ok := AddMissingFlows(C.ARP_REQUEST, [request]);
      if !ok {
        return;
      }
      ok := AddMissingFlows(C.ARP_RESPONSE, [response]);
    }

    method InstallCorednsFlow(port: nat, containerID: string, serviceIP: nat) returns (ok: bool)
      requires Valid()
      modifies this, bridge, bridge.counters
      ensures Valid()
      ensures var r := C.InstallCorednsFlow(old(View()), port, containerID, serviceIP);
              View() == r.st && ok == r.ok
    {
      ok := AddMissingFlows(C.Pod(containerID), [ClassifierFlow(port), CoreDNSFlow(port, serviceIP)]);
    }

    method UninstallCorednsFlow(containerID: string) returns (ok: bool, ghost order: seq<C.MatchText>)
      requires Valid()
      modifies this, bridge, bridge.counters
      ensures Valid() && Elems(order) == C.CachedFlows(old(View()), C.Pod(containerID)).Keys
      ensures var r := C.DeleteFlows(old(View()), C.Pod(containerID), order);
              View() == r.st && ok == r.ok
    {
      ok, order := DeleteFlows(C.Pod(containerID));
    }

    /** `connected` says whether the bridge could be reached. */
    method Initialize(connected: bool) returns (ok: bool)
      requires Valid()
      modifies bridge, bridge.counters
      ensures Valid()
      ensures var r := C.Initialize(old(View()), connected);
              View() == r.st && ok == r.ok
    {
      if !connected {
        return false;
      }
      hide C.ExecAs, WillFail;
      ghost var sw := bridge.View();
      ok := Add(ArpNormalFlow());
      if ok {
        ok := Add(ClassifierDefaultFlow());
      }
      if ok {
        ok := Add(CoreDNSDefaultFlow());
      }
      if ok {
        ok := Add(ForwardDefaultFlow());
      }
      AddAllFour(sw, ArpNormalFlow(), ClassifierDefaultFlow(), CoreDNSDefaultFlow(), ForwardDefaultFlow());
    }

    method DeleteEach(cached: C.FlowCache) returns (ok: bool, fCache: C.FlowCache, ghost order: seq<C.MatchText>)
      requires Valid()
      modifies bridge, bridge.counters
      ensures Valid() && Elems(order) == cached.Keys
      ensures C.DeleteCached(C.Exact, cached, old(bridge.View()), order) == C.CacheResult(fCache, bridge.View(), ok)
    {
      hide C.DeleteCached, Elems;
      ElemsOfNone<C.MatchText>();
      ghost var sw := bridge.View();
      order, fCache := [], cached;
      DeleteNone(cached, sw);
      var rest := cached.Keys;
      while rest != {}
        invariant Valid() && rest <= fCache.Keys
        invariant Elems(order) !! rest && Elems(order) + rest == cached.Keys
        invariant C.DeleteCached(C.Exact, cached, sw, order) == C.CacheResult(fCache, bridge.View(), true)
      {
        var flowKey :| flowKey in rest;
        rest := rest - {flowKey};
        DeleteCachedLast(cached, sw, order, flowKey);
        ElemsOfSum(order, [flowKey]);
        order := order + [flowKey];
        ok := bridge.DeleteFlow(fCache[flowKey]);
        if !ok {
          ghost var others := Enumeration(rest);
          DeleteCachedStops(cached, sw, order, others);
          ElemsOfSum(order, others);
          order := order + others;
          return;
        }
        fCache := fCache - {flowKey};
      }
      ok := true;
    }
  }

  lemma AddMissingFirst(cached: C.FlowCache, sw: FwdSwitch, flows: seq<FwdFlow>)
    ensures C.AddMissing(C.Exact, cached, sw, flows) ==
      if flows == [] then C.CacheResult(cached, sw, true)
      else if C.TextOf(flows[0]) in cached then C.AddMissing(C.Exact, cached, sw, flows[1..])
      else if C.Refused(sw, Add(flows[0])) then C.CacheResult(cached, C.ExecAs(C.Exact, sw, Add(flows[0])), false)
      else C.AddMissing(C.Exact, cached[C.TextOf(flows[0]) := flows[0]], C.ExecAs(C.Exact, sw, Add(flows[0])), flows[1..])
  {
  }

  lemma AddAllFour(sw: FwdSwitch, a: FwdFlow, b: FwdFlow, c: FwdFlow, d: FwdFlow)
    ensures var r := C.AddAll(C.Exact, sw, [a, b, c, d]);
            var sw1 := C.ExecAs(C.Exact, sw, Add(a));
            var sw2 := C.ExecAs(C.Exact, sw1, Add(b));
            var sw3 := C.ExecAs(C.Exact, sw2, Add(c));
            && r.sw == (if C.Refused(sw, Add(a)) then sw1 else if C.Refused(sw1, Add(b)) then sw2
                        else if C.Refused(sw2, Add(c)) then sw3 else C.ExecAs(C.Exact, sw3, Add(d)))
            && r.ok == (!C.Refused(sw, Add(a)) && !C.Refused(sw1, Add(b)) && !C.Refused(sw2, Add(c)) && !C.Refused(sw3, Add(d)))
  {
    hide C.ExecAs, C.Refused;
    assert [a, b, c, d][1..] == [b, c, d] && [b, c, d][1..] == [c, d] && [c, d][1..] == [d] && [d][1..] == [];
    var sw1 := C.ExecAs(C.Exact, sw, Add(a));
    var sw2 := C.ExecAs(C.Exact, sw1, Add(b));
    var sw3 := C.ExecAs(C.Exact, sw2, Add(c));
    assert C.AddAll(C.Exact, sw3, [d]).ok == !C.Refused(sw3, Add(d));
    assert C.AddAll(C.Exact, sw3, [d]).sw == C.ExecAs(C.Exact, sw3, Add(d));
    assert C.AddAll(C.Exact, sw2, [c, d]) == if C.Refused(sw2, Add(c)) then C.CacheResult(map[], sw3, false) else C.AddAll(C.Exact, sw3, [d]);
    assert C.AddAll(C.Exact, sw1, [b, c, d]) == if C.Refused(sw1, Add(b)) then C.CacheResult(map[], sw2, false) else C.AddAll(C.Exact, sw2, [c, d]);
  }

  lemma DeleteNone(cached: C.FlowCache, sw: FwdSwitch)
    ensures C.DeleteCached(C.Exact, cached, sw, []) == C.CacheResult(cached, sw, true)
  {
  }

  lemma {:induction false} DeleteCachedStops(cached: C.FlowCache, sw: FwdSwitch, order: seq<C.MatchText>, more: seq<C.MatchText>)
    requires !C.DeleteCached(C.Exact, cached, sw, order).ok
    ensures C.DeleteCached(C.Exact, cached, sw, order + more) == C.DeleteCached(C.Exact, cached, sw, order)
    decreases |order|
  {
    if order != [] {
      assert (order + more)[1..] == order[1..] + more;
      if order[0] !in cached {
        DeleteCachedStops(cached, sw, order[1..], more);
      } else if !WillFail(sw) {
        DeleteCachedStops(cached - {order[0]}, Exec(sw, Delete(cached[order[0]])), order[1..], more);
      }
    }
  }

  lemma {:induction false} DeleteCachedLast(cached: C.FlowCache, sw: FwdSwitch, order: seq<C.MatchText>, last: C.MatchText)
    requires C.DeleteCached(C.Exact, cached, sw, order).ok
    ensures var r := C.DeleteCached(C.Exact, cached, sw, order);
            last in r.cached ==>
              C.DeleteCached(C.Exact, cached, sw, order + [last]) ==
              C.CacheResult(if WillFail(r.sw) then r.cached else r.cached - {last}, Exec(r.sw, Delete(r.cached[last])), !WillFail(r.sw))
    decreases |order|
  {
    if order == [] {
      assert [] + [last] == [last] && [last][1..] == [];
    } else {
      assert (order + [last])[1..] == order[1..] + [last];
      if order[0] !in cached {
        DeleteCachedLast(cached, sw, order[1..], last);
      } else {
        DeleteCachedLast(cached - {order[0]}, Exec(sw, Delete(cached[order[0]])), order[1..], last);
      }
    }
  }
}
