/** The loops of the agent that turn the node list into flows. */
module AgentFlows {
  import opened OpenFlow
  import opened ForwardingTypes
  import opened FlowClients
  import opened NodeMap
  import C = FlowCaches

  class Initializer {
    const ofClient: FlowClient
    const nodeConfig: NodeConfig

    constructor (ofClient: FlowClient, nodeConfig: NodeConfig)
      ensures this.ofClient == ofClient && this.nodeConfig == nodeConfig
    {
      this.ofClient, this.nodeConfig := ofClient, nodeConfig;
    }

    /** The result of InstallARPFlow is ignored. */
    method ConstructArpOpenflow(nodes: seq<Node>)
      requires ofClient.Valid()
      modifies ofClient, ofClient.bridge, ofClient.bridge.counters
      ensures ofClient.Valid() && ofClient.View() == ConstructArp(old(ofClient.View()), nodeConfig, nodes)
    {
      hide C.InstallARPFlow;
      var tunDsts := [];
      for i := 0 to |nodes|
        invariant TunnelDestinations(nodeConfig, nodes) == tunDsts + TunnelDestinations(nodeConfig, nodes[i..])
      {
        var node := nodes[i];
        assert nodes[i..][1..] == nodes[i + 1..];
        if node.name == nodeConfig.nodeName {
          continue;
        }
        ghost var before := tunDsts;
        var addresses := node.addresses;
        for j := 0 to |addresses|
          invariant tunDsts == before && FirstInternal(addresses) == FirstInternal(addresses[j..])
        {
          if addresses[j].kind == InternalIP {
            tunDsts := tunDsts + [addresses[j].ip];
            break;
          }
        }
      }
      assert nodes[|nodes|..] == [] && tunDsts == TunnelDestinations(nodeConfig, nodes);
      if |tunDsts| != 0 {
        var _ := ofClient.InstallARPFlow(tunDsts);
      }
    }

    /** An error on one node does not stop the loop. */
    method ConstructIPTunFlow(nodes: seq<Node>)
      requires ofClient.Valid()
      modifies ofClient, ofClient.bridge, ofClient.bridge.counters
      ensures ofClient.Valid() && ofClient.View() == ConstructIPTunnels(old(ofClient.View()), nodeConfig, nodes)
    {
      hide C.InstallTunFlow, C.InstallLocalIPFlow;
      for i := 0 to |nodes|
        invariant ofClient.Valid()
        invariant ConstructIPTunnels(old(ofClient.View()), nodeConfig, nodes)
               == ConstructIPTunnels(ofClient.View(), nodeConfig, nodes[i..])
      {
        var node := nodes[i];
        assert nodes[i..][1..] == nodes[i + 1..];
        if node.name == nodeConfig.nodeName {
          var _ := ofClient.InstallLocalIPFlow(node.name, nodeConfig.podCIDR);
        } else {
          var nodeAddress: Option<nat> := None;
          var addresses := node.addresses;
          for j := 0 to |addresses|
            invariant nodeAddress.None? && FirstInternal(addresses) == FirstInternal(addresses[j..])
          {
            if addresses[j].kind == InternalIP {
              nodeAddress := Some(addresses[j].ip);
              break;
            }
          }
          if nodeAddress.Some? {
            var _ := ofClient.InstallTunFlow(node.podCIDR, 0, nodeAddress.value);
          }
        }
      }
    }

    method InitOpenFlow(nodes: seq<Node>)
      requires ofClient.Valid()
      modifies ofClient, ofClient.bridge, ofClient.bridge.counters
      ensures ofClient.Valid() && ofClient.View() == Construct(old(ofClient.View()), nodeConfig, nodes)
    {
      ConstructArpOpenflow(nodes);
      ConstructIPTunFlow(nodes);
    }
  }
}
