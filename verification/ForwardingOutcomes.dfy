/** What the packets see of each install and uninstall of the client, stated by header fields and addresses. */
module ForwardingOutcomes {
  import opened OpenFlow
  import opened WireSemantics
  import opened ForwardingTypes
  import opened ForwardingWalk
  import opened ForwardingPipeline
  import opened FlowCaches
  import opened ForwardingCalls

  /***** Outputs *****/

  lemma {:induction false} TunnelActionsKeepSource(flows: FwdTable, choice: Choice, acts: seq<Action>, pkt: Packet, tunnel: Option<nat>)
    requires Ranked(flows) && SetsTunnelOnly(acts)
    ensures forall o | o in Perform(flows, choice, FORWARD_TABLE, acts, pkt, tunnel) :: o.src == pkt.src
    decreases |acts|
  {
    if acts != [] {
      TunnelActionsKeepSource(flows, choice, acts[1..], pkt, if acts[0].SetTunnelDst? then Some(acts[0].ip) else tunnel);
    }
  }

  /** Whatever leaves carries the source address that the detour left. */
  lemma OutputsCarrySource(flows: FwdTable, choice: Choice, pkt: Packet)
    requires Live(flows) && Ranked(flows) && Legal(flows, choice)
    ensures var outs := Walk(flows, choice, CLASSIFIER_TABLE, pkt, None);
            outs != [] && forall o | o in outs :: o.src == SourceAfter(flows, pkt)
  {
    var pkt' := pkt.(src := SourceAfter(flows, pkt));
    DetourIsSourceRewriting(flows, choice, pkt);
    ForwardTableEnds(flows, choice, pkt', None);
    var x := choice(FORWARD_TABLE, pkt');
    assert Basic(Flow(x, flows[x])) || Cacheable(Flow(x, flows[x]));
    TunnelActionsKeepSource(flows, choice, flows[x], pkt', None);
  }

  /***** CoreDNS flows name their entries exactly *****/

  predicate IsDetour(f: FwdFlow) {
    Cacheable(f) && f.entry.table in {CLASSIFIER_TABLE, COREDNS_TABLE}
  }

  /** In a live table a detour match covers its own entry only. */
  lemma DetourReachesItself(flows: FwdTable, f: FwdFlow, x: FwdEntry)
    requires Live(flows) && IsDetour(f) && x in flows && Reached(AsIs, f.entry, x)
    ensures x.on == f.entry.on && x.priority == PRIORITY_NORMAL
  {
    DefaultsAreOutOfReach(f);
    assert Basic(Flow(x, flows[x])) || Cacheable(Flow(x, flows[x]));
    var p := Packet(UDP, 0, 0, x.on[0].port, 0, 53, 0, 0, 0);
    assert Hits(x.on, p);
    assert Hit(f.entry.on[0], p);
  }

  lemma DetourIsExact(sem: Semantics, flows: FwdTable, cmd: FwdCommand)
    requires Live(flows) && IsDetour(cmd.flow) && !cmd.Modify?
    ensures ApplyAs(sem, flows, cmd) == Apply(flows, cmd)
  {
    hide Live, IsDetour, Apply, WireApply;
    CommandIsExactIff(AsIs, flows, cmd);
    forall x | x in flows && Reached(AsIs, cmd.flow.entry, x) ensures x.on == cmd.flow.entry.on && x.priority == PRIORITY_NORMAL {
      DetourReachesItself(flows, cmd.flow, x);
    }
    assert cmd.flow.entry.priority == PRIORITY_NORMAL by { DetourPriority(cmd.flow); }
  }

  lemma DetourPriority(f: FwdFlow)
    requires IsDetour(f)
    ensures f.entry.priority == PRIORITY_NORMAL && LiveCommand(Add(f)) && LiveCommand(Delete(f)) && f.actions != []
  {
  }

  lemma {:induction false} DetourDeletionIsExact(sem: Semantics, cached: FlowCache, sw: FwdSwitch, order: seq<MatchText>)
    requires Live(sw.flows) && forall m | m in cached :: IsDetour(cached[m])
    ensures DeleteCached(sem, cached, sw, order) == DeleteCached(Exact, cached, sw, order)
    decreases |order|
  {
    hide Live, IsDetour, Apply, WireApply;
    if order != [] {
      var m := order[0];
      if m !in cached {
        DetourDeletionIsExact(sem, cached, sw, order[1..]);
      } else {
        DetourIsExact(sem, sw.flows, Delete(cached[m]));
        DetourPriority(cached[m]);
        CommandKeepsLive(sw.flows, Delete(cached[m]));
        DetourDeletionIsExact(sem, cached - {m}, ExecAs(sem, sw, Delete(cached[m])), order[1..]);
      }
    }
  }

  /***** InstallCorednsFlow *****/

  lemma OneAlone(sem: Semantics, cached: FlowCache, sw: FwdSwitch, f: FwdFlow)
    ensures AddMissing(sem, cached, sw, [f]) ==
            if TextOf(f) in cached then CacheResult(cached, sw, true)
            else if Refused(sw, Add(f)) then CacheResult(cached, ExecAs(sem, sw, Add(f)), false)
            else CacheResult(cached[TextOf(f) := f], ExecAs(sem, sw, Add(f)), true)
  {
  }

  /** What the two flows leave on the switch, if neither text was cached. */
  lemma TwoMissing(sem: Semantics, cached: FlowCache, sw: FwdSwitch, f: FwdFlow, g: FwdFlow)
    requires TextOf(f) !in cached && TextOf(g) !in cached && TextOf(f) != TextOf(g)
    requires AddMissing(sem, cached, sw, [f, g]).ok
    ensures var r := AddMissing(sem, cached, sw, [f, g]);
            && r.cached == cached[TextOf(f) := f][TextOf(g) := g]
            && r.sw.flows == ApplyAs(sem, ApplyAs(sem, sw.flows, Add(f)), Add(g))
  {
    hide ApplyAs;
    assert [f, g][1..] == [g];
    var sw' := ExecAs(sem, sw, Add(f));
    assert AddMissing(sem, cached, sw, [f, g]) ==
      if Refused(sw, Add(f)) then CacheResult(cached, sw', false) else AddMissing(sem, cached[TextOf(f) := f], sw', [g]);
    OneAlone(sem, cached[TextOf(f) := f], sw', g);
  }

  lemma CorednsTable(st: FlowState, port: nat, containerID: string, serviceIP: nat)
    requires LiveState(st) && InstallCorednsFlow(st, port, containerID, serviceIP).ok
    requires TextOf(ClassifierFlow(port)) !in CachedFlows(st, Pod(containerID))
    requires TextOf(CoreDNSFlow(port, serviceIP)) !in CachedFlows(st, Pod(containerID))
    ensures var r, f, g := InstallCorednsFlow(st, port, containerID, serviceIP).st, ClassifierFlow(port), CoreDNSFlow(port, serviceIP);
            && LiveState(r) && Ranked(r.sw.flows)
            && r.sw.flows == st.sw.flows[f.entry := f.actions][g.entry := g.actions]
            && CachedFlows(r, Pod(containerID)) == CachedFlows(st, Pod(containerID))[TextOf(f) := f][TextOf(g) := g]
  {
    hide Cacheable, AddMissing;
    var f, g := ClassifierFlow(port), CoreDNSFlow(port, serviceIP);
    TwoMissing(st.sem, CachedFlows(st, Pod(containerID)), st.sw, f, g);
    InstalledFlowsAreCacheable(Unparsable, port, serviceIP, [], 0);
    DetourIsExact(st.sem, st.sw.flows, Add(f));
    CommandKeepsLive(st.sw.flows, Add(f));
    DetourIsExact(st.sem, Apply(st.sw.flows, Add(f)), Add(g));
    CallKeepsLive(st, CoreDNS(port, containerID, serviceIP));
    LiveIsRanked(InstallCorednsFlow(st, port, containerID, serviceIP).st.sw.flows);
  }

  /** A DNS answer of the Pod at this port. */
  predicate IsAnswer(port: nat, pkt: Packet) {
    pkt.proto.UDP? && pkt.tpSrc == 53 && pkt.inPort == port
  }

  /**
   What InstallCorednsFlow is for, whether commands name entries exactly or not: if it succeeds and neither of its flows was
   cached, every DNS answer from the port leaves with the service address that was asked for as its source, every other
   packet leaves with the source that it would have left with before, and no flow of table 1 is touched.
   */
  lemma AnswersComeFromService(st: FlowState, port: nat, containerID: string, serviceIP: nat, choice: Choice, pkt: Packet)
    requires LiveState(st) && InstallCorednsFlow(st, port, containerID, serviceIP).ok
    requires TextOf(ClassifierFlow(port)) !in CachedFlows(st, Pod(containerID))
    requires TextOf(CoreDNSFlow(port, serviceIP)) !in CachedFlows(st, Pod(containerID))
    requires Legal(InstallCorednsFlow(st, port, containerID, serviceIP).st.sw.flows, choice)
    ensures var flows := InstallCorednsFlow(st, port, containerID, serviceIP).st.sw.flows;
            && Live(flows) && Ranked(flows)
            && (var outs := Walk(flows, choice, CLASSIFIER_TABLE, pkt, None);
                outs != [] && forall o | o in outs :: o.src == if IsAnswer(port, pkt) then serviceIP else SourceAfter(st.sw.flows, pkt))
            && forall x | x in flows || x in st.sw.flows :: x.table == FORWARD_TABLE ==> Look(flows, x) == Look(st.sw.flows, x)
  {
    hide InstallCorednsFlow, Walk, Legal, Live, SourceAfter;
    CorednsTable(st, port, containerID, serviceIP);
    var flows := InstallCorednsFlow(st, port, containerID, serviceIP).st.sw.flows;
    OutputsCarrySource(flows, choice, pkt);
    SourceOfAnswer(st.sw.flows, flows, port, serviceIP, pkt);
  }

  lemma SourceOfAnswer(before: FwdTable, flows: FwdTable, port: nat, serviceIP: nat, pkt: Packet)
    requires var f, g := ClassifierFlow(port), CoreDNSFlow(port, serviceIP);
             Live(before) && Live(flows) && flows == before[f.entry := f.actions][g.entry := g.actions]
    ensures SourceAfter(flows, pkt) == if IsAnswer(port, pkt) then serviceIP else SourceAfter(before, pkt)
  {
  }

  /**
   A first install that fails is not seen by any packet: the classifier flow comes first, and without the flow behind it the
   detour rewrites nothing.
   */
  lemma FailedInstallIsTransparent(st: FlowState, port: nat, containerID: string, serviceIP: nat, pkt: Packet)
    requires LiveState(st) && Pod(containerID) !in st.caches && !InstallCorednsFlow(st, port, containerID, serviceIP).ok
    requires ClassifierEntry(port) !in st.sw.flows && CoreDNSEntry(port) !in st.sw.flows
    ensures var flows := InstallCorednsFlow(st, port, containerID, serviceIP).st.sw.flows;
            && Live(flows) && SourceAfter(flows, pkt) == SourceAfter(st.sw.flows, pkt)
            && CoreDNSEntry(port) !in flows && (ClassifierEntry(port) in flows <==> !WillFail(st.sw))
  {
    var f, g := ClassifierFlow(port), CoreDNSFlow(port, serviceIP);
    CallKeepsLive(st, CoreDNS(port, containerID, serviceIP));
    InstalledFlowsAreCacheable(Unparsable, port, serviceIP, [], 0);
    DetourIsExact(st.sem, st.sw.flows, Add(f));
    assert [f, g][1..] == [g];
    var sw' := ExecAs(st.sem, st.sw, Add(f));
    OneAlone(st.sem, map[TextOf(f) := f], sw', g);
    hide Live, Cacheable;
    assert AddMissing(st.sem, map[], st.sw, [f, g]) ==
      if WillFail(st.sw) then CacheResult(map[], sw', false) else AddMissing(st.sem, map[TextOf(f) := f], sw', [g]);
  }

  /***** UninstallCorednsFlow *****/

  /** After it succeeds, answers from the port leave with their own source address. */
  lemma AnswersKeepSource(st: FlowState, port: nat, containerID: string, order: seq<MatchText>, choice: Choice, pkt: Packet)
    requires LiveState(st) && (forall m | m in CachedFlows(st, Pod(containerID)) :: m in order)
    requires Look(CachedFlows(st, Pod(containerID)), TextOf(ClassifierFlow(port))) == Some(ClassifierFlow(port))
    requires DeleteFlows(st, Pod(containerID), order).ok && pkt.inPort == port
    requires Legal(DeleteFlows(st, Pod(containerID), order).st.sw.flows, choice)
    ensures var flows := DeleteFlows(st, Pod(containerID), order).st.sw.flows;
            && Live(flows) && Ranked(flows)
            && (var outs := Walk(flows, choice, CLASSIFIER_TABLE, pkt, None);
                outs != [] && forall o | o in outs :: o.src == pkt.src)
  {
    var r := DeleteFlows(st, Pod(containerID), order);
    var cached, x := CachedFlows(st, Pod(containerID)), ClassifierEntry(port);
    CallKeepsLive(st, NoCoreDNS(containerID, order));
    LiveIsRanked(r.st.sw.flows);
    DeletionOutcome(st, Pod(containerID), order);
    assert Left(cached, map[], x) by {
      assert SameSlot(x, cached[TextOf(ClassifierFlow(port))].entry);
    }
    OutputsCarrySource(r.st.sw.flows, choice, pkt);
  }

  /** Uninstalling undoes installing: for a new container, the caches and the table are then what they were before. */
  lemma UninstallUndoesInstall(st: FlowState, port: nat, containerID: string, serviceIP: nat, order: seq<MatchText>)
    requires LiveState(st) && Pod(containerID) !in st.caches && InstallCorednsFlow(st, port, containerID, serviceIP).ok
    requires ClassifierEntry(port) !in st.sw.flows && CoreDNSEntry(port) !in st.sw.flows
    requires forall m | m in CachedFlows(InstallCorednsFlow(st, port, containerID, serviceIP).st, Pod(containerID)) :: m in order
    requires DeleteFlows(InstallCorednsFlow(st, port, containerID, serviceIP).st, Pod(containerID), order).ok
    ensures var st' := DeleteFlows(InstallCorednsFlow(st, port, containerID, serviceIP).st, Pod(containerID), order).st;
            st'.caches == st.caches && st'.sw.flows == st.sw.flows
  {
    var f, g, key := ClassifierFlow(port), CoreDNSFlow(port, serviceIP), Pod(containerID);
    var st1 := InstallCorednsFlow(st, port, containerID, serviceIP).st;
    assert st1.caches == st.caches[key := CachedFlows(st1, key)];
    CorednsTable(st, port, containerID, serviceIP);
    var cached := CachedFlows(st1, key);
    assert cached == map[TextOf(f) := f, TextOf(g) := g];
    InstalledFlowsAreCacheable(Unparsable, port, serviceIP, [], 0);
    SlotsOfDetour(st.sw.flows, port, serviceIP);
    hide Live, AddMissing, LiveState, InstallCorednsFlow, DeleteFlows, Left, ClassifierFlow, CoreDNSFlow, SameSlot;
    DeleteBoth(st1, key, f, g, order);
    RestoredTable(st.sw.flows, st1.sw.flows, DeleteFlows(st1, key, order).st.sw.flows, f, g);
  }

  lemma RestoredTable(before: FwdTable, flows: FwdTable, after: FwdTable, f: FwdFlow, g: FwdFlow)
    requires flows == before[f.entry := f.actions][g.entry := g.actions]
    requires forall x | x in before :: !SameSlot(x, f.entry) && !SameSlot(x, g.entry)
    requires forall x :: x in after <==> x in flows && !SameSlot(x, f.entry) && !SameSlot(x, g.entry)
    requires forall x | x in after :: after[x] == flows[x]
    ensures after == before
  {
  }

  /** A deletion of two detour flows that succeeds takes their slots from the table, and nothing else. */
  lemma DeleteBoth(st: FlowState, key: CacheKey, f: FwdFlow, g: FwdFlow, order: seq<MatchText>)
    requires Live(st.sw.flows) && IsDetour(f) && IsDetour(g) && TextOf(f) != TextOf(g)
    requires Look(st.caches, key) == Some(map[TextOf(f) := f, TextOf(g) := g])
    requires (forall m | m in CachedFlows(st, key) :: m in order) && DeleteFlows(st, key, order).ok
    ensures var st', flows := DeleteFlows(st, key, order).st, st.sw.flows;
            && st'.caches == st.caches - {key}
            && (forall x :: x in st'.sw.flows <==> x in flows && !SameSlot(x, f.entry) && !SameSlot(x, g.entry))
            && (forall x | x in st'.sw.flows :: st'.sw.flows[x] == flows[x])
  {
    hide Live, Cacheable, DeleteCached, IsDetour, NextSucceed;
    var cached := st.caches[key];
    DetourDeletionIsExact(st.sem, cached, st.sw, order);
    DeleteCachedClears(Exact, cached, st.sw, order);
    DeleteCachedEmpties(Exact, cached, st.sw, order);
    forall x ensures Left(cached, map[], x) <==> SameSlot(x, f.entry) || SameSlot(x, g.entry) {
      BothLeft(cached, f, g, x);
    }
  }

  lemma BothLeft(cached: FlowCache, f: FwdFlow, g: FwdFlow, x: FwdEntry)
    requires cached == map[TextOf(f) := f, TextOf(g) := g] && TextOf(f) != TextOf(g)
    ensures Left(cached, map[], x) <==> SameSlot(x, f.entry) || SameSlot(x, g.entry)
  {
    assert cached[TextOf(f)] == f && cached[TextOf(g)] == g;
  }

  /** A live table without the two entries has no entry of another priority with their matches. */
  lemma SlotsOfDetour(flows: FwdTable, port: nat, serviceIP: nat)
    requires Live(flows) && ClassifierEntry(port) !in flows && CoreDNSEntry(port) !in flows
    ensures forall x | x in flows :: !SameSlot(x, ClassifierFlow(port).entry) && !SameSlot(x, CoreDNSFlow(port, serviceIP).entry)
  {
  }

  /***** InstallTunFlow and InstallLocalIPFlow *****/

  /** What one flow of table 1 changes, if its text was not cached. */
  lemma OneInstalled(st: FlowState, key: CacheKey, f: FwdFlow, pkt: Packet)
    requires LiveState(st) && Cacheable(f) && f.entry.table == FORWARD_TABLE
    requires TextOf(f) !in CachedFlows(st, key) && AddMissingFlows(st, key, [f]).ok
    ensures var before, flows := st.sw.flows, AddMissingFlows(st, key, [f]).st.sw.flows;
            && Live(flows) && Ranked(flows) && SourceAfter(flows, pkt) == SourceAfter(before, pkt)
            && (Hits(f.entry.on, pkt) ==> Hit1(flows, FORWARD_TABLE, pkt, f.entry) && flows[f.entry] == f.actions)
            && (!Hits(f.entry.on, pkt) ==>
                  forall x :: (Hit1(flows, FORWARD_TABLE, pkt, x) <==> Hit1(before, FORWARD_TABLE, pkt, x))
                              && (Hit1(flows, FORWARD_TABLE, pkt, x) ==> flows[x] == before[x]))
  {
    OneAlone(st.sem, CachedFlows(st, key), st.sw, f);
    AddMissingFlowsKeepsLive(st, key, [f]);
    hide AddMissing;
    LiveIsRanked(AddMissingFlows(st, key, [f]).st.sw.flows);
    assert AddMissingFlows(st, key, [f]).st.sw.flows == ApplyAs(st.sem, st.sw.flows, Add(f));
  }

  /** The packet is for this destination; a plain address is served for packets from one port only. */
  predicate IsFor(d: Destination, inPort: nat, pkt: Packet) {
    IsIP(pkt.proto) && match d
                       case Cidr(net, len) => InNet(pkt.dst, net, len)
                       case Host(ip) => pkt.dst == ip && pkt.inPort == inPort
                       case Unparsable => false
  }

  /** No other flow of normal priority in table 1 is hit, so that the switch has no choice. */
  ghost predicate OnlyHit(flows: FwdTable, pkt: Packet, x: FwdEntry) {
    forall y | Hit1(flows, FORWARD_TABLE, pkt, y) && y.priority == PRIORITY_NORMAL :: y == x
  }

  lemma OnlyHitDecides(flows: FwdTable, choice: Choice, pkt: Packet, x: FwdEntry)
    requires Live(flows) && Ranked(flows) && Legal(flows, choice) && OnlyHit(flows, pkt, x)
    requires Hit1(flows, FORWARD_TABLE, pkt, x) && x.priority == PRIORITY_NORMAL
    ensures var pkt' := pkt.(src := SourceAfter(flows, pkt));
            Walk(flows, choice, CLASSIFIER_TABLE, pkt, None) == Perform(flows, choice, FORWARD_TABLE, flows[x], pkt', None)
  {
    var src := SourceAfter(flows, pkt);
    var pkt' := pkt.(src := src);
    DetourIsSourceRewriting(flows, choice, pkt);
    ForwardIgnoresSource(flows, pkt, src, x);
    var y := choice(FORWARD_TABLE, pkt');
    assert Best(flows, FORWARD_TABLE, pkt', y);
    ForwardIgnoresSource(flows, pkt, src, y);
    assert Basic(Flow(y, flows[y])) || Cacheable(Flow(y, flows[y]));
  }

  lemma {:induction false} TunnelActs(flows: FwdTable, choice: Choice, pkt: Packet, peer: nat)
    requires Ranked(flows)
    ensures Perform(flows, choice, FORWARD_TABLE, [Normal], pkt, None) == [Out(None, pkt.src)]
    ensures Perform(flows, choice, FORWARD_TABLE, [SetTunnelDst(peer), Normal], pkt, None) == [Out(Some(peer), pkt.src)]
  {
  }

  /**
   What InstallTunFlow is for, under either semantics: if it succeeds for a destination that was not cached, IP packets for
   it that hit no other flow of normal priority leave once, through a tunnel to the peer that was asked for; for all other
   packets table 1 is what it was.
   */
  lemma TunnelLeadsToPeer(st: FlowState, d: Destination, inPort: nat, peer: nat, choice: Choice, pkt: Packet)
    requires LiveState(st) && InstallTunFlow(st, d, inPort, peer).ok
    requires TextOf(TunnelFlow(d, inPort, peer).value) !in CachedFlows(st, TUNNELS)
    requires Legal(InstallTunFlow(st, d, inPort, peer).st.sw.flows, choice)
    ensures var before, flows, x := st.sw.flows, InstallTunFlow(st, d, inPort, peer).st.sw.flows, TunnelFlow(d, inPort, peer).value.entry;
            && Live(flows) && Ranked(flows)
            && if IsFor(d, inPort, pkt) then
                 && Hit1(flows, FORWARD_TABLE, pkt, x)
                 && (OnlyHit(flows, pkt, x) ==>
                       Walk(flows, choice, CLASSIFIER_TABLE, pkt, None) == [Out(Some(peer), SourceAfter(before, pkt))])
               else forall y :: (Hit1(flows, FORWARD_TABLE, pkt, y) <==> Hit1(before, FORWARD_TABLE, pkt, y))
                                && (Hit1(flows, FORWARD_TABLE, pkt, y) ==> flows[y] == before[y])
  {
    var f, flows := TunnelFlow(d, inPort, peer).value, InstallTunFlow(st, d, inPort, peer).st.sw.flows;
    InstalledFlowsAreCacheable(d, inPort, peer, [], 0);
    OneInstalled(st, TUNNELS, f, pkt);
    TunnelHits(d, inPort, peer, pkt);
    hide Live, LiveState, Cacheable, InstallTunFlow, SourceAfter;
    if IsFor(d, inPort, pkt) && OnlyHit(flows, pkt, f.entry) {
      OnlyHitDecides(flows, choice, pkt, f.entry);
      TunnelActs(flows, choice, pkt.(src := SourceAfter(flows, pkt)), peer);
    }
  }

  lemma TunnelHits(d: Destination, inPort: nat, peer: nat, pkt: Packet)
    requires TunnelFlow(d, inPort, peer).Some?
    ensures var f := TunnelFlow(d, inPort, peer).value;
            && (Hits(f.entry.on, pkt) <==> IsFor(d, inPort, pkt)) && f.actions == [SetTunnelDst(peer), Normal]
            && f.entry.table == FORWARD_TABLE && f.entry.priority == PRIORITY_NORMAL
  {
    var on := TunnelFlow(d, inPort, peer).value.entry.on;
    assert Hits(on, pkt) <==> Hit(on[0], pkt) && Hit(on[1], pkt) && (|on| > 2 ==> Hit(on[2], pkt));
  }

  lemma LocalHits(d: Destination, pkt: Packet)
    requires LocalFlow(d).Some?
    ensures var f := LocalFlow(d).value;
            && (Hits(f.entry.on, pkt) <==> IsFor(d, pkt.inPort, pkt)) && f.actions == [Normal]
            && f.entry.table == FORWARD_TABLE && f.entry.priority == PRIORITY_NORMAL
  {
    var on := LocalFlow(d).value.entry.on;
    assert Hits(on, pkt) <==> Hit(on[0], pkt) && Hit(on[1], pkt);
  }

  /** The same for InstallLocalIPFlow: packets for the destination, from whatever port, leave once without a tunnel. */
  lemma LocalStaysLocal(st: FlowState, nodeName: string, d: Destination, choice: Choice, pkt: Packet)
    requires LiveState(st) && InstallLocalIPFlow(st, nodeName, d).ok
    requires TextOf(LocalFlow(d).value) !in CachedFlows(st, LocalKey(nodeName))
    requires Legal(InstallLocalIPFlow(st, nodeName, d).st.sw.flows, choice)
    ensures var before, flows, x := st.sw.flows, InstallLocalIPFlow(st, nodeName, d).st.sw.flows, LocalFlow(d).value.entry;
            && Live(flows) && Ranked(flows)
            && if IsFor(d, pkt.inPort, pkt) then
                 && Hit1(flows, FORWARD_TABLE, pkt, x)
                 && (OnlyHit(flows, pkt, x) ==>
                       Walk(flows, choice, CLASSIFIER_TABLE, pkt, None) == [Out(None, SourceAfter(before, pkt))])
               else forall y :: (Hit1(flows, FORWARD_TABLE, pkt, y) <==> Hit1(before, FORWARD_TABLE, pkt, y))
                                && (Hit1(flows, FORWARD_TABLE, pkt, y) ==> flows[y] == before[y])
  {
    var f, flows := LocalFlow(d).value, InstallLocalIPFlow(st, nodeName, d).st.sw.flows;
    InstalledFlowsAreCacheable(d, 0, 0, [], 0);
    OneInstalled(st, LocalKey(nodeName), f, pkt);
    LocalHits(d, pkt);
    hide Live, LiveState, Cacheable, InstallLocalIPFlow, SourceAfter;
    if IsFor(d, pkt.inPort, pkt) && OnlyHit(flows, pkt, f.entry) {
      OnlyHitDecides(flows, choice, pkt, f.entry);
      TunnelActs(flows, choice, pkt.(src := SourceAfter(flows, pkt)), 0);
    }
  }

  /** A destination in neither form is refused without a command; nothing else is refused for its form. */
  lemma UnparsableIsRefused(st: FlowState, d: Destination, inPort: nat, peer: nat, nodeName: string)
    ensures d.Unparsable? ==> InstallTunFlow(st, d, inPort, peer) == StateResult(st, false)
                              && InstallLocalIPFlow(st, nodeName, d) == StateResult(st, false)
    ensures !d.Unparsable? && !WillFail(st.sw) ==> InstallTunFlow(st, d, inPort, peer).ok && InstallLocalIPFlow(st, nodeName, d).ok
  {
    if !d.Unparsable? {
      NextAlone(st, TUNNELS, TunnelFlow(d, inPort, peer).value);
      NextAlone(st, LocalKey(nodeName), LocalFlow(d).value);
    }
  }

  lemma NextAlone(st: FlowState, key: CacheKey, f: FwdFlow)
    requires f.actions != []
    ensures AddMissingFlows(st, key, [f]).ok <==> TextOf(f) in CachedFlows(st, key) || !WillFail(st.sw)
  {
    OneAlone(st.sem, CachedFlows(st, key), st.sw, f);
  }
}
