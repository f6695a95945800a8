/**
 Properties of every table that Initialize and any later installs and uninstalls of tunnel, local, ARP and CoreDNS flows
 can leave: each packet ends in Normal, and the detour through table 2 shows in the source address alone.
 */
module ForwardingPipeline {
  import opened OpenFlow
  import opened WireSemantics
  import opened ForwardingTypes
  import opened ForwardingWalk

  /***** The flows of the live pipeline *****/

  predicate Basic(f: FwdFlow) {
    f == ClassifierDefaultFlow() || f == CoreDNSDefaultFlow() || f == ForwardDefaultFlow() || f == ArpNormalFlow()
  }

  predicate SetsTunnelOnly(acts: seq<Action>) {
    forall i | 0 <= i < |acts| :: acts[i].SetTunnelDst? || acts[i].Normal?
  }

  /** A match that some IP or ARP packets hit and others do not, whatever their source. */
  predicate ForwardMatch(on: seq<Matcher>) {
    || (|on| >= 2 && on[0] == IP && forall i | 0 <= i < |on| :: on[i].IP? || on[i].NwDst? || on[i].NwDstNet? || on[i].InPort?)
    || (|on| == 2 && on[0] == ARPFlow && on[1].ArpOp?)
  }

  /** The flows that the client keeps in its flow caches. */
  predicate Cacheable(f: FwdFlow) {
    && f.entry.priority == PRIORITY_NORMAL
    && if f.entry.table == CLASSIFIER_TABLE then
         |f.entry.on| == 1 && f.entry.on[0].InPort? && f == ClassifierFlow(f.entry.on[0].port)
       else if f.entry.table == COREDNS_TABLE then
         |f.entry.on| == 3 && f.entry.on[0].InPort? && |f.actions| == 2 && f.actions[0].SetSrcIP?
         && f == CoreDNSFlow(f.entry.on[0].port, f.actions[0].ip)
       else
         && f.entry.table == FORWARD_TABLE && ForwardMatch(f.entry.on)
         && f.actions != [] && SetsTunnelOnly(f.actions) && f.actions[|f.actions| - 1] == Normal
  }

  lemma ArpActionsEnd(ips: seq<nat>)
    requires ips != []
    ensures var acts := ArpActions(ips);
            acts != [] && SetsTunnelOnly(acts) && acts[|acts| - 1] == Normal
  {
  }

  /** What the constructors build is cacheable; an ARP flow needs at least one address. */
  lemma InstalledFlowsAreCacheable(d: Destination, inPort: nat, ip: nat, ips: seq<nat>, op: nat)
    ensures TunnelFlow(d, inPort, ip).Some? ==> Cacheable(TunnelFlow(d, inPort, ip).value)
    ensures LocalFlow(d).Some? ==> Cacheable(LocalFlow(d).value)
    ensures Cacheable(ClassifierFlow(inPort)) && Cacheable(CoreDNSFlow(inPort, ip))
    ensures ips != [] ==> Cacheable(ArpFlow(op, ips))
  {
    if ips != [] {
      ArpActionsEnd(ips);
    }
  }

  /** The table after Initialize and any number of installs and uninstalls. */
  predicate Live(flows: FwdTable) {
    && (forall x | x in flows :: Basic(Flow(x, flows[x])) || Cacheable(Flow(x, flows[x])))
    && Look(flows, ClassifierDefaultFlow().entry) == Some(ClassifierDefaultFlow().actions)
    && Look(flows, CoreDNSDefaultFlow().entry) == Some(CoreDNSDefaultFlow().actions)
    && Look(flows, ForwardDefaultFlow().entry) == Some(ForwardDefaultFlow().actions)
    && Look(flows, ArpNormalFlow().entry) == Some(ArpNormalFlow().actions)
  }

  /** The commands that the client issues after Initialize has begun; it never modifies a flow of these tables. */
  predicate LiveCommand(cmd: FwdCommand) {
    match cmd
    case Add(f) => Basic(f) || Cacheable(f)
    case Modify(_) => false
    case Delete(f) => Cacheable(f)
  }

  /** No cacheable match covers that of a default flow, so not even a non-strict Delete reaches one. */
  lemma DefaultsAreOutOfReach(f: FwdFlow)
    requires Cacheable(f)
    ensures f.entry.table == CLASSIFIER_TABLE ==> !Covers(f.entry.on, ClassifierDefaultFlow().entry.on)
    ensures f.entry.table == COREDNS_TABLE ==> !Covers(f.entry.on, CoreDNSDefaultFlow().entry.on)
    ensures f.entry.table == FORWARD_TABLE ==>
              !Covers(f.entry.on, ForwardDefaultFlow().entry.on) && !Covers(f.entry.on, ArpNormalFlow().entry.on)
  {
    var on := f.entry.on;
    if f.entry.table == FORWARD_TABLE {
      var op := if on[0] == ARPFlow then on[1].op + 1 else 0;
      var p := Packet(ARP, 0, 0, 0, 0, 0, 0, op, 0);
      assert Hits([ARPFlow], p) && Hits([], p);
      assert !Hit(on[0], p) || !Hit(on[1], p);
    } else {
      var p := Packet(ARP, 0, 0, on[0].port + 1, 0, 0, 0, 0, 0);
      assert Hits([], p) && !Hit(on[0], p);
    }
  }

  lemma CommandKeepsLive(flows: FwdTable, cmd: FwdCommand)
    requires Live(flows) && LiveCommand(cmd)
    ensures Live(Apply(flows, cmd)) && Live(WireApply(AsIs, flows, cmd))
  {
    if cmd.Delete? {
      DefaultsAreOutOfReach(cmd.flow);
    }
  }

  /** `after` is reached from `before` by live commands under either semantics, some of which may have failed. */
  ghost predicate Evolves(before: FwdTable, cmds: seq<FwdCommand>, after: FwdTable)
    decreases |cmds|
  {
    if cmds == [] then after == before
    else
      && LiveCommand(cmds[0])
      && exists next ::
           && next in {before, Apply(before, cmds[0]), WireApply(AsIs, before, cmds[0])}
           && Evolves(next, cmds[1..], after)
  }

  lemma {:induction false} EvolutionStaysLive(before: FwdTable, cmds: seq<FwdCommand>, after: FwdTable)
    requires Live(before) && Evolves(before, cmds, after)
    ensures Live(after)
    decreases |cmds|
  {
    if cmds != [] {
      CommandKeepsLive(before, cmds[0]);
      var next :| next in {before, Apply(before, cmds[0]), WireApply(AsIs, before, cmds[0])} && Evolves(next, cmds[1..], after);
      EvolutionStaysLive(next, cmds[1..], after);
    }
  }

  /***** Totality and termination *****/

  /** Live tables are ranked, so walking them terminates. */
  lemma LiveIsRanked(flows: FwdTable)
    requires Live(flows)
    ensures Ranked(flows)
  {
  }

  lemma {:induction false} TunnelActionsEnd(flows: FwdTable, choice: Choice, acts: seq<Action>, pkt: Packet, tunnel: Option<nat>)
    requires Ranked(flows) && acts != [] && SetsTunnelOnly(acts) && acts[|acts| - 1] == Normal
    ensures Perform(flows, choice, FORWARD_TABLE, acts, pkt, tunnel) != []
    decreases |acts|
  {
    if acts[0].SetTunnelDst? {
      TunnelActionsEnd(flows, choice, acts[1..], pkt, Some(acts[0].ip));
    }
  }

  lemma ForwardTableEnds(flows: FwdTable, choice: Choice, pkt: Packet, tunnel: Option<nat>)
    requires Live(flows) && Ranked(flows) && Legal(flows, choice)
    ensures Walk(flows, choice, FORWARD_TABLE, pkt, tunnel) != []
  {
    assert Hit1(flows, FORWARD_TABLE, pkt, ForwardDefaultFlow().entry);
    var x := choice(FORWARD_TABLE, pkt);
    assert Best(flows, FORWARD_TABLE, pkt, x);
    assert Basic(Flow(x, flows[x])) || Cacheable(Flow(x, flows[x]));
    TunnelActionsEnd(flows, choice, flows[x], pkt, tunnel);
  }

  /***** The detour through table 2 *****/

  function ClassifierEntry(port: nat): FwdEntry {
    ClassifierFlow(port).entry
  }

  function CoreDNSEntry(port: nat): FwdEntry {
    CoreDNSFlow(port, 0).entry
  }

  /** The packet takes the detour and its source address is rewritten there. */
  predicate IsRewritten(flows: FwdTable, pkt: Packet) {
    && ClassifierEntry(pkt.inPort) in flows && CoreDNSEntry(pkt.inPort) in flows
    && pkt.proto.UDP? && pkt.tpSrc == 53
  }

  /** The source address with which a packet reaches table 1. */
  function SourceAfter(flows: FwdTable, pkt: Packet): nat
    requires Live(flows)
  {
    if IsRewritten(flows, pkt) then
      assert Cacheable(Flow(CoreDNSEntry(pkt.inPort), flows[CoreDNSEntry(pkt.inPort)]));
      flows[CoreDNSEntry(pkt.inPort)][0].ip
    else pkt.src
  }

  lemma ClassifierPicks(flows: FwdTable, choice: Choice, pkt: Packet)
    requires Live(flows) && Legal(flows, choice)
    ensures choice(CLASSIFIER_TABLE, pkt) ==
              if ClassifierEntry(pkt.inPort) in flows then ClassifierEntry(pkt.inPort) else ClassifierDefaultFlow().entry
  {
    var t := CLASSIFIER_TABLE;
    assert Hit1(flows, t, pkt, ClassifierDefaultFlow().entry);
    var x := choice(t, pkt);
    assert Best(flows, t, pkt, x);
    assert Basic(Flow(x, flows[x])) || Cacheable(Flow(x, flows[x]));
    if ClassifierEntry(pkt.inPort) in flows {
      assert Hit1(flows, t, pkt, ClassifierEntry(pkt.inPort));
    }
    if x != ClassifierDefaultFlow().entry {
      assert Hit(x.on[0], pkt);
    }
  }

  lemma CoreDNSPicks(flows: FwdTable, choice: Choice, pkt: Packet)
    requires Live(flows) && Legal(flows, choice)
    ensures choice(COREDNS_TABLE, pkt) ==
              if CoreDNSEntry(pkt.inPort) in flows && pkt.proto.UDP? && pkt.tpSrc == 53 then CoreDNSEntry(pkt.inPort)
              else CoreDNSDefaultFlow().entry
  {
    var t := COREDNS_TABLE;
    assert Hit1(flows, t, pkt, CoreDNSDefaultFlow().entry);
    var x := choice(t, pkt);
    assert Best(flows, t, pkt, x);
    assert Basic(Flow(x, flows[x])) || Cacheable(Flow(x, flows[x]));
    if CoreDNSEntry(pkt.inPort) in flows && pkt.proto.UDP? && pkt.tpSrc == 53 {
      assert Hit1(flows, t, pkt, CoreDNSEntry(pkt.inPort));
    }
    if x != CoreDNSDefaultFlow().entry {
      assert Hit(x.on[0], pkt) && Hit(x.on[1], pkt) && Hit(x.on[2], pkt);
    }
  }

  lemma ForwardIgnoresSource(flows: FwdTable, pkt: Packet, src: nat, x: FwdEntry)
    requires Live(flows)
    ensures Hit1(flows, FORWARD_TABLE, pkt.(src := src), x) <==> Hit1(flows, FORWARD_TABLE, pkt, x)
  {
  }

  /** A walk of the whole pipeline is a walk of table 1 alone, with the source address that the detour leaves. */
  lemma DetourIsSourceRewriting(flows: FwdTable, choice: Choice, pkt: Packet)
    requires Live(flows) && Ranked(flows) && Legal(flows, choice)
    ensures Walk(flows, choice, CLASSIFIER_TABLE, pkt, None)
            == Walk(flows, choice, FORWARD_TABLE, pkt.(src := SourceAfter(flows, pkt)), None)
  {
    ClassifierPicks(flows, choice, pkt);
    var x := choice(CLASSIFIER_TABLE, pkt);
    if x == ClassifierEntry(pkt.inPort) {
      assert Cacheable(Flow(x, flows[x]));
      assert Hit1(flows, CLASSIFIER_TABLE, pkt, x);
      assert Walk(flows, choice, CLASSIFIER_TABLE, pkt, None) == Walk(flows, choice, COREDNS_TABLE, pkt, None);
      CoreDNSWalk(flows, choice, pkt);
    } else {
      assert pkt.(src := pkt.src) == pkt;
      assert Hit1(flows, CLASSIFIER_TABLE, pkt, x);
    }
  }

  lemma CoreDNSWalk(flows: FwdTable, choice: Choice, pkt: Packet)
    requires Live(flows) && Ranked(flows) && Legal(flows, choice) && ClassifierEntry(pkt.inPort) in flows
    ensures Walk(flows, choice, COREDNS_TABLE, pkt, None)
            == Walk(flows, choice, FORWARD_TABLE, pkt.(src := SourceAfter(flows, pkt)), None)
  {
    CoreDNSPicks(flows, choice, pkt);
    var x := choice(COREDNS_TABLE, pkt);
    if x == CoreDNSEntry(pkt.inPort) {
      var acts := flows[x];
      assert Cacheable(Flow(x, acts));
      assert Hit1(flows, COREDNS_TABLE, pkt, x);
      assert acts[1..] == [Resubmit(FORWARD_TABLE)];
      var pkt' := pkt.(src := acts[0].ip);
      assert Perform(flows, choice, COREDNS_TABLE, acts, pkt, None) == Perform(flows, choice, COREDNS_TABLE, acts[1..], pkt', None);
    } else {
      assert pkt.(src := pkt.src) == pkt;
      assert Hit1(flows, COREDNS_TABLE, pkt, x);
    }
  }

  /**
   CoreDNS detour transparency.  Whatever flows are installed and however the switch resolves ties: the detour changes at
   most the source address, it does so only for UDP packets with source port 53 from a CoreDNS port, and the flows of table
   1 that are best for the packet are the same as if it had skipped the detour.
   */
  lemma CoreDNSDetourIsTransparent(flows: FwdTable, choice: Choice, pkt: Packet)
    requires Live(flows) && Legal(flows, choice)
    ensures Ranked(flows)
    ensures exists src ::
              && Walk(flows, choice, CLASSIFIER_TABLE, pkt, None) == Walk(flows, choice, FORWARD_TABLE, pkt.(src := src), None)
              && (src != pkt.src ==> IsRewritten(flows, pkt))
              && forall x :: Best(flows, FORWARD_TABLE, pkt.(src := src), x) <==> Best(flows, FORWARD_TABLE, pkt, x)
  {
    LiveIsRanked(flows);
    DetourIsSourceRewriting(flows, choice, pkt);
    var src := SourceAfter(flows, pkt);
    forall x ensures Hit1(flows, FORWARD_TABLE, pkt.(src := src), x) <==> Hit1(flows, FORWARD_TABLE, pkt, x) {
      ForwardIgnoresSource(flows, pkt, src, x);
    }
    assert forall x :: Best(flows, FORWARD_TABLE, pkt.(src := src), x) <==> Best(flows, FORWARD_TABLE, pkt, x);
  }

  /**
   Pipeline totality: after any sequence of commands of the client, failed or not, exact or non-strict, every packet that
   enters at table 0 reaches a Normal action.
   */
  lemma EveryPacketReachesNormal(before: FwdTable, cmds: seq<FwdCommand>, flows: FwdTable, choice: Choice, pkt: Packet)
    requires Live(before) && Evolves(before, cmds, flows) && Legal(flows, choice)
    ensures Live(flows) && Ranked(flows) && Walk(flows, choice, CLASSIFIER_TABLE, pkt, None) != []
  {
    EvolutionStaysLive(before, cmds, flows);
    LiveIsRanked(flows);
    DetourIsSourceRewriting(flows, choice, pkt);
    ForwardTableEnds(flows, choice, pkt.(src := SourceAfter(flows, pkt)), None);
  }

  /***** There always is a legal choice *****/

  lemma {:induction false} SomeHitIsBest(flows: FwdTable, t: TableId, pkt: Packet, hits: set<FwdEntry>) returns (x: FwdEntry)
    requires hits != {} && forall y | y in hits :: Hit1(flows, t, pkt, y)
    ensures x in hits && forall y | y in hits :: y.priority <= x.priority
    decreases |hits|
  {
    x :| x in hits;
    if hits != {x} {
      var y := SomeHitIsBest(flows, t, pkt, hits - {x});
      if x.priority < y.priority {
        x := y;
      }
    }
  }

  ghost function BestOrAny(flows: FwdTable, t: TableId, pkt: Packet): FwdEntry {
    if x :| Best(flows, t, pkt, x) then x else Entry(t, 0, [])
  }

  /** So what holds for every legal choice holds for some walk. */
  lemma SomeChoiceIsLegal(flows: FwdTable)
    ensures exists choice :: Legal(flows, choice)
  {
    var choice := (t: TableId, pkt: Packet) => BestOrAny(flows, t, pkt);
    forall t: TableId, pkt: Packet | exists x :: Hit1(flows, t, pkt, x) ensures Best(flows, t, pkt, choice(t, pkt)) {
      var some :| Hit1(flows, t, pkt, some);
      var hits := set x | x in flows && Hit1(flows, t, pkt, x);
      assert some in hits;
      var x := SomeHitIsBest(flows, t, pkt, hits);
      assert Best(flows, t, pkt, x);
    }
    assert Legal(flows, choice);
  }
}
