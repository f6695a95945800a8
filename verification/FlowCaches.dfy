/**
 The flow caches of `client.go` as functions on values: addMissingFlows and deleteFlows, which stop at the first failing
 command, and the installs and uninstalls built from them.
 */
module FlowCaches {
  import opened OpenFlow
  import opened WireSemantics
  import opened ForwardingTypes

  /** What MatchString tells apart: table and matchers, but neither priority nor actions. */
  datatype MatchText = MatchText(table: TableId, on: seq<Matcher>)

  function TextOf(f: FwdFlow): MatchText {
    MatchText(f.entry.table, f.entry.on)
  }

  type FlowCache = map<MatchText, FwdFlow>

  /** The keys of generalCache and of podFlowCache. */
  datatype CacheKey = General(name: string) | Pod(containerID: string)

  const TUNNELS := General("ipConnectionVxlan")
  const ARP_REQUEST := General("arpOP1")
  const ARP_RESPONSE := General("arpOP2")

  function LocalKey(nodeName: string): CacheKey {
    General(nodeName + "-localIP")
  }

  /***** Commands *****/

  /** Commands name entries exactly, or reach what they cover. */
  datatype Semantics = Exact | NonStrict

  ghost function ApplyAs(sem: Semantics, flows: FwdTable, cmd: FwdCommand): FwdTable {
    if sem.Exact? then Apply(flows, cmd) else WireApply(AsIs, flows, cmd)
  }

  /** The command fails.  Without actions the text of a flow has no action part, and `ovs-ofctl add-flow` refuses it. */
  predicate Refused(sw: FwdSwitch, cmd: FwdCommand) {
    WillFail(sw) || (!cmd.Delete? && cmd.flow.actions == [])
  }

  ghost function ExecAs(sem: Semantics, sw: FwdSwitch, cmd: FwdCommand): FwdSwitch {
    if Refused(sw, cmd) then sw.(clock := sw.clock + 1)
    else Switch(ApplyAs(sem, sw.flows, cmd), Count(sw.counts, cmd.flow.entry.table, Delta(cmd)), sw.fails, sw.clock + 1)
  }

  datatype FlowState = FlowState(sem: Semantics, caches: map<CacheKey, FlowCache>, sw: FwdSwitch)

  datatype CacheResult = CacheResult(cached: FlowCache, sw: FwdSwitch, ok: bool)

  datatype StateResult = StateResult(st: FlowState, ok: bool)

  /** A flow whose match text is cached is skipped, even if its actions differ. */
  ghost function AddMissing(sem: Semantics, cached: FlowCache, sw: FwdSwitch, flows: seq<FwdFlow>): CacheResult
    decreases |flows|
  {
    if flows == [] then CacheResult(cached, sw, true)
    else if TextOf(flows[0]) in cached then AddMissing(sem, cached, sw, flows[1..])
    else
      var sw' := ExecAs(sem, sw, Add(flows[0]));
      if Refused(sw, Add(flows[0])) then CacheResult(cached, sw', false)
      else AddMissing(sem, cached[TextOf(flows[0]) := flows[0]], sw', flows[1..])
  }

  /** `order` is the order in which the map yields its keys. */
  ghost function DeleteCached(sem: Semantics, cached: FlowCache, sw: FwdSwitch, order: seq<MatchText>): CacheResult
    decreases |order|
  {
    if order == [] then CacheResult(cached, sw, true)
    else if order[0] !in cached then DeleteCached(sem, cached, sw, order[1..])
    else
      var sw' := ExecAs(sem, sw, Delete(cached[order[0]]));
      if WillFail(sw) then CacheResult(cached, sw', false) else DeleteCached(sem, cached - {order[0]}, sw', order[1..])
  }

  function CachedFlows(st: FlowState, key: CacheKey): FlowCache {
    if key in st.caches then st.caches[key] else map[]
  }

  ghost function AddMissingFlows(st: FlowState, key: CacheKey, flows: seq<FwdFlow>): StateResult {
    var r := AddMissing(st.sem, CachedFlows(st, key), st.sw, flows);
    StateResult(st.(caches := st.caches[key := r.cached], sw := r.sw), r.ok)
  }

  ghost function DeleteFlows(st: FlowState, key: CacheKey, order: seq<MatchText>): StateResult {
    if key !in st.caches then StateResult(st, true)
    else
      var r := DeleteCached(st.sem, st.caches[key], st.sw, order);
      StateResult(st.(caches := if r.cached == map[] then st.caches - {key} else st.caches[key := r.cached], sw := r.sw), r.ok)
  }

  /***** The calls of the client *****/

  ghost function InstallTunFlow(st: FlowState, d: Destination, inPort: nat, tunnelDst: nat): StateResult {
    var f := TunnelFlow(d, inPort, tunnelDst);
    if f.None? then StateResult(st, false) else AddMissingFlows(st, TUNNELS, [f.value])
  }

  ghost function InstallLocalIPFlow(st: FlowState, nodeName: string, d: Destination): StateResult {
    var f := LocalFlow(d);
    if f.None? then StateResult(st, false) else AddMissingFlows(st, LocalKey(nodeName), [f.value])
  }

  ghost function InstallARPFlow(st: FlowState, ips: seq<nat>): StateResult {
    var r := AddMissingFlows(st, ARP_REQUEST, [ArpFlow(1, ips)]);
    if r.ok then AddMissingFlows(r.st, ARP_RESPONSE, [ArpFlow(2, ips)]) else r
  }

  ghost function InstallCorednsFlow(st: FlowState, port: nat, containerID: string, serviceIP: nat): StateResult {
    AddMissingFlows(st, Pod(containerID), [ClassifierFlow(port), CoreDNSFlow(port, serviceIP)])
  }

  /** The four default flows, one after the other. */
  ghost function Initialize(st: FlowState, connected: bool): StateResult {
    if !connected then StateResult(st, false)
    else
      var r := AddAll(st.sem, st.sw, [ArpNormalFlow(), ClassifierDefaultFlow(), CoreDNSDefaultFlow(), ForwardDefaultFlow()]);
      StateResult(st.(sw := r.sw), r.ok)
  }

  ghost function AddAll(sem: Semantics, sw: FwdSwitch, flows: seq<FwdFlow>): CacheResult
    decreases |flows|
  {
    if flows == [] then CacheResult(map[], sw, true)
    else
      var sw' := ExecAs(sem, sw, Add(flows[0]));
      if Refused(sw, Add(flows[0])) then CacheResult(map[], sw', false) else AddAll(sem, sw', flows[1..])
  }

  /***** Where the semantics agree *****/

  /** The texts of the flows, so that their missing ones can be counted. */
  function Texts(flows: seq<FwdFlow>): set<MatchText> {
    set f | f in flows :: TextOf(f)
  }

  /** No match among `texts` covers another one of its table, nor that of a flow with another match on the switch. */
  ghost predicate TextsApart(texts: set<MatchText>, flows: FwdTable) {
    && (forall m, m' | m in texts && m' in texts && m'.table == m.table && Covers(m.on, m'.on) :: m' == m)
    && (forall m, x | m in texts && x in flows && x.table == m.table && Covers(m.on, x.on) :: x.on == m.on)
  }

  ghost predicate Safe(sem: Semantics, texts: set<MatchText>, flows: FwdTable) {
    sem.NonStrict? ==> TextsApart(texts, flows)
  }

  /** A command on one of `texts` then does the same under both semantics. */
  lemma SafeIsExact(sem: Semantics, texts: set<MatchText>, flows: FwdTable, cmd: FwdCommand)
    requires Safe(sem, texts, flows) && TextOf(cmd.flow) in texts
    ensures ApplyAs(sem, flows, cmd) == Apply(flows, cmd) && Safe(sem, texts, Apply(flows, cmd))
  {
  }

  /***** The cache agrees with the switch *****/

  /**
   The match texts of all flows that are ever cached, which cache key owns each of them, and which flow it stands for.  Keys
   own disjoint texts and each text has one action list exactly if the installed flows follow such a plan.
   */
  datatype Plan = Plan(texts: set<MatchText>, owner: MatchText -> CacheKey, flow: MatchText -> FwdFlow)

  ghost predicate PlanOk(p: Plan) {
    forall m | m in p.texts :: TextOf(p.flow(m)) == m
  }

  predicate Follows(p: Plan, key: CacheKey, flows: seq<FwdFlow>) {
    forall f | f in flows :: TextOf(f) in p.texts && p.owner(TextOf(f)) == key && p.flow(TextOf(f)) == f
  }

  predicate CacheFollows(p: Plan, key: CacheKey, cached: FlowCache) {
    forall m | m in cached :: m in p.texts && p.owner(m) == key && p.flow(m) == cached[m]
  }

  /** The planned flows of key `key` that are on the switch are exactly the cached ones. */
  ghost predicate KeyAgrees(p: Plan, key: CacheKey, cached: FlowCache, flows: FwdTable) {
    && CacheFollows(p, key, cached)
    && forall m | m in p.texts && p.owner(m) == key ::
         Look(flows, p.flow(m).entry) == if m in cached then Some(p.flow(m).actions) else None
  }

  ghost predicate Agrees(p: Plan, st: FlowState) {
    && PlanOk(p)
    && forall key :: KeyAgrees(p, key, CachedFlows(st, key), st.sw.flows)
  }

  /** The entries that other keys own did not change. */
  ghost predicate OthersKept(p: Plan, key: CacheKey, before: FwdTable, after: FwdTable) {
    forall m | m in p.texts && p.owner(m) != key :: Look(after, p.flow(m).entry) == Look(before, p.flow(m).entry)
  }

  lemma OneAdded(p: Plan, key: CacheKey, cached: FlowCache, flows: FwdTable, f: FwdFlow)
    requires PlanOk(p) && KeyAgrees(p, key, cached, flows) && Follows(p, key, [f])
    ensures KeyAgrees(p, key, cached[TextOf(f) := f], Apply(flows, Add(f))) && OthersKept(p, key, flows, Apply(flows, Add(f)))
  {
  }

  lemma OneDeleted(p: Plan, key: CacheKey, cached: FlowCache, flows: FwdTable, gone: MatchText)
    requires PlanOk(p) && KeyAgrees(p, key, cached, flows) && gone in cached
    ensures KeyAgrees(p, key, cached - {gone}, Apply(flows, Delete(cached[gone])))
    ensures OthersKept(p, key, flows, Apply(flows, Delete(cached[gone])))
    ensures TextOf(cached[gone]) in p.texts
  {
  }

  lemma {:induction false} AddMissingAgrees(sem: Semantics, p: Plan, key: CacheKey, cached: FlowCache, sw: FwdSwitch, flows: seq<FwdFlow>)
    requires PlanOk(p) && KeyAgrees(p, key, cached, sw.flows) && Follows(p, key, flows) && Safe(sem, p.texts, sw.flows)
    ensures var r := AddMissing(sem, cached, sw, flows);
            && KeyAgrees(p, key, r.cached, r.sw.flows) && OthersKept(p, key, sw.flows, r.sw.flows)
            && Safe(sem, p.texts, r.sw.flows)
    decreases |flows|
  {
    hide Safe, ApplyAs;
    if flows != [] {
      var f := flows[0];
      assert f in flows;
      if TextOf(f) in cached {
        AddMissingAgrees(sem, p, key, cached, sw, flows[1..]);
      } else if !Refused(sw, Add(f)) {
        SafeIsExact(sem, p.texts, sw.flows, Add(f));
        OneAdded(p, key, cached, sw.flows, f);
        AddMissingAgrees(sem, p, key, cached[TextOf(f) := f], ExecAs(sem, sw, Add(f)), flows[1..]);
      }
    }
  }

  lemma {:induction false} DeleteCachedAgrees(sem: Semantics, p: Plan, key: CacheKey, cached: FlowCache, sw: FwdSwitch, order: seq<MatchText>)
    requires PlanOk(p) && KeyAgrees(p, key, cached, sw.flows) && Safe(sem, p.texts, sw.flows)
    ensures var r := DeleteCached(sem, cached, sw, order);
            && KeyAgrees(p, key, r.cached, r.sw.flows) && OthersKept(p, key, sw.flows, r.sw.flows)
            && Safe(sem, p.texts, r.sw.flows)
    decreases |order|
  {
    hide Safe, ApplyAs, KeyAgrees, PlanOk;
    if order != [] {
      if order[0] !in cached {
        DeleteCachedAgrees(sem, p, key, cached, sw, order[1..]);
      } else if !WillFail(sw) {
        var cmd := Delete(cached[order[0]]);
        OneDeleted(p, key, cached, sw.flows, order[0]);
        SafeIsExact(sem, p.texts, sw.flows, cmd);
        DeleteCachedAgrees(sem, p, key, cached - {order[0]}, ExecAs(sem, sw, cmd), order[1..]);
      }
    }
  }

  /** Whatever command fails, addMissingFlows leaves a cache that agrees with the switch. */
  lemma AddMissingFlowsAgrees(p: Plan, st: FlowState, key: CacheKey, flows: seq<FwdFlow>)
    requires Agrees(p, st) && Follows(p, key, flows) && Safe(st.sem, p.texts, st.sw.flows)
    ensures var st' := AddMissingFlows(st, key, flows).st;
            Agrees(p, st') && Safe(st'.sem, p.texts, st'.sw.flows)
  {
    hide Safe;
    AddMissingAgrees(st.sem, p, key, CachedFlows(st, key), st.sw, flows);
    OtherKeysAgree(p, st, AddMissingFlows(st, key, flows).st, key);
  }

  lemma OtherKeysAgree(p: Plan, st: FlowState, st': FlowState, key: CacheKey)
    requires Agrees(p, st) && OthersKept(p, key, st.sw.flows, st'.sw.flows)
    requires KeyAgrees(p, key, CachedFlows(st', key), st'.sw.flows)
    requires forall key' | key' != key :: CachedFlows(st', key') == CachedFlows(st, key')
    ensures Agrees(p, st')
  {
  }

  /** Whatever command fails, deleteFlows leaves a cache that agrees with the switch; if none fails it removes the key. */
  lemma DeleteFlowsAgrees(p: Plan, st: FlowState, key: CacheKey, order: seq<MatchText>)
    requires Agrees(p, st) && Safe(st.sem, p.texts, st.sw.flows) && forall m | m in CachedFlows(st, key) :: m in order
    ensures var st' := DeleteFlows(st, key, order).st;
            Agrees(p, st') && Safe(st'.sem, p.texts, st'.sw.flows)
    ensures DeleteFlows(st, key, order).ok ==> key !in DeleteFlows(st, key, order).st.caches
  {
    hide Safe;
    assert KeyAgrees(p, key, CachedFlows(st, key), st.sw.flows);
    if key in st.caches {
      DeleteCachedAgrees(st.sem, p, key, st.caches[key], st.sw, order);
      DeleteCachedEmpties(st.sem, st.caches[key], st.sw, order);
      OtherKeysAgree(p, st, DeleteFlows(st, key, order).st, key);
    }
  }

  lemma {:induction false} DeleteCachedEmpties(sem: Semantics, cached: FlowCache, sw: FwdSwitch, order: seq<MatchText>)
    ensures DeleteCached(sem, cached, sw, order).ok ==>
              forall m | m in DeleteCached(sem, cached, sw, order).cached :: m in cached && m !in order
    decreases |order|
  {
    if order != [] {
      if order[0] !in cached {
        DeleteCachedEmpties(sem, cached, sw, order[1..]);
      } else if !WillFail(sw) {
        DeleteCachedEmpties(sem, cached - {order[0]}, ExecAs(sem, sw, Delete(cached[order[0]])), order[1..]);
      }
    }
  }

  /***** Deletions that reach further *****/

  /** The match of some flow in `cached` covers this one of its table. */
  ghost predicate CoveredBy(cached: FlowCache, table: TableId, on: seq<Matcher>) {
    exists m :: m in cached && m.table == table && Covers(m.on, on)
  }

  /** What the non-strict deletion of all flows of a cache leaves on the switch. */
  lemma {:induction false} WireDeletionLeaves(cached: FlowCache, sw: FwdSwitch, order: seq<MatchText>)
    requires DeleteCached(NonStrict, cached, sw, order).ok && forall m | m in cached :: m in order && TextOf(cached[m]) == m
    ensures var after := DeleteCached(NonStrict, cached, sw, order).sw.flows;
            forall x :: Look(after, x) == if CoveredBy(cached, x.table, x.on) then None else Look(sw.flows, x)
    decreases |order|
  {
    hide Covers;
    if order != [] {
      var m := order[0];
      if m !in cached {
        WireDeletionLeaves(cached, sw, order[1..]);
      } else {
        var rest := cached - {m};
        WireDeletionLeaves(rest, ExecAs(NonStrict, sw, Delete(cached[m])), order[1..]);
        forall table, on ensures CoveredBy(cached, table, on) <==> CoveredBy(rest, table, on) || (m.table == table && Covers(m.on, on)) {
          if CoveredBy(cached, table, on) {
            var m' :| m' in cached && m'.table == table && Covers(m'.on, on);
            assert m' == m || m' in rest;
          }
        }
      }
    }
  }

  /**
   The exact condition for the non-strict deletion that the client issues: after a completed deletion of a key the caches
   agree with the switch if and only if no flow cached under the key covers one that is cached under another key.
   */
  lemma WireDeletionAgreesIff(p: Plan, st: FlowState, key: CacheKey, order: seq<MatchText>)
    requires Agrees(p, st) && st.sem.NonStrict? && key in st.caches && forall m | m in CachedFlows(st, key) :: m in order
    requires DeleteFlows(st, key, order).ok
    ensures Agrees(p, DeleteFlows(st, key, order).st) <==>
            forall key', m | key' != key && m in CachedFlows(st, key') :: !CoveredBy(CachedFlows(st, key), m.table, m.on)
  {
    hide Covers, CoveredBy;
    var cached, st' := CachedFlows(st, key), DeleteFlows(st, key, order).st;
    assert forall key' :: KeyAgrees(p, key', CachedFlows(st, key'), st.sw.flows);
    WireDeletionLeaves(cached, st.sw, order);
    DeleteCachedEmpties(NonStrict, cached, st.sw, order);
    assert CachedFlows(st', key) == map[];
    assert forall key' | key' != key :: CachedFlows(st', key') == CachedFlows(st, key');
    if Agrees(p, st') {
      forall key', m | key' != key && m in CachedFlows(st, key') ensures !CoveredBy(cached, m.table, m.on) {
        assert KeyAgrees(p, key', CachedFlows(st', key'), st'.sw.flows);
        assert p.flow(m).entry.table == m.table && p.flow(m).entry.on == m.on;
      }
    }
    if forall key', m | key' != key && m in CachedFlows(st, key') :: !CoveredBy(cached, m.table, m.on) {
      forall key' ensures KeyAgrees(p, key', CachedFlows(st', key'), st'.sw.flows) {
        forall m | m in p.texts && p.owner(m) == key'
          ensures Look(st'.sw.flows, p.flow(m).entry) == if m in CachedFlows(st', key') then Some(p.flow(m).actions) else None
        {
          assert p.flow(m).entry.table == m.table && p.flow(m).entry.on == m.on;
          if m in cached {
            CoversItself(cached, m);
          }
        }
      }
    }
  }

  lemma CoversItself(cached: FlowCache, m: MatchText)
    requires m in cached
    ensures CoveredBy(cached, m.table, m.on)
  {
  }

  /** Each node has a cache key of its own for its local flow, and none of the other keys is taken for one. */
  lemma KeysAreNames(nodeName: string)
    ensures LocalKey(nodeName) !in {TUNNELS, ARP_REQUEST, ARP_RESPONSE} && TUNNELS !in {ARP_REQUEST, ARP_RESPONSE}
    ensures ARP_REQUEST != ARP_RESPONSE
    ensures forall other :: LocalKey(other) == LocalKey(nodeName) ==> other == nodeName
  {
    var a, b := nodeName + "-localIP", "ipConnectionVxlan";
    assert a[|a| - 1] == 'P' && b[|b| - 1] == 'n' && "arpOP1"[5] == '1' && "arpOP2"[5] == '2';
    forall other | LocalKey(other) == LocalKey(nodeName) ensures other == nodeName {
      assert (other + "-localIP")[..|other + "-localIP"| - 8] == other;
      assert a[..|a| - 8] == nodeName;
    }
  }

  /** So deleting the tunnel flows takes the flow of a local CIDR that lies inside a remote one from the switch. */
  lemma TunnelDeletionTakesLocal(p: Plan, st: FlowState, nodeName: string, net: nat, len: nat, inner: nat, innerLen: nat, order: seq<MatchText>)
    requires Agrees(p, st) && st.sem.NonStrict? && forall m | m in CachedFlows(st, TUNNELS) :: m in order
    requires DeleteFlows(st, TUNNELS, order).ok && len <= innerLen <= 32 && InNet(inner, net, len)
    requires TextOf(TunnelNetFlow(net, len, 0)) in CachedFlows(st, TUNNELS)
    requires TextOf(LocalNetFlow(inner, innerLen)) in CachedFlows(st, LocalKey(nodeName))
    ensures !Agrees(p, DeleteFlows(st, TUNNELS, order).st)
  {
    KeysAreNames(nodeName);
    WireDeletionAgreesIff(p, st, TUNNELS, order);
    var m := TextOf(LocalNetFlow(inner, innerLen));
    forall pkt | Hits([IP, NwDstNet(inner, innerLen)], pkt) ensures Hits([IP, NwDstNet(net, len)], pkt) {
      assert Hit([IP, NwDstNet(inner, innerLen)][0], pkt) && Hit([IP, NwDstNet(inner, innerLen)][1], pkt);
      NestedNets(pkt.dst, net, len, inner, innerLen);
    }
    assert CoveredBy(CachedFlows(st, TUNNELS), m.table, m.on);
  }

  /***** Resuming and repeating an install *****/

  /** What the cache holds once all flows are there; of two flows with one text the first one stays. */
  function Merged(cached: FlowCache, flows: seq<FwdFlow>): FlowCache
    decreases |flows|
  {
    if flows == [] then cached
    else Merged(if TextOf(flows[0]) in cached then cached else cached[TextOf(flows[0]) := flows[0]], flows[1..])
  }

  lemma {:induction false} MergedKeeps(cached: FlowCache, flows: seq<FwdFlow>)
    ensures forall m | m in cached :: m in Merged(cached, flows) && Merged(cached, flows)[m] == cached[m]
    ensures forall m | m in Merged(cached, flows) :: m in cached || exists f :: f in flows && TextOf(f) == m
    ensures forall f | f in flows :: TextOf(f) in Merged(cached, flows)
    decreases |flows|
  {
    if flows != [] {
      MergedKeeps(if TextOf(flows[0]) in cached then cached else cached[TextOf(flows[0]) := flows[0]], flows[1..]);
      assert flows == [flows[0]] + flows[1..];
    }
  }

  /** The first writer of a match text wins: its flow stays in the cache and on the switch whatever is installed later. */
  lemma {:induction false} FirstWriterWins(sem: Semantics, texts: set<MatchText>, cached: FlowCache, sw: FwdSwitch, flows: seq<FwdFlow>, m: MatchText)
    requires m in cached && TextOf(cached[m]) == m && Safe(sem, texts, sw.flows) && Texts(flows) <= texts
    ensures var r := AddMissing(sem, cached, sw, flows);
            && m in r.cached && r.cached[m] == cached[m]
            && Look(r.sw.flows, cached[m].entry) == Look(sw.flows, cached[m].entry)
    decreases |flows|
  {
    hide Safe, ApplyAs;
    if flows != [] {
      var f := flows[0];
      assert TextOf(f) in Texts(flows) && Texts(flows[1..]) <= Texts(flows);
      if TextOf(f) in cached {
        FirstWriterWins(sem, texts, cached, sw, flows[1..], m);
      } else if !Refused(sw, Add(f)) {
        SafeIsExact(sem, texts, sw.flows, Add(f));
        FirstWriterWins(sem, texts, cached[TextOf(f) := f], ExecAs(sem, sw, Add(f)), flows[1..], m);
      }
    }
  }

  /** Every cached flow is on the switch. */
  predicate OnSwitch(cached: FlowCache, flows: FwdTable) {
    forall m | m in cached :: TextOf(cached[m]) == m && Look(flows, cached[m].entry) == Some(cached[m].actions)
  }

  lemma {:induction false} AddMissingStaysOnSwitch(sem: Semantics, texts: set<MatchText>, cached: FlowCache, sw: FwdSwitch, flows: seq<FwdFlow>)
    requires OnSwitch(cached, sw.flows) && Safe(sem, texts, sw.flows) && Texts(flows) <= texts
    ensures var r := AddMissing(sem, cached, sw, flows);
            OnSwitch(r.cached, r.sw.flows)
    decreases |flows|
  {
    hide Safe, ApplyAs;
    if flows != [] {
      var f := flows[0];
      assert TextOf(f) in Texts(flows) && Texts(flows[1..]) <= Texts(flows);
      if TextOf(f) in cached {
        AddMissingStaysOnSwitch(sem, texts, cached, sw, flows[1..]);
      } else if !Refused(sw, Add(f)) {
        SafeIsExact(sem, texts, sw.flows, Add(f));
        AddMissingStaysOnSwitch(sem, texts, cached[TextOf(f) := f], ExecAs(sem, sw, Add(f)), flows[1..]);
      }
    }
  }

  /** No earlier flow of the list has this one's text. */
  predicate IsFirst(flows: seq<FwdFlow>, f: FwdFlow) {
    exists i | 0 <= i < |flows| :: flows[i] == f && forall j | 0 <= j < i :: TextOf(flows[j]) != TextOf(f)
  }

  lemma FirstOfRest(flows: seq<FwdFlow>, f: FwdFlow)
    requires flows != [] && TextOf(flows[0]) != TextOf(f)
    ensures IsFirst(flows, f) <==> IsFirst(flows[1..], f)
  {
  }

  lemma FirstIsFirst(flows: seq<FwdFlow>, f: FwdFlow)
    requires flows != [] && TextOf(flows[0]) == TextOf(f)
    ensures IsFirst(flows, f) <==> flows[0] == f
  {
  }

  lemma {:induction false} MergedFirst(cached: FlowCache, flows: seq<FwdFlow>, f: FwdFlow)
    requires f in flows
    ensures TextOf(f) in Merged(cached, flows)
    ensures Merged(cached, flows)[TextOf(f)] == f <==> if TextOf(f) in cached then cached[TextOf(f)] == f else IsFirst(flows, f)
    decreases |flows|
  {
    hide IsFirst;
    var g := flows[0];
    var next := if TextOf(g) in cached then cached else cached[TextOf(g) := g];
    MergedKeeps(cached, flows);
    MergedKeeps(next, flows[1..]);
    if TextOf(g) == TextOf(f) {
      FirstIsFirst(flows, f);
    } else {
      FirstOfRest(flows, f);
      MergedFirst(next, flows[1..], f);
    }
  }

  /**
   When an install does what it was asked for: after an addMissingFlows that succeeds, a requested flow is cached and on the
   switch if and only if the flow cached under its text, if there was one, is this very flow, and otherwise no earlier flow
   of the request has its text.
   */
  lemma RequestIsServedIff(sem: Semantics, texts: set<MatchText>, cached: FlowCache, sw: FwdSwitch, flows: seq<FwdFlow>, f: FwdFlow)
    requires OnSwitch(cached, sw.flows) && Safe(sem, texts, sw.flows) && Texts(flows) <= texts
    requires f in flows && AddMissing(sem, cached, sw, flows).ok
    ensures var r := AddMissing(sem, cached, sw, flows);
            Look(r.cached, TextOf(f)) == Some(f) && Look(r.sw.flows, f.entry) == Some(f.actions) <==>
            if TextOf(f) in cached then cached[TextOf(f)] == f else IsFirst(flows, f)
  {
    AddMissingMerges(sem, cached, sw, flows);
    MergedFirst(cached, flows, f);
    AddMissingStaysOnSwitch(sem, texts, cached, sw, flows);
  }

  /**
   A tunnel flow whose CIDR is cached keeps its first peer: installing it with another peer reports success, issues no
   command and changes nothing, so it serves the request if and only if the peer is the old one.
   */
  lemma TunnelKeepsFirstPeer(st: FlowState, net: nat, len: nat, inPort: nat, first: nat, peer: nat)
    requires Look(CachedFlows(st, TUNNELS), TextOf(TunnelNetFlow(net, len, first))) == Some(TunnelNetFlow(net, len, first))
    requires Look(st.sw.flows, TunnelNetFlow(net, len, first).entry) == Some(TunnelNetFlow(net, len, first).actions)
    ensures InstallTunFlow(st, Cidr(net, len), inPort, peer) == StateResult(st, true)
    ensures Look(st.sw.flows, TunnelNetFlow(net, len, peer).entry) == Some(TunnelNetFlow(net, len, peer).actions) <==> peer == first
  {
    var f := TunnelNetFlow(net, len, peer);
    RepeatedInstallIsSilent(st.sem, CachedFlows(st, TUNNELS), st.sw, [f]);
    assert st.caches[TUNNELS := CachedFlows(st, TUNNELS)] == st.caches;
    assert TunnelFlow(Cidr(net, len), inPort, peer) == Some(f);
    assert TunnelNetFlow(net, len, first).actions[0] == SetTunnelDst(first);
  }

  /**
   Each command of addMissingFlows that succeeds adds one flow to the cache, one more may fail, and there are no others; a
   call that succeeds has merged all its flows, and one that fails can be resumed: what it leaves merges to the same.
   */
  lemma {:induction false} AddMissingMerges(sem: Semantics, cached: FlowCache, sw: FwdSwitch, flows: seq<FwdFlow>)
    ensures var r := AddMissing(sem, cached, sw, flows);
            && r.sw.clock == sw.clock + |r.cached| - |cached| + (if r.ok then 0 else 1)
            && r.sw.fails == sw.fails
            && (r.ok ==> r.cached == Merged(cached, flows))
            && Merged(r.cached, flows) == Merged(cached, flows)
    decreases |flows|
  {
    if flows != [] {
      var f := flows[0];
      if TextOf(f) in cached {
        AddMissingMerges(sem, cached, sw, flows[1..]);
        MergedStep(AddMissing(sem, cached, sw, flows[1..]).cached, cached, f, flows[1..]);
        AddMissingKeeps(sem, cached, sw, flows[1..]);
      } else if !Refused(sw, Add(flows[0])) {
        var cached' := cached[TextOf(f) := f];
        AddMissingMerges(sem, cached', ExecAs(sem, sw, Add(f)), flows[1..]);
        AddMissingKeeps(sem, cached', ExecAs(sem, sw, Add(f)), flows[1..]);
        assert |cached'| == |cached| + 1 by {
          assert cached'.Keys == cached.Keys + {TextOf(f)};
        }
      }
    }
  }

  lemma MergedStep(more: FlowCache, cached: FlowCache, f: FwdFlow, rest: seq<FwdFlow>)
    ensures TextOf(f) in more ==> Merged(more, [f] + rest) == Merged(more, rest)
  {
  }

  lemma {:induction false} AddMissingKeeps(sem: Semantics, cached: FlowCache, sw: FwdSwitch, flows: seq<FwdFlow>)
    ensures forall m | m in cached :: m in AddMissing(sem, cached, sw, flows).cached && AddMissing(sem, cached, sw, flows).cached[m] == cached[m]
    decreases |flows|
  {
    if flows != [] {
      var f := flows[0];
      if TextOf(f) in cached {
        AddMissingKeeps(sem, cached, sw, flows[1..]);
      } else if !Refused(sw, Add(f)) {
        AddMissingKeeps(sem, cached[TextOf(f) := f], ExecAs(sem, sw, Add(f)), flows[1..]);
      }
    }
  }

  /** Repeating an install whose flows are all cached issues no command and changes nothing. */
  lemma {:induction false} RepeatedInstallIsSilent(sem: Semantics, cached: FlowCache, sw: FwdSwitch, flows: seq<FwdFlow>)
    requires forall f | f in flows :: TextOf(f) in cached
    ensures AddMissing(sem, cached, sw, flows) == CacheResult(cached, sw, true)
    decreases |flows|
  {
    if flows != [] {
      assert flows[0] in flows;
      RepeatedInstallIsSilent(sem, cached, sw, flows[1..]);
    }
  }

  /**
   Resuming a failed install issues a command for each flow that is still missing and for no other; if it succeeds the cache
   is the one that a single clean call would have left.
   */
  lemma ResumeIssuesOnlyMissing(sem: Semantics, cached: FlowCache, sw: FwdSwitch, flows: seq<FwdFlow>, sw': FwdSwitch)
    requires !AddMissing(sem, cached, sw, flows).ok && AddMissing(sem, AddMissing(sem, cached, sw, flows).cached, sw', flows).ok
    ensures var failed := AddMissing(sem, cached, sw, flows);
            var resumed := AddMissing(sem, failed.cached, sw', flows);
            && resumed.cached == Merged(cached, flows)
            && resumed.sw.clock == sw'.clock + |Texts(flows) - failed.cached.Keys|
  {
    var failed := AddMissing(sem, cached, sw, flows);
    var resumed := AddMissing(sem, failed.cached, sw', flows);
    AddMissingMerges(sem, cached, sw, flows);
    AddMissingMerges(sem, failed.cached, sw', flows);
    MergedKeeps(failed.cached, flows);
    assert resumed.cached.Keys == failed.cached.Keys + (Texts(flows) - failed.cached.Keys);
  }

  /***** When the calls succeed *****/

  /** None of the next `n` commands fails. */
  ghost predicate NextSucceed(sw: FwdSwitch, n: nat) {
    forall i: nat | sw.clock <= i < sw.clock + n :: !sw.fails(i)
  }

  lemma NoCommandSucceeds(sw: FwdSwitch)
    ensures NextSucceed(sw, 0)
  {
  }

  lemma NextStep(sw: FwdSwitch, sw': FwdSwitch, n: nat)
    requires sw'.fails == sw.fails && sw'.clock == sw.clock + 1
    ensures NextSucceed(sw, n + 1) <==> !WillFail(sw) && NextSucceed(sw', n)
  {
  }

  /** No flow for which a command is due is without actions. */
  ghost predicate MissingHaveActions(cached: FlowCache, flows: seq<FwdFlow>) {
    forall f | f in flows && TextOf(f) !in cached && IsFirst(flows, f) :: f.actions != []
  }

  lemma MissingActionsStep(cached: FlowCache, flows: seq<FwdFlow>)
    requires flows != []
    ensures var f := flows[0];
            MissingHaveActions(cached, flows) <==>
            if TextOf(f) in cached then MissingHaveActions(cached, flows[1..])
            else f.actions != [] && MissingHaveActions(cached[TextOf(f) := f], flows[1..])
  {
  }

  /** How many texts of the flows are not cached. */
  function MissingCount(cached: FlowCache, flows: seq<FwdFlow>): nat {
    |Texts(flows) - cached.Keys|
  }

  lemma MissingCountStep(cached: FlowCache, flows: seq<FwdFlow>)
    requires flows != []
    ensures var f := flows[0];
            MissingCount(cached, flows) == if TextOf(f) in cached then MissingCount(cached, flows[1..])
                                           else 1 + MissingCount(cached[TextOf(f) := f], flows[1..])
  {
    hide Texts;
    var f, rest := flows[0], flows[1..];
    assert flows == [f] + rest;
    TextsOfSum(f, rest);
    if TextOf(f) in cached {
      assert Texts(flows) - cached.Keys == Texts(rest) - cached.Keys;
    } else {
      var missing := Texts(rest) - cached[TextOf(f) := f].Keys;
      assert Texts(flows) - cached.Keys == missing + {TextOf(f)};
    }
  }

  lemma {:induction false} AddMissingSucceedsIff(sem: Semantics, cached: FlowCache, sw: FwdSwitch, flows: seq<FwdFlow>)
    ensures AddMissing(sem, cached, sw, flows).ok <==>
            NextSucceed(sw, MissingCount(cached, flows)) && MissingHaveActions(cached, flows)
    decreases |flows|
  {
    hide NextSucceed, WillFail, MissingHaveActions, MissingCount;
    if flows == [] {
      NoneMissing(cached, sw);
    } else {
      var f, rest := flows[0], flows[1..];
      MissingActionsStep(cached, flows);
      MissingCountStep(cached, flows);
      if TextOf(f) in cached {
        AddMissingSucceedsIff(sem, cached, sw, rest);
      } else {
        NextStep(sw, ExecAs(sem, sw, Add(f)), MissingCount(cached[TextOf(f) := f], rest));
        if !Refused(sw, Add(f)) {
          AddMissingSucceedsIff(sem, cached[TextOf(f) := f], ExecAs(sem, sw, Add(f)), rest);
        }
      }
    }
  }

  lemma NoneMissing(cached: FlowCache, sw: FwdSwitch)
    ensures NextSucceed(sw, MissingCount(cached, [])) && MissingHaveActions(cached, [])
  {
  }

  lemma TextsOfSum(f: FwdFlow, rest: seq<FwdFlow>)
    ensures Texts([f] + rest) == Texts(rest) + {TextOf(f)}
  {
  }

  /**
   What an install does.  It succeeds if and only if as many commands succeed as texts are missing and no flow among them is
   without actions; then it has issued just these commands, and each requested text is cached.  Flows of other keys stay
   cached, and so do those of this key.
   */
  lemma InstallOutcome(st: FlowState, key: CacheKey, flows: seq<FwdFlow>)
    ensures var r, cached := AddMissingFlows(st, key, flows), CachedFlows(st, key);
            && (r.ok <==> NextSucceed(st.sw, MissingCount(cached, flows)) && MissingHaveActions(cached, flows))
            && (r.ok ==> r.st.sw.clock == st.sw.clock + MissingCount(cached, flows)
                         && CachedFlows(r.st, key).Keys == cached.Keys + Texts(flows))
            && (forall m | m in cached :: m in CachedFlows(r.st, key) && CachedFlows(r.st, key)[m] == cached[m])
            && (forall key' | key' != key :: CachedFlows(r.st, key') == CachedFlows(st, key'))
  {
    hide AddMissing, NextSucceed, MissingHaveActions;
    var cached := CachedFlows(st, key);
    var r := AddMissing(st.sem, cached, st.sw, flows);
    AddMissingSucceedsIff(st.sem, cached, st.sw, flows);
    AddMissingMerges(st.sem, cached, st.sw, flows);
    AddMissingKeeps(st.sem, cached, st.sw, flows);
    if r.ok {
      MergedKeys(cached, flows);
    }
  }

  lemma MergedKeys(cached: FlowCache, flows: seq<FwdFlow>)
    ensures Merged(cached, flows).Keys == cached.Keys + Texts(flows)
    ensures |Merged(cached, flows).Keys| == |cached.Keys| + MissingCount(cached, flows)
  {
    MergedKeeps(cached, flows);
    hide Merged;
    UnionSize(cached.Keys, Texts(flows));
  }

  lemma UnionSize<T>(a: set<T>, b: set<T>)
    ensures |a + b| == |a| + |b - a|
  {
  }

  lemma OneLess(cached: FlowCache, m: MatchText)
    requires m in cached
    ensures |cached| == |cached - {m}| + 1
  {
  }

  /** A deleteFlows whose loop meets every cached flow succeeds if and only if as many commands succeed as flows are cached. */
  lemma {:induction false} DeleteCachedSucceedsIff(sem: Semantics, cached: FlowCache, sw: FwdSwitch, order: seq<MatchText>)
    requires forall m | m in cached :: m in order
    ensures DeleteCached(sem, cached, sw, order).ok <==> NextSucceed(sw, |cached|)
    decreases |order|
  {
    hide NextSucceed, WillFail;
    if order == [] {
      NoCommandSucceeds(sw);
      assert cached == map[];
    } else {
      var m := order[0];
      if m !in cached {
        DeleteCachedSucceedsIff(sem, cached, sw, order[1..]);
      } else {
        var sw' := ExecAs(sem, sw, Delete(cached[m]));
        OneLess(cached, m);
        NextStep(sw, sw', |cached - {m}|);
        if !WillFail(sw) {
          DeleteCachedSucceedsIff(sem, cached - {m}, sw', order[1..]);
        }
      }
    }
  }

  /** It issues one command for each flow that leaves the cache, and one more if it fails. */
  lemma {:induction false} DeleteCachedCounts(sem: Semantics, cached: FlowCache, sw: FwdSwitch, order: seq<MatchText>)
    ensures var r := DeleteCached(sem, cached, sw, order);
            r.sw.clock == sw.clock + |cached| - |r.cached| + if r.ok then 0 else 1
    decreases |order|
  {
    hide WillFail;
    if order != [] {
      var m := order[0];
      if m !in cached {
        DeleteCachedCounts(sem, cached, sw, order[1..]);
      } else if !WillFail(sw) {
        OneLess(cached, m);
        DeleteCachedCounts(sem, cached - {m}, ExecAs(sem, sw, Delete(cached[m])), order[1..]);
      }
    }
  }

  /** Some flow that left the cache names this entry. */
  predicate Left(cached: FlowCache, left: FlowCache, x: FwdEntry) {
    exists m | m in cached :: m !in left && SameSlot(x, cached[m].entry)
  }

  /** The entries of the flows that leave the cache leave the switch too, and if commands name entries exactly, no other. */
  lemma {:induction false} DeleteCachedClears(sem: Semantics, cached: FlowCache, sw: FwdSwitch, order: seq<MatchText>)
    ensures var r := DeleteCached(sem, cached, sw, order);
            && (forall m | m in r.cached :: m in cached && r.cached[m] == cached[m])
            && (forall x | x in r.sw.flows :: x in sw.flows && r.sw.flows[x] == sw.flows[x] && !Left(cached, r.cached, x))
            && (sem.Exact? ==> forall x | x in sw.flows && !Left(cached, r.cached, x) :: x in r.sw.flows)
    decreases |order|
  {
    hide WillFail, Covers;
    if order != [] {
      var m := order[0];
      if m !in cached {
        DeleteCachedClears(sem, cached, sw, order[1..]);
      } else if !WillFail(sw) {
        var rest, sw' := cached - {m}, ExecAs(sem, sw, Delete(cached[m]));
        DeleteCachedClears(sem, rest, sw', order[1..]);
        var left := DeleteCached(sem, rest, sw', order[1..]).cached;
        assert m !in left;
        DeleteClears(sem, sw.flows, cached[m]);
        forall x ensures Left(cached, left, x) <==> Left(rest, left, x) || SameSlot(x, cached[m].entry) {
          LeftStep(cached, left, m, x);
        }
      }
    }
  }

  lemma LeftStep(cached: FlowCache, left: FlowCache, m: MatchText, x: FwdEntry)
    requires m in cached && m !in left
    ensures Left(cached, left, x) <==> Left(cached - {m}, left, x) || SameSlot(x, cached[m].entry)
  {
  }

  lemma DeleteClears(sem: Semantics, flows: FwdTable, f: FwdFlow)
    ensures var after := ApplyAs(sem, flows, Delete(f));
            && (forall x | x in after :: x in flows && after[x] == flows[x] && !SameSlot(x, f.entry))
            && (sem.Exact? ==> forall x | x in flows && !SameSlot(x, f.entry) :: x in after)
  {
  }

  /**
   What a deletion does.  It succeeds if and only if the commands for all flows cached under the key do; then the key is
   gone, and so are the entries of its flows on the switch.  If it fails, the flows whose commands had succeeded are gone
   from cache and switch, and the others are still cached.  Flows of other keys stay cached.
   */
  lemma DeletionOutcome(st: FlowState, key: CacheKey, order: seq<MatchText>)
    requires forall m | m in CachedFlows(st, key) :: m in order
    ensures var r := DeleteFlows(st, key, order);
            var cached, left := CachedFlows(st, key), CachedFlows(r.st, key);
            && (r.ok <==> NextSucceed(st.sw, |cached|))
            && r.st.sw.clock == st.sw.clock + |cached| - |left| + (if r.ok then 0 else 1)
            && (r.ok ==> key !in r.st.caches)
            && (forall m | m in left :: m in cached && left[m] == cached[m])
            && (forall x | x in r.st.sw.flows :: !Left(cached, left, x))
            && (forall key' | key' != key :: CachedFlows(r.st, key') == CachedFlows(st, key'))
  {
    hide NextSucceed;
    if key in st.caches {
      DeleteCachedSucceedsIff(st.sem, st.caches[key], st.sw, order);
      DeleteCachedCounts(st.sem, st.caches[key], st.sw, order);
      DeleteCachedEmpties(st.sem, st.caches[key], st.sw, order);
      DeleteCachedClears(st.sem, st.caches[key], st.sw, order);
    } else {
      NoCommandSucceeds(st.sw);
    }
  }

  /** Initialize fails without a command if the bridge cannot be reached, and otherwise if one of its four commands does. */
  lemma InitializeSucceedsIff(st: FlowState, connected: bool)
    ensures Initialize(st, connected).ok <==> connected && NextSucceed(st.sw, 4)
    ensures !connected ==> Initialize(st, connected).st == st
    ensures Initialize(st, connected).st.caches == st.caches && Initialize(st, connected).st.sem == st.sem
  {
  }

  /** It stops at the first command that fails: each default flow is there exactly if its command and all before it succeed. */
  lemma InitializeStopsAtFailure(st: FlowState)
    requires st.sem.Exact? && st.sw.flows == map[]
    ensures var flows, sw := Initialize(st, true).st.sw.flows, st.sw;
            && (ArpNormalFlow().entry in flows <==> NextSucceed(sw, 1))
            && (ClassifierDefaultFlow().entry in flows <==> NextSucceed(sw, 2))
            && (CoreDNSDefaultFlow().entry in flows <==> NextSucceed(sw, 3))
            && (ForwardDefaultFlow().entry in flows <==> NextSucceed(sw, 4))
  {
  }

  /***** Runs of cache calls *****/

  datatype CacheCall = AddCall(key: CacheKey, flows: seq<FwdFlow>) | DeleteCall(key: CacheKey, order: seq<MatchText>)

  ghost function DoCacheCall(st: FlowState, call: CacheCall): FlowState {
    match call
    case AddCall(key, flows) => AddMissingFlows(st, key, flows).st
    case DeleteCall(key, order) => DeleteFlows(st, key, order).st
  }

  /** The calls follow the plan, and each deletion loop would meet every cached flow of its key. */
  ghost predicate CacheRun(p: Plan, st: FlowState, calls: seq<CacheCall>)
    decreases |calls|
  {
    calls == []
    || (&& (match calls[0]
            case AddCall(key, flows) => Follows(p, key, flows)
            case DeleteCall(key, order) => forall m | m in CachedFlows(st, key) :: m in order)
        && CacheRun(p, DoCacheCall(st, calls[0]), calls[1..]))
  }

  ghost function AfterCacheRun(st: FlowState, calls: seq<CacheCall>): FlowState
    decreases |calls|
  {
    if calls == [] then st else AfterCacheRun(DoCacheCall(st, calls[0]), calls[1..])
  }

  /**
   The flow cache agrees with the switch after any calls, whichever of their commands fail; with non-strict commands, if no
   match among the planned texts covers another one or that of a foreign flow.
   */
  lemma {:induction false} CachesAlwaysAgree(p: Plan, st: FlowState, calls: seq<CacheCall>)
    requires Agrees(p, st) && CacheRun(p, st, calls) && Safe(st.sem, p.texts, st.sw.flows)
    ensures Agrees(p, AfterCacheRun(st, calls))
    decreases |calls|
  {
    hide Agrees, Safe;
    if calls != [] {
      match calls[0] {
        case AddCall(key, flows) => AddMissingFlowsAgrees(p, st, key, flows);
        case DeleteCall(key, order) => DeleteFlowsAgrees(p, st, key, order);
      }
      CachesAlwaysAgree(p, DoCacheCall(st, calls[0]), calls[1..]);
    }
  }
}
