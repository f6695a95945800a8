/**
 What the policy tables do to a packet.  Conjunctive matches follow "Conjunctive Match Fields" in ovs-fields(7): when a
 packet satisfies several conjunctions the switch may choose any of them, sets conj_id, and looks the table up again among
 the flows without conjunction actions.  An unset conj_id is 0.
 */
module PolicyVerdict {
  import opened OpenFlow
  import opened PolicyTypes
  import opened PolicyEngine
  import opened PolicyInvariant
  import opened PolicyInterleaving
  import opened PolicyLoops
  import opened Sequences
  import opened PolicyRules
  import opened PolicyStore

  /***** The switch side *****/

  /** Some flow that the packet hits carries this conjunctive action. */
  ghost predicate ClauseHit(flows: FlowTable, t: TableId, pkt: Packet, act: Act) {
    exists x :: x in flows && x.table == t && Hits(Matchers(x.on), pkt) && Conjunction(act) in flows[x]
  }

  ghost predicate AllClausesHit(flows: FlowTable, t: TableId, pkt: Packet, id: RuleId, n: nat) {
    forall i: nat | 1 <= i <= n :: ClauseHit(flows, t, pkt, Act(id, i, n))
  }

  /** For some n, all n clauses of conjunction `id` are hit. */
  ghost predicate Satisfied(flows: FlowTable, t: TableId, pkt: Packet, id: RuleId) {
    exists n: nat :: n > 1 && AllClausesHit(flows, t, pkt, id, n)
  }

  const NO_CONJ: RuleId := 0

  ghost predicate Chosen(flows: FlowTable, t: TableId, pkt: Packet, c: RuleId) {
    if c == NO_CONJ then forall id :: !Satisfied(flows, t, pkt, id) else Satisfied(flows, t, pkt, c)
  }

  predicate Soft(acts: set<FlowAction>) {
    exists a | a in acts :: a.Conjunction?
  }

  predicate HardHit(flows: FlowTable, t: TableId, pkt: Packet, x: PolicyEntry) {
    x in flows && x.table == t && !Soft(flows[x]) && Hits(Matchers(x.on), pkt)
  }

  /** A hit of the highest priority among the flows without conjunction actions. */
  predicate HardBest(flows: FlowTable, t: TableId, pkt: Packet, x: PolicyEntry) {
    HardHit(flows, t, pkt, x) && forall y | y in flows && HardHit(flows, t, pkt, y) :: y.priority <= x.priority
  }

  datatype Verdict = Bypassed | Passed | Dropped

  /** A packet goes from the rule table past the default table, through it, or no further. */
  ghost predicate Walks(flows: FlowTable, dir: Direction, pkt: Packet, c: RuleId, v: Verdict) {
    exists x :: HardBest(flows, RuleTable(dir), pkt.(conj := c), x)
             && if Resubmit(DefaultTable(dir)) in flows[x]
                then v != Bypassed && exists y :: HardBest(flows, DefaultTable(dir), pkt.(conj := c), y)
                                                && (v.Dropped? <==> Drop in flows[y])
                else v == Bypassed
  }

  /** The table-miss flows of the four policy tables; the default tables lead on, out of the policy tables. */
  predicate MissFlows(p: Pipeline, base: FlowTable) {
    && base == map[
         Entry(EGRESS_RULE_TABLE, PRIORITY_MISS, OnIP) := {Resubmit(EGRESS_DEFAULT_TABLE)},
         Entry(EGRESS_DEFAULT_TABLE, PRIORITY_MISS, OnIP) := {Resubmit(p.egressNext)},
         Entry(INGRESS_RULE_TABLE, PRIORITY_MISS, OnIP) := {Resubmit(INGRESS_DEFAULT_TABLE)},
         Entry(INGRESS_DEFAULT_TABLE, PRIORITY_MISS, OnIP) := {Resubmit(p.ingressNext)}]
    && p.egressNext != EGRESS_DEFAULT_TABLE && p.ingressNext != INGRESS_DEFAULT_TABLE
  }

  /** The flows of defaultFlows, by entry. */
  function DefaultFlowTable(tables: map<TableId, TableSpec>): FlowTable {
    map t | t in tables :: Entry(t, PRIORITY_MISS, OnIP) := DefaultFlow(t, tables[t]).actions
  }

  /** They are the miss flows, if the four policy tables send misses on and the default tables do not lead to themselves. */
  lemma DefaultFlowsAreMissFlows(p: Pipeline, tables: map<TableId, TableSpec>)
    requires p.egressNext != EGRESS_DEFAULT_TABLE && p.ingressNext != INGRESS_DEFAULT_TABLE
    requires tables == map[EGRESS_RULE_TABLE := TableSpec(EGRESS_DEFAULT_TABLE, MissNext),
                           EGRESS_DEFAULT_TABLE := TableSpec(p.egressNext, MissNext),
                           INGRESS_RULE_TABLE := TableSpec(INGRESS_DEFAULT_TABLE, MissNext),
                           INGRESS_DEFAULT_TABLE := TableSpec(p.ingressNext, MissNext)]
    ensures MissFlows(p, DefaultFlowTable(tables))
  {
    forall x ensures x in DefaultFlowTable(tables) <==> exists t :: t in tables && x == Entry(t, PRIORITY_MISS, OnIP) {
    }
  }

  /** In each table a packet that hits nothing else is dropped, leaves, or goes on to the next table, as the table says. */
  lemma MissActsAsTold(tables: map<TableId, TableSpec>, t: TableId, pkt: Packet)
    requires t in tables && IsIP(pkt.proto)
    ensures var flows, x := DefaultFlowTable(tables), Entry(t, PRIORITY_MISS, OnIP);
            && HardBest(flows, t, pkt, x) && (forall y :: HardHit(flows, t, pkt, y) ==> y == x)
            && (Drop in flows[x] <==> tables[t].miss.MissDrop?)
            && (Normal in flows[x] <==> tables[t].miss.MissNormal?)
            && (forall t' :: Resubmit(t') in flows[x] <==> tables[t].miss.MissNext? && t' == tables[t].next)
  {
    var flows, x := DefaultFlowTable(tables), Entry(t, PRIORITY_MISS, OnIP);
    assert x in flows && flows[x] == DefaultFlow(t, tables[t]).actions;
  }

  /***** The side of the plain rules *****/

  /** The packet comes from, or goes to, an address: an IP address, a CIDR, or the Pod behind a port of the switch. */
  predicate AddressHits(a: Address, t: AddressType, pkt: Packet) {
    match t
    case SrcAddress =>
      IsIP(pkt.proto) && (match a
                          case IPAddress(ip) => pkt.src == ip
                          case IPNetAddress(net, len) => InNet(pkt.src, net, len)
                          case OFPortAddress(port) => pkt.inPort == port % 0x1_0000_0000)
    case DstAddress =>
      IsIP(pkt.proto) && (match a
                          case IPAddress(ip) => pkt.dst == ip
                          case IPNetAddress(net, len) => InNet(pkt.dst, net, len)
                          case OFPortAddress(port) => pkt.reg1 == port % 0x1_0000_0000)
    case UnknownAddressType => true
  }

  /** The packet has the port's protocol, TCP if the API does not know it, and goes to that port. */
  predicate PortHits(q: ServicePort, pkt: Packet) {
    && pkt.tpDst == q.intVal % 0x1_0000
    && match q.proto
       case UDP => pkt.proto.UDP?
       case SCTP => pkt.proto.SCTP?
       case _ => pkt.proto.TCP?
  }

  /** The match type chosen for an address and the fields put on the flow together match what the address means. */
  lemma AddressKeyHits(a: Address, t: AddressType, pkt: Packet)
    ensures Hits(KeyMatchers(GetMatchKey(a, t), OfAddress(a)), pkt) <==> AddressHits(a, t, pkt)
  {
    var m := KeyMatchers(GetMatchKey(a, t), OfAddress(a));
    if !t.UnknownAddressType? {
      assert Hits(m, pkt) <==> Hit(m[0], pkt) && Hit(m[1], pkt);
    }
  }

  /** The same for a service port and its protocol. */
  lemma PortKeyHits(q: ServicePort, pkt: Packet)
    ensures Hits(KeyMatchers(GetServiceMatchType(q.proto), OfPort(q.intVal % 0x1_0000)), pkt) <==> PortHits(q, pkt)
  {
    var m := KeyMatchers(GetServiceMatchType(q.proto), OfPort(q.intVal % 0x1_0000));
    assert Hits(m, pkt) <==> Hit(m[0], pkt) && Hit(m[1], pkt);
  }

  predicate SideMatches(r: PlainRule, side: Side, pkt: Packet) {
    match side
    case From => r.from.Some? && exists a | a in r.from.value :: AddressHits(a, SrcAddress, pkt)
    case To => r.to.Some? && exists a | a in r.to.value :: AddressHits(a, DstAddress, pkt)
    case Service => r.service.Some? && exists q | q in r.service.value :: PortHits(q, pkt)
  }

  predicate PlainPresent(r: PlainRule, side: Side) {
    match side
    case From => r.from.Some?
    case To => r.to.Some?
    case Service => r.service.Some?
  }

  function PlainClauses(r: PlainRule): nat {
    One(r.from) + One(r.to) + One(r.service)
  }

  /** The packet matches a member of every side that the rule has. */
  predicate Allows(r: PlainRule, dir: Direction, pkt: Packet) {
    r.dir == dir && PlainClauses(r) > 1 && forall side: Side :: PlainPresent(r, side) ==> SideMatches(r, side, pkt)
  }

  predicate Excepted(r: PlainRule, pkt: Packet) {
    || (exists a | a in r.exceptFrom :: AddressHits(a, SrcAddress, pkt))
    || (exists a | a in r.exceptTo :: AddressHits(a, DstAddress, pkt))
  }

  /** The side of a rule that names the Pods it is applied to. */
  function AppliedSide(dir: Direction): Side {
    if dir.Egress? then From else To
  }

  predicate Selects(s: PlainStore, dir: Direction, pkt: Packet) {
    exists id | id in s :: s[id].dir == dir && SideMatches(s[id], AppliedSide(dir), pkt)
  }

  /** What the plain rules say, once the switch has chosen a satisfied rule or found that there is none. */
  function PlainVerdict(s: PlainStore, dir: Direction, pkt: Packet, c: RuleId): Verdict
    requires c == NO_CONJ || c in s
  {
    if c != NO_CONJ && !Excepted(s[c], pkt) then Bypassed
    else if Selects(s, dir, pkt) then Dropped
    else Passed
  }

  /***** Flows of a represented client *****/

  function PlainFlow(p: Pipeline, s: PlainStore, id: RuleId): FlowTable
    requires id in s
  {
    RuleFlows(p, Template(id, s[id]))
  }

  /** Every flow of the policy tables, by its owner. */
  lemma FlowByOwner(p: Pipeline, base: FlowTable, s: PlainStore, c: Client, x: PolicyEntry)
    requires Represents(p, base, s, c) && x in c.engine.sw.flows
    ensures match OwnerOf(x)
            case ConjOf(k) => SharedFlow(c.engine, x)
            case DropOf(k) => SharedFlow(c.engine, x)
            case RuleOf(id) =>
              && id in s && x in PlainFlow(p, s, id) && c.engine.sw.flows[x] == PlainFlow(p, s, id)[x]
              && ActionFlowShape(Template(id, s[id]), Next(p, s[id].dir), Flow(x, c.engine.sw.flows[x]))
            case Nobody => x in base && c.engine.sw.flows[x] == base[x]
  {
    var h := SharesOf(c.policies);
    SharedFlowOfKey(h, base, c.engine, x);
    assert Look(c.engine.sw.flows, x) == Want(h, base, c.engine.cache, x);
    hide Inv, CacheOk, FlowsOk, Tight, SharedFlow, ActionFlowShape;
    if OwnerOf(x).RuleOf? {
      RuleFlowsShape(p, Template(OwnerOf(x).id, s[OwnerOf(x).id]));
    }
  }

  /** A conjunctive match flow or drop flow is that of its cached context. */
  predicate SharedFlow(e: Engine, x: PolicyEntry) {
    match OwnerOf(x)
    case ConjOf(k) =>
      && x == ConjEntry(k) && k in e.cache && e.cache[k].actions != map[]
      && x in e.sw.flows && e.sw.flows[x] == Conjunctions(e.cache[k].actions.Values)
    case DropOf(k) =>
      && DropTableOf(k).Some? && x == DropEntry(DropTableOf(k).value, k) && k in e.cache
      && x in e.sw.flows && e.sw.flows[x] == {Drop}
    case _ => true
  }

  lemma SharedFlowOfKey(h: Shares, base: FlowTable, e: Engine, x: PolicyEntry)
    requires Inv(h, base, e) && x in e.sw.flows
    ensures SharedFlow(e, x)
  {
    assert Look(e.sw.flows, x) == Want(h, base, e.cache, x);
    match OwnerOf(x) {
      case ConjOf(k) =>
        OwnerOfKey(k, x);
        assert ContextOk(h, k, e.cache[k]);
      case DropOf(k) =>
        OwnerOfKey(k, x);
        assert ContextOk(h, k, e.cache[k]);
      case _ =>
    }
  }

  lemma PlainClaim(p: Pipeline, base: FlowTable, s: PlainStore, c: Client, id: RuleId, k: Key)
    requires Represents(p, base, s, c)
    ensures ClaimOf(SharesOf(c.policies), id, k) == if id in s then HeldBy(PlainConjunct(p, id, s[id]), k) else None
  {
  }

  /***** Exactness of the product encoding *****/

  /** A clause of a conjunction is hit exactly if the packet hits a key that some clause holds with this action. */
  lemma ClauseHitIffHeld(p: Pipeline, base: FlowTable, s: PlainStore, c: Client, t: TableId, pkt: Packet, act: Act)
    requires Represents(p, base, s, c) && MissFlows(p, base) && IsRuleTable(t) && act.n > 1
    ensures ClauseHit(c.engine.sw.flows, t, pkt, act) <==>
            act.conj in s && exists k: Key :: k.table == t && Hits(KeyMatchers(k.kind, k.value), pkt)
                                           && HeldBy(PlainConjunct(p, act.conj, s[act.conj]), k) == Some(act)
  {
    var flows := c.engine.sw.flows;
    var h := SharesOf(c.policies);
    if ClauseHit(flows, t, pkt, act) {
      var x :| x in flows && x.table == t && Hits(Matchers(x.on), pkt) && Conjunction(act) in flows[x];
      FlowByOwner(p, base, s, c, x);
      var k := Key(x.table, x.on.kind, x.on.value);
      HeldFromFlow(h, k, c.engine, act);
      PlainClaim(p, base, s, c, act.conj, k);
      assert k.table == t && Hits(KeyMatchers(k.kind, k.value), pkt);
    }
    if act.conj in s && exists k: Key :: k.table == t && Hits(KeyMatchers(k.kind, k.value), pkt)
                                      && HeldBy(PlainConjunct(p, act.conj, s[act.conj]), k) == Some(act)
    {
      var k: Key :| k.table == t && Hits(KeyMatchers(k.kind, k.value), pkt)
                 && HeldBy(PlainConjunct(p, act.conj, s[act.conj]), k) == Some(act);
      PlainClaim(p, base, s, c, act.conj, k);
      FlowFromClaim(h, base, k, c.engine, act);
      assert Hits(Matchers(ConjEntry(k).on), pkt);
    }
  }

  lemma HeldFromFlow(h: Shares, k: Key, e: Engine, act: Act)
    requires CacheOk(h, e) && SharesOk(h) && k in e.cache && act in e.cache[k].actions.Values
    ensures ClaimOf(h, act.conj, k) == Some(act)
  {
    assert ContextOk(h, k, e.cache[k]);
    var id :| id in e.cache[k].actions && e.cache[k].actions[id] == act;
    assert Look(e.cache[k].actions, id) == Allow(ClaimOf(h, id, k));
    assert ShareOk(id, h[id]);
  }

  lemma FlowFromClaim(h: Shares, base: FlowTable, k: Key, e: Engine, act: Act)
    requires Inv(h, base, e) && ClaimOf(h, act.conj, k) == Some(act) && act.n > 1
    ensures ConjEntry(k) in e.sw.flows && Conjunction(act) in e.sw.flows[ConjEntry(k)]
  {
    assert Claims(h, act.conj, k);
    assert ContextOk(h, k, e.cache[k]);
    assert Look(e.cache[k].actions, act.conj) == Allow(ClaimOf(h, act.conj, k));
    assert act in e.cache[k].actions.Values;
    OwnerOfKey(k, ConjEntry(k));
    assert Look(e.sw.flows, ConjEntry(k)) == Want(h, base, e.cache, ConjEntry(k));
  }

  function SideNumber(r: PlainRule, side: Side): nat {
    match side
    case From => One(r.from)
    case To => One(r.from) + One(r.to)
    case Service => One(r.from) + One(r.to) + One(r.service)
  }

  /** The keys that a side holds are those of its members. */
  lemma SideHeldIffMember(p: Pipeline, id: RuleId, r: PlainRule, side: Side, pkt: Packet)
    requires PlainPresent(r, side)
    ensures SideMatches(r, side, pkt) <==>
            exists k: Key :: k.table == RuleTable(r.dir) && Hits(KeyMatchers(k.kind, k.value), pkt)
                          && HeldBy(PlainConjunct(p, id, r), k) == Some(Act(id, SideNumber(r, side), PlainClauses(r)))
  {
    var conj := PlainConjunct(p, id, r);
    var act := Act(id, SideNumber(r, side), PlainClauses(r));
    if SideMatches(r, side, pkt) {
      var k: Key;
      match side {
        case From =>
          var a :| a in r.from.value && AddressHits(a, SrcAddress, pkt);
          k := AddressKey(RuleTable(r.dir), SrcAddress, a);
          AddressKeyHits(a, SrcAddress, pkt);
        case To =>
          var a :| a in r.to.value && AddressHits(a, DstAddress, pkt);
          k := AddressKey(RuleTable(r.dir), DstAddress, a);
          AddressKeyHits(a, DstAddress, pkt);
        case Service =>
          var q :| q in r.service.value && PortHits(q, pkt);
          k := PortKey(RuleTable(r.dir), q);
          PortKeyHits(q, pkt);
      }
      assert HeldBy(conj, k) == Some(act) && Hits(KeyMatchers(k.kind, k.value), pkt);
    }
    if k: Key :| k.table == RuleTable(r.dir) && Hits(KeyMatchers(k.kind, k.value), pkt) && HeldBy(conj, k) == Some(act) {
      assert SideOf(k.kind) == side;
      HeldKeyIsMember(p, id, r, side, k);
      match side {
        case From =>
          var a :| a in r.from.value && k == AddressKey(RuleTable(r.dir), SrcAddress, a);
          AddressKeyHits(a, SrcAddress, pkt);
        case To =>
          var a :| a in r.to.value && k == AddressKey(RuleTable(r.dir), DstAddress, a);
          AddressKeyHits(a, DstAddress, pkt);
        case Service =>
          var q :| q in r.service.value && k == PortKey(RuleTable(r.dir), q);
          PortKeyHits(q, pkt);
      }
    }
  }

  lemma HeldKeyIsMember(p: Pipeline, id: RuleId, r: PlainRule, side: Side, k: Key)
    requires PlainPresent(r, side) && SideOf(k.kind) == side && HeldBy(PlainConjunct(p, id, r), k).Some?
    ensures match side
            case From => exists a | a in r.from.value :: k == AddressKey(RuleTable(r.dir), SrcAddress, a)
            case To => exists a | a in r.to.value :: k == AddressKey(RuleTable(r.dir), DstAddress, a)
            case Service => exists q | q in r.service.value :: k == PortKey(RuleTable(r.dir), q)
  {
  }

  lemma HeldAct(p: Pipeline, id: RuleId, r: PlainRule, k: Key)
    ensures var a := HeldBy(PlainConjunct(p, id, r), k);
            a.Some? ==> && PlainPresent(r, SideOf(k.kind)) && k.table == RuleTable(r.dir)
                        && a.value == Act(id, SideNumber(r, SideOf(k.kind)), PlainClauses(r))
  {
  }

  /**
   The product encoding is exact: a packet satisfies conjunction `id` on the switch if and only if rule `id` is live, has
   more than one clause, and the packet matches a current member of every clause.
   */
  lemma ProductEncodingIsExact(p: Pipeline, base: FlowTable, s: PlainStore, c: Client, dir: Direction, pkt: Packet, id: RuleId)
    requires Represents(p, base, s, c) && MissFlows(p, base)
    ensures Satisfied(c.engine.sw.flows, RuleTable(dir), pkt, id) <==> id in s && Allows(s[id], dir, pkt)
  {
    var flows, t := c.engine.sw.flows, RuleTable(dir);
    if Satisfied(flows, t, pkt, id) {
      var n: nat :| n > 1 && AllClausesHit(flows, t, pkt, id, n);
      SatisfiedRuleAllows(p, base, s, c, dir, pkt, id, n);
    }
    if id in s && Allows(s[id], dir, pkt) {
      var n := PlainClauses(s[id]);
      forall i: nat | 1 <= i <= n ensures ClauseHit(flows, t, pkt, Act(id, i, n)) {
        var side := SideWithNumber(s[id], i);
        SideHeldIffMember(p, id, s[id], side, pkt);
        ClauseHitIffHeld(p, base, s, c, t, pkt, Act(id, i, n));
      }
      assert AllClausesHit(flows, t, pkt, id, n);
    }
  }

  function SideWithNumber(r: PlainRule, i: nat): (side: Side)
    requires 1 <= i <= PlainClauses(r)
    ensures PlainPresent(r, side) && SideNumber(r, side) == i
  {
    if r.from.Some? && i == 1 then From
    else if r.to.Some? && i == One(r.from) + 1 then To
    else Service
  }

  lemma SatisfiedRuleAllows(p: Pipeline, base: FlowTable, s: PlainStore, c: Client, dir: Direction, pkt: Packet, id: RuleId, n: nat)
    requires Represents(p, base, s, c) && MissFlows(p, base) && n > 1
    requires forall i: nat | 1 <= i <= n :: ClauseHit(c.engine.sw.flows, RuleTable(dir), pkt, Act(id, i, n))
    ensures id in s && Allows(s[id], dir, pkt)
  {
    var flows, t := c.engine.sw.flows, RuleTable(dir);
    assert ClauseHit(flows, t, pkt, Act(id, 1, n));
    ClauseHitIffHeld(p, base, s, c, t, pkt, Act(id, 1, n));
    var k: Key :| k.table == t && HeldBy(PlainConjunct(p, id, s[id]), k) == Some(Act(id, 1, n));
    HeldAct(p, id, s[id], k);
    forall side: Side | PlainPresent(s[id], side) ensures SideMatches(s[id], side, pkt) {
      var i := SideNumber(s[id], side);
      assert ClauseHit(flows, t, pkt, Act(id, i, n));
      ClauseHitIffHeld(p, base, s, c, t, pkt, Act(id, i, n));
      SideHeldIffMember(p, id, s[id], side, pkt);
    }
  }

  /***** The rule table *****/

  /** Rule `ch` has flows of its own in the rule table. */
  predicate Bears(s: PlainStore, dir: Direction, ch: RuleId) {
    ch in s && s[ch].dir == dir && PlainClauses(s[ch]) > 1
  }

  /**
   Rule id 0 cannot be told from an unset conj_id: the action flow of such a rule lets pass what satisfies no rule, unless
   an except of the rule stops it.
   */
  predicate ZeroOpens(s: PlainStore, dir: Direction, pkt: Packet, ch: RuleId) {
    ch == NO_CONJ && Bears(s, dir, NO_CONJ) && !Excepted(s[NO_CONJ], pkt)
  }

  function MissEntry(t: TableId): PolicyEntry {
    Entry(t, PRIORITY_MISS, OnIP)
  }

  lemma RuleFlowPresent(p: Pipeline, base: FlowTable, s: PlainStore, c: Client, id: RuleId, f: PolicyFlow)
    requires Represents(p, base, s, c) && id in s
    requires f in ActionFlows(Template(id, s[id]), Next(p, s[id].dir))
    ensures f.entry in c.engine.sw.flows && c.engine.sw.flows[f.entry] == f.actions
  {
    var r := Template(id, s[id]);
    RuleFlowsShape(p, r);
    FlowTableMembers(ActionFlows(r, Next(p, r.dir)));
    assert ActionFlowShape(r, Next(p, r.dir), f);
    assert Look(c.engine.sw.flows, f.entry) == Want(SharesOf(c.policies), base, c.engine.cache, f.entry);
    assert SharesOf(c.policies)[id].flows == PlainFlow(p, s, id);
  }

  lemma MissFlowPresent(p: Pipeline, base: FlowTable, s: PlainStore, c: Client, t: TableId)
    requires Represents(p, base, s, c) && MissFlows(p, base) && MissEntry(t) in base
    ensures MissEntry(t) in c.engine.sw.flows && c.engine.sw.flows[MissEntry(t)] == base[MissEntry(t)]
  {
    assert Look(c.engine.sw.flows, MissEntry(t)) == Want(SharesOf(c.policies), base, c.engine.cache, MissEntry(t));
  }

  /** An except flow is hit exactly by the packets that the except names. */
  lemma ExceptFlowHit(r: Rule, next: TableId, f: PolicyFlow, pkt: Packet)
    requires f in ActionFlows(r, next) && f.entry.on.OnConjKey? && Hits(Matchers(f.entry.on), pkt)
    ensures || (exists a | a in r.exceptFrom :: AddressHits(a, SrcAddress, pkt))
            || (exists a | a in r.exceptTo :: AddressHits(a, DstAddress, pkt))
  {
    var m := KeyMatchers(f.entry.on.kind, f.entry.on.value);
    assert Hits(m, pkt) by {
      forall i | 0 <= i < |m| ensures Hit(m[i], pkt) {
        assert m[i] == Matchers(f.entry.on)[i + 1];
      }
    }
    var fromFlows := ExceptionFlows(r.id, r.dir, SrcAddress, r.exceptFrom);
    var toFlows := ExceptionFlows(r.id, r.dir, DstAddress, r.exceptTo);
    assert f in fromFlows + toFlows;
    if f in fromFlows {
      var i :| 0 <= i < |fromFlows| && fromFlows[i] == f;
      AddressKeyHits(r.exceptFrom[i], SrcAddress, pkt);
      assert AddressHits(r.exceptFrom[i], SrcAddress, pkt);
    } else {
      var i :| 0 <= i < |toFlows| && toFlows[i] == f;
      AddressKeyHits(r.exceptTo[i], DstAddress, pkt);
      assert AddressHits(r.exceptTo[i], DstAddress, pkt);
    }
  }

  lemma ExceptionEntryHit(id: RuleId, r: PlainRule, p: Pipeline, t: AddressType, a: Address, pkt: Packet)
    requires PlainClauses(r) > 1 && AddressHits(a, t, pkt)
    requires (t.SrcAddress? && a in r.exceptFrom) || (t.DstAddress? && a in r.exceptTo)
    ensures var f := ConjunctionExceptionFlow(id, RuleTable(r.dir), DefaultTable(r.dir), t, a);
            f in ActionFlows(Template(id, r), Next(p, r.dir)) && Hits(Matchers(f.entry.on), pkt.(conj := id))
  {
    hide KeyMatchers, GetMatchKey, NClause, ConjunctionActionFlow;
    AddressKeyHits(a, t, pkt.(conj := id));
    assert NClause(Template(id, r)) == PlainClauses(r) by { TemplateClauses(id, r); }
    var f := ConjunctionExceptionFlow(id, RuleTable(r.dir), DefaultTable(r.dir), t, a);
    if t.SrcAddress? {
      var i :| 0 <= i < |r.exceptFrom| && r.exceptFrom[i] == a;
      assert f == ExceptionFlows(id, r.dir, t, r.exceptFrom)[i];
    } else {
      var i :| 0 <= i < |r.exceptTo| && r.exceptTo[i] == a;
      assert f == ExceptionFlows(id, r.dir, t, r.exceptTo)[i];
    }
  }

  lemma TemplateClauses(id: RuleId, r: PlainRule)
    ensures NClause(Template(id, r)) == PlainClauses(r)
  {
  }

  /** In the rule table only flows of the rule that conj_id names and the miss flow can be hit. */
  lemma RuleTableHit(p: Pipeline, base: FlowTable, s: PlainStore, c: Client, dir: Direction, pkt: Packet, ch: RuleId, x: PolicyEntry)
    requires Represents(p, base, s, c) && MissFlows(p, base)
    requires HardHit(c.engine.sw.flows, RuleTable(dir), pkt.(conj := ch), x)
    ensures || (x == MissEntry(RuleTable(dir)) && c.engine.sw.flows[x] == {Resubmit(DefaultTable(dir))})
            || (Bears(s, dir, ch) && x.priority == PRIORITY_LOW && c.engine.sw.flows[x] == {Resubmit(Next(p, dir))})
            || (Bears(s, dir, ch) && Excepted(s[ch], pkt) && x.priority == PRIORITY_NORMAL
                && c.engine.sw.flows[x] == {Resubmit(DefaultTable(dir))})
  {
    hide Represents, ActionFlowShape, Hits, PlainFlow, Excepted, Soft;
    FlowByOwner(p, base, s, c, x);
    match OwnerOf(x) {
      case ConjOf(k) => ConjunctiveFlowIsSoft(c.engine, x);
      case DropOf(k) =>
      case RuleOf(id) => OwnFlowHit(p, s, dir, pkt, ch, id, x, c.engine.sw.flows[x]);
      case Nobody =>
    }
  }

  lemma ConjunctiveFlowIsSoft(e: Engine, x: PolicyEntry)
    requires SharedFlow(e, x) && OwnerOf(x).ConjOf?
    ensures Soft(e.sw.flows[x])
  {
    var k := OwnerOf(x).k;
    var id :| id in e.cache[k].actions;
    var act := e.cache[k].actions[id];
    assert act in e.cache[k].actions.Values;
    assert Conjunction(act) in e.sw.flows[x];
  }

  lemma OwnFlowHit(p: Pipeline, s: PlainStore, dir: Direction, pkt: Packet, ch: RuleId, id: RuleId, x: PolicyEntry, acts: set<FlowAction>)
    requires id in s && x.table == RuleTable(dir) && x in PlainFlow(p, s, id) && acts == PlainFlow(p, s, id)[x]
    requires ActionFlowShape(Template(id, s[id]), Next(p, s[id].dir), Flow(x, acts))
    requires Hits(Matchers(x.on), pkt.(conj := ch))
    ensures id == ch && Bears(s, dir, ch)
    ensures if x.on.OnConj? then x.priority == PRIORITY_LOW && acts == {Resubmit(Next(p, dir))}
            else Excepted(s[ch], pkt) && x.priority == PRIORITY_NORMAL && acts == {Resubmit(DefaultTable(dir))}
  {
    hide KeyMatchers, ActionFlows, AddressHits;
    assert ConjId(id) in Matchers(x.on);
    var r := Template(id, s[id]);
    if PlainClauses(s[id]) <= 1 {
      NoFlowsForOneClause(p, s, id);
      assert false;
    }
    RuleFlowsShape(p, r);
    if x.on.OnConjKey? {
      ExceptFlowHit(r, Next(p, r.dir), Flow(x, acts), pkt.(conj := ch));
      ExceptIgnoresConj(s[ch], pkt, ch);
    }
  }

  lemma NoFlowsForOneClause(p: Pipeline, s: PlainStore, id: RuleId)
    requires id in s && PlainClauses(s[id]) <= 1
    ensures PlainFlow(p, s, id) == map[]
  {
  }

  lemma ExceptIgnoresConj(r: PlainRule, pkt: Packet, ch: RuleId)
    ensures Excepted(r, pkt.(conj := ch)) <==> Excepted(r, pkt)
  {
  }

  /** The next table of a packet whose conj_id is `ch`. */
  function RuleTableNext(p: Pipeline, s: PlainStore, dir: Direction, pkt: Packet, ch: RuleId): TableId {
    if Bears(s, dir, ch) && !Excepted(s[ch], pkt) then Next(p, dir) else DefaultTable(dir)
  }

  lemma ExceptFlowPresent(p: Pipeline, base: FlowTable, s: PlainStore, c: Client, pkt: Packet, ch: RuleId) returns (x: PolicyEntry)
    requires Represents(p, base, s, c) && ch in s && PlainClauses(s[ch]) > 1 && Excepted(s[ch], pkt)
    ensures HardHit(c.engine.sw.flows, RuleTable(s[ch].dir), pkt.(conj := ch), x)
    ensures x.priority == PRIORITY_NORMAL && c.engine.sw.flows[x] == {Resubmit(DefaultTable(s[ch].dir))}
  {
    hide Represents, KeyMatchers, AddressHits, ActionFlows, Hits;
    var a: Address, t: AddressType;
    if a' :| a' in s[ch].exceptFrom && AddressHits(a', SrcAddress, pkt) {
      a, t := a', SrcAddress;
    } else {
      a :| a in s[ch].exceptTo && AddressHits(a, DstAddress, pkt);
      t := DstAddress;
    }
    var f := ConjunctionExceptionFlow(ch, RuleTable(s[ch].dir), DefaultTable(s[ch].dir), t, a);
    ExceptionEntryHit(ch, s[ch], p, t, a, pkt);
    RuleFlowPresent(p, base, s, c, ch, f);
    x := f.entry;
  }

  lemma ActionFlowPresent(p: Pipeline, base: FlowTable, s: PlainStore, c: Client, pkt: Packet, ch: RuleId) returns (x: PolicyEntry)
    requires Represents(p, base, s, c) && ch in s && PlainClauses(s[ch]) > 1 && IsIP(pkt.proto)
    ensures HardHit(c.engine.sw.flows, RuleTable(s[ch].dir), pkt.(conj := ch), x)
    ensures x.priority == PRIORITY_LOW && c.engine.sw.flows[x] == {Resubmit(Next(p, s[ch].dir))}
  {
    hide Represents, KeyMatchers;
    var f := ConjunctionActionFlow(ch, RuleTable(s[ch].dir), Next(p, s[ch].dir));
    assert f == ActionFlows(Template(ch, s[ch]), Next(p, s[ch].dir))[0];
    RuleFlowPresent(p, base, s, c, ch, f);
    x := f.entry;
  }

  /** Some flow of the rule table decides. */
  lemma RuleTableDecides(p: Pipeline, base: FlowTable, s: PlainStore, c: Client, dir: Direction, pkt: Packet, ch: RuleId) returns (x: PolicyEntry)
    requires Represents(p, base, s, c) && MissFlows(p, base) && IsIP(pkt.proto)
    ensures HardBest(c.engine.sw.flows, RuleTable(dir), pkt.(conj := ch), x)
    ensures c.engine.sw.flows[x] == {Resubmit(RuleTableNext(p, s, dir, pkt, ch))}
    ensures x.priority == if !Bears(s, dir, ch) then PRIORITY_MISS else if Excepted(s[ch], pkt) then PRIORITY_NORMAL else PRIORITY_LOW
  {
    hide Represents, Excepted, Matchers;
    if !Bears(s, dir, ch) {
      MissFlowPresent(p, base, s, c, RuleTable(dir));
      x := MissEntry(RuleTable(dir));
      assert Hits(Matchers(x.on), pkt.(conj := ch)) by { MissHits(pkt.(conj := ch)); }
    } else if Excepted(s[ch], pkt) {
      x := ExceptFlowPresent(p, base, s, c, pkt, ch);
    } else {
      x := ActionFlowPresent(p, base, s, c, pkt, ch);
    }
    forall y | y in c.engine.sw.flows && HardHit(c.engine.sw.flows, RuleTable(dir), pkt.(conj := ch), y)
      ensures y.priority <= x.priority
    {
      RuleTableHit(p, base, s, c, dir, pkt, ch, y);
    }
  }

  lemma MissHits(pkt: Packet)
    requires IsIP(pkt.proto)
    ensures Hits(Matchers(OnIP), pkt)
  {
  }

  /** Whichever flow of the rule table decides, the next table is the one that the plain rules say. */
  lemma RuleTableVerdict(p: Pipeline, base: FlowTable, s: PlainStore, c: Client, dir: Direction, pkt: Packet, ch: RuleId, x: PolicyEntry)
    requires Represents(p, base, s, c) && MissFlows(p, base) && IsIP(pkt.proto)
    requires HardBest(c.engine.sw.flows, RuleTable(dir), pkt.(conj := ch), x)
    ensures c.engine.sw.flows[x] == {Resubmit(RuleTableNext(p, s, dir, pkt, ch))}
  {
    hide Represents, Excepted, Hits;
    var y := RuleTableDecides(p, base, s, c, dir, pkt, ch);
    RuleTableHit(p, base, s, c, dir, pkt, ch, x);
  }

  /***** The default table *****/

  lemma DefaultTableHit(p: Pipeline, base: FlowTable, s: PlainStore, c: Client, dir: Direction, pkt: Packet, y: PolicyEntry)
    requires Represents(p, base, s, c) && MissFlows(p, base)
    requires HardHit(c.engine.sw.flows, DefaultTable(dir), pkt, y)
    ensures || (y == MissEntry(DefaultTable(dir)) && c.engine.sw.flows[y] == {Resubmit(Next(p, dir))})
            || (y.priority == PRIORITY_NORMAL && c.engine.sw.flows[y] == {Drop} && Selects(s, dir, pkt))
  {
    hide Represents, Matchers, Hits, Selects, PlainFlow;
    FlowByOwner(p, base, s, c, y);
    match OwnerOf(y) {
      case ConjOf(k) =>
      case DropOf(k) =>
        DropKeySelects(p, base, s, c, dir, pkt, k) by { MatchersOfKey(y); }
      case RuleOf(id) =>
      case Nobody =>
    }
  }

  lemma MatchersOfKey(y: PolicyEntry)
    requires y.on.OnKey?
    ensures Matchers(y.on) == KeyMatchers(y.on.kind, y.on.value)
  {
  }

  /** A cached key with a drop flow is a member of some live rule's AppliedTo side. */
  lemma DropKeySelects(p: Pipeline, base: FlowTable, s: PlainStore, c: Client, dir: Direction, pkt: Packet, k: Key)
    requires Represents(p, base, s, c) && k in c.engine.cache && DropTableOf(k) == Some(DefaultTable(dir))
    requires Hits(KeyMatchers(k.kind, k.value), pkt)
    ensures Selects(s, dir, pkt)
  {
    hide Represents, PlainConjunct, HeldBy, SideMatches, Hits, KeyMatchers, ClaimOf;
    var id := SomeClaim(p, base, s, c, k);
    PlainClaim(p, base, s, c, id, k);
    HeldAct(p, id, s[id], k);
    SideHeldIffMember(p, id, s[id], AppliedSide(dir), pkt);
  }

  lemma SomeClaim(p: Pipeline, base: FlowTable, s: PlainStore, c: Client, k: Key) returns (id: RuleId)
    requires Represents(p, base, s, c) && k in c.engine.cache
    ensures id in s && ClaimOf(SharesOf(c.policies), id, k).Some?
  {
    hide Inv, HeldBy, PlainConjunct;
    TightClaim(SharesOf(c.policies), c.engine, k);
    id :| Claims(SharesOf(c.policies), id, k);
    PlainClaim(p, base, s, c, id, k);
  }

  lemma TightClaim(h: Shares, e: Engine, k: Key)
    requires Tight(h, e) && k in e.cache
    ensures exists id :: Claims(h, id, k)
  {
  }

  /** A packet that some live rule's AppliedTo side names hits a drop flow. */
  lemma SelectedHitsDrop(p: Pipeline, base: FlowTable, s: PlainStore, c: Client, dir: Direction, pkt: Packet) returns (y: PolicyEntry)
    requires Represents(p, base, s, c) && MissFlows(p, base) && Selects(s, dir, pkt)
    ensures HardHit(c.engine.sw.flows, DefaultTable(dir), pkt, y)
    ensures y.priority == PRIORITY_NORMAL && c.engine.sw.flows[y] == {Drop}
  {
    hide Represents, PlainConjunct, HeldBy, SideMatches, KeyMatchers, ClaimOf;
    var id :| id in s && s[id].dir == dir && SideMatches(s[id], AppliedSide(dir), pkt);
    SidePresentIfMatched(s[id], AppliedSide(dir), pkt);
    SideHeldIffMember(p, id, s[id], AppliedSide(dir), pkt);
    var k: Key :| k.table == RuleTable(dir) && Hits(KeyMatchers(k.kind, k.value), pkt)
               && HeldBy(PlainConjunct(p, id, s[id]), k) == Some(Act(id, SideNumber(s[id], AppliedSide(dir)), PlainClauses(s[id])));
    PlainClaim(p, base, s, c, id, k);
    HeldAct(p, id, s[id], k);
    SidePresentIfMatched(s[id], AppliedSide(dir), pkt);
    DropFlowOfHeld(p, base, s, c, id, dir, k);
    y := DropEntry(DefaultTable(dir), k);
  }

  lemma SidePresentIfMatched(r: PlainRule, side: Side, pkt: Packet)
    requires SideMatches(r, side, pkt)
    ensures PlainPresent(r, side)
  {
  }

  lemma DropFlowOfHeld(p: Pipeline, base: FlowTable, s: PlainStore, c: Client, id: RuleId, dir: Direction, k: Key)
    requires Represents(p, base, s, c) && id in s && Claims(SharesOf(c.policies), id, k)
    requires k.table == RuleTable(dir) && HeldBy(PlainConjunct(p, id, s[id]), k).Some? && s[id].dir == dir
    requires HeldBy(PlainConjunct(p, id, s[id]), k).value.clause == SideNumber(s[id], AppliedSide(dir))
    requires PlainPresent(s[id], AppliedSide(dir))
    ensures DropTableOf(k) == Some(DefaultTable(dir))
    ensures DropEntry(DefaultTable(dir), k) in c.engine.sw.flows && c.engine.sw.flows[DropEntry(DefaultTable(dir), k)] == {Drop}
  {
    hide Inv, PlainConjunct, HeldBy, ClaimOf;
    AppliedKeyDrops(p, id, s[id], dir, k);
    DropFlowOfClaim(SharesOf(c.policies), base, c.engine, id, k);
  }

  lemma AppliedKeyDrops(p: Pipeline, id: RuleId, r: PlainRule, dir: Direction, k: Key)
    requires k.table == RuleTable(dir) && HeldBy(PlainConjunct(p, id, r), k).Some?
    requires HeldBy(PlainConjunct(p, id, r), k).value.clause == SideNumber(r, AppliedSide(dir))
    requires PlainPresent(r, AppliedSide(dir))
    ensures DropTableOf(k) == Some(DefaultTable(dir))
  {
  }

  lemma DropFlowOfClaim(h: Shares, base: FlowTable, e: Engine, id: RuleId, k: Key)
    requires Inv(h, base, e) && Claims(h, id, k) && DropTableOf(k).Some?
    ensures var x := DropEntry(DropTableOf(k).value, k);
            x in e.sw.flows && e.sw.flows[x] == {Drop}
  {
    var x := DropEntry(DropTableOf(k).value, k);
    OwnerOfKey(k, x);
    assert k in e.cache;
    assert ContextOk(h, k, e.cache[k]);
    assert Look(e.sw.flows, x) == Want(h, base, e.cache, x);
  }

  lemma DefaultTableDecides(p: Pipeline, base: FlowTable, s: PlainStore, c: Client, dir: Direction, pkt: Packet) returns (y: PolicyEntry)
    requires Represents(p, base, s, c) && MissFlows(p, base) && IsIP(pkt.proto)
    ensures HardBest(c.engine.sw.flows, DefaultTable(dir), pkt, y) && (Drop in c.engine.sw.flows[y] <==> Selects(s, dir, pkt))
    ensures y.priority == if Selects(s, dir, pkt) then PRIORITY_NORMAL else PRIORITY_MISS
  {
    hide Represents, Matchers, Hits, Selects;
    if Selects(s, dir, pkt) {
      y := SelectedHitsDrop(p, base, s, c, dir, pkt);
    } else {
      MissFlowPresent(p, base, s, c, DefaultTable(dir));
      y := MissEntry(DefaultTable(dir));
      MissHits(pkt);
    }
    forall z | z in c.engine.sw.flows && HardHit(c.engine.sw.flows, DefaultTable(dir), pkt, z)
      ensures z.priority <= y.priority
    {
      DefaultTableHit(p, base, s, c, dir, pkt, z);
    }
  }

  lemma DefaultTableVerdict(p: Pipeline, base: FlowTable, s: PlainStore, c: Client, dir: Direction, pkt: Packet, z: PolicyEntry)
    requires Represents(p, base, s, c) && MissFlows(p, base) && IsIP(pkt.proto)
    requires HardBest(c.engine.sw.flows, DefaultTable(dir), pkt, z)
    ensures Drop in c.engine.sw.flows[z] <==> Selects(s, dir, pkt)
  {
    hide Represents, Matchers, Hits, Selects;
    var y := DefaultTableDecides(p, base, s, c, dir, pkt);
    DefaultTableHit(p, base, s, c, dir, pkt, z);
  }

  /***** End to end *****/

  lemma SelectsIgnoresConj(s: PlainStore, dir: Direction, pkt: Packet, ch: RuleId)
    ensures Selects(s, dir, pkt.(conj := ch)) <==> Selects(s, dir, pkt)
  {
  }

  lemma ChosenIsLive(p: Pipeline, base: FlowTable, s: PlainStore, c: Client, dir: Direction, pkt: Packet, ch: RuleId)
    requires Represents(p, base, s, c) && MissFlows(p, base) && Chosen(c.engine.sw.flows, RuleTable(dir), pkt, ch)
    ensures ch != NO_CONJ ==> ch in s && Allows(s[ch], dir, pkt)
  {
    ProductEncodingIsExact(p, base, s, c, dir, pkt, ch);
  }

  /** What the tables do with a packet whose conj_id is `ch`, chosen or not. */
  function TableVerdict(s: PlainStore, dir: Direction, pkt: Packet, ch: RuleId): Verdict {
    if Bears(s, dir, ch) && !Excepted(s[ch], pkt) then Bypassed
    else if Selects(s, dir, pkt) then Dropped
    else Passed
  }

  lemma WalkIsTableVerdict(p: Pipeline, base: FlowTable, s: PlainStore, c: Client, dir: Direction, pkt: Packet, ch: RuleId, v: Verdict)
    requires Represents(p, base, s, c) && MissFlows(p, base) && IsIP(pkt.proto)
    ensures Walks(c.engine.sw.flows, dir, pkt, ch, v) <==> v == TableVerdict(s, dir, pkt, ch)
  {
    hide Represents, HardBest, Selects, Excepted;
    var flows, pkt' := c.engine.sw.flows, pkt.(conj := ch);
    SelectsIgnoresConj(s, dir, pkt, ch);
    var x := RuleTableDecides(p, base, s, c, dir, pkt, ch);
    var y := DefaultTableDecides(p, base, s, c, dir, pkt');
    if Walks(flows, dir, pkt, ch, v) {
      WalkVerdict(p, base, s, c, dir, pkt, ch, v);
    }
    if v == TableVerdict(s, dir, pkt, ch) {
      NextIsElsewhere(p, base, dir);
      assert HardBest(flows, RuleTable(dir), pkt', x);
      assert HardBest(flows, DefaultTable(dir), pkt', y);
    }
  }

  /**
   The policy tables do what the plain rules say: whichever satisfied conjunction the switch chooses, an IP packet has
   exactly one verdict, and it is the plain one, unless it satisfies nothing and the rule with id 0 opens the way for it.
   */
  lemma WalkIsPlainVerdict(p: Pipeline, base: FlowTable, s: PlainStore, c: Client, dir: Direction, pkt: Packet, ch: RuleId, v: Verdict)
    requires Represents(p, base, s, c) && MissFlows(p, base) && IsIP(pkt.proto)
    requires Chosen(c.engine.sw.flows, RuleTable(dir), pkt, ch) && !ZeroOpens(s, dir, pkt, ch)
    ensures ch != NO_CONJ ==> ch in s && Allows(s[ch], dir, pkt)
    ensures Walks(c.engine.sw.flows, dir, pkt, ch, v) <==> v == PlainVerdict(s, dir, pkt, ch)
  {
    ChosenIsLive(p, base, s, c, dir, pkt, ch);
    WalkIsTableVerdict(p, base, s, c, dir, pkt, ch, v);
  }

  /**
   Rule id 0 cannot be told from an unset conj_id.  For every packet the verdict is the plain one if and only if it is not
   the case that the packet satisfies no rule while a rule with id 0 has an action flow and does not except the packet; that
   flow then lets the packet bypass the default table.
   */
  lemma VerdictIsPlainIff(p: Pipeline, base: FlowTable, s: PlainStore, c: Client, dir: Direction, pkt: Packet, ch: RuleId)
    requires Represents(p, base, s, c) && MissFlows(p, base) && IsIP(pkt.proto)
    requires Chosen(c.engine.sw.flows, RuleTable(dir), pkt, ch) && (ch != NO_CONJ ==> ch in s)
    ensures (forall v :: Walks(c.engine.sw.flows, dir, pkt, ch, v) <==> v == PlainVerdict(s, dir, pkt, ch)) <==>
            !ZeroOpens(s, dir, pkt, ch)
  {
    hide Represents, Walks, Excepted, Selects, Chosen;
    ChosenIsLive(p, base, s, c, dir, pkt, ch);
    forall v ensures Walks(c.engine.sw.flows, dir, pkt, ch, v) <==> v == TableVerdict(s, dir, pkt, ch) {
      WalkIsTableVerdict(p, base, s, c, dir, pkt, ch, v);
    }
    assert Walks(c.engine.sw.flows, dir, pkt, ch, TableVerdict(s, dir, pkt, ch));
  }

  lemma NextIsElsewhere(p: Pipeline, base: FlowTable, dir: Direction)
    requires MissFlows(p, base)
    ensures Next(p, dir) != DefaultTable(dir)
  {
  }

  lemma WalkVerdict(p: Pipeline, base: FlowTable, s: PlainStore, c: Client, dir: Direction, pkt: Packet, ch: RuleId, v: Verdict)
    requires Represents(p, base, s, c) && MissFlows(p, base) && IsIP(pkt.proto)
    requires Walks(c.engine.sw.flows, dir, pkt, ch, v)
    ensures v == TableVerdict(s, dir, pkt, ch)
  {
    hide Represents, Hits, Selects, Excepted, Soft;
    var flows, pkt' := c.engine.sw.flows, pkt.(conj := ch);
    var x :| HardBest(flows, RuleTable(dir), pkt', x)
             && if Resubmit(DefaultTable(dir)) in flows[x]
                then v != Bypassed && exists y :: HardBest(flows, DefaultTable(dir), pkt', y) && (v.Dropped? <==> Drop in flows[y])
                else v == Bypassed;
    RuleTableVerdict(p, base, s, c, dir, pkt, ch, x);
    NextIsElsewhere(p, base, dir);
    SelectsIgnoresConj(s, dir, pkt, ch);
    if Resubmit(DefaultTable(dir)) in flows[x] {
      var y :| HardBest(flows, DefaultTable(dir), pkt', y) && (v.Dropped? <==> Drop in flows[y]);
      DefaultTableVerdict(p, base, s, c, dir, pkt', y);
    }
  }

  /**
   A packet that bypasses the default table matches a live rule in full and none of its excepts, or it is one for which the
   rule with id 0 opens the way.
   */
  lemma BypassIsAllowed(p: Pipeline, base: FlowTable, s: PlainStore, c: Client, dir: Direction, pkt: Packet, ch: RuleId)
    requires Represents(p, base, s, c) && MissFlows(p, base) && IsIP(pkt.proto)
    requires Chosen(c.engine.sw.flows, RuleTable(dir), pkt, ch)
    ensures Walks(c.engine.sw.flows, dir, pkt, ch, Bypassed) <==>
            (ch != NO_CONJ && ch in s && Allows(s[ch], dir, pkt) && !Excepted(s[ch], pkt)) || ZeroOpens(s, dir, pkt, ch)
  {
    hide Represents, Walks, Excepted, Chosen;
    ChosenIsLive(p, base, s, c, dir, pkt, ch);
    WalkIsTableVerdict(p, base, s, c, dir, pkt, ch, Bypassed);
  }

  /**
   A packet that some rules allow but each of them excepts is always dropped, provided these rules have an AppliedTo side:
   the member of that side which the packet matches also owns a drop flow.
   */
  lemma ExceptedIsDropped(p: Pipeline, base: FlowTable, s: PlainStore, c: Client, dir: Direction, pkt: Packet, ch: RuleId, v: Verdict)
    requires Represents(p, base, s, c) && MissFlows(p, base) && IsIP(pkt.proto)
    requires exists id :: id in s && id != NO_CONJ && Allows(s[id], dir, pkt)
    requires forall id | id in s && Allows(s[id], dir, pkt) :: Excepted(s[id], pkt) && PlainPresent(s[id], AppliedSide(dir))
    requires Chosen(c.engine.sw.flows, RuleTable(dir), pkt, ch) && Walks(c.engine.sw.flows, dir, pkt, ch, v)
    ensures v == Dropped
  {
    hide Represents, Walks, Satisfied, Excepted, SideMatches;
    var id :| id in s && id != NO_CONJ && Allows(s[id], dir, pkt);
    ProductEncodingIsExact(p, base, s, c, dir, pkt, id);
    assert ch != NO_CONJ;
    WalkIsPlainVerdict(p, base, s, c, dir, pkt, ch, v);
    assert SideMatches(s[id], AppliedSide(dir), pkt);
    assert Selects(s, dir, pkt);
  }

  /**
   A packet that no live rule's AppliedTo side names is never dropped, and one that is named but not allowed always is,
   unless the rule with id 0 opens the way for it.
   */
  lemma UnselectedIsNotDropped(p: Pipeline, base: FlowTable, s: PlainStore, c: Client, dir: Direction, pkt: Packet, ch: RuleId, v: Verdict)
    requires Represents(p, base, s, c) && MissFlows(p, base) && IsIP(pkt.proto)
    requires Chosen(c.engine.sw.flows, RuleTable(dir), pkt, ch) && Walks(c.engine.sw.flows, dir, pkt, ch, v)
    ensures !Selects(s, dir, pkt) ==> v != Dropped
    ensures Selects(s, dir, pkt) && (forall id | id in s :: !Allows(s[id], dir, pkt)) ==>
              v == if ZeroOpens(s, dir, pkt, ch) then Bypassed else Dropped
  {
    hide Represents, Walks, Excepted, Selects, Allows, Chosen;
    ChosenIsLive(p, base, s, c, dir, pkt, ch);
    WalkIsTableVerdict(p, base, s, c, dir, pkt, ch, v);
  }

  /**
   Drop flow lifetime: a match has a drop flow exactly while some live rule, of whatever kind, has it on its AppliedTo side.
   */
  lemma DropFlowLifetime(p: Pipeline, base: FlowTable, s: PlainStore, c: Client, dir: Direction, k: Key)
    requires Represents(p, base, s, c) && k.table == RuleTable(dir) && SideOf(k.kind) == AppliedSide(dir)
    ensures DropEntry(DefaultTable(dir), k) in c.engine.sw.flows <==>
            exists id :: id in s && s[id].dir == dir && HeldBy(PlainConjunct(p, id, s[id]), k).Some?
  {
    var x := DropEntry(DefaultTable(dir), k);
    var h := SharesOf(c.policies);
    DropTableOfApplied(dir, k);
    OwnerOfKey(k, x);
    assert Look(c.engine.sw.flows, x) == Want(h, base, c.engine.cache, x);
    if x in c.engine.sw.flows {
      var id := SomeClaim(p, base, s, c, k);
      PlainClaim(p, base, s, c, id, k);
      HeldAct(p, id, s[id], k);
    }
    if id :| id in s && s[id].dir == dir && HeldBy(PlainConjunct(p, id, s[id]), k).Some? {
      PlainClaim(p, base, s, c, id, k);
      assert Claims(h, id, k);
      assert ContextOk(h, k, c.engine.cache[k]);
    }
  }

  /** A client without rules on a switch that holds the miss flows represents no rules: every run starts here. */
  lemma FreshClientRepresentsNothing(p: Pipeline, base: FlowTable, c: Client)
    requires MissFlows(p, base) && c.policies == map[] && c.engine.cache == map[] && c.engine.sw.flows == base
    ensures Represents(p, base, map[], c)
  {
    assert SharesOf(c.policies) == map[];
    assert BaseOk(base);
  }

  lemma DropTableOfApplied(dir: Direction, k: Key)
    requires k.table == RuleTable(dir) && SideOf(k.kind) == AppliedSide(dir)
    ensures DropTableOf(k) == Some(DefaultTable(dir))
  {
  }
}
