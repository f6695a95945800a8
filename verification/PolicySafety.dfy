/**
 Step safety.  While rules are being installed or removed, and whatever command fails, a packet bypasses the default table
 only if some rule that is live, or on its way in or out, allows it in full and does not except it.
 */
module PolicySafety {
  import opened OpenFlow
  import opened PolicyTypes
  import opened PolicyEngine
  import opened PolicyInvariant
  import opened PolicyInterleaving
  import opened PolicyLoops
  import opened Sequences
  import opened PolicyRules
  import opened PolicyStore
  import opened PolicyVerdict
  import opened PolicyFailures

  function ActionEntry(id: RuleId, dir: Direction): PolicyEntry {
    Entry(RuleTable(dir), PRIORITY_LOW, OnConj(id))
  }

  /**
   What a rule may own on its way in or out: a part of its claims and flows.  While it claims anything, it has either all
   its flows, so its excepts too, or not its conjunction action flow.
   */
  ghost predicate Bounded(p: Pipeline, id: RuleId, r: PlainRule, s: Share) {
    && Within(s.flows, RuleFlows(p, Template(id, r)))
    && (forall k :: Look(s.claims, k) in {None, HeldBy(PlainConjunct(p, id, r), k)})
    && (s.claims == map[] || s.flows == RuleFlows(p, Template(id, r)) || ActionEntry(id, r.dir) !in s.flows)
  }

  ghost predicate AllBounded(p: Pipeline, all: PlainStore, h: Shares) {
    forall id | id in h :: id in all && Bounded(p, id, all[id], h[id])
  }

  /** A bounded rule's own flows are its action flow and flows of its excepts. */
  lemma BoundedFlow(p: Pipeline, all: PlainStore, h: Shares, base: FlowTable, e: Engine, x: PolicyEntry)
    requires Inv(h, base, e) && AllBounded(p, all, h) && x in e.sw.flows && OwnerOf(x).RuleOf?
    ensures var id := OwnerOf(x).id;
            && id in h && x in h[id].flows && e.sw.flows[x] == h[id].flows[x]
            && x in PlainFlow(p, all, id) && e.sw.flows[x] == PlainFlow(p, all, id)[x]
            && ActionFlowShape(Template(id, all[id]), Next(p, all[id].dir), Flow(x, e.sw.flows[x]))
  {
    var id := OwnerOf(x).id;
    assert Look(e.sw.flows, x) == Want(h, base, e.cache, x);
    assert Bounded(p, id, all[id], h[id]);
    RuleFlowsShape(p, Template(id, all[id]));
  }

  lemma MissFlow(p: Pipeline, h: Shares, base: FlowTable, e: Engine, x: PolicyEntry)
    requires Inv(h, base, e) && MissFlows(p, base) && x in e.sw.flows && OwnerOf(x).Nobody?
    ensures x in base && e.sw.flows[x] == base[x]
  {
    assert Look(e.sw.flows, x) == Want(h, base, e.cache, x);
  }

  /** A hit clause is hit through a key that the rule claims. */
  lemma ClauseHitIsClaimed(p: Pipeline, all: PlainStore, h: Shares, base: FlowTable, e: Engine, t: TableId, pkt: Packet, act: Act) returns (k: Key)
    requires Inv(h, base, e) && AllBounded(p, all, h) && MissFlows(p, base) && ClauseHit(e.sw.flows, t, pkt, act) && IsRuleTable(t)
    ensures k.table == t && Hits(KeyMatchers(k.kind, k.value), pkt) && ClaimOf(h, act.conj, k) == Some(act)
  {
    var flows := e.sw.flows;
    var x :| x in flows && x.table == t && Hits(Matchers(x.on), pkt) && Conjunction(act) in flows[x];
    assert SharesOk(h) && CacheOk(h, e);
    SharedFlowOfKey(h, base, e, x);
    hide Inv, SharesOk, CacheOk, Hits, AllBounded;
    match OwnerOf(x) {
      case ConjOf(k') =>
        k := k';
        HeldFromFlow(h, k, e, act);
        MatchersOfKey(x);
      case DropOf(_) =>
      case RuleOf(_) => BoundedFlow(p, all, h, base, e, x);
      case Nobody => MissFlow(p, h, base, e, x);
    }
  }

  /** A satisfied conjunction belongs to a rule that allows the packet. */
  lemma SatisfiedIsAllowed(p: Pipeline, all: PlainStore, h: Shares, base: FlowTable, e: Engine, dir: Direction, pkt: Packet, id: RuleId)
    requires Inv(h, base, e) && AllBounded(p, all, h) && MissFlows(p, base) && Satisfied(e.sw.flows, RuleTable(dir), pkt, id)
    ensures id in h && h[id].claims != map[] && id in all && Allows(all[id], dir, pkt)
  {
    hide Inv, Hits, PlainConjunct, SideMatches;
    var flows, t := e.sw.flows, RuleTable(dir);
    var n: nat :| n > 1 && AllClausesHit(flows, t, pkt, id, n);
    assert ClauseHit(flows, t, pkt, Act(id, 1, n));
    var k := ClauseHitIsClaimed(p, all, h, base, e, t, pkt, Act(id, 1, n));
    ClaimIsHeld(p, all, h, id, k);
    HeldAct(p, id, all[id], k);
    forall side: Side | PlainPresent(all[id], side) ensures SideMatches(all[id], side, pkt) {
      var i := SideNumber(all[id], side);
      assert ClauseHit(flows, t, pkt, Act(id, i, n));
      var k' := ClauseHitIsClaimed(p, all, h, base, e, t, pkt, Act(id, i, n));
      ClaimIsHeld(p, all, h, id, k');
      SideHeldIffMember(p, id, all[id], side, pkt);
    }
  }

  lemma ClaimIsHeld(p: Pipeline, all: PlainStore, h: Shares, id: RuleId, k: Key)
    requires AllBounded(p, all, h) && Claims(h, id, k)
    ensures id in h && k in h[id].claims && id in all && HeldBy(PlainConjunct(p, id, all[id]), k) == ClaimOf(h, id, k)
  {
  }

  /** Only the conjunction action flow of the rule that conj_id names leads past the default table. */
  lemma BypassFlow(p: Pipeline, all: PlainStore, h: Shares, base: FlowTable, e: Engine, dir: Direction, pkt: Packet, ch: RuleId, x: PolicyEntry)
    requires Inv(h, base, e) && AllBounded(p, all, h) && MissFlows(p, base)
    requires HardHit(e.sw.flows, RuleTable(dir), pkt.(conj := ch), x) && Resubmit(DefaultTable(dir)) !in e.sw.flows[x]
    ensures ch in h && ch in all && Bears(all, dir, ch) && x == ActionEntry(ch, dir) && x in h[ch].flows
  {
    SharedFlowOfKey(h, base, e, x);
    hide Inv, AllBounded, Soft, KeyMatchers, ActionFlows, PlainFlow;
    match OwnerOf(x) {
      case ConjOf(_) => ConjunctiveFlowIsSoft(e, x);
      case DropOf(_) =>
      case RuleOf(_) => OwnBypassFlow(p, all, h, base, e, dir, pkt, ch, x);
      case Nobody => MissFlow(p, h, base, e, x);
    }
  }

  lemma OwnBypassFlow(p: Pipeline, all: PlainStore, h: Shares, base: FlowTable, e: Engine, dir: Direction, pkt: Packet, ch: RuleId, x: PolicyEntry)
    requires Inv(h, base, e) && AllBounded(p, all, h) && x in e.sw.flows && OwnerOf(x).RuleOf?
    requires x.table == RuleTable(dir) && Hits(Matchers(x.on), pkt.(conj := ch)) && Resubmit(DefaultTable(dir)) !in e.sw.flows[x]
    ensures ch in h && ch in all && Bears(all, dir, ch) && x == ActionEntry(ch, dir) && x in h[ch].flows
  {
    assert OwnerOf(x).id in h ==> OwnerOf(x).id in all;
    hide Inv, AllBounded, KeyMatchers, ActionFlows, PlainFlow;
    BoundedFlow(p, all, h, base, e, x);
    var id := OwnerOf(x).id;
    assert ConjId(id) in Matchers(x.on);
    if PlainClauses(all[id]) <= 1 {
      NoFlowsForOneClause(p, all, id);
      assert false;
    }
  }

  /** An except of a rule that has all its flows stops the packet below the action flow. */
  lemma ExceptWins(p: Pipeline, all: PlainStore, h: Shares, base: FlowTable, e: Engine, pkt: Packet, id: RuleId) returns (x: PolicyEntry)
    requires Inv(h, base, e) && id in h && id in all && h[id].flows == PlainFlow(p, all, id)
    requires PlainClauses(all[id]) > 1 && Excepted(all[id], pkt)
    ensures HardHit(e.sw.flows, RuleTable(all[id].dir), pkt.(conj := id), x) && x.priority == PRIORITY_NORMAL
  {
    hide Inv, KeyMatchers, AddressHits, ActionFlows, Hits;
    var r := all[id];
    var a: Address, t: AddressType;
    if a' :| a' in r.exceptFrom && AddressHits(a', SrcAddress, pkt) {
      a, t := a', SrcAddress;
    } else {
      a :| a in r.exceptTo && AddressHits(a, DstAddress, pkt);
      t := DstAddress;
    }
    var f := ConjunctionExceptionFlow(id, RuleTable(r.dir), DefaultTable(r.dir), t, a);
    ExceptionEntryHit(id, r, p, t, a, pkt);
    OwnFlowPresent(p, all, h, base, e, id, f);
    x := f.entry;
  }

  lemma OwnFlowPresent(p: Pipeline, all: PlainStore, h: Shares, base: FlowTable, e: Engine, id: RuleId, f: PolicyFlow)
    requires Inv(h, base, e) && id in h && id in all && h[id].flows == PlainFlow(p, all, id)
    requires f in ActionFlows(Template(id, all[id]), Next(p, all[id].dir))
    ensures f.entry in e.sw.flows && e.sw.flows[f.entry] == f.actions
  {
    var r := Template(id, all[id]);
    RuleFlowsShape(p, r);
    FlowTableMembers(ActionFlows(r, Next(p, r.dir)));
    assert ActionFlowShape(r, Next(p, r.dir), f);
    assert Look(e.sw.flows, f.entry) == Want(h, base, e.cache, f.entry);
  }

  /**
   What makes a bypass safe: the chosen rule allows the packet in full and does not except it.  A packet that satisfies
   nothing may bypass only while the rule with id 0 has its action flow there.
   */
  ghost predicate SafeBypass(all: PlainStore, flows: FlowTable, dir: Direction, pkt: Packet, ch: RuleId) {
    if ch != NO_CONJ then ch in all && Allows(all[ch], dir, pkt) && !Excepted(all[ch], pkt)
    else Bears(all, dir, NO_CONJ) && ActionEntry(NO_CONJ, dir) in flows
  }

  /** The heart of step safety, for any mixture of live, arriving and departing rules. */
  lemma BypassIsSafe(p: Pipeline, all: PlainStore, h: Shares, base: FlowTable, e: Engine, dir: Direction, pkt: Packet, ch: RuleId)
    requires Inv(h, base, e) && AllBounded(p, all, h) && MissFlows(p, base)
    requires Chosen(e.sw.flows, RuleTable(dir), pkt, ch) && Walks(e.sw.flows, dir, pkt, ch, Bypassed)
    ensures SafeBypass(all, e.sw.flows, dir, pkt, ch)
  {
    hide Inv, Satisfied, Hits, Excepted, SideMatches, PlainFlow, Soft;
    var x :| HardBest(e.sw.flows, RuleTable(dir), pkt.(conj := ch), x) && Resubmit(DefaultTable(dir)) !in e.sw.flows[x];
    BypassFlow(p, all, h, base, e, dir, pkt, ch, x);
    if ch != NO_CONJ {
      SatisfiedIsAllowed(p, all, h, base, e, dir, pkt, ch);
      ActionFlowMeansAllFlows(p, all, h, ch);
      if Excepted(all[ch], pkt) {
        var y := ExceptWins(p, all, h, base, e, pkt, ch);
        assert false;
      }
    }
  }

  /** An except flow of the rule with id 0 stops the packet. */
  predicate ZeroExcepted(flows: FlowTable, dir: Direction, pkt: Packet) {
    exists x | x in flows :: x.table == RuleTable(dir) && x.on.OnConjKey? && x.on.id == NO_CONJ && Hits(Matchers(x.on), pkt.(conj := NO_CONJ))
  }

  /**
   The exact statement for id 0, for any mixture of rules: an IP packet whose conj_id is unset bypasses the default table if
   and only if the action flow of rule 0 is there and no except flow of rule 0 stops the packet.
   */
  lemma ZeroBypassesIff(p: Pipeline, all: PlainStore, h: Shares, base: FlowTable, e: Engine, dir: Direction, pkt: Packet)
    requires Inv(h, base, e) && AllBounded(p, all, h) && MissFlows(p, base) && IsIP(pkt.proto)
    ensures Walks(e.sw.flows, dir, pkt, NO_CONJ, Bypassed) <==>
            ActionEntry(NO_CONJ, dir) in e.sw.flows && !ZeroExcepted(e.sw.flows, dir, pkt)
  {
    hide Inv, AllBounded, Matchers, PlainFlow, ActionFlows, Soft, MissFlows;
    var flows, t, pkt', action := e.sw.flows, RuleTable(dir), pkt.(conj := NO_CONJ), ActionEntry(NO_CONJ, dir);
    forall x | x in flows && x.table == t && !Soft(flows[x]) && Hits(Matchers(x.on), pkt')
      ensures RuleTableFlow(x) && (Conj(x.on).Some? ==> Conj(x.on).value == NO_CONJ)
    {
      HardFlow(p, all, h, base, e, dir, pkt', x);
    }
    ActionHits(dir, pkt');
    if action in flows {
      OwnIsHard(p, all, h, base, e, action);
      ActionLeadsPast(p, all, h, base, e, dir);
    }
    if Walks(flows, dir, pkt, NO_CONJ, Bypassed) {
      var x :| HardBest(flows, t, pkt', x) && Resubmit(DefaultTable(dir)) !in flows[x];
      BypassFlow(p, all, h, base, e, dir, pkt, NO_CONJ, x);
      if y :| y in flows && y.table == t && y.on.OnConjKey? && y.on.id == NO_CONJ && Hits(Matchers(y.on), pkt') {
        OwnIsHard(p, all, h, base, e, y);
        NoneOutranks(flows, t, pkt', x, y);
        assert false;
      }
    }
    if action in flows && !ZeroExcepted(flows, dir, pkt) {
      assert HardHit(flows, t, pkt', action);
      assert HardBest(flows, t, pkt', action);
    }
  }

  lemma NoneOutranks(flows: FlowTable, t: TableId, pkt: Packet, x: PolicyEntry, y: PolicyEntry)
    requires HardBest(flows, t, pkt, x)
    requires y in flows && y.table == t && !Soft(flows[y]) && Hits(Matchers(y.on), pkt)
    ensures y.priority <= x.priority
  {
  }

  /** A flow of a rule table without conjunctions: a rule's own flow or the miss flow. */
  predicate RuleTableFlow(x: PolicyEntry) {
    || (x.on.OnConj? && x.priority == PRIORITY_LOW)
    || (x.on.OnConjKey? && x.priority == PRIORITY_NORMAL)
    || (x.on.OnIP? && x.priority == PRIORITY_MISS)
  }

  lemma HardFlow(p: Pipeline, all: PlainStore, h: Shares, base: FlowTable, e: Engine, dir: Direction, pkt: Packet, x: PolicyEntry)
    requires Inv(h, base, e) && AllBounded(p, all, h) && MissFlows(p, base)
    requires HardHit(e.sw.flows, RuleTable(dir), pkt, x)
    ensures RuleTableFlow(x) && (Conj(x.on).Some? ==> Conj(x.on).value == pkt.conj)
  {
    SharedFlowOfKey(h, base, e, x);
    hide Inv, AllBounded, Soft, KeyMatchers, ActionFlows, PlainFlow, Hits, Matchers, MissFlows, SharedFlow;
    match OwnerOf(x) {
      case ConjOf(_) => ConjunctiveFlowIsSoft(e, x);
      case DropOf(_) =>
      case RuleOf(id) =>
        BoundedFlow(p, all, h, base, e, x);
        HitsOwnConj(x.on, pkt);
      case Nobody =>
        MissFlow(p, h, base, e, x);
        MissEntryShape(p, base, x);
    }
  }

  lemma MissEntryShape(p: Pipeline, base: FlowTable, x: PolicyEntry)
    requires MissFlows(p, base) && x in base
    ensures x.on.OnIP? && x.priority == PRIORITY_MISS
  {
  }

  lemma HitsOwnConj(m: PolicyMatch, pkt: Packet)
    requires Conj(m).Some? && Hits(Matchers(m), pkt)
    ensures pkt.conj == Conj(m).value
  {
    hide KeyMatchers;
    assert ConjId(Conj(m).value) in Matchers(m);
  }

  lemma ActionLeadsPast(p: Pipeline, all: PlainStore, h: Shares, base: FlowTable, e: Engine, dir: Direction)
    requires Inv(h, base, e) && AllBounded(p, all, h) && MissFlows(p, base) && ActionEntry(NO_CONJ, dir) in e.sw.flows
    ensures Resubmit(DefaultTable(dir)) !in e.sw.flows[ActionEntry(NO_CONJ, dir)]
  {
    hide Inv, AllBounded;
    BoundedFlow(p, all, h, base, e, ActionEntry(NO_CONJ, dir));
    NextIsElsewhere(p, base, dir);
  }

  lemma ActionHits(dir: Direction, pkt: Packet)
    requires IsIP(pkt.proto)
    ensures Hits(Matchers(ActionEntry(pkt.conj, dir).on), pkt)
  {
  }

  lemma OwnIsHard(p: Pipeline, all: PlainStore, h: Shares, base: FlowTable, e: Engine, x: PolicyEntry)
    requires Inv(h, base, e) && AllBounded(p, all, h) && x in e.sw.flows && OwnerOf(x).RuleOf?
    ensures !Soft(e.sw.flows[x])
  {
    BoundedFlow(p, all, h, base, e, x);
  }

  lemma ActionFlowMeansAllFlows(p: Pipeline, all: PlainStore, h: Shares, id: RuleId)
    requires AllBounded(p, all, h) && id in h && id in all && h[id].claims != map[] && ActionEntry(id, all[id].dir) in h[id].flows
    ensures h[id].flows == PlainFlow(p, all, id)
  {
  }

  /***** Installing *****/

  lemma PartialIsBounded(p: Pipeline, r: Rule, s: Share)
    requires PartialShare(p, r, s)
    ensures Bounded(p, r.id, PlainOf(r), s)
  {
    var conj := PlainConjunct(p, r.id, PlainOf(r));
    InstalledIsPlain(p, r);
    assert RuleFlows(p, r) == RuleFlows(p, Template(r.id, PlainOf(r)));
    forall k ensures Look(s.claims, k) in {None, HeldBy(conj, k)} {
      RuleClaimHeld(p, r, k);
    }
  }

  lemma LiveAreBounded(p: Pipeline, s: PlainStore)
    ensures AllBounded(p, s, SharesOf(PlainConjuncts(p, s)))
  {
  }

  lemma OneMoreBounded(p: Pipeline, s: PlainStore, h: Shares, id: RuleId, r: PlainRule, sh: Share)
    requires AllBounded(p, s, h) && Bounded(p, id, r, sh)
    ensures AllBounded(p, s[id := r], h[id := sh])
  {
  }

  /**
   At every command of an installation of rule `r`, first attempt or retry, cut short or not: whichever satisfied
   conjunction the switch chooses, a packet that bypasses the default table is allowed in full, and not excepted, by a live
   rule or by `r`.
   */
  lemma InstallStepIsSafe(p: Pipeline, base: FlowTable, s: PlainStore, r: Rule, c: Client, dir: Direction, pkt: Packet, ch: RuleId)
    requires Interrupted(p, base, s, r, c) && MissFlows(p, base)
    requires Chosen(c.engine.sw.flows, RuleTable(dir), pkt, ch) && Walks(c.engine.sw.flows, dir, pkt, ch, Bypassed)
    ensures SafeBypass(s[r.id := PlainOf(r)], c.engine.sw.flows, dir, pkt, ch)
  {
    hide Interrupted, Inv, Chosen, Walks, AllBounded, SafeBypass;
    var h := InterruptedShares(p, base, s, r, c);
    BypassIsSafe(p, s[r.id := PlainOf(r)], h, base, c.engine, dir, pkt, ch);
  }

  lemma InterruptedShares(p: Pipeline, base: FlowTable, s: PlainStore, r: Rule, c: Client) returns (h: Shares)
    requires Interrupted(p, base, s, r, c)
    ensures Inv(h, base, c.engine) && AllBounded(p, s[r.id := PlainOf(r)], h)
  {
    hide Inv, PartialShare, Loose, Bounded, AllBounded;
    var sh :| PartialShare(p, r, sh) && RepresentsAside(p, base, map[r.id := sh], RuleKeys(r), s, c);
    AddLast(SharesOf(c.policies), r.id, sh);
    LiveAreBounded(p, s);
    PartialIsBounded(p, r, sh);
    OneMoreBounded(p, s, SharesOf(c.policies), r.id, PlainOf(r), sh);
    h := SharesOf(c.policies)[r.id := sh];
  }

  /** In those states too, a packet that satisfies nothing bypasses the default table exactly if rule 0 opens the way. */
  lemma ZeroWhileInstallingIff(p: Pipeline, base: FlowTable, s: PlainStore, r: Rule, c: Client, dir: Direction, pkt: Packet)
    requires Interrupted(p, base, s, r, c) && MissFlows(p, base) && IsIP(pkt.proto)
    ensures Walks(c.engine.sw.flows, dir, pkt, NO_CONJ, Bypassed) <==>
            ActionEntry(NO_CONJ, dir) in c.engine.sw.flows && !ZeroExcepted(c.engine.sw.flows, dir, pkt)
  {
    hide Interrupted, Inv, AllBounded, Walks, ZeroExcepted;
    var h := InterruptedShares(p, base, s, r, c);
    ZeroBypassesIff(p, s[r.id := PlainOf(r)], h, base, c.engine, dir, pkt);
  }

  /***** Uninstalling *****/

  lemma DepartedIsBounded(p: Pipeline, id: RuleId, r: PlainRule, s: Share)
    requires Departed(p, id, r, s)
    ensures Bounded(p, id, r, s)
  {
  }

  lemma DepartingShares(p: Pipeline, base: FlowTable, s: PlainStore, id: RuleId, c: Client) returns (h: Shares)
    requires Departing(p, base, s, id, c)
    ensures Inv(h, base, c.engine) && AllBounded(p, s, h)
  {
    hide Inv, Departed, Loose, Bounded, AllBounded, Leaving, ConjunctsOk;
    var sh :| Departed(p, id, s[id], sh) && Inv(SharesOf(c.policies - {id})[id := sh], base, c.engine);
    LiveAreBounded(p, s - {id});
    DepartedIsBounded(p, id, s[id], sh);
    OneMoreBounded(p, s - {id}, SharesOf(c.policies - {id}), id, s[id], sh);
    assert (s - {id})[id := s[id]] == s;
    h := SharesOf(c.policies - {id})[id := sh];
  }

  lemma ZeroWhileUninstallingIff(p: Pipeline, base: FlowTable, s: PlainStore, id: RuleId, c: Client, dir: Direction, pkt: Packet)
    requires Departing(p, base, s, id, c) && MissFlows(p, base) && IsIP(pkt.proto)
    ensures Walks(c.engine.sw.flows, dir, pkt, NO_CONJ, Bypassed) <==>
            ActionEntry(NO_CONJ, dir) in c.engine.sw.flows && !ZeroExcepted(c.engine.sw.flows, dir, pkt)
  {
    hide Departing, Inv, AllBounded, Walks, ZeroExcepted;
    var h := DepartingShares(p, base, s, id, c);
    ZeroBypassesIff(p, s, h, base, c.engine, dir, pkt);
  }

  /** The same at every command of an uninstallation of rule `id`: the rule is sound until it is gone. */
  lemma UninstallStepIsSafe(p: Pipeline, base: FlowTable, s: PlainStore, id: RuleId, c: Client, dir: Direction, pkt: Packet, ch: RuleId)
    requires Departing(p, base, s, id, c) && MissFlows(p, base)
    requires Chosen(c.engine.sw.flows, RuleTable(dir), pkt, ch) && Walks(c.engine.sw.flows, dir, pkt, ch, Bypassed)
    ensures SafeBypass(s, c.engine.sw.flows, dir, pkt, ch)
  {
    hide Departing, Inv, Chosen, Walks, AllBounded, SafeBypass;
    var h := DepartingShares(p, base, s, id, c);
    BypassIsSafe(p, s, h, base, c.engine, dir, pkt, ch);
  }

  /***** A failed installation may already accept *****/

  /** An egress rule with one source and two destinations; the command that adds the second destination fails. */
  const HALF := Rule(1, Egress, Some([IPAddress(1)]), [], Some([IPAddress(2), IPAddress(3)]), [], None)

  function FailsAtFour(i: nat): bool {
    i == 4
  }

  function NewKey(a: Address, t: AddressType): Key {
    AddressKey(EGRESS_RULE_TABLE, t, a)
  }

  /** Adding an uncached key when no command fails. */
  lemma FreshKeyAdded(e: Engine, c: Clause, k: Key)
    requires k !in e.cache && k !in c.matches && c.action.n > 1 && e.sw.fails == FailsAtFour
    requires e.sw.clock + One(c.dropTable) < 4
    ensures var r := AddConjunctiveMatchFlow(e, c, k);
            && r.ok && r.clause == c.(matches := c.matches + {k})
            && r.e.cache.Keys == e.cache.Keys + {k}
            && r.e.sw.fails == FailsAtFour && r.e.sw.clock == e.sw.clock + One(c.dropTable) + 1
            && r.e.sw.flows == (if c.dropTable.Some? then e.sw.flows[DropEntry(c.dropTable.value, k) := {Drop}] else e.sw.flows)
                               [ConjEntry(k) := {Conjunction(c.action)}]
  {
    var acts := EMPTY_CONTEXT.actions.Values + {c.action};
    assert acts == {c.action};
    assert Conjunctions({c.action}) == {Conjunction(c.action)};
  }

  lemma HalfInstalled(p: Pipeline) returns (flows: FlowTable)
    ensures var c := Client(Engine(map[], Switch(map[], map[], FailsAtFour, 0)), map[]);
            var x := InstallPolicyRuleFlows(c, p, HALF);
            x.err.SwitchError? && x.c.engine.sw.flows == flows
    ensures var from, to := NewKey(IPAddress(1), SrcAddress), NewKey(IPAddress(2), DstAddress);
            && ConjEntry(from) in flows && flows[ConjEntry(from)] == {Conjunction(Act(1, 1, 2))}
            && ConjEntry(to) in flows && flows[ConjEntry(to)] == {Conjunction(Act(1, 2, 2))}
  {
    hide AddConjunctiveMatchFlow, KeyMatchers, UninstallPolicyRuleFlows;
    var from, to, last := NewKey(IPAddress(1), SrcAddress), NewKey(IPAddress(2), DstAddress), NewKey(IPAddress(3), DstAddress);
    var sw: PolicySwitch := Switch(map[], map[], FailsAtFour, 0);
    var f := ConjunctionActionFlow(1, EGRESS_RULE_TABLE, p.egressNext);
    assert ActionFlows(HALF, Next(p, Egress)) == [f];
    assert AddActionFlows(sw, [f]) == SwitchResult(Exec(sw, Add(f)), true);
    var e := Engine(map[], Exec(sw, Add(f)));
    assert SideKeys(HALF, From) == [from] && SideKeys(HALF, To) == [to, last];
    FreshKeyAdded(e, FromClause(HALF), from);
    var r1 := AddConjunctiveMatchFlow(e, FromClause(HALF), from);
    assert AddFlows(e, FromClause(HALF), [from]) == r1;
    FreshKeyAdded(r1.e, ToClause(HALF), to);
    var r2 := AddConjunctiveMatchFlow(r1.e, ToClause(HALF), to);
    LastKeyFails(r2.e, r2.clause, last);
    var r3 := AddConjunctiveMatchFlow(r2.e, r2.clause, last);
    assert [to, last][1..] == [last];
    assert AddFlows(r2.e, r2.clause, [last]) == r3;
    assert AddFlows(r1.e, ToClause(HALF), [to, last]) == r3;
    flows := r2.e.sw.flows;
  }

  lemma LastKeyFails(e: Engine, c: Clause, k: Key)
    requires k !in e.cache && k !in c.matches && c.action.n > 1 && c.dropTable.None? && WillFail(e.sw)
    ensures var r := AddConjunctiveMatchFlow(e, c, k);
            !r.ok && r.clause == c && r.e.sw.flows == e.sw.flows
  {
  }

  /**
   The remark that after an error in a clause the conjunction action flow will never be hit is too strong: an installation
   that fails inside its last clause may leave a rule that packets already satisfy.  Module PolicyPartial says exactly when.
   */
  lemma FailedInstallMayAccept(p: Pipeline)
    ensures var c := Client(Engine(map[], Switch(map[], map[], FailsAtFour, 0)), map[]);
            var x := InstallPolicyRuleFlows(c, p, HALF);
            var pkt := Packet(TCP, 1, 2, 0, 0, 0, 0, 0, 0);
            x.err.SwitchError? && Satisfied(x.c.engine.sw.flows, EGRESS_RULE_TABLE, pkt, 1)
  {
    hide InstallPolicyRuleFlows;
    var flows := HalfInstalled(p);
    var pkt := Packet(TCP, 1, 2, 0, 0, 0, 0, 0, 0);
    forall i: nat | 1 <= i <= 2 ensures ClauseHit(flows, EGRESS_RULE_TABLE, pkt, Act(1, i, 2)) {
      var k := if i == 1 then NewKey(IPAddress(1), SrcAddress) else NewKey(IPAddress(2), DstAddress);
      assert Hits(Matchers(ConjEntry(k).on), pkt);
    }
    assert AllClausesHit(flows, EGRESS_RULE_TABLE, pkt, 1, 2);
  }
}
