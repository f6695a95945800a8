/**
 The commands of the policy engine under the non-strict semantics.  Where the exact reading that the engine is analysed
 with is justified, where it is not, and what goes wrong there.
 */
module PolicyWire {
  import opened OpenFlow
  import opened WireSemantics
  import opened PolicyTypes
  import opened PolicyEngine
  import opened PolicyInvariant
  import opened PolicyInterleaving
  import opened PolicyLoops
  import opened Sequences
  import opened PolicyRules
  import opened PolicyStore
  import opened PolicyVerdict
  import opened PolicyCommands

  /***** What the matches of the policy tables cover *****/

  /** A packet that hits the match of a key. */
  function KeyExample(kind: MatchType, value: Value, conj: RuleId): Packet {
    match (kind, value)
    case (MatchDstIP, OfAddress(IPAddress(ip))) => Packet(TCP, 0, ip, 0, 0, 0, 0, 0, conj)
    case (MatchSrcIP, OfAddress(IPAddress(ip))) => Packet(TCP, ip, 0, 0, 0, 0, 0, 0, conj)
    case (MatchDstIPNet, OfAddress(IPNetAddress(ip, _))) => Packet(TCP, 0, ip, 0, 0, 0, 0, 0, conj)
    case (MatchSrcIPNet, OfAddress(IPNetAddress(ip, _))) => Packet(TCP, ip, 0, 0, 0, 0, 0, 0, conj)
    case (MatchDstOFPort, OfAddress(OFPortAddress(port))) => Packet(TCP, 0, 0, 0, port % 0x1_0000_0000, 0, 0, 0, conj)
    case (MatchSrcOFPort, OfAddress(OFPortAddress(port))) => Packet(TCP, 0, 0, port % 0x1_0000_0000, 0, 0, 0, 0, conj)
    case (MatchTCPDstPort, OfPort(port)) => Packet(TCP, 0, 0, 0, 0, 0, port, 0, conj)
    case (MatchUDPDstPort, OfPort(port)) => Packet(UDP, 0, 0, 0, 0, 0, port, 0, conj)
    case (MatchSCTPDstPort, OfPort(port)) => Packet(SCTP, 0, 0, 0, 0, 0, port, 0, conj)
    case _ => Packet(TCP, 0, 0, 0, 0, 0, 0, 0, conj)
  }

  lemma KeyExampleHits(kind: MatchType, value: Value, conj: RuleId)
    ensures Hits(KeyMatchers(kind, value), KeyExample(kind, value, conj)) && KeyExample(kind, value, conj).conj == conj
  {
  }

  lemma KeyIgnoresConj(kind: MatchType, value: Value, pkt: Packet, conj: RuleId)
    ensures Hits(KeyMatchers(kind, value), pkt.(conj := conj)) <==> Hits(KeyMatchers(kind, value), pkt)
  {
  }

  lemma ConjKeyHits(id: RuleId, kind: MatchType, value: Value, pkt: Packet)
    ensures Hits(Matchers(OnConjKey(id, kind, value)), pkt) <==> pkt.conj == id && Hits(KeyMatchers(kind, value), pkt)
  {
    var m := KeyMatchers(kind, value);
    if Hits([ConjId(id)] + m, pkt) {
      assert ([ConjId(id)] + m)[0] == ConjId(id);
      WholeMatchHits([ConjId(id)], m, pkt);
    }
  }

  lemma ConjHits(id: RuleId, pkt: Packet)
    ensures Hits(Matchers(OnConj(id)), pkt) <==> pkt.conj == id && Hits(Matchers(OnIP), pkt)
  {
    assert Hits([IP, ConjId(id)], pkt) <==> Hit([IP, ConjId(id)][0], pkt) && Hit([IP, ConjId(id)][1], pkt);
    assert Hits([IP], pkt) <==> Hit([IP][0], pkt);
  }

  /** A key covers an action flow only if it covers the miss flow, and an except flow only if it covers the except's address. */
  lemma KeyCovers(kind: MatchType, value: Value, m: PolicyMatch)
    requires Covers(KeyMatchers(kind, value), Matchers(m))
    ensures match m
            case OnKey(kind', value') => Covers(KeyMatchers(kind, value), KeyMatchers(kind', value'))
            case OnConj(_) => Covers(KeyMatchers(kind, value), Matchers(OnIP))
            case OnConjKey(_, kind', value') => Covers(KeyMatchers(kind, value), KeyMatchers(kind', value'))
            case OnIP => Covers(KeyMatchers(kind, value), Matchers(OnIP))
  {
    hide KeyMatchers, Hits;
    match m {
      case OnConj(id) =>
        forall pkt | Hits(Matchers(OnIP), pkt) ensures Hits(KeyMatchers(kind, value), pkt) {
          ConjHits(id, pkt.(conj := id));
          assert Hits(Matchers(OnIP), pkt.(conj := id)) by { MissIgnoresConj(pkt, id); }
          KeyIgnoresConj(kind, value, pkt, id);
        }
      case OnConjKey(id, kind', value') =>
        forall pkt | Hits(KeyMatchers(kind', value'), pkt) ensures Hits(KeyMatchers(kind, value), pkt) {
          KeyIgnoresConj(kind', value', pkt, id);
          ConjKeyHits(id, kind', value', pkt.(conj := id));
          KeyIgnoresConj(kind, value, pkt, id);
        }
      case _ =>
    }
  }

  lemma MissIgnoresConj(pkt: Packet, id: RuleId)
    ensures Hits(Matchers(OnIP), pkt.(conj := id)) <==> Hits(Matchers(OnIP), pkt)
  {
  }

  /** Conversely, a key that covers an address covers every except flow for it. */
  lemma KeyCoversExcept(kind: MatchType, value: Value, id: RuleId, kind': MatchType, value': Value)
    requires Covers(KeyMatchers(kind, value), KeyMatchers(kind', value'))
    ensures Covers(KeyMatchers(kind, value), Matchers(OnConjKey(id, kind', value')))
  {
    hide KeyMatchers, Hits;
    forall pkt | Hits(Matchers(OnConjKey(id, kind', value')), pkt) ensures Hits(KeyMatchers(kind, value), pkt) {
      ConjKeyHits(id, kind', value', pkt);
    }
  }

  /** A rule's own flows cover nothing but flows of the same rule. */
  lemma OwnCovers(m: PolicyMatch, m': PolicyMatch)
    requires Conj(m).Some? && Covers(Matchers(m), Matchers(m'))
    ensures Conj(m') == Conj(m)
  {
    hide KeyMatchers, Hits;
    var id := Conj(m).value;
    var conj := if Conj(m').Some? then Conj(m').value else id + 1;
    var pkt: Packet;
    match m' {
      case OnKey(kind, value) =>
        pkt := KeyExample(kind, value, conj);
        KeyExampleHits(kind, value, conj);
      case OnConj(_) =>
        pkt := Packet(TCP, 0, 0, 0, 0, 0, 0, 0, conj);
        ConjHits(conj, pkt);
        MissHits(pkt);
      case OnConjKey(_, kind, value) =>
        pkt := KeyExample(kind, value, conj);
        KeyExampleHits(kind, value, conj);
        ConjKeyHits(conj, kind, value, pkt);
      case OnIP =>
        pkt := Packet(TCP, 0, 0, 0, 0, 0, 0, 0, conj);
        MissHits(pkt);
    }
    match m {
      case OnConj(_) => ConjHits(id, pkt);
      case OnConjKey(_, kind, value) => ConjKeyHits(id, kind, value, pkt);
    }
  }

  /***** Which entries the commands of a call name *****/

  predicate OnKeys(x: PolicyEntry, keys: set<Key>) {
    match OwnerOf(x)
    case ConjOf(k) => k in keys
    case DropOf(k) => k in keys
    case _ => false
  }

  /** All actions are conjunctions, as in conjunctive match flows and in no other. */
  predicate Conjunctive(acts: set<FlowAction>) {
    forall a | a in acts :: a.Conjunction?
  }

  predicate CommandOn(cmd: PolicyCommand, keys: set<Key>) {
    OnKeys(cmd.flow.entry, keys) && (cmd.Modify? ==> Conjunctive(cmd.flow.actions))
  }

  predicate CommandsOn(cmds: seq<PolicyCommand>, keys: set<Key>) {
    forall cmd | cmd in cmds :: CommandOn(cmd, keys)
  }

  /** The flows of each cached context are those of its key. */
  predicate ContextsName(cache: map<Key, Context>) {
    forall k | k in cache :: ContextNames(k, cache[k])
  }

  predicate ContextNames(k: Key, ctx: Context) {
    && IsRuleTable(k.table)
    && (ctx.flow.Some? ==> ctx.flow.value.entry == ConjEntry(k))
    && (ctx.dropFlow.Some? ==> OwnerOf(ctx.dropFlow.value.entry) == DropOf(k))
  }

  lemma ReleaseNames(ctx: Context, k: Key, act: Act)
    requires ContextNames(k, ctx)
    ensures CommandsOn(ReleaseCommands(ctx, k, act), {k}) && ContextNames(k, Release(ctx, k, act, QUIET).ctx)
  {
  }

  lemma AddMatchNames(cache: map<Key, Context>, c: Clause, k: Key)
    requires ContextsName(cache) && IsRuleTable(k.table) && c.dropTable == DropTableOf(k)
    ensures CommandsOn(AddMatchCommands(cache, c, k), {k})
    ensures ContextsName(AddConjunctiveMatchFlow(Engine(cache, QUIET), c, k).e.cache)
  {
  }

  lemma DeleteMatchNames(cache: map<Key, Context>, c: Clause, k: Key)
    requires ContextsName(cache) && IsRuleTable(k.table)
    ensures CommandsOn(DeleteMatchCommands(cache, c, k), {k})
    ensures ContextsName(DeleteConjunctiveMatchFlow(Engine(cache, QUIET), c, k).e.cache)
  {
    hide Release, ReleaseCommands;
    ReleaseNames(HeldContext(Engine(cache, QUIET), k), k, c.action);
  }

  lemma MoreKeys(cmds: seq<PolicyCommand>, keys: set<Key>, more: set<Key>)
    requires CommandsOn(cmds, keys) && keys <= more
    ensures CommandsOn(cmds, more)
  {
  }

  lemma {:induction false} AddFlowsName(cache: map<Key, Context>, c: Clause, keys: seq<Key>)
    requires ContextsName(cache) && forall k | k in keys :: IsRuleTable(k.table) && c.dropTable == DropTableOf(k)
    ensures CommandsOn(AddFlowsCommands(cache, c, keys), Elems(keys)) && ContextsName(AddFlowsCache(cache, c, keys))
    decreases |keys|
  {
    hide AddMatchCommands, AddConjunctiveMatchFlow, ContextsName;
    if keys != [] {
      AddMatchNames(cache, c, keys[0]);
      var q := AddConjunctiveMatchFlow(Engine(cache, QUIET), c, keys[0]);
      QuietAdd(cache, c, keys[0]);
      AddFlowsName(q.e.cache, q.clause, keys[1..]);
      MoreKeys(AddMatchCommands(cache, c, keys[0]), {keys[0]}, Elems(keys));
      MoreKeys(AddFlowsCommands(q.e.cache, q.clause, keys[1..]), Elems(keys[1..]), Elems(keys));
    }
  }

  lemma QuietAdd(cache: map<Key, Context>, c: Clause, k: Key)
    ensures var q := AddConjunctiveMatchFlow(Engine(cache, QUIET), c, k);
            q.ok && q.clause == c.(matches := c.matches + {k})
  {
  }

  lemma {:induction false} DeleteFlowsName(cache: map<Key, Context>, c: Clause, keys: seq<Key>)
    requires ContextsName(cache) && forall k | k in keys :: IsRuleTable(k.table)
    ensures CommandsOn(DeleteFlowsCommands(cache, c, keys), Elems(keys) * c.matches)
    ensures ContextsName(DeleteFlowsCache(cache, c, keys))
    decreases |keys|
  {
    hide DeleteMatchCommands, DeleteConjunctiveMatchFlow, ContextsName;
    if keys != [] {
      DeleteMatchNames(cache, c, keys[0]);
      var q := DeleteConjunctiveMatchFlow(Engine(cache, QUIET), c, keys[0]);
      QuietDelete(cache, c, keys[0]);
      DeleteFlowsName(q.e.cache, q.clause, keys[1..]);
      if keys[0] in c.matches {
        MoreKeys(DeleteMatchCommands(cache, c, keys[0]), {keys[0]}, Elems(keys) * c.matches);
      }
      MoreKeys(DeleteFlowsCommands(q.e.cache, q.clause, keys[1..]), Elems(keys[1..]) * q.clause.matches, Elems(keys) * c.matches);
    }
  }

  lemma QuietDelete(cache: map<Key, Context>, c: Clause, k: Key)
    ensures var q := DeleteConjunctiveMatchFlow(Engine(cache, QUIET), c, k);
            q.ok && q.clause == c.(matches := c.matches - {k})
    ensures k !in c.matches ==> DeleteMatchCommands(cache, c, k) == []
  {
  }

  lemma CommandsOnSum(a: seq<PolicyCommand>, b: seq<PolicyCommand>, keys: set<Key>)
    requires CommandsOn(a, keys) && CommandsOn(b, keys)
    ensures CommandsOn(a + b, keys)
  {
  }

  lemma AddSideNames(cache: map<Key, Context>, r: Rule, side: Side)
    requires ContextsName(cache)
    ensures CommandsOn(AddSideCommands(cache, r, side), RuleKeys(r)) && ContextsName(AddSideCache(cache, r, side))
  {
    hide AddFlowsCommands, AddFlowsCache;
    var nothing: seq<PolicyCommand> := [];
    if SidePresent(r, side) {
      SideKeysProper(r, side);
      AddFlowsName(cache, SideClause(r, side), SideKeys(r, side));
      MoreKeys(AddSideCommands(cache, r, side), Elems(SideKeys(r, side)), RuleKeys(r));
    }
  }

  lemma AddClausesName(cache: map<Key, Context>, r: Rule)
    requires ContextsName(cache)
    ensures CommandsOn(AddClausesCommands(cache, r), RuleKeys(r))
  {
    hide AddSideCommands, AddSideCache, CommandsOn, ContextsName, RuleKeys;
    var afterFrom := AddSideCache(cache, r, From);
    var afterTo := AddSideCache(afterFrom, r, To);
    AddSideNames(cache, r, From);
    AddSideNames(afterFrom, r, To);
    AddSideNames(afterTo, r, Service);
    CommandsOnSum(AddSideCommands(afterFrom, r, To), AddSideCommands(afterTo, r, Service), RuleKeys(r));
    CommandsOnSum(AddSideCommands(cache, r, From),
                  AddSideCommands(afterFrom, r, To) + AddSideCommands(afterTo, r, Service), RuleKeys(r));
  }

  lemma DeleteSideNames(cache: map<Key, Context>, id: RuleId, conj: Conjunct, side: Side, keys: seq<Key>)
    requires ContextsName(cache) && ConjunctOk(id, conj) && Elems(keys) == Matches(ConjunctSide(conj, side))
    ensures CommandsOn(DeleteSideCommands(cache, ConjunctSide(conj, side), keys), HeldKeys(conj))
    ensures ContextsName(DeleteSideCache(cache, ConjunctSide(conj, side), keys))
  {
    hide DeleteFlowsCommands, DeleteFlowsCache;
    var clause := ConjunctSide(conj, side);
    if clause.Some? {
      assert ProperClause(Slot(id, side), clause.value);
      forall k | k in keys ensures IsRuleTable(k.table) {
        assert k in Elems(keys);
      }
      DeleteFlowsName(cache, clause.value, keys);
      MoreKeys(DeleteSideCommands(cache, clause, keys), Elems(keys) * clause.value.matches, HeldKeys(conj));
    }
  }

  lemma DeleteClausesName(cache: map<Key, Context>, id: RuleId, conj: Conjunct, o: Orders)
    requires ContextsName(cache) && ConjunctOk(id, conj) && Enumerates(o, conj)
    ensures CommandsOn(DeleteClausesCommands(cache, conj, o), HeldKeys(conj))
  {
    hide DeleteSideCommands, DeleteSideCache, CommandsOn, ContextsName, HeldKeys, ConjunctOk, Matches, Elems;
    var afterFrom := DeleteSideCache(cache, conj.from, o.from);
    var afterTo := DeleteSideCache(afterFrom, conj.to, o.to);
    DeleteSideNames(cache, id, conj, From, o.from);
    DeleteSideNames(afterFrom, id, conj, To, o.to);
    DeleteSideNames(afterTo, id, conj, Service, o.service);
    CommandsOnSum(DeleteSideCommands(afterFrom, conj.to, o.to), DeleteSideCommands(afterTo, conj.service, o.service), HeldKeys(conj));
    CommandsOnSum(DeleteSideCommands(cache, conj.from, o.from),
                  DeleteSideCommands(afterFrom, conj.to, o.to) + DeleteSideCommands(afterTo, conj.service, o.service), HeldKeys(conj));
  }

  lemma CachedContextsName(base: FlowTable, c: Client)
    requires ClientInv(base, c)
    ensures ContextsName(c.engine.cache)
  {
    forall k | k in c.engine.cache ensures ContextNames(k, c.engine.cache[k]) {
      assert ContextOk(SharesOf(c.policies), k, c.engine.cache[k]);
      OwnerOfKey(k, ConjEntry(k));
      if DropTableOf(k).Some? {
        OwnerOfKey(k, DropEntry(DropTableOf(k).value, k));
      }
    }
  }

  lemma KeyCommandsName(base: FlowTable, c: Client, call: Call)
    requires ClientInv(base, c) && WellOrdered(c, call)
    ensures CommandsOn(KeyCommands(c, call), CallKeys(c, call))
  {
    hide ClientInv, AddClausesCommands, DeleteClausesCommands, AddFlowsCommands, DeleteFlowsCommands, RuleKeys, HeldKeys, ContextsName, Enumerates, Elems;
    CachedContextsName(base, c);
    match call {
      case Install(r) => AddClausesName(c.engine.cache, r);
      case Uninstall(id, o) =>
        if id in c.policies {
          LiveConjunctOk(base, c, id);
          DeleteClausesName(c.engine.cache, id, c.policies[id], o);
        }
      case AddAddresses(id, t, addrs) =>
        var clause := CalledClause(c, id, t);
        if clause.Some? {
          CalledClauseKeys(base, c, id, t, addrs);
          AddFlowsName(c.engine.cache, clause.value, AddressKeys(clause.value.ruleTable, t, addrs));
        }
      case DeleteAddresses(id, t, addrs) =>
        var clause := CalledClause(c, id, t);
        if clause.Some? {
          CalledClauseKeys(base, c, id, t, addrs);
          DeleteFlowsName(c.engine.cache, clause.value, AddressKeys(clause.value.ruleTable, t, addrs));
        }
    }
  }

  lemma LiveConjunctOk(base: FlowTable, c: Client, id: RuleId)
    requires ClientInv(base, c) && id in c.policies
    ensures ConjunctOk(id, c.policies[id])
  {
  }

  lemma CalledClauseKeys(base: FlowTable, c: Client, id: RuleId, t: AddressType, addrs: seq<Address>)
    requires ClientInv(base, c) && CalledClause(c, id, t).Some?
    ensures var clause := CalledClause(c, id, t).value;
            forall k | k in AddressKeys(clause.ruleTable, t, addrs) :: IsRuleTable(k.table) && clause.dropTable == DropTableOf(k)
  {
    var conj, side := c.policies[id], AddressSide(t).value;
    var clause := CalledClause(c, id, t).value;
    assert ConjunctOk(id, conj) && ConjunctSide(conj, side) == Some(clause);
    assert ProperClause(Slot(id, side), clause);
    AddressKeysProper(t, clause.ruleTable, addrs);
    forall k | k in AddressKeys(clause.ruleTable, t, addrs) ensures IsRuleTable(k.table) && clause.dropTable == DropTableOf(k) {
      assert ProperKey(side, clause.ruleTable, k);
    }
  }

  /***** The commands on keys *****/

  /** No called key covers another key of its table that is live or called, or the miss flow. */
  ghost predicate KeysApart(called: set<Key>, live: set<Key>) {
    forall k | k in called ::
      && !Covers(KeyMatchers(k.kind, k.value), Matchers(OnIP))
      && forall k' | k' in live && k'.table == k.table && Covers(KeyMatchers(k.kind, k.value), KeyMatchers(k'.kind, k'.value)) ::
           k' == k
  }

  /** A flow of the policy tables whose key, if it has one, is live; except flows carry no conjunction. */
  predicate Known(x: PolicyEntry, acts: set<FlowAction>, live: set<Key>) {
    match OwnerOf(x)
    case ConjOf(k) => k in live
    case DropOf(k) => k in live
    case RuleOf(_) => !Conjunctive(acts)
    case Nobody => x.on.OnIP?
  }

  predicate AllKnown(flows: FlowTable, live: set<Key>) {
    forall x | x in flows :: Known(x, flows[x], live)
  }

  /** No command modifies or deletes a key that covers an except flow of its table. */
  ghost predicate ExceptsSpared(flows: FlowTable, cmds: seq<PolicyCommand>) {
    forall cmd, x | cmd in cmds && !cmd.Add? && x in flows && x.on.OnConjKey? :: !Reached(Matchers, cmd.flow.entry, x)
  }

  /** A command on a called key reaches at most except flows beside the flows that it names. */
  lemma KeyCommandReaches(called: set<Key>, live: set<Key>, target: PolicyEntry, x: PolicyEntry, acts: set<FlowAction>)
    requires KeysApart(called, live) && OnKeys(target, called) && Known(x, acts, live)
    ensures Reached(Matchers, target, x) ==> x.on == target.on || x.on.OnConjKey?
    ensures Replaced(Matchers, target, x) ==> x == target
  {
    hide KeyMatchers, Hits, Covers;
    if x.table == target.table && Covers(Matchers(target.on), Matchers(x.on)) {
      KeyCovers(target.on.kind, target.on.value, x.on);
    }
    if Replaced(Matchers, target, x) && x.on.OnConjKey? {
      OwnCovers(x.on, target.on);
    }
  }

  lemma KeyCommandHits(called: set<Key>, live: set<Key>, flows: FlowTable, cmd: PolicyCommand)
    requires KeysApart(called, live) && AllKnown(flows, live) && CommandOn(cmd, called)
    ensures HitsItsTarget(Matchers, flows, cmd) <==> ExceptsSpared(flows, [cmd])
  {
    hide Reached, Replaced, KeysApart, Matchers;
    forall x | x in flows
      ensures Reached(Matchers, cmd.flow.entry, x) ==> x.on == cmd.flow.entry.on || x.on.OnConjKey?
      ensures Replaced(Matchers, cmd.flow.entry, x) ==> x == cmd.flow.entry
    {
      KeyCommandReaches(called, live, cmd.flow.entry, x, flows[x]);
    }
    assert cmd.flow.entry.on.OnKey?;
    if ExceptsSpared(flows, [cmd]) {
      assert cmd in [cmd];
    }
  }

  lemma KeyCommandKeepsKnown(called: set<Key>, live: set<Key>, flows: FlowTable, cmd: PolicyCommand)
    requires called <= live && AllKnown(flows, live) && CommandOn(cmd, called)
    ensures AllKnown(Apply(flows, cmd), live)
    ensures forall x: PolicyEntry | x.on.OnConjKey? :: x in Apply(flows, cmd) <==> x in flows
  {
  }

  lemma {:induction false} KeyRunIsExactIff(called: set<Key>, live: set<Key>, flows: FlowTable, cmds: seq<PolicyCommand>)
    requires called <= live && KeysApart(called, live) && AllKnown(flows, live) && CommandsOn(cmds, called)
    ensures AllHitTheirTargets(Matchers, flows, cmds) <==> ExceptsSpared(flows, cmds)
    decreases |cmds|
  {
    hide KeysApart, AllKnown, HitsItsTarget, Reached, CommandOn, Apply, Matchers;
    if cmds != [] {
      assert cmds[0] in cmds;
      KeyCommandHits(called, live, flows, cmds[0]);
      KeyCommandKeepsKnown(called, live, flows, cmds[0]);
      KeyRunIsExactIff(called, live, Apply(flows, cmds[0]), cmds[1..]);
      assert cmds == [cmds[0]] + cmds[1..];
    }
  }

  /***** The commands on a rule's own flows *****/

  /** Different flows of the list mean different packets. */
  ghost predicate MeaningsDiffer(flows: seq<PolicyFlow>) {
    forall f, g | f in flows && g in flows && Replaced(Matchers, f.entry, g.entry) :: g.entry == f.entry
  }

  predicate OwnedBy(id: RuleId, flows: seq<PolicyFlow>) {
    forall f | f in flows :: Conj(f.entry.on) == Some(id)
  }

  lemma {:induction false} AddsAre(flows: seq<PolicyFlow>)
    ensures forall cmd | cmd in Adds(flows) :: cmd.Add? && cmd.flow in flows
    ensures forall cmd | cmd in Deletes(flows) :: cmd.Delete? && cmd.flow in flows
    decreases |flows|
  {
    if flows != [] {
      AddsAre(flows[1..]);
    }
  }

  /** Adding the flows of a rule that has none yet reaches no other flow. */
  lemma OwnAddsAreExact(flows: FlowTable, own: seq<PolicyFlow>, id: RuleId)
    requires OwnedBy(id, own) && MeaningsDiffer(own) && forall x | x in flows :: Conj(x.on) != Some(id)
    ensures AgreeThroughout(Matchers, flows, Adds(own))
  {
    var cmds := Adds(own);
    AddsAre(own);
    forall cmd, x | cmd in cmds && x in Named(flows, cmds) && Replaced(Matchers, cmd.flow.entry, x)
      ensures x == cmd.flow.entry
    {
      if x in flows {
        OwnCovers(cmd.flow.entry.on, x.on);
      } else {
        var i :| 0 <= i < |cmds| && cmds[i].flow.entry == x;
        assert cmds[i] in cmds;
      }
    }
    NonStrictIsExactWhenApart(Matchers, flows, cmds);
  }

  /** What is left of `flows` if rule `id` loses the flows that `own` names. */
  ghost predicate OnlyOwnGone(flows: FlowTable, left: FlowTable, own: seq<PolicyFlow>, id: RuleId) {
    && (forall x | x in left :: x in flows && left[x] == flows[x])
    && (forall x | x in flows && Conj(x.on) != Some(id) :: x in left)
    && (forall x, f | x in left && f in own :: !SameSlot(x, f.entry))
  }

  lemma DeleteOneOwn(flows: FlowTable, f: PolicyFlow, id: RuleId)
    requires Conj(f.entry.on) == Some(id)
    ensures OnlyOwnGone(flows, WireApply(Matchers, flows, Delete(f)), [f], id)
    ensures OnlyOwnGone(flows, Apply(flows, Delete(f)), [f], id)
  {
    hide Matchers;
    forall x | x in flows && Reached(Matchers, f.entry, x) ensures Conj(x.on) == Some(id) {
      OwnCovers(f.entry.on, x.on);
    }
    forall x | SameSlot(x, f.entry) ensures Reached(Matchers, f.entry, x) {
    }
  }

  lemma OwnGoneFurther(flows: FlowTable, next: FlowTable, left: FlowTable, own: seq<PolicyFlow>, id: RuleId)
    requires own != [] && OnlyOwnGone(flows, next, [own[0]], id) && OnlyOwnGone(next, left, own[1..], id)
    ensures OnlyOwnGone(flows, left, own, id)
  {
  }

  lemma {:induction false} DeletesRemoveOwn(flows: FlowTable, own: seq<PolicyFlow>, id: RuleId)
    requires OwnedBy(id, own)
    ensures OnlyOwnGone(flows, WireRun(Matchers, flows, Deletes(own)), own, id)
    ensures OnlyOwnGone(flows, ApplyAll(flows, Deletes(own)), own, id)
    decreases |own|
  {
    hide WireApply, Apply, OnlyOwnGone, Matchers;
    if own == [] {
      NothingGone(flows, id);
    } else {
      assert own[0] in own && Deletes(own)[1..] == Deletes(own[1..]);
      DeleteOneOwn(flows, own[0], id);
      var wire, exact := WireApply(Matchers, flows, Delete(own[0])), Apply(flows, Delete(own[0]));
      DeletesRemoveOwn(wire, own[1..], id);
      DeletesRemoveOwn(exact, own[1..], id);
      OwnGoneFurther(flows, wire, WireRun(Matchers, flows, Deletes(own)), own, id);
      OwnGoneFurther(flows, exact, ApplyAll(flows, Deletes(own)), own, id);
    }
  }

  lemma NothingGone(flows: FlowTable, id: RuleId)
    ensures OnlyOwnGone(flows, flows, [], id)
  {
  }

  /**
   Deleting all flows of a rule leaves the same table under both semantics, although the first command, on the conjunction
   action flow, may delete the except flows with it.
   */
  lemma OwnDeletesEndAlike(flows: FlowTable, own: seq<PolicyFlow>, id: RuleId)
    requires OwnedBy(id, own) && forall x | x in flows && Conj(x.on) == Some(id) :: exists f :: f in own && SameSlot(x, f.entry)
    ensures WireRun(Matchers, flows, Deletes(own)) == ApplyAll(flows, Deletes(own))
    ensures forall x :: x in ApplyAll(flows, Deletes(own)) <==> x in flows && Conj(x.on) != Some(id)
  {
    DeletesRemoveOwn(flows, own, id);
  }

  /***** Calls *****/

  lemma LiveFlowsAreKnown(p: Pipeline, base: FlowTable, s: PlainStore, c: Client)
    requires Represents(p, base, s, c)
    ensures AllKnown(c.engine.sw.flows, c.engine.cache.Keys)
    ensures forall x | x in c.engine.sw.flows && Conj(x.on).Some? :: Conj(x.on).value in s && x in PlainFlow(p, s, Conj(x.on).value)
    ensures forall id, x | id in s && x in PlainFlow(p, s, id) :: x in c.engine.sw.flows && Conj(x.on) == Some(id)
  {
    hide Represents, PlainFlow;
    forall x | x in c.engine.sw.flows
      ensures Known(x, c.engine.sw.flows[x], c.engine.cache.Keys)
      ensures Conj(x.on).Some? ==> Conj(x.on).value in s && x in PlainFlow(p, s, Conj(x.on).value)
    {
      FlowByOwner(p, base, s, c, x);
      if OwnerOf(x).Nobody? {
        BaseMisses(p, base, s, c, x);
      }
      if OwnerOf(x).RuleOf? {
        assert exists a | a in c.engine.sw.flows[x] :: a.Resubmit?;
      }
    }
    forall id, x | id in s && x in PlainFlow(p, s, id) ensures x in c.engine.sw.flows && Conj(x.on) == Some(id) {
      OwnFlowIsLive(p, base, s, c, id, x);
    }
  }

  lemma BaseMisses(p: Pipeline, base: FlowTable, s: PlainStore, c: Client, x: PolicyEntry)
    requires Represents(p, base, s, c) && x in base
    ensures x.on.OnIP?
  {
  }

  lemma OwnFlowIsLive(p: Pipeline, base: FlowTable, s: PlainStore, c: Client, id: RuleId, x: PolicyEntry)
    requires Represents(p, base, s, c) && id in s && x in PlainFlow(p, s, id)
    ensures x in c.engine.sw.flows && Conj(x.on) == Some(id)
  {
    hide Represents, ActionFlows;
    var r := Template(id, s[id]);
    RuleFlowsShape(p, r);
    var f := Flow(x, PlainFlow(p, s, id)[x]);
    assert ActionFlowShape(r, Next(p, r.dir), f);
    RuleFlowPresent(p, base, s, c, id, f);
  }

  /** The rules whose except flows are there while the call works on its keys. */
  function RulesMeanwhile(s: PlainStore, call: Call): PlainStore {
    match call
    case Install(r) => if r.id in s then s else s[r.id := PlainOf(r)]
    case Uninstall(id, _) => s - {id}
    case _ => s
  }

  /** The excepts of a rule that is installed mean different packets. */
  ghost predicate NewExceptsDiffer(p: Pipeline, s: PlainStore, call: Call) {
    call.Install? && call.rule.id !in s ==> MeaningsDiffer(ActionFlows(call.rule, Next(p, call.rule.dir)))
  }

  lemma RuleFlowsAreOwned(p: Pipeline, r: Rule)
    ensures OwnedBy(r.id, ActionFlows(r, Next(p, r.dir)))
    ensures forall x :: x in RuleFlows(p, r) <==> exists f :: f in ActionFlows(r, Next(p, r.dir)) && f.entry == x
    ensures forall f | f in ActionFlows(r, Next(p, r.dir)) :: !Conjunctive(f.actions)
  {
    hide ActionFlows;
    var flows := ActionFlows(r, Next(p, r.dir));
    RuleFlowsShape(p, r);
    FlowTableMembers(flows);
    forall f | f in flows ensures Conj(f.entry.on) == Some(r.id) && !Conjunctive(f.actions) {
      assert ActionFlowShape(r, Next(p, r.dir), f);
      assert exists a | a in f.actions :: a.Resubmit?;
    }
    forall x | x in RuleFlows(p, r) ensures exists f :: f in flows && f.entry == x {
      assert Flow(x, RuleFlows(p, r)[x]) in flows;
    }
  }

  lemma {:induction false} AddsApply(flows: FlowTable, own: seq<PolicyFlow>, live: set<Key>)
    requires AllKnown(flows, live) && forall f | f in own :: Known(f.entry, f.actions, live)
    ensures AllKnown(ApplyAll(flows, Adds(own)), live)
    ensures forall x :: x in ApplyAll(flows, Adds(own)) <==> x in flows || exists f :: f in own && f.entry == x
    decreases |own|
  {
    hide Known;
    if own != [] {
      assert own[0] in own && Adds(own)[1..] == Adds(own[1..]);
      AddsApply(flows[own[0].entry := own[0].actions], own[1..], live);
      assert own == [own[0]] + own[1..];
    }
  }

  /** The except flows on the switch are those of these rules. */
  ghost predicate ExceptsAre(p: Pipeline, s: PlainStore, flows: FlowTable) {
    forall x: PolicyEntry | x.on.OnConjKey? ::
      x in flows <==> Conj(x.on).value in s && x in PlainFlow(p, s, Conj(x.on).value)
  }

  lemma LiveExcepts(p: Pipeline, base: FlowTable, s: PlainStore, c: Client)
    requires Represents(p, base, s, c)
    ensures ExceptsAre(p, s, c.engine.sw.flows)
  {
    hide Represents, PlainFlow;
    LiveFlowsAreKnown(p, base, s, c);
  }

  lemma MoreExcepts(p: Pipeline, s: PlainStore, r: Rule, flows: FlowTable, after: FlowTable)
    requires ExceptsAre(p, s, flows) && r.id !in s && forall x: PolicyEntry :: x in after <==> x in flows || x in RuleFlows(p, r)
    ensures ExceptsAre(p, s[r.id := PlainOf(r)], after)
  {
    SameOwnFlows(p, r);
    RuleFlowsAreOwned(p, r);
    hide RuleFlows;
    forall x: PolicyEntry | x.on.OnConjKey? && x in RuleFlows(p, r) ensures Conj(x.on) == Some(r.id) {
    }
  }

  lemma FewerExcepts(p: Pipeline, s: PlainStore, id: RuleId, flows: FlowTable, after: FlowTable)
    requires ExceptsAre(p, s, flows) && forall x: PolicyEntry :: x in after <==> x in flows && Conj(x.on) != Some(id)
    ensures ExceptsAre(p, s - {id}, after)
  {
  }

  lemma InstallsOwn(p: Pipeline, base: FlowTable, s: PlainStore, c: Client, r: Rule)
    requires Represents(p, base, s, c) && r.id !in s && MeaningsDiffer(ActionFlows(r, Next(p, r.dir)))
    ensures var flows, own := c.engine.sw.flows, Adds(ActionFlows(r, Next(p, r.dir)));
            && AgreeThroughout(Matchers, flows, own) && AllKnown(ApplyAll(flows, own), c.engine.cache.Keys)
            && ExceptsAre(p, s[r.id := PlainOf(r)], ApplyAll(flows, own))
  {
    hide Represents, ActionFlows, Known, RuleFlows, AgreeThroughout, MeaningsDiffer, PlainFlow, ExceptsAre;
    var flows, list := c.engine.sw.flows, ActionFlows(r, Next(p, r.dir));
    LiveFlowsAreKnown(p, base, s, c);
    RuleFlowsAreOwned(p, r);
    OwnAddsAreExact(flows, list, r.id);
    forall f | f in list ensures Known(f.entry, f.actions, c.engine.cache.Keys) {
      OwnIsKnown(f.entry, f.actions, c.engine.cache.Keys);
    }
    AddsApply(flows, list, c.engine.cache.Keys);
    LiveExcepts(p, base, s, c);
    MoreExcepts(p, s, r, flows, ApplyAll(flows, Adds(list)));
  }

  lemma UninstallsOwn(p: Pipeline, base: FlowTable, s: PlainStore, c: Client, id: RuleId)
    requires Represents(p, base, s, c) && id in s
    ensures var flows, own := c.engine.sw.flows, Deletes(c.policies[id].actionFlows);
            && WireRun(Matchers, flows, own) == ApplyAll(flows, own) && AllKnown(ApplyAll(flows, own), c.engine.cache.Keys)
            && ExceptsAre(p, s - {id}, ApplyAll(flows, own))
  {
    var flows, list := c.engine.sw.flows, c.policies[id].actionFlows;
    LiveFlowsAreKnown(p, base, s, c);
    RemovedFlows(p, base, s, c, id);
    hide Represents, ActionFlows, Known, PlainFlow, ExceptsAre;
    OwnDeletesEndAlike(flows, list, id);
    DeletesRemoveOwn(flows, list, id);
    LiveExcepts(p, base, s, c);
    FewerExcepts(p, s, id, flows, ApplyAll(flows, Deletes(list)));
  }

  /** Before a call turns to its keys, both semantics have left the same table. */
  lemma OwnCommandsEndAlike(p: Pipeline, base: FlowTable, s: PlainStore, c: Client, call: Call)
    requires Represents(p, base, s, c) && NewExceptsDiffer(p, s, call)
    ensures var flows, own := c.engine.sw.flows, OwnCommands(p, c, call);
            && WireRun(Matchers, flows, own) == ApplyAll(flows, own)
            && AllKnown(ApplyAll(flows, own), c.engine.cache.Keys)
            && ExceptsAre(p, RulesMeanwhile(s, call), ApplyAll(flows, own))
  {
    hide Represents, ActionFlows, AllKnown, RuleFlows, MeaningsDiffer, ExceptsAre, Matchers;
    var own := OwnCommands(p, c, call);
    LiveIds(p, base, s, c);
    if call.Install? && call.rule.id !in s {
      InstallsOwn(p, base, s, c, call.rule);
      assert own[..|own|] == own;
    } else if call.Uninstall? && call.id in s {
      UninstallsOwn(p, base, s, c, call.id);
    } else {
      LiveFlowsAreKnown(p, base, s, c);
      LiveExcepts(p, base, s, c);
      assert call.Uninstall? ==> s - {call.id} == s;
    }
  }

  lemma LiveIds(p: Pipeline, base: FlowTable, s: PlainStore, c: Client)
    requires Represents(p, base, s, c)
    ensures c.policies.Keys == s.Keys
  {
  }

  lemma OwnIsKnown(x: PolicyEntry, acts: set<FlowAction>, live: set<Key>)
    requires Conj(x.on).Some? && !Conjunctive(acts)
    ensures Known(x, acts, live)
  {
  }

  /** The plain rule keeps what the flows depend on. */
  lemma SameOwnFlows(p: Pipeline, r: Rule)
    ensures RuleFlows(p, r) == RuleFlows(p, Template(r.id, PlainOf(r)))
  {
  }

  lemma RemovedFlows(p: Pipeline, base: FlowTable, s: PlainStore, c: Client, id: RuleId)
    requires Represents(p, base, s, c) && id in s
    ensures var own := c.policies[id].actionFlows;
            && own == ActionFlows(Template(id, s[id]), Next(p, s[id].dir)) && OwnedBy(id, own)
            && forall x | x in c.engine.sw.flows && Conj(x.on) == Some(id) :: exists f :: f in own && SameSlot(x, f.entry)
  {
    LiveFlowsAreKnown(p, base, s, c);
    RuleFlowsAreOwned(p, Template(id, s[id]));
  }

  lemma NoneAgree(flows: FlowTable)
    ensures AgreeThroughout(Matchers, flows, [])
  {
  }

  /** Wherever the call's work on its keys is cut short, both semantics leave the same table. */
  ghost predicate KeyCommandsAgree(p: Pipeline, c: Client, call: Call) {
    AgreeThroughout(Matchers, ApplyAll(c.engine.sw.flows, OwnCommands(p, c, call)), KeyCommands(c, call))
  }

  /** The call modifies or deletes a key that covers an except of a rule that is installed meanwhile. */
  ghost predicate HitsExcept(p: Pipeline, s: PlainStore, c: Client, call: Call) {
    exists cmd, id, x: PolicyEntry ::
      && cmd in KeyCommands(c, call) && !cmd.Add?
      && id in RulesMeanwhile(s, call) && x in PlainFlow(p, RulesMeanwhile(s, call), id) && x.on.OnConjKey?
      && Reached(Matchers, cmd.flow.entry, x)
  }

  /**
   The exact condition for rules with excepts: if keys do not cover one another, the work of a call on its keys is the same
   under both semantics if and only if it modifies or deletes no key that covers an except.
   */
  lemma KeyCommandsAreExactIff(p: Pipeline, base: FlowTable, s: PlainStore, c: Client, call: Call)
    requires Represents(p, base, s, c) && WellOrdered(c, call) && NewExceptsDiffer(p, s, call)
    requires KeysApart(CallKeys(c, call), CallKeys(c, call) + c.engine.cache.Keys)
    ensures KeyCommandsAgree(p, c, call) <==> !HitsExcept(p, s, c, call)
  {
    var called := CallKeys(c, call);
    var after, cmds := ApplyAll(c.engine.sw.flows, OwnCommands(p, c, call)), KeyCommands(c, call);
    OwnCommandsEndAlike(p, base, s, c, call);
    KeyCommandsName(base, c, call);
    hide Represents, ClientInv, KeysApart, CallKeys, KeyCommands, OwnCommands, WellOrdered, Reached, Known, PlainFlow, CommandsOn, NewExceptsDiffer;
    MoreKnown(after, c.engine.cache.Keys, called + c.engine.cache.Keys);
    RunIsExactIff(Matchers, after, cmds);
    KeyRunIsExactIff(called, called + c.engine.cache.Keys, after, cmds);
    SparedIff(p, s, c, call, after);
  }

  lemma MoreKnown(flows: FlowTable, live: set<Key>, more: set<Key>)
    requires AllKnown(flows, live) && live <= more
    ensures AllKnown(flows, more)
  {
  }

  lemma SparedIff(p: Pipeline, s: PlainStore, c: Client, call: Call, after: FlowTable)
    requires ExceptsAre(p, RulesMeanwhile(s, call), after)
    ensures ExceptsSpared(after, KeyCommands(c, call)) <==> !HitsExcept(p, s, c, call)
  {
    hide KeyCommands, RulesMeanwhile, Reached, PlainFlow;
    var cmds, s' := KeyCommands(c, call), RulesMeanwhile(s, call);
    if HitsExcept(p, s, c, call) {
      var cmd, id, x: PolicyEntry :| cmd in cmds && !cmd.Add? && id in s' && x in PlainFlow(p, s', id) && x.on.OnConjKey?
                                     && Reached(Matchers, cmd.flow.entry, x);
      PlainFlowIsOwned(p, s', id, x);
      assert x in after;
    }
    if !ExceptsSpared(after, cmds) {
      var cmd, x :| cmd in cmds && !cmd.Add? && x in after && x.on.OnConjKey? && Reached(Matchers, cmd.flow.entry, x);
      var id := Conj(x.on).value;
      assert id in s' && x in PlainFlow(p, s', id);
    }
  }

  lemma PlainFlowIsOwned(p: Pipeline, s: PlainStore, id: RuleId, x: PolicyEntry)
    requires id in s && x in PlainFlow(p, s, id)
    ensures Conj(x.on) == Some(id)
  {
    hide RuleFlows;
    RuleFlowsAreOwned(p, Template(id, s[id]));
  }

  lemma {:induction false} WireRunSum(flows: FlowTable, a: seq<PolicyCommand>, b: seq<PolicyCommand>)
    ensures WireRun(Matchers, flows, a + b) == WireRun(Matchers, WireRun(Matchers, flows, a), b)
    ensures ApplyAll(flows, a + b) == ApplyAll(ApplyAll(flows, a), b)
    decreases |a|
  {
    hide Apply, WireApply, Matchers;
    if a == [] {
      assert a + b == b;
    } else {
      assert (a + b)[1..] == a[1..] + b;
      WireRunSum(Apply(flows, a[0]), a[1..], b);
      WireRunSum(WireApply(Matchers, flows, a[0]), a[1..], b);
    }
  }

  lemma EndsAlike(flows: FlowTable, own: seq<PolicyCommand>, keys: seq<PolicyCommand>)
    requires WireRun(Matchers, flows, own) == ApplyAll(flows, own)
    requires AgreeThroughout(Matchers, ApplyAll(flows, own), keys)
    ensures WireRun(Matchers, flows, own + keys) == ApplyAll(flows, own + keys)
  {
    hide WireRun, ApplyAll, Matchers;
    assert keys[..|keys|] == keys;
    WireRunSum(flows, own, keys);
  }

  /** So the whole call leaves the same table under both semantics if it hits no except. */
  lemma CallEndsAlike(p: Pipeline, base: FlowTable, s: PlainStore, c: Client, call: Call)
    requires Represents(p, base, s, c) && WellOrdered(c, call) && NewExceptsDiffer(p, s, call)
    requires KeysApart(CallKeys(c, call), CallKeys(c, call) + c.engine.cache.Keys) && !HitsExcept(p, s, c, call)
    ensures WireRun(Matchers, c.engine.sw.flows, CallCommands(p, c, call)) == ApplyAll(c.engine.sw.flows, CallCommands(p, c, call))
  {
    hide Represents, KeysApart, HitsExcept, OwnCommands, KeyCommands, CallKeys, WellOrdered, AllKnown, ExceptsAre, NewExceptsDiffer, Matchers, AgreeThroughout, WireRun, ApplyAll;
    OwnCommandsEndAlike(p, base, s, c, call);
    KeyCommandsAreExactIff(p, base, s, c, call);
    EndsAlike(c.engine.sw.flows, OwnCommands(p, c, call), KeyCommands(c, call));
  }

  /***** Rules of plain addresses *****/

  /** A key of one address, one ofport, which is a signed 32-bit number, or one service port. */
  predicate IsPoint(k: Key) {
    match (k.kind, k.value)
    case (MatchDstIP, OfAddress(IPAddress(_))) => true
    case (MatchSrcIP, OfAddress(IPAddress(_))) => true
    case (MatchDstOFPort, OfAddress(OFPortAddress(port))) => -0x8000_0000 <= port < 0x8000_0000
    case (MatchSrcOFPort, OfAddress(OFPortAddress(port))) => -0x8000_0000 <= port < 0x8000_0000
    case (MatchTCPDstPort, OfPort(_)) => true
    case (MatchUDPDstPort, OfPort(_)) => true
    case (MatchSCTPDstPort, OfPort(_)) => true
    case _ => false
  }

  function Number(k: Key): nat
    requires IsPoint(k)
  {
    match k.value
    case OfAddress(IPAddress(ip)) => ip
    case OfAddress(OFPortAddress(port)) => port % 0x1_0000_0000
    case OfPort(port) => port
    case _ => 0
  }

  /** A packet that hits `k` and has the number `other` in every field that `k` leaves open. */
  function Example(k: Key, other: nat): Packet
    requires IsPoint(k)
  {
    var n := Number(k);
    match k.kind
    case MatchDstIP => Packet(OtherIP, other, n, other, other, other, other, other, other)
    case MatchSrcIP => Packet(OtherIP, n, other, other, other, other, other, other, other)
    case MatchDstOFPort => Packet(OtherIP, other, other, other, n, other, other, other, other)
    case MatchSrcOFPort => Packet(OtherIP, other, other, n, other, other, other, other, other)
    case MatchTCPDstPort => Packet(TCP, other, other, other, other, other, n, other, other)
    case MatchUDPDstPort => Packet(UDP, other, other, other, other, other, n, other, other)
    case MatchSCTPDstPort => Packet(SCTP, other, other, other, other, other, n, other, other)
    case _ => Packet(NonIP, other, other, other, other, other, other, other, other)
  }

  lemma HitsPoint(k: Key, p: Packet)
    requires IsPoint(k)
    ensures Hits(KeyMatchers(k.kind, k.value), p) <==>
            match k.kind
            case MatchDstIP => IsIP(p.proto) && p.dst == Number(k)
            case MatchSrcIP => IsIP(p.proto) && p.src == Number(k)
            case MatchDstOFPort => IsIP(p.proto) && p.reg1 == Number(k)
            case MatchSrcOFPort => IsIP(p.proto) && p.inPort == Number(k)
            case MatchTCPDstPort => p.proto.TCP? && p.tpDst == Number(k)
            case MatchUDPDstPort => p.proto.UDP? && p.tpDst == Number(k)
            case MatchSCTPDstPort => p.proto.SCTP? && p.tpDst == Number(k)
            case _ => true
  {
    var m := KeyMatchers(k.kind, k.value);
    assert |m| == 2;
    assert Hits(m, p) <==> Hit(m[0], p) && Hit(m[1], p);
  }

  /** Keys without CIDRs never cover one another, nor the miss flow. */
  lemma PointKeysAreApart(a: Key, b: Key)
    requires IsPoint(a)
    ensures !Covers(KeyMatchers(a.kind, a.value), Matchers(OnIP))
    ensures IsPoint(b) && Covers(KeyMatchers(a.kind, a.value), KeyMatchers(b.kind, b.value)) ==> a.kind == b.kind && a.value == b.value
  {
    hide KeyMatchers, Hits;
    var n := Number(a) + 1;
    var miss := Packet(OtherIP, n, n, n, n, n, n, n, n);
    MissHits(miss);
    HitsPoint(a, miss);
    if IsPoint(b) && Covers(KeyMatchers(a.kind, a.value), KeyMatchers(b.kind, b.value)) {
      var p := Example(b, n);
      HitsPoint(b, p);
      HitsPoint(a, p);
    }
  }

  predicate PointAddress(a: Address) {
    a.IPAddress? || (a.OFPortAddress? && -0x8000_0000 <= a.port < 0x8000_0000)
  }

  /** A rule without CIDRs and excepts. */
  predicate PointRule(r: PlainRule) {
    && (r.from.Some? ==> forall a | a in r.from.value :: PointAddress(a))
    && (r.to.Some? ==> forall a | a in r.to.value :: PointAddress(a))
    && r.exceptFrom == [] && r.exceptTo == []
  }

  predicate PointCall(call: Call) {
    match call
    case Install(r) => PointRule(PlainOf(r))
    case AddAddresses(_, _, addrs) => forall a | a in addrs :: PointAddress(a)
    case _ => true
  }

  predicate PointRules(s: PlainStore) {
    forall id | id in s :: PointRule(s[id])
  }

  lemma HeldIsPoint(p: Pipeline, id: RuleId, r: PlainRule, k: Key)
    requires PointRule(r) && HeldBy(PlainConjunct(p, id, r), k).Some?
    ensures IsPoint(k)
  {
  }

  lemma HeldKeyIsHeldBy(id: RuleId, conj: Conjunct, k: Key)
    requires ConjunctOk(id, conj) && k in HeldKeys(conj)
    ensures HeldBy(conj, k).Some?
  {
    assert forall side: Side | ConjunctSide(conj, side).Some? :: ProperClause(Slot(id, side), ConjunctSide(conj, side).value);
    var side: Side :| k in Matches(ConjunctSide(conj, side));
  }

  lemma LiveKeysArePoints(p: Pipeline, base: FlowTable, s: PlainStore, c: Client)
    requires Represents(p, base, s, c) && PointRules(s)
    ensures forall k | k in c.engine.cache :: IsPoint(k)
    ensures forall id, k | id in c.policies && k in HeldKeys(c.policies[id]) :: IsPoint(k)
  {
    hide Represents, PointRule, HeldBy, PlainConjunct, HeldKeys, ConjunctOk;
    forall k | k in c.engine.cache ensures IsPoint(k) {
      var id := SomeClaim(p, base, s, c, k);
      PlainClaim(p, base, s, c, id, k);
      HeldIsPoint(p, id, s[id], k);
    }
    forall id, k | id in c.policies && k in HeldKeys(c.policies[id]) ensures IsPoint(k) {
      assert id in s && c.policies[id] == PlainConjunct(p, id, s[id]) && ConjunctOk(id, c.policies[id]) by { LiveConjunct(p, base, s, c, id); }
      HeldKeyIsHeldBy(id, c.policies[id], k);
      HeldIsPoint(p, id, s[id], k);
    }
  }

  lemma LiveConjunct(p: Pipeline, base: FlowTable, s: PlainStore, c: Client, id: RuleId)
    requires Represents(p, base, s, c) && id in c.policies
    ensures id in s && c.policies[id] == PlainConjunct(p, id, s[id]) && ConjunctOk(id, c.policies[id])
  {
  }

  lemma RuleKeysArePoints(r: Rule)
    requires PointRule(PlainOf(r))
    ensures forall k | k in RuleKeys(r) :: IsPoint(k)
  {
    forall k | k in RuleKeys(r) ensures IsPoint(k) {
      if k in SideKeys(r, From) {
        var i :| 0 <= i < |r.from.value| && k == AddressKey(RuleTable(r.dir), SrcAddress, r.from.value[i]);
        assert r.from.value[i] in PlainOf(r).from.value;
      } else if k in SideKeys(r, To) {
        var i :| 0 <= i < |r.to.value| && k == AddressKey(RuleTable(r.dir), DstAddress, r.to.value[i]);
        assert r.to.value[i] in PlainOf(r).to.value;
      }
    }
  }

  lemma CallKeysArePoints(p: Pipeline, base: FlowTable, s: PlainStore, c: Client, call: Call)
    requires Represents(p, base, s, c) && PointRules(s) && PointCall(call)
    ensures forall k | k in CallKeys(c, call) :: IsPoint(k)
  {
    LiveKeysArePoints(p, base, s, c);
    hide Represents, RuleKeys, PointRule, PointRules;
    match call {
      case Install(r) => RuleKeysArePoints(r);
      case Uninstall(_, _) =>
      case AddAddresses(id, t, addrs) =>
        var clause := CalledClause(c, id, t);
        if clause.Some? {
          var keys := AddressKeys(clause.value.ruleTable, t, addrs);
          forall k | k in keys ensures IsPoint(k) {
            var i :| 0 <= i < |keys| && keys[i] == k;
            assert addrs[i] in addrs;
          }
        }
      case DeleteAddresses(id, t, addrs) =>
        var clause := CalledClause(c, id, t);
        if clause.Some? {
          assert clause.value.matches <= HeldKeys(c.policies[id]);
        }
    }
  }

  lemma PointKeysApart(called: set<Key>, live: set<Key>)
    requires (forall k | k in called :: IsPoint(k)) && (forall k | k in live :: IsPoint(k))
    ensures KeysApart(called, live)
  {
    hide KeyMatchers, Covers, IsPoint;
    forall k | k in called ensures !Covers(KeyMatchers(k.kind, k.value), Matchers(OnIP)) {
      PointKeysAreApart(k, k);
    }
    forall k, k' | k in called && k' in live && k'.table == k.table && Covers(KeyMatchers(k.kind, k.value), KeyMatchers(k'.kind, k'.value))
      ensures k' == k
    {
      PointKeysAreApart(k, k');
    }
  }

  /** A rule without excepts has at most its conjunction action flow. */
  lemma NoExceptFlows(p: Pipeline, r: Rule)
    requires r.exceptFrom == [] && r.exceptTo == []
    ensures var flows := ActionFlows(r, Next(p, r.dir));
            && MeaningsDiffer(flows) && |flows| <= 1
            && forall f | f in flows :: f.entry.on.OnConj?
  {
  }

  lemma NoExceptIsHit(p: Pipeline, s: PlainStore, c: Client, call: Call)
    requires PointRules(s) && PointCall(call)
    ensures !HitsExcept(p, s, c, call)
  {
    var s' := RulesMeanwhile(s, call);
    forall id, x: PolicyEntry | id in s' && x in PlainFlow(p, s', id) ensures !x.on.OnConjKey? {
      NoExceptFlows(p, Template(id, s'[id]));
      RuleFlowsAreOwned(p, Template(id, s'[id]));
    }
  }

  lemma OneDeleteIsExact(p: Pipeline, base: FlowTable, s: PlainStore, c: Client, id: RuleId)
    requires Represents(p, base, s, c) && id in s && PointRule(s[id])
    ensures AgreeThroughout(Matchers, c.engine.sw.flows, Deletes(c.policies[id].actionFlows))
  {
    var flows, own := c.engine.sw.flows, c.policies[id].actionFlows;
    RemovedFlows(p, base, s, c, id);
    NoExceptFlows(p, Template(id, s[id]));
    hide Represents, Matchers, ActionFlows;
    RunIsExactIff(Matchers, flows, Deletes(own));
    if own != [] {
      assert own == [own[0]];
      assert Deletes(own) == [Delete(own[0])] + Deletes([]);
      forall x | x in flows && Reached(Matchers, own[0].entry, x) ensures x.on == own[0].entry.on {
        OwnCovers(own[0].entry.on, x.on);
      }
    }
  }

  lemma {:induction false} AllHitSum(flows: FlowTable, a: seq<PolicyCommand>, b: seq<PolicyCommand>)
    ensures AllHitTheirTargets(Matchers, flows, a + b) <==>
            AllHitTheirTargets(Matchers, flows, a) && AllHitTheirTargets(Matchers, ApplyAll(flows, a), b)
    decreases |a|
  {
    hide Apply, HitsItsTarget, Matchers;
    if a == [] {
      assert a + b == b;
    } else {
      assert (a + b)[1..] == a[1..] + b;
      AllHitSum(Apply(flows, a[0]), a[1..], b);
    }
  }

  lemma AgreeSum(flows: FlowTable, a: seq<PolicyCommand>, b: seq<PolicyCommand>)
    ensures AgreeThroughout(Matchers, flows, a + b) <==>
            AgreeThroughout(Matchers, flows, a) && AgreeThroughout(Matchers, ApplyAll(flows, a), b)
  {
    hide AgreeThroughout, AllHitTheirTargets, Matchers;
    AllHitSum(flows, a, b);
    RunIsExactIff(Matchers, flows, a + b);
    RunIsExactIff(Matchers, flows, a);
    RunIsExactIff(Matchers, ApplyAll(flows, a), b);
  }

  /**
   For rules of plain addresses, ofports and service ports without excepts, the exact reading is justified: wherever a call
   is cut short, both semantics leave the same table.
   */
  lemma PointCallIsExact(p: Pipeline, base: FlowTable, s: PlainStore, c: Client, call: Call)
    requires Represents(p, base, s, c) && WellOrdered(c, call) && PointRules(s) && PointCall(call)
    ensures AgreeThroughout(Matchers, c.engine.sw.flows, CallCommands(p, c, call))
  {
    var flows, called := c.engine.sw.flows, CallKeys(c, call);
    var own, keys := OwnCommands(p, c, call), KeyCommands(c, call);
    assert c.policies.Keys == s.Keys;
    LiveKeysArePoints(p, base, s, c);
    CallKeysArePoints(p, base, s, c, call);
    hide Represents, IsPoint, KeysApart, ActionFlows, HitsExcept, AgreeThroughout, CallKeys, KeyCommands, WellOrdered, MeaningsDiffer;
    PointKeysApart(called, called + c.engine.cache.Keys);
    NoExceptIsHit(p, s, c, call);
    if call.Install? {
      NoExceptFlows(p, call.rule);
    }
    KeyCommandsAreExactIff(p, base, s, c, call);
    if call.Install? && call.rule.id !in s {
      InstallsOwn(p, base, s, c, call.rule);
    } else if call.Uninstall? && call.id in s {
      OneDeleteIsExact(p, base, s, c, call.id);
    } else {
      NoneAgree(flows);
    }
    AgreeSum(flows, own, keys);
  }

  /***** Runs of calls *****/

  ghost function RunCommands(p: Pipeline, c: Client, calls: seq<Call>): seq<PolicyCommand>
    decreases |calls|
  {
    if calls == [] then [] else CallCommands(p, c, calls[0]) + RunCommands(p, DoCall(p, c, calls[0]).c, calls[1..])
  }

  lemma {:induction false} IssuedIsApplied(sw: PolicySwitch, cmds: seq<PolicyCommand>)
    requires Issue(sw, cmds).ok
    ensures Issue(sw, cmds).sw.flows == ApplyAll(sw.flows, cmds)
    decreases |cmds|
  {
    if cmds != [] {
      IssuedIsApplied(Exec(sw, cmds[0]), cmds[1..]);
    }
  }

  lemma PointRulesStay(s: PlainStore, call: Call)
    requires PointRules(s) && PointCall(call)
    ensures PointRules(PlainCall(s, call).s)
  {
  }

  /**
   Any number of clean calls on such rules, in any order: at every command of the run the table under the non-strict
   semantics is the table under the exact one, with which the rest of the analysis works.
   */
  lemma {:induction false} PointRunsAreExact(p: Pipeline, base: FlowTable, s: PlainStore, c: Client, calls: seq<Call>, c': Client)
    requires Represents(p, base, s, c) && Runs(p, c, calls, c') && PointRules(s) && forall call | call in calls :: PointCall(call)
    ensures AgreeThroughout(Matchers, c.engine.sw.flows, RunCommands(p, c, calls))
    ensures ApplyAll(c.engine.sw.flows, RunCommands(p, c, calls)) == c'.engine.sw.flows
    decreases |calls|
  {
    hide Represents, PointRules, DoCall, PlainCall, CallCommands, AgreeThroughout, PointCall, WellOrdered, Matchers, Issue;
    if calls == [] {
      NoneAgree(c.engine.sw.flows);
    } else {
      var call := calls[0];
      assert call in calls;
      var next := DoCall(p, c, call).c;
      PointCallIsExact(p, base, s, c, call);
      CallIssues(p, c, call);
      IssuedIsApplied(c.engine.sw, CallCommands(p, c, call));
      CallRefines(p, base, s, c, call);
      PointRulesStay(s, call);
      PointRunsAreExact(p, base, PlainCall(s, call).s, next, calls[1..], c');
      AgreeSum(c.engine.sw.flows, CallCommands(p, c, call), RunCommands(p, next, calls[1..]));
      WireRunSum(c.engine.sw.flows, CallCommands(p, c, call), RunCommands(p, next, calls[1..]));
    }
  }

  /***** Where the exact reading fails *****/

  /** The key of a CIDR on either side. */
  function NetKind(t: AddressType): MatchType {
    GetMatchKey(IPNetAddress(0, 0), t)
  }

  /** The address that a key of this side looks at. */
  function Looked(t: AddressType, pkt: Packet): nat {
    if t.SrcAddress? then pkt.src else pkt.dst
  }

  lemma NetHits(t: AddressType, net: nat, len: nat, pkt: Packet)
    requires !t.UnknownAddressType?
    ensures Hits(KeyMatchers(NetKind(t), OfAddress(IPNetAddress(net, len))), pkt) <==> IsIP(pkt.proto) && InNet(Looked(t, pkt), net, len)
  {
    AddressKeyHits(IPNetAddress(net, len), t, pkt);
  }

  /**
   The conjunctive match flow of a CIDR covers the except flows, of any rule, for the CIDRs inside it on the same side, and
   for no other CIDR.
   */
  lemma NetCoversExceptIff(t: AddressType, id: RuleId, net: nat, len: nat, inner: nat, innerLen: nat)
    requires !t.UnknownAddressType? && len <= 32 && innerLen <= 32
    ensures Covers(Matchers(OnKey(NetKind(t), OfAddress(IPNetAddress(net, len)))),
                   Matchers(OnConjKey(id, NetKind(t), OfAddress(IPNetAddress(inner, innerLen)))))
            <==> forall ip :: InNet(ip, inner, innerLen) ==> InNet(ip, net, len)
    ensures len <= innerLen && InNet(inner, net, len) ==> forall ip :: InNet(ip, inner, innerLen) ==> InNet(ip, net, len)
  {
    hide KeyMatchers, Hits, InNet;
    var kind, a, b := NetKind(t), IPNetAddress(net, len), IPNetAddress(inner, innerLen);
    assert Covers(Matchers(OnKey(kind, OfAddress(a))), Matchers(OnConjKey(id, kind, OfAddress(b)))) <==>
           Covers(KeyMatchers(kind, OfAddress(a)), KeyMatchers(kind, OfAddress(b))) by {
      if Covers(KeyMatchers(kind, OfAddress(a)), Matchers(OnConjKey(id, kind, OfAddress(b)))) {
        KeyCovers(kind, OfAddress(a), OnConjKey(id, kind, OfAddress(b)));
      }
      if Covers(KeyMatchers(kind, OfAddress(a)), KeyMatchers(kind, OfAddress(b))) {
        KeyCoversExcept(kind, OfAddress(a), id, kind, OfAddress(b));
      }
    }
    forall pkt ensures Hits(KeyMatchers(kind, OfAddress(a)), pkt) <==> IsIP(pkt.proto) && InNet(Looked(t, pkt), net, len) {
      NetHits(t, net, len, pkt);
    }
    forall pkt ensures Hits(KeyMatchers(kind, OfAddress(b)), pkt) <==> IsIP(pkt.proto) && InNet(Looked(t, pkt), inner, innerLen) {
      NetHits(t, inner, innerLen, pkt);
    }
    if Covers(KeyMatchers(kind, OfAddress(a)), KeyMatchers(kind, OfAddress(b))) {
      forall ip | InNet(ip, inner, innerLen) ensures InNet(ip, net, len) {
        var pkt := Packet(TCP, ip, ip, 0, 0, 0, 0, 0, 0);
        assert Looked(t, pkt) == ip && Hits(KeyMatchers(kind, OfAddress(b)), pkt);
      }
    }
    if len <= innerLen && InNet(inner, net, len) {
      forall ip | InNet(ip, inner, innerLen) ensures InNet(ip, net, len) {
        NestedNets(ip, net, len, inner, innerLen);
      }
    }
  }

  /** There, updating the conjunctive match flow gives the except flow the same actions, and deleting it deletes both. */
  lemma ExceptFlowLost(flows: FlowTable, table: TableId, t: AddressType, id: RuleId, net: nat, len: nat, inner: nat, innerLen: nat, acts: set<FlowAction>)
    requires !t.UnknownAddressType? && len <= innerLen <= 32 && InNet(inner, net, len)
    requires Entry(table, PRIORITY_NORMAL, OnConjKey(id, NetKind(t), OfAddress(IPNetAddress(inner, innerLen)))) in flows
    ensures var f := Flow(Entry(table, PRIORITY_NORMAL, OnKey(NetKind(t), OfAddress(IPNetAddress(net, len)))), acts);
            var x := Entry(table, PRIORITY_NORMAL, OnConjKey(id, NetKind(t), OfAddress(IPNetAddress(inner, innerLen))));
            && WireApply(Matchers, flows, Modify(f))[x] == acts && x !in WireApply(Matchers, flows, Delete(f))
            && Apply(flows, Modify(f))[x] == flows[x] && x in Apply(flows, Delete(f))
  {
    hide Matchers, InNet;
    NetCoversExceptIff(t, id, net, len, inner, innerLen);
  }

  /** A plain address and the same address as a /32 net have different keys but one meaning. */
  lemma HostIsSlash32(t: AddressType, ip: nat)
    requires !t.UnknownAddressType?
    ensures SameMeaning(KeyMatchers(GetMatchKey(IPAddress(ip), t), OfAddress(IPAddress(ip))),
                        KeyMatchers(NetKind(t), OfAddress(IPNetAddress(ip, 32))))
    ensures forall table: TableId :: AddressKey(table, t, IPAddress(ip)) != AddressKey(table, t, IPNetAddress(ip, 32))
  {
  }

  /** Every packet that hits the match is an IP packet. */
  predicate NeedsIP(m: PolicyMatch) {
    match m
    case OnKey(kind, value) => KeyMatchers(kind, value) != []
    case OnConjKey(_, kind, value) => KeyMatchers(kind, value) != []
    case _ => true
  }

  lemma NeedsIPHits(m: PolicyMatch, pkt: Packet)
    requires NeedsIP(m) && Hits(Matchers(m), pkt)
    ensures IsIP(pkt.proto)
  {
    match m {
      case OnKey(kind, value) => assert Hit(KeyMatchers(kind, value)[0], pkt);
      case OnConjKey(id, kind, value) =>
        ConjKeyHits(id, kind, value, pkt);
        assert Hit(KeyMatchers(kind, value)[0], pkt);
      case OnConj(id) => assert Hit(Matchers(m)[0], pkt);
      case OnIP => assert Hit(Matchers(m)[0], pkt);
    }
  }

  lemma HeldNeedsIP(p: Pipeline, id: RuleId, r: PlainRule, k: Key)
    requires HeldBy(PlainConjunct(p, id, r), k).Some?
    ensures KeyMatchers(k.kind, k.value) != []
  {
  }

  lemma OwnNeedsIP(r: Rule, next: TableId, f: PolicyFlow)
    requires f in ActionFlows(r, next)
    ensures NeedsIP(f.entry.on)
  {
  }

  lemma LiveFlowNeedsIP(p: Pipeline, base: FlowTable, s: PlainStore, c: Client, x: PolicyEntry)
    requires Represents(p, base, s, c) && x in c.engine.sw.flows
    ensures NeedsIP(x.on)
  {
    hide Represents, KeyMatchers, ActionFlows, HeldBy, PlainConjunct, RuleFlows;
    FlowByOwner(p, base, s, c, x);
    match OwnerOf(x) {
      case ConjOf(k) => CachedNeedsIP(p, base, s, c, k);
      case DropOf(k) => CachedNeedsIP(p, base, s, c, k);
      case RuleOf(id) =>
        RuleFlowsShape(p, Template(id, s[id]));
        OwnNeedsIP(Template(id, s[id]), Next(p, s[id].dir), Flow(x, c.engine.sw.flows[x]));
      case Nobody => BaseMisses(p, base, s, c, x);
    }
  }

  lemma CachedNeedsIP(p: Pipeline, base: FlowTable, s: PlainStore, c: Client, k: Key)
    requires Represents(p, base, s, c) && k in c.engine.cache
    ensures KeyMatchers(k.kind, k.value) != []
  {
    hide Represents, KeyMatchers, HeldBy, PlainConjunct;
    var id := SomeClaim(p, base, s, c, k);
    PlainClaim(p, base, s, c, id, k);
    HeldNeedsIP(p, id, s[id], k);
  }

  /**
   The worst case is the address 0.0.0.0/0, with which an ALLOW-ALL rule is expressed.  Its match covers every flow of the
   rule table, the miss flow included: a Modify for a second such rule gives all of them its actions, and the Delete for
   the last one leaves the table empty.
   */
  lemma WholeNetWipesTable(p: Pipeline, base: FlowTable, s: PlainStore, c: Client, dir: Direction, t: AddressType, net: nat, acts: set<FlowAction>)
    requires Represents(p, base, s, c) && !t.UnknownAddressType?
    ensures var f := Flow(ConjEntry(AddressKey(RuleTable(dir), t, IPNetAddress(net, 0))), acts);
            && (forall x | x in c.engine.sw.flows && x.table == RuleTable(dir) :: WireApply(Matchers, c.engine.sw.flows, Modify(f))[x] == acts)
            && (forall x | x in WireApply(Matchers, c.engine.sw.flows, Delete(f)) :: x.table != RuleTable(dir))
  {
    hide Represents, KeyMatchers, Hits;
    var kind, value := NetKind(t), OfAddress(IPNetAddress(net, 0));
    assert AddressKey(RuleTable(dir), t, IPNetAddress(net, 0)).kind == kind;
    forall x | x in c.engine.sw.flows ensures Covers(KeyMatchers(kind, value), Matchers(x.on)) {
      LiveFlowNeedsIP(p, base, s, c, x);
      forall pkt | Hits(Matchers(x.on), pkt) ensures Hits(KeyMatchers(kind, value), pkt) {
        NeedsIPHits(x.on, pkt);
        NetHits(t, net, 0, pkt);
      }
    }
  }
}
