/**
 Failures and sharing together.  If deleting a drop flow fails, the clause goes on holding its context.  Other rules may
 then empty that context and cache a newer one under the same key; the retry evicts the newer one by its key.
 */
module PolicyStale {
  import opened OpenFlow
  import opened OpenFlowObjects
  import opened PolicyTypes
  import opened PolicyInterleaving
  import opened PolicyInvariant
  import opened PolicyLoops
  import opened Sequences
  import opened PolicyRules
  import opened PolicyStore
  import opened PolicyFailures
  import opened PolicyObjects
  import E = PolicyEngine

  /** deleteConjunctiveMatchFlow by a clause whose context has died: there is nothing to release but the key. */
  function StaleDelete(e: E.Engine, act: Act, k: Key): E.Engine {
    var r := E.Release(E.EMPTY_CONTEXT, k, act, e.sw);
    E.Engine(if r.evict then e.cache - {k} else e.cache, r.sw)
  }

  /** The retry of such a clause is harmless if and only if no newer context is cached under its key. */
  lemma StaleDeleteIsSafeIff(h: Shares, base: FlowTable, e: E.Engine, act: Act, k: Key)
    requires Inv(h, base, e) && Tight(h, e)
    ensures Inv(h, base, StaleDelete(e, act, k)) <==> k !in e.cache
  {
    if k in e.cache {
      var id :| Claims(h, id, k);
      assert k !in StaleDelete(e, act, k).cache;
    } else {
      assert e.cache - {k} == e.cache;
      SameFlowsKeepInv(h, base, e, StaleDelete(e, act, k));
    }
  }

  /** The retry of a clause whose context has died is this very step, whatever is cached under its key. */
  method RetryStale(client: Client, clause: Clause, k: Key) returns (ok: bool)
    requires client.Valid() && clause.Holds(client) && k in clause.matches
    requires clause.matches[k].View() == E.EMPTY_CONTEXT && !client.Cached(clause.matches[k], k)
    modifies clause`matches, client`globalConjMatchFlowCache, client.contexts, client.bridge, client.bridge.counters
    ensures client.Valid() && ok && clause.matches == old(clause.matches) - {k}
    ensures client.Engine() == StaleDelete(old(client.Engine()), clause.action, k)
  {
    NothingToRelease(k, clause.action, client.bridge.View());
    client.EngineAt(k);
    ok := clause.DeleteConjunctiveMatchFlow(client, k);
  }

  lemma NothingToRelease(k: Key, act: Act, sw: PolicySwitch)
    ensures E.Release(E.EMPTY_CONTEXT, k, act, sw) == E.ReleaseResult(E.EMPTY_CONTEXT, sw, true, true)
  {
  }

  /** Between clean calls, even beside half-installed rules, no clause holds a dead context: every key it holds is cached. */
  lemma CleanCallsKeepKeysCached(base: FlowTable, c: E.Client, extra: Shares, spare: set<Key>)
    requires Aside(base, c, extra, spare)
    ensures KeysCached(c)
  {
    forall id, side: Side, k | id in c.policies && k in Matches(ConjunctSide(c.policies[id], side)) ensures k in c.engine.cache {
      HeldKeyIsClaimed(c, extra, id, side, k);
    }
  }

  /** Nor while the removal of a rule is interrupted, if its stuck keys are left alone. */
  lemma ResumableKeepsKeysCached(p: Pipeline, base: FlowTable, s: PlainStore, id: RuleId, c: E.Client)
    requires Resumable(p, base, s, id, c)
    ensures KeysCached(c)
  {
    hide Inv, Loose, Leaving, Departed, ConjunctsOk, SharesOf;
    var sh :| Leaving(id, c.policies[id], sh) && Inv(SharesOf(c.policies - {id})[id := sh], base, c.engine)
              && Loose(SharesOf(c.policies - {id})[id := sh], c.engine, HeldKeys(c.policies[id]));
    var others := E.Client(c.engine, c.policies - {id});
    AddLast(SharesOf(others.policies), id, sh);
    CleanCallsKeepKeysCached(base, others, map[id := sh], HeldKeys(c.policies[id]));
    forall i, side: Side, k | i in c.policies && k in Matches(ConjunctSide(c.policies[i], side)) ensures k in c.engine.cache {
      if i == id {
        assert k in HeldKeys(c.policies[id]);
      } else {
        assert others.policies[i] == c.policies[i];
      }
    }
  }

  lemma HeldKeyIsClaimed(c: E.Client, extra: Shares, id: RuleId, side: Side, k: Key)
    requires ConjunctsOk(c.policies) && extra.Keys !! c.policies.Keys
    requires id in c.policies && k in Matches(ConjunctSide(c.policies[id], side))
    ensures Claims(SharesOf(c.policies) + extra, id, k)
  {
  }

  /** The switch command with this number fails, and no other. */
  function FailsAt(n: nat): nat -> bool {
    i => i == n
  }

  function DenyClause(id: RuleId, matches: set<Key>): E.Clause {
    E.Clause(Act(id, 1, 1), matches, EGRESS_RULE_TABLE, Some(EGRESS_DEFAULT_TABLE))
  }

  /** The context of a key on which these DENY-ALL rules meet, with its drop flow. */
  function DenyContext(k: Key, rules: set<RuleId>): E.Context {
    E.Context(map[], rules, None, Some(DefaultDropFlow(EGRESS_DEFAULT_TABLE, k)))
  }

  function DropOnly(k: Key, present: bool, clock: nat): PolicySwitch {
    Switch(if present then map[DropEntry(EGRESS_DEFAULT_TABLE, k) := {Drop}] else map[], map[], FailsAt(1), clock)
  }

  lemma DenyAdded(k: Key, id: RuleId, present: bool, clock: nat, bare: bool)
    requires clock != 1
    ensures var e := E.Engine(if bare then map[k := DenyContext(k, {})] else map[], DropOnly(k, present, clock));
            E.AddConjunctiveMatchFlow(e, DenyClause(id, {}), k) ==
            E.ClauseResult(E.Engine(map[k := DenyContext(k, {id})], DropOnly(k, !bare || present, if bare then clock else clock + 1)),
                           DenyClause(id, {k}), true)
  {
    assert {} + {k} == {k} && {} + {id} == {id};
    if bare {
      assert map[k := DenyContext(k, {})][k := DenyContext(k, {id})] == map[k := DenyContext(k, {id})];
    } else {
      assert DropOnly(k, present, clock).flows[DropEntry(EGRESS_DEFAULT_TABLE, k) := {Drop}] == DropOnly(k, true, clock).flows;
    }
  }

  lemma DenyReleased(k: Key, id: RuleId, clock: nat)
    ensures E.Release(DenyContext(k, {id}), k, Act(id, 1, 1), DropOnly(k, true, clock)) ==
            if clock == 1 then E.ReleaseResult(DenyContext(k, {}), DropOnly(k, true, clock + 1), false, false)
            else E.ReleaseResult(E.EMPTY_CONTEXT, DropOnly(k, false, clock + 1), true, true)
    ensures forall sw :: E.Release(E.EMPTY_CONTEXT, k, Act(id, 1, 1), sw) == E.ReleaseResult(E.EMPTY_CONTEXT, sw, true, true)
  {
  }

  /** The world of the scenario: a key on which some DENY-ALL rules meet. */
  ghost predicate Stage(client: Client, k: Key, cached: Option<set<RuleId>>, present: bool, clock: nat)
    reads client, client.contexts, client.bridge, client.bridge.counters
  {
    && client.Valid()
    && client.Engine() == E.Engine(if cached.Some? then map[k := DenyContext(k, cached.value)] else map[], DropOnly(k, present, clock))
  }

  method NewStage(k: Key) returns (client: Client)
    ensures Stage(client, k, None, false, 0) && fresh(client) && fresh(client.bridge)
    ensures client.contexts == {} && client.bridge.counters == {}
  {
    var bridge := new Bridge<PolicyMatch, set<FlowAction>>(map[], FailsAt(1));
    client := new Client(bridge, Pipeline(EGRESS_RULE_TABLE, INGRESS_RULE_TABLE));
  }

  lemma JoinedView(client: Client, k: Key, context: ConjMatchFlowContext, rules: set<RuleId>, present: bool, clock: nat)
    requires Stage(client, k, Some(rules), present, clock) && client.Cached(context, k)
    ensures context in client.contexts && context.View() == DenyContext(k, rules)
  {
    client.EngineAt(k);
  }

  lemma StageKeys(client: Client, k: Key, cached: Option<set<RuleId>>, present: bool, clock: nat)
    requires Stage(client, k, cached, present, clock)
    ensures client.globalConjMatchFlowCache.Keys == if cached.Some? then {k} else {}
  {
    assert client.Engine().cache.Keys == if cached.Some? then {k} else {};
  }

  lemma StageFlows(client: Client, k: Key, cached: Option<set<RuleId>>, present: bool, clock: nat)
    requires Stage(client, k, cached, present, clock)
    ensures client.bridge.flows == DropOnly(k, present, clock).flows
  {
  }

  /** A rule claims the key, for which an emptied context or none is cached. */
  method Join(client: Client, k: Key, id: RuleId, ghost bare: bool, ghost present: bool, ghost clock: nat)
    returns (clause: Clause)
    requires Stage(client, k, if bare then Some({}) else None, present, clock) && clock != 1
    modifies client`globalConjMatchFlowCache, client`contexts, client.contexts, client.bridge, client.bridge.counters
    ensures Stage(client, k, Some({id}), !bare || present, if bare then clock else clock + 1)
    ensures fresh(clause) && clause.action == Act(id, 1, 1) && k in clause.matches && client.Cached(clause.matches[k], k)
    ensures clause.Holds(client)
    ensures old(client.contexts) <= client.contexts && fresh(client.contexts - old(client.contexts))
    ensures forall x | x in old(client.contexts) && x != clause.matches[k] :: x.View() == old(x.View())
    ensures if bare then client.globalConjMatchFlowCache == old(client.globalConjMatchFlowCache) else fresh(clause.matches[k])
  {
    hide E.AddConjunctiveMatchFlow, Client.Valid, Client.Engine, DenyContext, DropOnly;
    clause := new Clause(Act(id, 1, 1), EGRESS_RULE_TABLE, Some(EGRESS_DEFAULT_TABLE));
    DenyAdded(k, id, present, clock, bare);
    assert clause.View() == DenyClause(id, {});
    StageKeys(client, k, if bare then Some({}) else None, present, clock);
    var ok := clause.AddConjunctiveMatchFlow(client, k);
    assert clause.View() == DenyClause(id, {k});
    StageKeys(client, k, Some({id}), !bare || present, if bare then clock else clock + 1);
  }

  /** The rule deletes the key, with the context that its clause holds, which need not be the cached one. */
  method Leave(client: Client, k: Key, clause: Clause, ghost cached: Option<set<RuleId>>, ghost clock: nat)
    returns (ok: bool)
    requires Stage(client, k, cached, true, clock) && clause.Holds(client) && k in clause.matches
    requires clause.action == Act(clause.action.conj, 1, 1)
    requires clause.matches[k].View() == DenyContext(k, {clause.action.conj}) || clause.matches[k].View() == E.EMPTY_CONTEXT
    modifies clause`matches, client`globalConjMatchFlowCache, client.contexts, client.bridge, client.bridge.counters
    ensures clause.Holds(client)
    ensures forall x | x in client.contexts && x != old(clause.matches[k]) :: x.View() == old(x.View())
    ensures old(clause.matches[k].View()) == E.EMPTY_CONTEXT ==> ok && Stage(client, k, None, true, clock)
    ensures old(clause.matches[k].View()) != E.EMPTY_CONTEXT && clock != 1 ==>
              ok && Stage(client, k, None, false, clock + 1) && old(clause.matches[k]).View() == E.EMPTY_CONTEXT
    ensures old(clause.matches[k].View()) != E.EMPTY_CONTEXT && clock == 1 && old(client.Cached(clause.matches[k], k)) ==>
              !ok && Stage(client, k, Some({}), true, 2) && clause.matches == old(clause.matches) && client.Cached(clause.matches[k], k)
  {
    hide E.Release;
    DenyReleased(k, clause.action.conj, clock);
    client.EngineAt(k);
    ok := clause.DeleteConjunctiveMatchFlow(client, k);
    client.EngineAt(k);
  }

  /** Deleting the drop flow of the first rule fails; the second rule comes, goes, and empties the context for good. */
  method LeaveDeadContext(k: Key) returns (client: Client, first: Clause)
    ensures Stage(client, k, None, false, 3) && fresh(client) && fresh(client.bridge) && fresh(client.contexts) && fresh(first)
    ensures client.bridge.counters == {} && first.Holds(client) && first.action == Act(1, 1, 1) && k in first.matches
    ensures first.matches[k].View() == E.EMPTY_CONTEXT
  {
    hide Stage;
    client := NewStage(k);
    first := Join(client, k, 1, false, false, 0);
    JoinedView(client, k, first.matches[k], {1}, true, 1);
    var ok := Leave(client, k, first, Some({1}), 1);
    var second := Join(client, k, 2, true, true, 2);
    JoinedView(client, k, second.matches[k], {2}, true, 2);
    ok := Leave(client, k, second, Some({2}), 2);
  }

  /** The third rule caches a new context, and the retry of the first evicts it. */
  method EvictNewer(k: Key) returns (client: Client, third: Clause)
    ensures Stage(client, k, None, true, 4) && fresh(client) && fresh(client.bridge) && fresh(client.contexts) && fresh(third)
    ensures client.bridge.counters == {} && third.Holds(client) && third.action == Act(3, 1, 1) && k in third.matches
    ensures third.matches[k].View() == DenyContext(k, {3})
  {
    hide Stage;
    var first;
    client, first := LeaveDeadContext(k);
    third := Join(client, k, 3, false, false, 3);
    JoinedView(client, k, third.matches[k], {3}, true, 4);
    var ok := Leave(client, k, first, Some({3}), 4);
  }

  /**
   Four DENY-ALL rules meet on one address.  The first fails to delete its drop flow and keeps its context; the second
   empties that context; the third caches a new one; the retry of the first evicts it; the fourth caches yet another.  When
   the third rule leaves, the drop flow goes with it, although the fourth rule still needs it.
   */
  method StaleRetryFreesEarly(ip: nat) returns (client: Client, fourth: Clause)
    ensures var k := AddressKey(EGRESS_RULE_TABLE, SrcAddress, IPAddress(ip));
            k in fourth.matches && DropEntry(EGRESS_DEFAULT_TABLE, k) !in client.bridge.flows
  {
    hide Stage;
    var k := AddressKey(EGRESS_RULE_TABLE, SrcAddress, IPAddress(ip));
    var third;
    client, third := EvictNewer(k);
    fourth := Join(client, k, 4, false, true, 4);
    var ok := Leave(client, k, third, Some({4}), 5);
    StageFlows(client, k, None, false, 6);
  }
}
