/**
 The engine as the objects of the source, updated in place.  Contexts are shared by reference: the client's cache and the
 clauses of many rules hold the same object.  Each method does to the views of the objects what the function of module
 PolicyEngine that bears its name does to values.
 */
module PolicyObjects {
  import opened OpenFlow
  import opened OpenFlowObjects
  import opened PolicyTypes
  import opened PolicyInterleaving
  import opened PolicyLoops
  import opened Sequences
  import opened PolicyRules
  import opened PolicyStore
  import E = PolicyEngine

  type PolicyBridge = Bridge<PolicyMatch, set<FlowAction>>

  /** The builder of conjunctive match flows; the source's `Action().Conjunction` appends to it in place. */
  class PolicyFlowBuilder {
    const entry: PolicyEntry
    var actions: set<FlowAction>

    constructor (entry: PolicyEntry)
      ensures Done() == Flow(entry, {})
    {
      this.entry, actions := entry, {};
    }

    /** CopyToBuilder: everything but the actions, so the new flow names the entry of the old one. */
    constructor CopyOf(f: PolicyFlow)
      ensures Done() == Flow(f.entry, {})
    {
      this.entry, actions := f.entry, {};
    }

    function Done(): PolicyFlow
      reads this
    {
      Flow(entry, actions)
    }

    /** One conjunction action per conjunctive action, in whatever order these come. */
    method AddConjunctions(acts: set<Act>)
      modifies `actions
      ensures actions == old(actions) + Conjunctions(acts)
    {
      var rest := acts;
      while rest != {}
        invariant rest <= acts && actions == old(actions) + Conjunctions(acts - rest)
      {
        var act :| act in rest;
        actions := actions + {Conjunction(act)};
        rest := rest - {act};
      }
      assert acts - {} == acts;
    }
  }

  /** The default flow of each table of the pipeline, in whatever order the map yields them. */
  method DefaultFlows(tables: map<TableId, TableSpec>) returns (flows: seq<PolicyFlow>)
    ensures |flows| == |tables| && Elems(flows) == set t | t in tables :: DefaultFlow(t, tables[t])
  {
    flows := [];
    var rest := tables.Keys;
    while rest != {}
      invariant rest <= tables.Keys && |flows| == |tables| - |rest|
      invariant Elems(flows) == set t | t in tables && t !in rest :: DefaultFlow(t, tables[t])
    {
      var t :| t in rest;
      ElemsOfSum(flows, [DefaultFlow(t, tables[t])]);
      flows := flows + [DefaultFlow(t, tables[t])];
      rest := rest - {t};
    }
  }

  class ConjMatchFlowContext {
    const key: Key
    var actions: map<RuleId, Act>
    var denyAllRules: set<RuleId>
    var flow: Option<PolicyFlow>
    var dropFlow: Option<PolicyFlow>

    constructor (key: Key)
      ensures this.key == key && View() == E.EMPTY_CONTEXT
    {
      this.key, actions, denyAllRules, flow, dropFlow := key, map[], {}, None, None;
    }

    ghost function View(): E.Context
      reads this
    {
      E.Context(actions, denyAllRules, flow, dropFlow)
    }

    /** The conjunctive match flow exists only with actions, and each action is kept under its own rule. */
    predicate Valid()
      reads this
    {
      (actions == map[] ==> flow.None?) && forall id | id in actions :: actions[id].conj == id
    }

    method NewFlow(acts: set<Act>) returns (newFlow: PolicyFlow)
      ensures newFlow == ConjunctiveMatchFlow(key, acts)
    {
      var flowBuilder := new PolicyFlowBuilder(ConjEntry(key));
      flowBuilder.AddConjunctions(acts);
      assert {} + Conjunctions(acts) == Conjunctions(acts);
      newFlow := flowBuilder.Done();
    }

    method UpdatedFlow(acts: set<Act>) returns (newFlow: PolicyFlow)
      requires flow.Some?
      ensures newFlow == Flow(flow.value.entry, Conjunctions(acts))
    {
      var flowBuilder := new PolicyFlowBuilder.CopyOf(flow.value);
      flowBuilder.AddConjunctions(acts);
      assert {} + Conjunctions(acts) == Conjunctions(acts);
      newFlow := flowBuilder.Done();
    }

    method InstallOrUpdateFlow(bridge: PolicyBridge, acts: set<Act>) returns (ok: bool)
      requires bridge.Valid()
      modifies this`flow, bridge, bridge.counters
      ensures bridge.Valid()
      ensures var r := E.InstallOrUpdateFlow(old(View()), key, acts, old(bridge.View()));
              View() == r.ctx && bridge.View() == r.sw && ok == r.ok
    {
      if flow.None? {
        if acts == {} {
          return true;
        }
        var newFlow := NewFlow(acts);
        ok := bridge.AddFlow(newFlow);
        if ok {
          flow := Some(newFlow);
        }
      } else {
        var newFlow := UpdatedFlow(acts);
        ok := bridge.ModifyFlow(newFlow);
        if ok {
          flow := Some(newFlow);
        }
      }
    }

    method DeleteAction(bridge: PolicyBridge, conjID: RuleId) returns (ok: bool)
      requires bridge.Valid() && Valid() && conjID in actions
      modifies this`flow, this`actions, bridge, bridge.counters
      ensures bridge.Valid() && Valid()
      ensures var r := E.DeleteAction(old(View()), key, conjID, old(bridge.View()));
              View() == r.ctx && bridge.View() == r.sw && ok == r.ok
    {
      if |actions| == 1 && flow.Some? {
        ok := bridge.DeleteFlow(flow.value);
        if !ok {
          return;
        }
        flow := None;
        LastAction(actions, conjID);
      } else {
        if |actions| == 1 {
          LastAction(actions, conjID);
        } else {
          MoreActions(actions, conjID);
        }
        var left := LeftActions(conjID);
        ok := InstallOrUpdateFlow(bridge, left);
        if !ok {
          return;
        }
      }
      actions := actions - {conjID};
    }

    /** The actions that stay, collected in whatever order the map yields them. */
    method LeftActions(conjID: RuleId) returns (left: set<Act>)
      ensures left == E.LeftActions(actions, conjID)
    {
      left := {};
      var rest := actions.Keys;
      while rest != {}
        invariant rest <= actions.Keys
        invariant left == set id | id in actions && id !in rest && actions[id].conj != conjID :: actions[id]
      {
        var id :| id in rest;
        if actions[id].conj != conjID {
          left := left + {actions[id]};
        }
        rest := rest - {id};
      }
      assert forall a | a in actions.Values :: exists id :: id in actions && actions[id] == a;
    }

    method AddAction(bridge: PolicyBridge, act: Act) returns (ok: bool)
      requires bridge.Valid() && Valid()
      modifies this`flow, this`actions, bridge, bridge.counters
      ensures bridge.Valid() && Valid()
      ensures var r := E.AddAction(old(View()), key, act, old(bridge.View()));
              View() == r.ctx && bridge.View() == r.sw && ok == r.ok
    {
      if act.conj in actions {
        return true;
      }
      ok := InstallOrUpdateFlow(bridge, actions.Values + {act});
      if !ok {
        return;
      }
      actions := actions[act.conj := act];
      assert act.conj in actions;
    }

    method AddDenyAllRule(ruleID: RuleId)
      modifies this`denyAllRules
      ensures denyAllRules == old(denyAllRules) + {ruleID}
    {
      denyAllRules := denyAllRules + {ruleID};
    }

    method Claim(bridge: PolicyBridge, act: Act) returns (ok: bool)
      requires bridge.Valid() && Valid()
      modifies this, bridge, bridge.counters
      ensures bridge.Valid() && Valid()
      ensures var r := E.Claim(old(View()), key, act, old(bridge.View()));
              View() == r.ctx && bridge.View() == r.sw && ok == r.ok
    {
      if act.n > 1 {
        ok := AddAction(bridge, act);
      } else {
        AddDenyAllRule(act.conj);
        ok := true;
      }
    }

    /** What a clause does to the context it holds; afterwards `evict` says whether the context has to leave the cache. */
    method Release(bridge: PolicyBridge, act: Act) returns (ok: bool, evict: bool)
      requires bridge.Valid() && Valid()
      modifies this, bridge, bridge.counters
      ensures bridge.Valid() && Valid()
      ensures var r := E.Release(old(View()), key, act, old(bridge.View()));
              View() == r.ctx && bridge.View() == r.sw && ok == r.ok && evict == r.evict
      ensures evict ==> View() == E.EMPTY_CONTEXT
    {
      evict := false;
      if act.n > 1 {
        if act.conj in actions {
          ok := DeleteAction(bridge, act.conj);
          if !ok {
            return;
          }
        }
      } else if act.conj in denyAllRules {
        denyAllRules := denyAllRules - {act.conj};
      }
      if actions == map[] && denyAllRules == {} {
        if dropFlow.Some? {
          ok := bridge.DeleteFlow(dropFlow.value);
          if !ok {
            return;
          }
          dropFlow := None;
        }
        evict := true;
      }
      ok := true;
    }
  }

  lemma LastAction(actions: map<RuleId, Act>, id: RuleId)
    requires |actions| == 1 && id in actions && actions[id].conj == id
    ensures actions - {id} == map[] && E.LeftActions(actions, id) == {}
  {
    assert |actions.Keys - {id}| == 0;
    assert actions.Keys == {id};
  }

  lemma MoreActions(actions: map<RuleId, Act>, id: RuleId)
    requires |actions| != 1 && id in actions
    ensures actions - {id} != map[]
  {
    assert |actions.Keys - {id}| > 0;
    var other :| other in actions.Keys - {id};
    assert other in actions - {id};
  }

  lemma UpdateTwice(m: map<Key, E.Context>, k: Key, a: E.Context, b: E.Context)
    ensures m[k := a][k := b] == m[k := b]
  {
  }

  lemma UpdateThenRemove(m: map<Key, E.Context>, k: Key, a: E.Context)
    ensures m[k := a] - {k} == m - {k}
  {
  }

  /** Deleting a key of the clause is releasing the context behind it. */
  lemma DeleteUnfolds(e: E.Engine, c: E.Clause, k: Key)
    ensures E.DeleteConjunctiveMatchFlow(e, c, k) ==
      if k !in c.matches then E.ClauseResult(e, c, true)
      else
        var r := E.Release(if k in e.cache then e.cache[k] else E.EMPTY_CONTEXT, k, c.action, e.sw);
        var cache := if r.evict then e.cache - {k} else if k in e.cache then e.cache[k := r.ctx] else e.cache;
        E.ClauseResult(E.Engine(cache, r.sw), if r.ok then c.(matches := c.matches - {k}) else c, r.ok)
    ensures E.Release(E.EMPTY_CONTEXT, k, c.action, e.sw).evict
  {
  }

  lemma AddIgnoresMatches(e: E.Engine, c: E.Clause, k: Key)
    ensures E.AddConjunctiveMatchFlow(e, c, k) ==
      if k in c.matches then E.ClauseResult(e, c, true)
      else
        var r := E.AddConjunctiveMatchFlow(e, c.(matches := {}), k);
        E.ClauseResult(r.e, if r.ok then c.(matches := c.matches + {k}) else c, r.ok)
  {
  }

  lemma AddAddressUnfolds(c: E.Client, id: RuleId, t: AddressType, addrs: seq<Address>)
    ensures E.AddPolicyRuleAddress(c, id, t, addrs) ==
      if id !in c.policies then E.CallResult(c, E.ConjunctionNotFound)
      else if AddressSide(t).None? || ConjunctSide(c.policies[id], AddressSide(t).value).None? then E.CallResult(c, E.NoClause)
      else
        var side := AddressSide(t).value;
        var clause := ConjunctSide(c.policies[id], side).value;
        var r := E.AddFlows(c.engine, clause, AddressKeys(clause.ruleTable, t, addrs));
        E.CallResult(E.Client(r.e, c.policies[id := SetSide(c.policies[id], side, Some(r.clause))]),
                     if r.ok then E.NoError else E.SwitchError)
  {
  }

  lemma DeleteAddressUnfolds(c: E.Client, id: RuleId, t: AddressType, addrs: seq<Address>)
    ensures E.DeletePolicyRuleAddress(c, id, t, addrs) ==
      if id !in c.policies then E.CallResult(c, E.ConjunctionNotFound)
      else if AddressSide(t).None? || ConjunctSide(c.policies[id], AddressSide(t).value).None? then E.CallResult(c, E.NoClause)
      else
        var side := AddressSide(t).value;
        var clause := ConjunctSide(c.policies[id], side).value;
        var r := E.DeleteFlows(c.engine, clause, AddressKeys(clause.ruleTable, t, addrs));
        E.CallResult(E.Client(r.e, c.policies[id := SetSide(c.policies[id], side, Some(r.clause))]),
                     if r.ok then E.NoError else E.SwitchError)
  {
  }

  lemma AddFlowsFirst(e: E.Engine, c: E.Clause, keys: seq<Key>)
    ensures E.AddFlows(e, c, keys) ==
      if keys == [] then E.ClauseResult(e, c, true)
      else
        var r := E.AddConjunctiveMatchFlow(e, c, keys[0]);
        if r.ok then E.AddFlows(r.e, r.clause, keys[1..]) else r
  {
  }

  lemma DeleteFlowsFirst(e: E.Engine, c: E.Clause, keys: seq<Key>)
    ensures E.DeleteFlows(e, c, keys) ==
      if keys == [] then E.ClauseResult(e, c, true)
      else
        var r := E.DeleteConjunctiveMatchFlow(e, c, keys[0]);
        if r.ok then E.DeleteFlows(r.e, r.clause, keys[1..]) else r
  {
  }

  lemma {:induction false} DeleteFlowsStops(e: E.Engine, c: E.Clause, keys: seq<Key>, more: seq<Key>)
    requires !E.DeleteFlows(e, c, keys).ok
    ensures E.DeleteFlows(e, c, keys + more) == E.DeleteFlows(e, c, keys)
    decreases |keys|
  {
    hide E.DeleteConjunctiveMatchFlow;
    if keys != [] {
      assert (keys + more)[1..] == keys[1..] + more;
      var r := E.DeleteConjunctiveMatchFlow(e, c, keys[0]);
      if r.ok {
        DeleteFlowsStops(r.e, r.clause, keys[1..], more);
      }
    }
  }

  lemma {:induction false} DeleteFlowsLast(e: E.Engine, c: E.Clause, keys: seq<Key>, last: Key)
    requires E.DeleteFlows(e, c, keys).ok
    ensures E.DeleteFlows(e, c, keys + [last])
            == E.DeleteConjunctiveMatchFlow(E.DeleteFlows(e, c, keys).e, E.DeleteFlows(e, c, keys).clause, last)
    decreases |keys|
  {
    hide E.DeleteConjunctiveMatchFlow;
    if keys == [] {
      assert [] + [last] == [last] && [last][1..] == [];
      DeleteFlowsFirst(e, c, [last]);
    } else {
      assert (keys + [last])[1..] == keys[1..] + [last];
      var r := E.DeleteConjunctiveMatchFlow(e, c, keys[0]);
      DeleteFlowsLast(r.e, r.clause, keys[1..], last);
    }
  }

  lemma FindIgnoresMatches(e: E.Engine, c: E.Clause, k: Key)
    ensures E.FindOrCreate(e, c.(matches := {}), k) == E.FindOrCreate(e, c, k)
  {
  }

  /** The two halves of addConjunctiveMatchFlow. */
  lemma AddUnfolds(e: E.Engine, c: E.Clause, k: Key)
    ensures E.AddConjunctiveMatchFlow(e, c, k) ==
      if k in c.matches then E.ClauseResult(e, c, true)
      else
        var (found, sw) := E.FindOrCreate(e, c, k);
        if found.None? then E.ClauseResult(E.Engine(e.cache, sw), c, false)
        else
          var r := E.Claim(found.value, k, c.action, sw);
          E.ClauseResult(E.Engine(e.cache[k := r.ctx], r.sw), if r.ok then c.(matches := c.matches + {k}) else c, r.ok)
  {
  }

  class Clause {
    const action: Act
    const ruleTable: TableId
    const dropTable: Option<TableId>
    var matches: map<Key, ConjMatchFlowContext>

    constructor (action: Act, ruleTable: TableId, dropTable: Option<TableId>)
      ensures View() == E.Clause(action, {}, ruleTable, dropTable) && matches == map[]
    {
      this.action, this.ruleTable, this.dropTable, matches := action, ruleTable, dropTable, map[];
    }

    lemma NothingHeld(client: Client)
      requires matches == map[]
      ensures Held(client) && Linked(client)
    {
    }

    ghost function View(): E.Clause
      reads this
    {
      E.Clause(action, matches.Keys, ruleTable, dropTable)
    }

    /**
     A key of the clause leads to the context that the client has cached for it; if the client has none any more, nothing
     is left in the context that the clause holds.
     */
    ghost predicate Linked(client: Client)
      reads this, client`globalConjMatchFlowCache, client`contexts, client.contexts
    {
      forall k | k in matches ::
        && matches[k] in client.contexts && matches[k].key == k
        && if k in client.globalConjMatchFlowCache then matches[k] == client.globalConjMatchFlowCache[k]
           else matches[k].View() == E.EMPTY_CONTEXT
    }

    /** Every key of the clause is cached, as it is while no command fails. */
    ghost predicate Held(client: Client)
      reads this, client`globalConjMatchFlowCache
    {
      forall k | k in matches :: k in client.globalConjMatchFlowCache && matches[k] == client.globalConjMatchFlowCache[k]
    }

    method AddConjunctiveMatchFlow(client: Client, k: Key) returns (ok: bool)
      requires client.Valid()
      modifies `matches, client`globalConjMatchFlowCache, client`contexts, client.contexts, client.bridge, client.bridge.counters
      ensures client.Valid()
      ensures var r := E.AddConjunctiveMatchFlow(old(client.Engine()), old(View()), k);
              client.Engine() == r.e && View() == r.clause && ok == r.ok
      ensures client.Extends(old(client.contexts), old(client.globalConjMatchFlowCache))
      ensures (old(Linked(client)) ==> Linked(client)) && (old(Held(client)) ==> Held(client))
      ensures fresh(client.contexts - old(client.contexts))
      ensures forall x | x in old(client.contexts) && !client.Cached(x, x.key) :: x.View() == old(x.View())
      ensures k in client.globalConjMatchFlowCache && k !in old(client.globalConjMatchFlowCache) ==>
                fresh(client.globalConjMatchFlowCache[k])
    {
      hide E.AddConjunctiveMatchFlow;
      AddIgnoresMatches(client.Engine(), View(), k);
      if k in matches {
        return true;
      }
      var context;
      context, ok := client.FindAndClaim(this, k);
      if ok {
        matches := matches[k := context];
        assert matches.Keys == old(matches.Keys) + {k};
      }
    }

    /** The clause holds contexts of the client under their keys; a context may have left the cache. */
    ghost predicate Holds(client: Client)
      reads this, client`contexts, client.contexts
    {
      forall k | k in matches :: matches[k] in client.contexts && matches[k].key == k
    }

    lemma LinkedHolds(client: Client)
      requires Linked(client)
      ensures Holds(client)
    {
    }

    /**
     The context that the clause holds is released; if nothing is left in it, its key leaves the client's cache, whatever is
     cached there.
     */
    method DeleteConjunctiveMatchFlow(client: Client, k: Key) returns (ok: bool)
      requires client.Valid() && Holds(client)
      modifies `matches, client`globalConjMatchFlowCache, client.contexts, client.bridge, client.bridge.counters
      ensures client.Valid() && Holds(client)
      ensures k !in old(matches) ==> ok && matches == old(matches) && client.Engine() == old(client.Engine())
      ensures forall x | x in client.contexts && !(k in old(matches) && x == old(matches)[k]) :: x.View() == old(x.View())
      ensures k in old(matches) ==>
                var r := E.Release(old(matches[k].View()), k, action, old(client.bridge.View()));
                && ok == r.ok && old(matches[k]).View() == r.ctx && client.Engine().sw == r.sw
                && matches == (if ok then old(matches) - {k} else old(matches))
                && client.Engine().cache == (if r.evict then old(client.Engine()).cache - {k}
                                             else if old(client.Cached(matches[k], k)) then old(client.Engine()).cache[k := r.ctx]
                                             else old(client.Engine()).cache)
                && client.globalConjMatchFlowCache
                   == (if r.evict then old(client.globalConjMatchFlowCache) - {k} else old(client.globalConjMatchFlowCache))
      ensures old(Linked(client)) ==>
                var r := E.DeleteConjunctiveMatchFlow(old(client.Engine()), old(View()), k);
                && client.Engine() == r.e && View() == r.clause && ok == r.ok
                && Linked(client) && client.Settled(old(client.globalConjMatchFlowCache), old(client.Dead()))
    {
      if k !in matches {
        return true;
      }
      ok := DeleteHeld(client, k);
    }

    method DeleteHeld(client: Client, k: Key) returns (ok: bool)
      requires client.Valid() && Holds(client) && k in matches
      modifies `matches, client`globalConjMatchFlowCache, matches[k], client.bridge, client.bridge.counters
      ensures client.Valid() && Holds(client)
      ensures var r := E.Release(old(matches[k].View()), k, action, old(client.bridge.View()));
              && ok == r.ok && old(matches[k]).View() == r.ctx && client.Engine().sw == r.sw
              && matches == (if ok then old(matches) - {k} else old(matches))
              && client.Engine().cache == (if r.evict then old(client.Engine()).cache - {k}
                                           else if old(client.Cached(matches[k], k)) then old(client.Engine()).cache[k := r.ctx]
                                           else old(client.Engine()).cache)
              && client.globalConjMatchFlowCache
                 == (if r.evict then old(client.globalConjMatchFlowCache) - {k} else old(client.globalConjMatchFlowCache))
      ensures old(Linked(client)) ==>
                var r := E.DeleteConjunctiveMatchFlow(old(client.Engine()), old(View()), k);
                && client.Engine() == r.e && View() == r.clause && ok == r.ok
                && Linked(client) && client.Settled(old(client.globalConjMatchFlowCache), old(client.Dead()))
    {
      hide E.DeleteConjunctiveMatchFlow, E.Release, Client.Engine, Client.Settled, Client.Dead, ConjMatchFlowContext.Valid;
      client.EngineAt(k);
      DeleteUnfolds(client.Engine(), View(), k);
      ok := client.Release(matches[k], action);
      if old(Linked(client)) {
        StaysLinked(client);
      }
      if ok {
        matches := matches - {k};
      }
    }

    twostate lemma StaysLinked(client: Client)
      requires old(client.Valid()) && client.Valid() && old(Linked(client)) && matches == old(matches)
      requires client.contexts == old(client.contexts) && client.Settled(old(client.globalConjMatchFlowCache), old(client.Dead()))
      ensures Linked(client)
    {
      forall k | k in matches && k !in client.globalConjMatchFlowCache ensures matches[k].View() == E.EMPTY_CONTEXT {
        if k !in old(client.globalConjMatchFlowCache) {
          assert matches[k] in old(client.Dead());
        } else {
          assert old(client.globalConjMatchFlowCache)[k] in client.Dead();
        }
      }
    }

    /** Translates the addresses to conjunctive matches one by one and stops at the first failure. */
    method AddAddrFlows(client: Client, t: AddressType, addresses: seq<Address>) returns (ok: bool)
      requires client.Valid()
      modifies `matches, client`globalConjMatchFlowCache, client`contexts, client.contexts, client.bridge, client.bridge.counters
      ensures client.Valid()
      ensures var r := E.AddFlows(old(client.Engine()), old(View()), AddressKeys(ruleTable, t, addresses));
              client.Engine() == r.e && View() == r.clause && ok == r.ok
      ensures client.Extends(old(client.contexts), old(client.globalConjMatchFlowCache))
      ensures (old(Linked(client)) ==> Linked(client)) && (old(Held(client)) ==> Held(client))
      ensures fresh(client.contexts - old(client.contexts))
    {
      hide E.AddConjunctiveMatchFlow, E.AddFlows, Client.Engine, Client.Valid, Linked, Held;
      ghost var keys := AddressKeys(ruleTable, t, addresses);
      ghost var all := E.AddFlows(client.Engine(), View(), keys);
      for i := 0 to |addresses|
        invariant client.Valid()
        invariant all == E.AddFlows(client.Engine(), View(), keys[i..])
        invariant client.Extends(old(client.contexts), old(client.globalConjMatchFlowCache))
        invariant fresh(client.contexts - old(client.contexts))
        invariant (old(Linked(client)) ==> Linked(client)) && (old(Held(client)) ==> Held(client))
      {
        AddFlowsFirst(client.Engine(), View(), keys[i..]);
        ok := AddConjunctiveMatchFlow(client, AddressKey(ruleTable, t, addresses[i]));
        if !ok {
          return;
        }
      }
      AddFlowsFirst(client.Engine(), View(), []);
      ok := true;
    }

    method AddServiceFlows(client: Client, ports: seq<ServicePort>) returns (ok: bool)
      requires client.Valid()
      modifies `matches, client`globalConjMatchFlowCache, client`contexts, client.contexts, client.bridge, client.bridge.counters
      ensures client.Valid()
      ensures var r := E.AddFlows(old(client.Engine()), old(View()), PortKeys(ruleTable, ports));
              client.Engine() == r.e && View() == r.clause && ok == r.ok
      ensures client.Extends(old(client.contexts), old(client.globalConjMatchFlowCache))
      ensures (old(Linked(client)) ==> Linked(client)) && (old(Held(client)) ==> Held(client))
      ensures fresh(client.contexts - old(client.contexts))
    {
      hide E.AddConjunctiveMatchFlow, E.AddFlows, Client.Engine, Client.Valid, Linked, Held;
      ghost var keys := PortKeys(ruleTable, ports);
      ghost var all := E.AddFlows(client.Engine(), View(), keys);
      for i := 0 to |ports|
        invariant client.Valid()
        invariant all == E.AddFlows(client.Engine(), View(), keys[i..])
        invariant client.Extends(old(client.contexts), old(client.globalConjMatchFlowCache))
        invariant fresh(client.contexts - old(client.contexts))
        invariant (old(Linked(client)) ==> Linked(client)) && (old(Held(client)) ==> Held(client))
      {
        AddFlowsFirst(client.Engine(), View(), keys[i..]);
        ok := AddConjunctiveMatchFlow(client, PortKey(ruleTable, ports[i]));
        if !ok {
          return;
        }
      }
      AddFlowsFirst(client.Engine(), View(), []);
      ok := true;
    }

    method DeleteAddrFlows(client: Client, t: AddressType, addresses: seq<Address>) returns (ok: bool)
      requires client.Valid() && Linked(client)
      modifies `matches, client`globalConjMatchFlowCache, client.contexts, client.bridge, client.bridge.counters
      ensures client.Valid() && Linked(client) && client.Settled(old(client.globalConjMatchFlowCache), old(client.Dead()))
      ensures var r := E.DeleteFlows(old(client.Engine()), old(View()), AddressKeys(ruleTable, t, addresses));
              client.Engine() == r.e && View() == r.clause && ok == r.ok
    {
      hide E.DeleteConjunctiveMatchFlow, E.DeleteFlows, Client.Engine, Client.Valid, Client.Settled, Client.Dead, Linked, Holds;
      ghost var keys := AddressKeys(ruleTable, t, addresses);
      ghost var all := E.DeleteFlows(client.Engine(), View(), keys);
      ghost var cache0, dead0 := client.globalConjMatchFlowCache, client.Dead();
      client.SettledAtFirst();
      for i := 0 to |addresses|
        invariant client.Valid() && Linked(client) && client.Settled(cache0, dead0)
        invariant all == E.DeleteFlows(client.Engine(), View(), keys[i..])
      {
        DeleteFlowsFirst(client.Engine(), View(), keys[i..]);
        client.SettledSoFar(cache0, dead0);
        ghost var cache1, dead1 := client.globalConjMatchFlowCache, client.Dead();
        LinkedHolds(client);
        ok := DeleteConjunctiveMatchFlow(client, AddressKey(ruleTable, t, addresses[i]));
        client.SettledFurther(cache0, dead0, cache1, dead1);
        if !ok {
          return;
        }
      }
      DeleteFlowsFirst(client.Engine(), View(), []);
      ok := true;
    }

    /** Meets every key of the clause in some order, up to the first failure. */
    method DeleteAllMatches(client: Client) returns (ok: bool, ghost order: seq<Key>)
      requires client.Valid() && Linked(client)
      modifies `matches, client`globalConjMatchFlowCache, client.contexts, client.bridge, client.bridge.counters
      ensures client.Valid() && Linked(client) && client.Settled(old(client.globalConjMatchFlowCache), old(client.Dead()))
      ensures Elems(order) == old(View()).matches
      ensures var r := E.DeleteFlows(old(client.Engine()), old(View()), order);
              client.Engine() == r.e && View() == r.clause && ok == r.ok
    {
      hide E.DeleteConjunctiveMatchFlow, E.DeleteFlows, Client.Engine, Client.Valid, Client.Settled, Client.Dead, Linked, Holds, Elems;
      ElemsOfNone<Key>();
      ghost var e, c := client.Engine(), View();
      var rest := matches.Keys;
      order := [];
      DeleteFlowsFirst(e, c, []);
      ghost var cache0, dead0 := client.globalConjMatchFlowCache, client.Dead();
      client.SettledAtFirst();
      while rest != {}
        invariant client.Valid() && Linked(client) && client.Settled(cache0, dead0)
        invariant Elems(order) !! rest && Elems(order) + rest == c.matches
        invariant E.DeleteFlows(e, c, order) == E.ClauseResult(client.Engine(), View(), true)
      {
        var key :| key in rest;
        rest := rest - {key};
        DeleteFlowsLast(e, c, order, key);
        ElemsOfSum(order, [key]);
        order := order + [key];
        client.SettledSoFar(cache0, dead0);
        ghost var cache1, dead1 := client.globalConjMatchFlowCache, client.Dead();
        LinkedHolds(client);
        ok := DeleteConjunctiveMatchFlow(client, key);
        client.SettledFurther(cache0, dead0, cache1, dead1);
        if !ok {
          ghost var others := Enumeration(rest);
          DeleteFlowsStops(e, c, order, others);
          ElemsOfSum(order, others);
          order := order + others;
          return;
        }
      }
      ok := true;
    }
  }

  /** Every key that a rule holds is cached. */
  predicate KeysCached(c: E.Client) {
    forall id, side: Side | id in c.policies :: forall k | k in Matches(ConjunctSide(c.policies[id], side)) :: k in c.engine.cache
  }

  class PolicyRuleConjunction {
    const id: RuleId
    var fromClause: Clause?
    var toClause: Clause?
    var serviceClause: Clause?
    var actionFlows: seq<PolicyFlow>

    constructor (id: RuleId)
      ensures View() == E.Conjunct(id, None, None, None, [])
    {
      this.id, fromClause, toClause, serviceClause, actionFlows := id, null, null, null, [];
    }

    function At(side: Side): Clause?
      reads this
    {
      match side
      case From => fromClause
      case To => toClause
      case Service => serviceClause
    }

    method GetAddressClause(t: AddressType) returns (clause: Clause?)
      ensures clause == if AddressSide(t).Some? then At(AddressSide(t).value) else null
    {
      match t {
        case SrcAddress => clause := fromClause;
        case DstAddress => clause := toClause;
        case UnknownAddressType => clause := null;
      }
    }

    ghost function View(): E.Conjunct
      reads this, fromClause, toClause, serviceClause
    {
      E.Conjunct(id, SideView(fromClause), SideView(toClause), SideView(serviceClause), actionFlows)
    }

    lemma OwnsMore(clauses: set<Clause>, more: set<Clause>)
      requires Owns(clauses) && clauses <= more
      ensures Owns(more)
      ensures forall side: Side :: At(side) != null ==> At(side) in more
    {
    }

    ghost function Own(): set<Clause>
      reads this
    {
      (if fromClause == null then {} else {fromClause})
      + (if toClause == null then {} else {toClause})
      + (if serviceClause == null then {} else {serviceClause})
    }

    /** The clauses belong to this rule, and no two of them are the same object. */
    predicate Owns(clauses: set<Clause>)
      reads this
    {
      && (fromClause != null ==> fromClause in clauses && fromClause.action.conj == id)
      && (toClause != null ==> toClause in clauses && toClause.action.conj == id)
      && (serviceClause != null ==> serviceClause in clauses && serviceClause.action.conj == id)
      && (fromClause != null ==> fromClause != toClause && fromClause != serviceClause)
      && (toClause != null ==> toClause != serviceClause)
    }
  }

  ghost function SideView(c: Clause?): Option<E.Clause>
    reads c
  {
    if c == null then None else Some(c.View())
  }

  class Client {
    const bridge: PolicyBridge
    const pipeline: Pipeline
    var globalConjMatchFlowCache: map<Key, ConjMatchFlowContext>
    var policyCache: map<RuleId, PolicyRuleConjunction>
    /** Every context that was ever cached, and the conjunctions and clauses behind the policy cache. */
    ghost var contexts: set<ConjMatchFlowContext>
    ghost var conjuncts: set<PolicyRuleConjunction>
    ghost var clauses: set<Clause>

    constructor (bridge: PolicyBridge, pipeline: Pipeline)
      requires bridge.Valid()
      ensures PolicyValid() && this.bridge == bridge && this.pipeline == pipeline && contexts == {}
      ensures View() == E.Client(E.Engine(map[], bridge.View()), map[])
    {
      this.bridge, this.pipeline, globalConjMatchFlowCache, policyCache := bridge, pipeline, map[], map[];
      contexts, conjuncts, clauses := {}, {}, {};
    }

    ghost predicate PolicyValid()
      reads this, contexts, bridge, bridge.counters, conjuncts, clauses
    {
      && Valid()
      && (forall id | id in policyCache ::
            && policyCache[id] in conjuncts && policyCache[id].id == id && policyCache[id].Owns(clauses)
            && forall side: Side ::
                 policyCache[id].At(side) != null ==>
                   policyCache[id].At(side) in clauses && policyCache[id].At(side).Linked(this))
    }

    ghost function Policies(): map<RuleId, E.Conjunct>
      requires PolicyValid()
      reads this, contexts, bridge, bridge.counters, conjuncts, clauses
    {
      map id | id in policyCache :: policyCache[id].View()
    }

    ghost function View(): E.Client
      requires PolicyValid()
      reads this, contexts, bridge, bridge.counters, conjuncts, clauses
    {
      E.Client(Engine(), Policies())
    }

    ghost predicate Valid()
      reads `globalConjMatchFlowCache, `contexts, contexts, bridge, bridge.counters
    {
      && bridge.Valid()
      && (forall x | x in contexts :: x.Valid())
      && (forall k | k in globalConjMatchFlowCache ::
            globalConjMatchFlowCache[k] in contexts && globalConjMatchFlowCache[k].key == k)
    }

    ghost function Engine(): E.Engine
      requires Valid()
      reads `globalConjMatchFlowCache, `contexts, contexts, bridge, bridge.counters
    {
      E.Engine(map k | k in globalConjMatchFlowCache :: globalConjMatchFlowCache[k].View(), bridge.View())
    }

    lemma EngineAt(k: Key)
      requires Valid()
      ensures Look(Engine().cache, k) == if k in globalConjMatchFlowCache then Some(globalConjMatchFlowCache[k].View()) else None
      ensures Engine().sw == bridge.View()
    {
    }

    /** The context behind a key; a new one comes with the drop flow that the clause asks for. */
    method FindOrCreate(c: Clause, k: Key) returns (context: ConjMatchFlowContext?)
      requires Valid()
      modifies `globalConjMatchFlowCache, `contexts, bridge, bridge.counters
      ensures Valid()
      ensures var (found, sw) := E.FindOrCreate(old(Engine()), c.View(), k);
              && (found.None? ==> context == null && Engine() == E.Engine(old(Engine()).cache, sw))
              && (found.Some? ==> context != null && Cached(context, k) && context.View() == found.value
                                  && Engine() == E.Engine(old(Engine()).cache[k := found.value], sw))
      ensures Extends(old(contexts), old(globalConjMatchFlowCache)) && fresh(contexts - old(contexts))
      ensures forall k' | k' in globalConjMatchFlowCache ::
                k' in old(globalConjMatchFlowCache) || (k' == k && fresh(globalConjMatchFlowCache[k']))
    {
      if k in globalConjMatchFlowCache {
        context := globalConjMatchFlowCache[k];
        assert Engine().cache[k] == context.View();
        OneContextChanged(Engine().cache, context);
        return;
      }
      var ok;
      context, ok := NewContext(c, k);
      if ok {
        Store(context);
      } else {
        context := null;
      }
    }

    method NewContext(c: Clause, k: Key) returns (context: ConjMatchFlowContext, ok: bool)
      requires Valid() && k !in globalConjMatchFlowCache
      modifies bridge, bridge.counters
      ensures Valid() && fresh(context) && context.key == k && context.Valid()
      ensures var (found, sw) := E.FindOrCreate(old(Engine()), c.View(), k);
              && Engine() == E.Engine(old(Engine()).cache, sw)
              && (if ok then found == Some(context.View()) else found.None?)
    {
      ghost var cached := Engine().cache;
      ok := true;
      context := new ConjMatchFlowContext(k);
      if c.dropTable.Some? {
        var dropFlow := DefaultDropFlow(c.dropTable.value, k);
        ok := bridge.AddFlow(dropFlow);
        if ok {
          context.dropFlow := Some(dropFlow);
        }
      }
      NoContextChanged(cached);
    }

    method Store(context: ConjMatchFlowContext)
      requires Valid() && context.Valid()
      modifies `globalConjMatchFlowCache, `contexts
      ensures Valid() && contexts == old(contexts) + {context}
      ensures globalConjMatchFlowCache == old(globalConjMatchFlowCache)[context.key := context]
      ensures Engine() == old(Engine()).(cache := old(Engine()).cache[context.key := context.View()])
    {
      ghost var cached := Engine().cache;
      globalConjMatchFlowCache := globalConjMatchFlowCache[context.key := context];
      contexts := contexts + {context};
      OneContextChanged(cached, context);
    }

    /** The cache has grown, and no cached context was replaced by another object. */
    ghost predicate Extends(contexts0: set<ConjMatchFlowContext>, cache0: map<Key, ConjMatchFlowContext>)
      reads this
    {
      && contexts0 <= contexts
      && forall k | k in cache0 :: k in globalConjMatchFlowCache && globalConjMatchFlowCache[k] == cache0[k]
    }

    /** The contexts that have left the cache with nothing left in them. */
    ghost function Dead(): set<ConjMatchFlowContext>
      reads `globalConjMatchFlowCache, `contexts, contexts
    {
      set x | x in contexts && x.View() == E.EMPTY_CONTEXT && x.key !in globalConjMatchFlowCache
    }

    /** Since the cache was `cache0`, contexts have only left it, all of them dead, and those of `dead0` still are. */
    ghost predicate Settled(cache0: map<Key, ConjMatchFlowContext>, dead0: set<ConjMatchFlowContext>)
      reads `globalConjMatchFlowCache, `contexts, contexts
    {
      && (forall k | k in globalConjMatchFlowCache :: k in cache0 && globalConjMatchFlowCache[k] == cache0[k])
      && (forall k | k in cache0 && k !in globalConjMatchFlowCache :: cache0[k] in Dead())
      && dead0 <= Dead()
    }

    lemma SettledAtFirst()
      ensures Settled(globalConjMatchFlowCache, Dead())
    {
    }

    lemma SettledFurther(cache0: map<Key, ConjMatchFlowContext>, dead0: set<ConjMatchFlowContext>,
                         cache1: map<Key, ConjMatchFlowContext>, dead1: set<ConjMatchFlowContext>)
      requires Settled(cache1, dead1) && dead0 <= dead1
      requires forall k | k in cache1 :: k in cache0 && cache1[k] == cache0[k]
      requires forall k | k in cache0 && k !in cache1 :: cache0[k] in dead1
      ensures Settled(cache0, dead0)
    {
    }

    /** What SettledFurther needs to know of the state between two steps. */
    lemma SettledSoFar(cache0: map<Key, ConjMatchFlowContext>, dead0: set<ConjMatchFlowContext>)
      requires Settled(cache0, dead0)
      ensures dead0 <= Dead()
      ensures forall k | k in globalConjMatchFlowCache :: k in cache0 && globalConjMatchFlowCache[k] == cache0[k]
      ensures forall k | k in cache0 && k !in globalConjMatchFlowCache :: cache0[k] in Dead()
    {
    }

    /**
     The part of deleteConjunctiveMatchFlow that runs under the lock.  It works on the context that the clause holds, but
     takes the key out of the cache whatever context is cached there.
     */
    method Release(context: ConjMatchFlowContext, act: Act) returns (ok: bool)
      requires Valid() && context in contexts
      modifies `globalConjMatchFlowCache, context, bridge, bridge.counters
      ensures Valid()
      ensures var r := E.Release(old(context.View()), context.key, act, old(bridge.View()));
              && context.View() == r.ctx && Engine().sw == bridge.View() == r.sw && ok == r.ok
              && globalConjMatchFlowCache
                 == (if r.evict then old(globalConjMatchFlowCache) - {context.key} else old(globalConjMatchFlowCache))
              && (r.evict ==> context.View() == E.EMPTY_CONTEXT)
              && Engine().cache == if r.evict then old(Engine()).cache - {context.key}
                                   else if old(Cached(context, context.key)) then old(Engine()).cache[context.key := r.ctx]
                                   else old(Engine()).cache
      ensures (if context.key in old(globalConjMatchFlowCache) then old(Cached(context, context.key))
               else old(context.View()) == E.EMPTY_CONTEXT && E.Release(E.EMPTY_CONTEXT, context.key, act, old(bridge.View())).evict)
              ==> Settled(old(globalConjMatchFlowCache), old(Dead()))
    {
      hide E.Release, Bridge.View, Bridge.Valid, ConjMatchFlowContext.Valid, Settled, Dead;
      ghost var cached := Engine().cache;
      var evict;
      ok, evict := context.Release(bridge, act);
      if Cached(context, context.key) {
        OneContextChanged(cached, context);
      } else {
        NoContextChanged(cached);
      }
      if evict {
        Evict(context.key);
        UpdateThenRemove(cached, context.key, context.View());
      }
      if old(Cached(context, context.key)) || (context.key !in old(globalConjMatchFlowCache) && Gone(context)) {
        ReleasedSettles(context);
      }
    }

    /** Nothing is left in the context, and no context is cached under its key. */
    ghost predicate Gone(context: ConjMatchFlowContext)
      reads this, context
    {
      context.key !in globalConjMatchFlowCache && context.View() == E.EMPTY_CONTEXT
    }

    /** Releasing the cached context, or one that is gone, settles the cache. */
    twostate lemma ReleasedSettles(context: ConjMatchFlowContext)
      requires old(Valid()) && Valid() && contexts == old(contexts) && context in contexts
      requires forall x | x in contexts && x != context :: x.View() == old(x.View())
      requires || globalConjMatchFlowCache == old(globalConjMatchFlowCache)
               || (globalConjMatchFlowCache == old(globalConjMatchFlowCache) - {context.key} && Gone(context))
      requires old(Cached(context, context.key)) || (context.key !in old(globalConjMatchFlowCache) && Gone(context))
      ensures Settled(old(globalConjMatchFlowCache), old(Dead()))
    {
    }

    method Evict(k: Key)
      requires Valid()
      modifies `globalConjMatchFlowCache
      ensures Valid() && globalConjMatchFlowCache == old(globalConjMatchFlowCache) - {k}
      ensures Engine() == old(Engine()).(cache := old(Engine()).cache - {k})
    {
      ghost var cached := Engine().cache - {k};
      globalConjMatchFlowCache := globalConjMatchFlowCache - {k};
      NoContextChanged(cached);
    }

    /** The part of addConjunctiveMatchFlow that runs under the lock. */
    method FindAndClaim(c: Clause, k: Key) returns (context: ConjMatchFlowContext?, ok: bool)
      requires Valid()
      modifies `globalConjMatchFlowCache, `contexts, contexts, bridge, bridge.counters
      ensures Valid()
      ensures var r := E.AddConjunctiveMatchFlow(old(Engine()), c.View().(matches := {}), k);
              Engine() == r.e && ok == r.ok
      ensures ok ==> context != null && Cached(context, k)
      ensures Extends(old(contexts), old(globalConjMatchFlowCache)) && fresh(contexts - old(contexts))
      ensures forall k' | k' in globalConjMatchFlowCache ::
                k' in old(globalConjMatchFlowCache) || (k' == k && fresh(globalConjMatchFlowCache[k']))
      ensures forall x | x in old(contexts) && !Cached(x, x.key) :: x.View() == old(x.View())
    {
      hide E.FindOrCreate, E.Claim, E.AddConjunctiveMatchFlow;
      ghost var e, v := Engine(), c.View().(matches := {});
      AddUnfolds(e, v, k);
      context := FindOrCreate(c, k);
      ghost var f := E.FindOrCreate(e, v, k);
      assert f == E.FindOrCreate(e, c.View(), k) by { FindIgnoresMatches(e, c.View(), k); }
      if context == null {
        ok := false;
        return;
      }
      ok := Claim(context, c.action);
      UpdateTwice(e.cache, k, f.0.value, E.Claim(f.0.value, k, c.action, f.1).ctx);
    }

    ghost predicate Cached(context: ConjMatchFlowContext, k: Key)
      reads this
    {
      context.key == k && k in globalConjMatchFlowCache && globalConjMatchFlowCache[k] == context
    }

    method Claim(context: ConjMatchFlowContext, act: Act) returns (ok: bool)
      requires Valid() && Cached(context, context.key)
      modifies context, bridge, bridge.counters
      ensures Valid()
      ensures var r := E.Claim(old(context.View()), context.key, act, old(bridge.View()));
              && Engine() == E.Engine(old(Engine()).cache[context.key := r.ctx], r.sw)
              && ok == r.ok && context.View() == r.ctx
    {
      hide E.Claim;
      ghost var cached := Engine().cache;
      ok := context.Claim(bridge, act);
      OneContextChanged(cached, context);
    }

    lemma NoContextChanged(cached: map<Key, E.Context>)
      requires Valid() && cached.Keys == globalConjMatchFlowCache.Keys
      requires forall k | k in globalConjMatchFlowCache :: globalConjMatchFlowCache[k].View() == cached[k]
      ensures Engine().cache == cached
    {
    }

    lemma OneContextChanged(cached: map<Key, E.Context>, context: ConjMatchFlowContext)
      requires Valid() && Cached(context, context.key)
      requires cached.Keys + {context.key} == globalConjMatchFlowCache.Keys
      requires forall k | k in globalConjMatchFlowCache && k != context.key :: globalConjMatchFlowCache[k].View() == cached[k]
      ensures Engine().cache == cached[context.key := context.View()]
    {
    }

    /***** The calls of the client *****/

    ghost predicate AllHeld()
      reads this, conjuncts, clauses
    {
      forall id | id in policyCache ::
        policyCache[id] in conjuncts && forall side: Side ::
          policyCache[id].At(side) != null ==> policyCache[id].At(side) in clauses && policyCache[id].At(side).Held(this)
    }

    lemma CachedKeysAreHeld()
      requires PolicyValid() && KeysCached(View())
      ensures AllHeld()
    {
      forall id | id in policyCache
        ensures forall side: Side :: policyCache[id].At(side) != null ==> policyCache[id].At(side).Held(this)
      {
        forall side: Side | policyCache[id].At(side) != null ensures policyCache[id].At(side).Held(this) {
          var clause := policyCache[id].At(side);
          assert ConjunctSide(View().policies[id], side) == Some(clause.View());
          forall k | k in clause.matches ensures k in globalConjMatchFlowCache {
            assert k in Matches(ConjunctSide(View().policies[id], side));
          }
        }
      }
    }

    lemma HeldIsLinked(clause: Clause)
      requires Valid() && clause.Held(this)
      ensures clause.Linked(this)
    {
    }

    lemma PoliciesAre(policies: map<RuleId, E.Conjunct>)
      requires PolicyValid() && policies.Keys == policyCache.Keys
      requires forall id | id in policyCache :: policyCache[id].View() == policies[id]
      ensures Policies() == policies
    {
    }

    /** A clause has grown; the other clauses are as before, and every one of them is still held. */
    twostate lemma OneClauseGrown(s: Slot)
      requires old(PolicyValid()) && old(AllHeld()) && Valid() && Extends(old(contexts), old(globalConjMatchFlowCache))
      requires policyCache == old(policyCache) && conjuncts == old(conjuncts) && clauses == old(clauses)
      requires s.id in policyCache && policyCache[s.id].At(s.side) != null && policyCache[s.id].At(s.side).Held(this)
      requires forall j | j in conjuncts :: unchanged(j)
      requires forall c | c in clauses && c != policyCache[s.id].At(s.side) :: unchanged(c)
      ensures PolicyValid()
      ensures Policies() == old(Policies())[s.id := SetSide(old(Policies())[s.id], s.side, Some(policyCache[s.id].At(s.side).View()))]
    {
      hide Valid, AllHeld, Extends, Clause.Linked, Clause.Held;
      OthersStayHeld(s);
      PoliciesAre(old(Policies())[s.id := SetSide(old(Policies())[s.id], s.side, Some(policyCache[s.id].At(s.side).View()))]);
    }

    twostate lemma OthersStayHeld(s: Slot)
      requires old(PolicyValid()) && old(AllHeld()) && Valid() && Extends(old(contexts), old(globalConjMatchFlowCache))
      requires policyCache == old(policyCache) && conjuncts == old(conjuncts) && clauses == old(clauses)
      requires s.id in policyCache && policyCache[s.id].At(s.side) != null && policyCache[s.id].At(s.side).Held(this)
      requires forall j | j in conjuncts :: unchanged(j)
      requires forall c | c in clauses && c != policyCache[s.id].At(s.side) :: unchanged(c)
      ensures PolicyValid()
    {
      hide Valid;
      forall i | i in policyCache
        ensures forall side: Side :: policyCache[i].At(side) != null ==> policyCache[i].At(side).Linked(this)
      {
        forall side: Side | policyCache[i].At(side) != null ensures policyCache[i].At(side).Linked(this) {
          assert old(policyCache[i].At(side).Held(this));
          HeldIsLinked(policyCache[i].At(side));
        }
      }
    }

    method AddPolicyRuleAddress(id: RuleId, t: AddressType, addresses: seq<Address>) returns (err: E.Error)
      requires PolicyValid() && KeysCached(View())
      modifies `globalConjMatchFlowCache, `contexts, contexts, bridge, bridge.counters, clauses
      ensures PolicyValid()
      ensures var r := E.AddPolicyRuleAddress(old(View()), id, t, addresses);
              View() == r.c && err == r.err
    {
      hide E.AddFlows, E.AddPolicyRuleAddress, KeysCached, AllHeld, Valid, Engine, Clause.Linked, PolicyValid, Policies;
      PoliciesDomain();
      AddAddressUnfolds(View(), id, t, addresses);
      if id !in policyCache {
        return E.ConjunctionNotFound;
      }
      SidesOfView(id);
      var clause := policyCache[id].GetAddressClause(t);
      if clause == null {
        return E.NoClause;
      }
      CachedKeysAreHeld();
      var ok := GrowClause(id, clause, t, addresses);
      err := if ok then E.NoError else E.SwitchError;
    }

    method GrowClause(id: RuleId, clause: Clause, t: AddressType, addresses: seq<Address>) returns (ok: bool)
      requires PolicyValid() && AllHeld() && id in policyCache
      requires AddressSide(t).Some? && policyCache[id].At(AddressSide(t).value) == clause
      modifies `globalConjMatchFlowCache, `contexts, contexts, bridge, bridge.counters, clause
      ensures PolicyValid()
      ensures var r := E.AddFlows(old(Engine()), old(clause.View()), AddressKeys(clause.ruleTable, t, addresses));
              && Engine() == r.e && ok == r.ok
              && Policies() == old(Policies())[id := SetSide(old(Policies())[id], AddressSide(t).value, Some(r.clause))]
    {
      hide E.AddFlows, AllHeld, Engine;
      ClauseAt(id, AddressSide(t).value);
      ok := clause.AddAddrFlows(this, t, addresses);
      OneClauseGrown(Slot(id, AddressSide(t).value));
    }

    lemma PoliciesDomain()
      requires PolicyValid()
      ensures Policies().Keys == policyCache.Keys
      ensures forall id | id in policyCache :: policyCache[id] in conjuncts
      ensures forall id, side: Side | id in policyCache && policyCache[id].At(side) != null :: policyCache[id].At(side) in clauses
    {
    }

    lemma SidesOfView(id: RuleId)
      requires PolicyValid() && id in policyCache
      ensures id in Policies() && Policies()[id].actionFlows == policyCache[id].actionFlows
      ensures forall side: Side :: ConjunctSide(Policies()[id], side) == SideView(policyCache[id].At(side))
    {
    }

    lemma ClauseAt(id: RuleId, side: Side)
      requires PolicyValid() && AllHeld() && id in policyCache && policyCache[id].At(side) != null
      ensures policyCache[id].At(side) in clauses && policyCache[id].At(side).Held(this) && policyCache[id].At(side).Linked(this)
    {
    }

    /** A clause has lost keys; a context that has left the cache meanwhile is empty wherever it is still held. */
    twostate lemma OneClauseShrunk(s: Slot)
      requires old(PolicyValid()) && Valid() && contexts == old(contexts) && Settled(old(globalConjMatchFlowCache), old(Dead()))
      requires policyCache == old(policyCache) && conjuncts == old(conjuncts) && clauses == old(clauses)
      requires s.id in policyCache && policyCache[s.id].At(s.side) != null && policyCache[s.id].At(s.side).Linked(this)
      requires forall j | j in conjuncts :: unchanged(j)
      requires forall c | c in clauses && c != policyCache[s.id].At(s.side) :: unchanged(c)
      ensures PolicyValid()
      ensures Policies() == old(Policies())[s.id := SetSide(old(Policies())[s.id], s.side, Some(policyCache[s.id].At(s.side).View()))]
    {
      hide Valid, Settled, Dead, Clause.Linked;
      OthersStayLinked(s);
      PoliciesAre(old(Policies())[s.id := SetSide(old(Policies())[s.id], s.side, Some(policyCache[s.id].At(s.side).View()))]);
    }

    twostate lemma OthersStayLinked(s: Slot)
      requires old(PolicyValid()) && Valid() && contexts == old(contexts) && Settled(old(globalConjMatchFlowCache), old(Dead()))
      requires policyCache == old(policyCache) && conjuncts == old(conjuncts) && clauses == old(clauses)
      requires s.id in policyCache && policyCache[s.id].At(s.side) != null && policyCache[s.id].At(s.side).Linked(this)
      requires forall j | j in conjuncts :: unchanged(j)
      requires forall c | c in clauses && c != policyCache[s.id].At(s.side) :: unchanged(c)
      ensures PolicyValid()
    {
      hide Valid, Settled, Dead, Clause.Linked;
      forall i | i in policyCache
        ensures forall side: Side :: policyCache[i].At(side) != null ==> policyCache[i].At(side).Linked(this)
      {
        forall side: Side | policyCache[i].At(side) != null ensures policyCache[i].At(side).Linked(this) {
          var clause := policyCache[i].At(side);
          if clause != policyCache[s.id].At(s.side) {
            assert old(clause.Linked(this));
            clause.StaysLinked(this);
          }
        }
      }
    }

    method DeletePolicyRuleAddress(id: RuleId, t: AddressType, addresses: seq<Address>) returns (err: E.Error)
      requires PolicyValid()
      modifies `globalConjMatchFlowCache, contexts, bridge, bridge.counters, clauses
      ensures PolicyValid()
      ensures var r := E.DeletePolicyRuleAddress(old(View()), id, t, addresses);
              View() == r.c && err == r.err
    {
      hide E.DeleteFlows, E.DeletePolicyRuleAddress, Valid, Engine, Clause.Linked, PolicyValid, Policies;
      PoliciesDomain();
      DeleteAddressUnfolds(View(), id, t, addresses);
      if id !in policyCache {
        return E.ConjunctionNotFound;
      }
      SidesOfView(id);
      var clause := policyCache[id].GetAddressClause(t);
      if clause == null {
        return E.NoClause;
      }
      var ok := ShrinkClause(id, clause, t, addresses);
      err := if ok then E.NoError else E.SwitchError;
    }

    method ShrinkClause(id: RuleId, clause: Clause, t: AddressType, addresses: seq<Address>) returns (ok: bool)
      requires PolicyValid() && id in policyCache
      requires AddressSide(t).Some? && policyCache[id].At(AddressSide(t).value) == clause
      modifies `globalConjMatchFlowCache, contexts, bridge, bridge.counters, clause
      ensures PolicyValid()
      ensures var r := E.DeleteFlows(old(Engine()), old(clause.View()), AddressKeys(clause.ruleTable, t, addresses));
              && Engine() == r.e && ok == r.ok
              && Policies() == old(Policies())[id := SetSide(old(Policies())[id], AddressSide(t).value, Some(r.clause))]
    {
      hide E.DeleteFlows, Engine, Settled, Dead;
      LinkedAt(id, AddressSide(t).value);
      ok := clause.DeleteAddrFlows(this, t, addresses);
      OneClauseShrunk(Slot(id, AddressSide(t).value));
    }

    lemma LinkedAt(id: RuleId, side: Side)
      requires PolicyValid() && id in policyCache && policyCache[id].At(side) != null
      ensures Valid() && policyCache[id].At(side) in clauses && policyCache[id].At(side).Linked(this)
    {
    }

    /** deleteAllMatches on one side of a rule, if it has that side. */
    method EmptySide(id: RuleId, side: Side) returns (ok: bool, ghost order: seq<Key>)
      requires PolicyValid() && id in policyCache
      modifies `globalConjMatchFlowCache, contexts, bridge, bridge.counters, policyCache[id].At(side)
      ensures PolicyValid()
      ensures var r := E.DeleteSide(old(Engine()), old(ConjunctSide(Policies()[id], side)), order);
              && Engine() == r.e && ok == r.ok
              && Policies() == old(Policies())[id := SetSide(old(Policies())[id], side, r.clause)]
      ensures Elems(order) == old(Matches(ConjunctSide(Policies()[id], side)))
    {
      hide E.DeleteFlows, Engine, Settled, Dead, Valid, PolicyValid, Policies, Clause.Linked;
      SidesOfView(id);
      var clause := policyCache[id].At(side);
      if clause == null {
        ok, order := true, [];
        SetSameSide(Policies(), id, side);
        ElemsOfNone<Key>();
      } else {
        LinkedAt(id, side);
        ok, order := clause.DeleteAllMatches(this);
        OneClauseShrunk(Slot(id, side));
      }
    }

    lemma OnlySwitchChanged(e: E.Engine)
      requires Valid() && e.cache.Keys == globalConjMatchFlowCache.Keys
      requires forall k | k in globalConjMatchFlowCache :: globalConjMatchFlowCache[k].View() == e.cache[k]
      ensures Engine() == e.(sw := bridge.View())
    {
    }

    method AddEach(flows: seq<PolicyFlow>) returns (ok: bool)
      requires bridge.Valid()
      modifies bridge, bridge.counters
      ensures bridge.Valid()
      ensures var r := E.AddActionFlows(old(bridge.View()), flows);
              bridge.View() == r.sw && ok == r.ok
    {
      ghost var all := E.AddActionFlows(bridge.View(), flows);
      for i := 0 to |flows|
        invariant bridge.Valid()
        invariant all == E.AddActionFlows(bridge.View(), flows[i..])
      {
        ok := bridge.AddFlow(flows[i]);
        if !ok {
          return;
        }
      }
      ok := true;
    }

    method AddActionFlows(flows: seq<PolicyFlow>) returns (ok: bool)
      requires PolicyValid()
      modifies bridge, bridge.counters
      ensures PolicyValid() && Policies() == old(Policies())
      ensures var r := E.AddActionFlows(old(Engine()).sw, flows);
              Engine() == old(Engine()).(sw := r.sw) && ok == r.ok
    {
      hide E.AddActionFlows, Bridge.View;
      ghost var e, policies := Engine(), Policies();
      ok := AddEach(flows);
      OnlySwitchChanged(e);
      PoliciesAre(policies);
    }

    method DeleteEach(flows: seq<PolicyFlow>) returns (ok: bool)
      requires bridge.Valid()
      modifies bridge, bridge.counters
      ensures bridge.Valid()
      ensures var r := E.DeleteActionFlows(old(bridge.View()), flows);
              bridge.View() == r.sw && ok == r.ok
    {
      ghost var all := E.DeleteActionFlows(bridge.View(), flows);
      for i := 0 to |flows|
        invariant bridge.Valid()
        invariant all == E.DeleteActionFlows(bridge.View(), flows[i..])
      {
        ok := bridge.DeleteFlow(flows[i]);
        if !ok {
          return;
        }
      }
      ok := true;
    }

    method DeleteActionFlows(flows: seq<PolicyFlow>) returns (ok: bool)
      requires PolicyValid()
      modifies bridge, bridge.counters
      ensures PolicyValid() && Policies() == old(Policies())
      ensures var r := E.DeleteActionFlows(old(Engine()).sw, flows);
              Engine() == old(Engine()).(sw := r.sw) && ok == r.ok
    {
      hide E.DeleteActionFlows, Bridge.View;
      ghost var e, policies := Engine(), Policies();
      ok := DeleteEach(flows);
      OnlySwitchChanged(e);
      PoliciesAre(policies);
    }

    method Forget(id: RuleId)
      requires PolicyValid()
      modifies `policyCache
      ensures PolicyValid() && Engine() == old(Engine()) && Policies() == old(Policies()) - {id}
    {
      ghost var policies := Policies() - {id};
      policyCache := policyCache - {id};
      PoliciesAre(policies);
    }

    /** `orders` are those in which the deleteAllMatches loops met, or would have gone on to meet, the keys. */
    method UninstallPolicyRuleFlows(id: RuleId) returns (err: E.Error, ghost orders: E.Orders)
      requires PolicyValid()
      modifies `globalConjMatchFlowCache, `policyCache, contexts, bridge, bridge.counters, clauses
      ensures PolicyValid()
      ensures id in old(policyCache) ==> Enumerates(orders, old(Policies())[id])
      ensures var r := E.UninstallPolicyRuleFlows(old(View()), id, orders);
              View() == r.c && err == r.err
    {
      hide E.UninstallPolicyRuleFlows, Valid, Engine, Clause.Linked, PolicyValid, Policies, Enumerates, Matches;
      PoliciesDomain();
      if id !in policyCache {
        orders := E.Orders([], [], []);
        NotInstalled(View(), id, orders);
        return E.NoError, orders;
      }
      SidesOfView(id);
      ghost var before := View();
      ghost var conj := before.policies[id];
      orders := AnyOrders(conj);
      var ok := DeleteActionFlows(policyCache[id].actionFlows);
      UninstallUnfolds(before, id, orders);
      if !ok {
        return E.SwitchError, orders;
      }
      ok, orders := EmptyClauses(id, orders);
      UninstallUnfolds(before, id, orders);
      if !ok {
        return E.SwitchError, orders;
      }
      Forget(id);
      err := E.NoError;
    }

    method EmptyClauses(id: RuleId, ghost orders0: E.Orders) returns (ok: bool, ghost orders: E.Orders)
      requires PolicyValid() && id in policyCache && Enumerates(orders0, Policies()[id])
      modifies `globalConjMatchFlowCache, contexts, bridge, bridge.counters, clauses
      ensures PolicyValid() && policyCache == old(policyCache) && Enumerates(orders, old(Policies())[id])
      ensures var d := E.DeleteClauses(old(Engine()), old(Policies())[id], orders);
              && Engine() == d.e && ok == d.ok && Policies() == old(Policies())[id := d.conj]
    {
      hide Valid, Engine, Clause.Linked, PolicyValid, Policies, E.DeleteSide, Elems, Matches;
      orders := orders0;
      ghost var order;
      PoliciesDomain();
      ok, order := EmptySide(id, From);
      orders := orders.(from := order);
      if !ok {
        return;
      }
      PoliciesDomain();
      ok, order := EmptySide(id, To);
      orders := orders.(to := order);
      if !ok {
        return;
      }
      PoliciesDomain();
      ok, order := EmptySide(id, Service);
      orders := orders.(service := order);
    }

    /** While only the cache grows, every clause in the policy cache stays as it was, and held. */
    twostate lemma AllStayHeld()
      requires old(PolicyValid()) && old(AllHeld()) && Valid() && Extends(old(contexts), old(globalConjMatchFlowCache))
      requires policyCache == old(policyCache) && conjuncts == old(conjuncts) && clauses == old(clauses)
      requires (forall j | j in conjuncts :: unchanged(j)) && (forall c | c in clauses :: unchanged(c))
      ensures PolicyValid() && AllHeld() && Policies() == old(Policies())
    {
      forall i | i in policyCache
        ensures forall side: Side :: policyCache[i].At(side) != null ==>
                  policyCache[i].At(side).Linked(this) && policyCache[i].At(side).Held(this)
      {
        forall side: Side | policyCache[i].At(side) != null
          ensures policyCache[i].At(side).Linked(this) && policyCache[i].At(side).Held(this)
        {
          assert old(policyCache[i].At(side).Held(this));
          HeldIsLinked(policyCache[i].At(side));
        }
      }
      PoliciesAre(old(Policies()));
    }

    lemma PolicyValidIsValid()
      requires PolicyValid()
      ensures Valid()
    {
    }

    /** A new clause for one side of a rule, with the conjunctive match flows of its members. */
    method AddSideFlows(rule: Rule, side: Side, clauseID: nat, nClause: nat) returns (clause: Clause?, ok: bool)
      requires PolicyValid() && AllHeld()
      requires SidePresentIn(rule, side) ==> Act(rule.id, clauseID, nClause) == E.SideClause(rule, side).action
      modifies `globalConjMatchFlowCache, `contexts, contexts, bridge, bridge.counters
      ensures PolicyValid() && AllHeld() && Policies() == old(Policies())
      ensures var r := E.AddSide(old(Engine()), rule, side);
              Engine() == r.e && ok == r.ok && SideView(clause) == r.clause
      ensures clause != null ==> fresh(clause) && clause.Held(this) && clause.action.conj == rule.id
      ensures Extends(old(contexts), old(globalConjMatchFlowCache)) && fresh(contexts - old(contexts))
    {
      hide E.AddFlows, Engine, AllHeld, PolicyValid, Policies, Clause.Linked, Clause.Held, Valid;
      PolicyValidIsValid();
      if !SidePresentIn(rule, side) {
        return null, true;
      }
      var ruleTable, dropTable := RuleTable(rule.dir), DefaultTable(rule.dir);
      match side {
        case From =>
          clause := new Clause(Act(rule.id, clauseID, nClause), ruleTable, if rule.dir.Egress? then Some(dropTable) else None);
          clause.NothingHeld(this);
          ok := clause.AddAddrFlows(this, SrcAddress, rule.from.value);
        case To =>
          clause := new Clause(Act(rule.id, clauseID, nClause), ruleTable, if rule.dir.Egress? then None else Some(dropTable));
          clause.NothingHeld(this);
          ok := clause.AddAddrFlows(this, DstAddress, rule.to.value);
        case Service =>
          clause := new Clause(Act(rule.id, clauseID, nClause), ruleTable, None);
          clause.NothingHeld(this);
          ok := clause.AddServiceFlows(this, rule.service.value);
      }
      AllStayHeld();
    }

    /** The conjunction action flow and one flow per except, in the order of the lists. */
    method BuildActionFlows(rule: Rule) returns (flows: seq<PolicyFlow>)
      requires NClause(rule) > 1
      ensures flows == ActionFlows(rule, Next(pipeline, rule.dir))
    {
      var ruleTable, dropTable := RuleTable(rule.dir), DefaultTable(rule.dir);
      var action := ConjunctionActionFlow(rule.id, ruleTable, Next(pipeline, rule.dir));
      flows := [action];
      for i := 0 to |rule.exceptFrom|
        invariant flows == [action] + ExceptionFlows(rule.id, rule.dir, SrcAddress, rule.exceptFrom)[..i]
      {
        flows := flows + [ConjunctionExceptionFlow(rule.id, ruleTable, dropTable, SrcAddress, rule.exceptFrom[i])];
      }
      ghost var withFrom := flows;
      for i := 0 to |rule.exceptTo|
        invariant flows == withFrom + ExceptionFlows(rule.id, rule.dir, DstAddress, rule.exceptTo)[..i]
      {
        flows := flows + [ConjunctionExceptionFlow(rule.id, ruleTable, dropTable, DstAddress, rule.exceptTo[i])];
      }
    }

    method Remember(conj: PolicyRuleConjunction)
      requires PolicyValid() && Building(conj)
      modifies `policyCache, `conjuncts, `clauses
      ensures PolicyValid() && Engine() == old(Engine()) && Policies() == old(Policies())[conj.id := conj.View()]
    {
      hide Clause.Held, Clause.Linked, Valid, Engine, PolicyRuleConjunction.Owns;
      ghost var policies := Policies()[conj.id := conj.View()];
      policyCache := policyCache[conj.id := conj];
      conjuncts := conjuncts + {conj};
      clauses := clauses + conj.Own();
      forall id | id in policyCache
        ensures policyCache[id] in conjuncts && policyCache[id].id == id && policyCache[id].Owns(clauses)
        ensures forall side: Side :: policyCache[id].At(side) != null ==>
                  policyCache[id].At(side) in clauses && policyCache[id].At(side).Linked(this)
      {
        if id == conj.id {
          conj.OwnsMore(conj.Own(), clauses);
          forall side: Side | conj.At(side) != null ensures conj.At(side).Linked(this) {
            HeldIsLinked(conj.At(side));
          }
        } else {
          assert policyCache[id] == old(policyCache)[id];
          policyCache[id].OwnsMore(old(clauses), clauses);
        }
      }
      PoliciesAre(policies);
    }

    /** The action flows of a new conjunction; none if its rule has at most one clause. */
    method InstallActionFlows(conj: PolicyRuleConjunction, rule: Rule, nClause: nat) returns (ok: bool)
      requires PolicyValid() && AllHeld() && conj !in conjuncts && nClause == NClause(rule)
      requires conj.View() == E.Conjunct(rule.id, None, None, None, [])
      modifies bridge, bridge.counters, conj
      ensures PolicyValid() && AllHeld() && Policies() == old(Policies())
      ensures var flows := ActionFlows(rule, Next(pipeline, rule.dir));
              var r := E.AddActionFlows(old(Engine()).sw, flows);
              && Engine() == old(Engine()).(sw := r.sw) && ok == r.ok
              && (ok ==> conj.View() == E.Conjunct(rule.id, None, None, None, flows))
    {
      hide E.AddActionFlows, Engine, Valid, AllHeld, PolicyValid, Policies;
      if nClause > 1 {
        var actionFlows := BuildActionFlows(rule);
        ok := AddActionFlows(actionFlows);
        if ok {
          conj.actionFlows := actionFlows;
        }
      } else {
        ok := true;
        AddNothing();
      }
    }

    /** A conjunction that is being built: it is not in the policy cache yet, and its clauses are held. */
    ghost predicate Building(conj: PolicyRuleConjunction)
      reads `conjuncts, `globalConjMatchFlowCache, conj, conj.Own()
    {
      && conj !in conjuncts && conj.Owns(conj.Own())
      && (conj.fromClause != null ==> conj.fromClause.Held(this))
      && (conj.toClause != null ==> conj.toClause.Held(this))
      && (conj.serviceClause != null ==> conj.serviceClause.Held(this))
    }

    method AddSideTo(conj: PolicyRuleConjunction, rule: Rule, side: Side, clauseID: nat, nClause: nat) returns (ok: bool)
      requires PolicyValid() && AllHeld() && Building(conj) && conj.id == rule.id && conj.At(side) == null
      requires SidePresentIn(rule, side) ==> Act(rule.id, clauseID, nClause) == E.SideClause(rule, side).action
      modifies `globalConjMatchFlowCache, `contexts, contexts, bridge, bridge.counters, conj
      ensures PolicyValid() && AllHeld() && Building(conj) && Policies() == old(Policies())
      ensures var r := E.AddSide(old(Engine()), rule, side);
              Engine() == r.e && ok == r.ok && conj.View() == SetSide(old(conj.View()), side, r.clause)
      ensures forall s: Side :: s != side ==> conj.At(s) == old(conj.At(s))
      ensures fresh(contexts - old(contexts))
    {
      hide Valid, Engine, Clause.Linked, Clause.Held, PolicyValid, Policies, AllHeld, E.AddSide;
      var clause;
      clause, ok := AddSideFlows(rule, side, clauseID, nClause);
      StaysBuilding(conj);
      match side {
        case From => conj.fromClause := clause;
        case To => conj.toClause := clause;
        case Service => conj.serviceClause := clause;
      }
    }

    twostate lemma StaysBuilding(conj: PolicyRuleConjunction)
      requires old(Building(conj)) && unchanged(conj) && conjuncts == old(conjuncts)
      requires forall c | c in conj.Own() :: unchanged(c)
      requires Extends(old(contexts), old(globalConjMatchFlowCache))
      ensures Building(conj)
    {
    }

    /** The clauses of a new conjunction, in the order From, To, Service. */
    method AddClauses(conj: PolicyRuleConjunction, rule: Rule, fromID: nat, toID: nat, serviceID: nat, nClause: nat)
      returns (ok: bool)
      requires PolicyValid() && AllHeld() && conj !in conjuncts
      requires conj.View() == E.Conjunct(rule.id, None, None, None, conj.actionFlows)
      requires nClause == NClause(rule) && (rule.from.Some? ==> fromID == FromId(rule))
      requires (rule.to.Some? ==> toID == ToId(rule)) && (rule.service.Some? ==> serviceID == ServiceId(rule))
      modifies `globalConjMatchFlowCache, `contexts, contexts, bridge, bridge.counters, conj
      ensures PolicyValid() && AllHeld() && Building(conj) && Policies() == old(Policies())
      ensures var r := E.AddClauses(old(Engine()), rule, old(conj.actionFlows));
              Engine() == r.e && ok == r.ok && (ok ==> conj.View() == r.conj)
    {
      hide Valid, Engine, Clause.Linked, Clause.Held, PolicyValid, Policies, AllHeld, E.AddSide;
      ok := AddSideTo(conj, rule, From, fromID, nClause);
      if !ok {
        return;
      }
      ok := AddSideTo(conj, rule, To, toID, nClause);
      if !ok {
        return;
      }
      ok := AddSideTo(conj, rule, Service, serviceID, nClause);
    }

    method InstallPolicyRuleFlows(rule: Rule) returns (err: E.Error)
      requires PolicyValid() && KeysCached(View())
      modifies `globalConjMatchFlowCache, `policyCache, `contexts, `conjuncts, `clauses, contexts, bridge, bridge.counters
      ensures PolicyValid()
      ensures var r := E.InstallPolicyRuleFlows(old(View()), pipeline, rule);
              View() == r.c && err == r.err
    {
      hide E.InstallPolicyRuleFlows, E.AddClauses, Valid, Engine, Clause.Linked, Clause.Held, PolicyValid, Policies, KeysCached, AllHeld, Building, PolicyRuleConjunction.Owns;
      PoliciesDomain();
      InstallUnfolds(View(), pipeline, rule);
      if rule.id in policyCache {
        return E.NoError;
      }
      CachedKeysAreHeld();
      var fromID, toID, serviceID, nClause := 0, 0, 0, 0;
      if rule.from.Some? {
        nClause := nClause + 1;
        fromID := nClause;
      }
      if rule.to.Some? {
        nClause := nClause + 1;
        toID := nClause;
      }
      if rule.service.Some? {
        nClause := nClause + 1;
        serviceID := nClause;
      }
      var conj := new PolicyRuleConjunction(rule.id);
      var ok := InstallActionFlows(conj, rule, nClause);
      if !ok {
        return E.SwitchError;
      }
      ok := AddClauses(conj, rule, fromID, toID, serviceID, nClause);
      if !ok {
        return E.SwitchError;
      }
      Remember(conj);
      err := E.NoError;
    }
  }

  lemma InstallUnfolds(c: E.Client, p: Pipeline, r: Rule)
    ensures E.InstallPolicyRuleFlows(c, p, r) ==
      if r.id in c.policies then E.CallResult(c, E.NoError)
      else
        var flows := ActionFlows(r, Next(p, r.dir));
        var a := E.AddActionFlows(c.engine.sw, flows);
        if !a.ok then E.CallResult(c.(engine := c.engine.(sw := a.sw)), E.SwitchError)
        else
          var i := E.AddClauses(c.engine.(sw := a.sw), r, flows);
          if !i.ok then E.CallResult(c.(engine := i.e), E.SwitchError)
          else E.CallResult(E.Client(i.e, c.policies[r.id := i.conj]), E.NoError)
  {
  }

  lemma AddNothing()
    ensures forall sw :: E.AddActionFlows(sw, []) == E.SwitchResult(sw, true)
  {
  }

  predicate SidePresentIn(r: Rule, side: Side) {
    E.SidePresent(r, side)
  }

  lemma SetSameSide(policies: map<RuleId, E.Conjunct>, id: RuleId, side: Side)
    requires id in policies && ConjunctSide(policies[id], side).None?
    ensures policies[id := SetSide(policies[id], side, None)] == policies
  {
  }

  ghost function AnyOrders(c: E.Conjunct): (o: E.Orders)
    ensures Enumerates(o, c)
  {
    E.Orders(Enumeration(Matches(c.from)), Enumeration(Matches(c.to)), Enumeration(Matches(c.service)))
  }

  lemma NotInstalled(c: E.Client, id: RuleId, o: E.Orders)
    requires id !in c.policies
    ensures E.UninstallPolicyRuleFlows(c, id, o) == E.CallResult(c, E.NoError)
  {
  }

  lemma UninstallUnfolds(c: E.Client, id: RuleId, o: E.Orders)
    requires id in c.policies
    ensures E.UninstallPolicyRuleFlows(c, id, o) ==
      var a := E.DeleteActionFlows(c.engine.sw, c.policies[id].actionFlows);
      if !a.ok then E.CallResult(c.(engine := c.engine.(sw := a.sw)), E.SwitchError)
      else
        var d := E.DeleteClauses(c.engine.(sw := a.sw), c.policies[id], o);
        if d.ok then E.CallResult(E.Client(d.e, c.policies[id := d.conj] - {id}), E.NoError)
        else E.CallResult(E.Client(d.e, c.policies[id := d.conj]), E.SwitchError)
  {
  }
}
