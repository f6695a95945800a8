/** The loops over addresses, service ports and action flows, cut short at any command. */
module PolicyLoops {
  import opened OpenFlow
  import opened PolicyTypes
  import opened PolicyEngine
  import opened PolicyInvariant
  import opened Sequences

  function Constant(keys: set<Key>, act: Act): map<Key, Act> {
    map k | k in keys :: act
  }

  function WithClaims(h: Shares, act: Act, keys: set<Key>): Shares
    requires act.conj in h
  {
    h[act.conj := Share(h[act.conj].claims + Constant(keys, act), h[act.conj].flows)]
  }

  function WithoutClaims(h: Shares, id: RuleId, keys: set<Key>): Shares
    requires id in h
  {
    h[id := Share(h[id].claims - keys, h[id].flows)]
  }

  lemma WithClaimsFirst(h: Shares, act: Act, k: Key, keys: set<Key>)
    requires act.conj in h
    ensures WithClaims(WithClaim(h, act, k), act, keys) == WithClaims(h, act, keys + {k})
  {
    assert h[act.conj].claims[k := act] + Constant(keys, act)
        == h[act.conj].claims + Constant(keys + {k}, act);
  }

  lemma WithNoClaims(h: Shares, act: Act)
    requires act.conj in h
    ensures WithClaims(h, act, {}) == h && WithoutClaims(h, act.conj, {}) == h
  {
    assert h[act.conj].claims + Constant({}, act) == h[act.conj].claims;
    assert h[act.conj].claims - {} == h[act.conj].claims;
  }

  lemma WithoutClaimsFirst(h: Shares, id: RuleId, k: Key, keys: set<Key>)
    requires id in h
    ensures WithoutClaims(WithoutClaim(h, id, k), id, keys) == WithoutClaims(h, id, keys + {k})
  {
    assert h[id].claims - {k} - keys == h[id].claims - (keys + {k});
  }

  lemma WithoutOneClaim(h: Shares, id: RuleId, k: Key)
    requires id in h
    ensures WithoutClaims(h, id, {k}) == WithoutClaim(h, id, k)
  {
  }

  /***** addAddrFlows and addServiceFlows *****/

  /** What a clause needs so that its keys can be added: they carry its drop table and nobody's other action. */
  predicate Addable(h: Shares, c: Clause, keys: seq<Key>) {
    && c.action.conj in h
    && (forall k | k in keys ::
          && IsRuleTable(k.table) && c.dropTable == DropTableOf(k)
          && ClaimOf(h, c.action.conj, k) in {None, Some(c.action)})
    && (forall k | k in c.matches :: Claims(h, c.action.conj, k))
  }

  lemma AddableStays(h: Shares, c: Clause, keys: seq<Key>)
    requires keys != [] && Addable(h, c, keys) && SharesOk(h)
    ensures Addable(WithClaim(h, c.action, keys[0]), c.(matches := c.matches + {keys[0]}), keys[1..])
  {
  }

  /** The loop claims the keys `done` and no other; if it ends without an error these are all of them. */
  lemma {:induction false} AddFlowsKeepInv(h: Shares, base: map<PolicyEntry, set<FlowAction>>, e: Engine, c: Clause, keys: seq<Key>, spare: set<Key>)
    returns (done: set<Key>)
    requires Inv(h, base, e) && Loose(h, e, spare) && Addable(h, c, keys)
    ensures done <= Elems(keys)
    ensures var r := AddFlows(e, c, keys);
            && (r.ok ==> done == Elems(keys))
            && r.clause == c.(matches := c.matches + done)
            && Inv(WithClaims(h, c.action, done), base, r.e)
            && Loose(WithClaims(h, c.action, done), r.e, if r.ok then spare - done else spare + Elems(keys))
    decreases |keys|
  {
    if keys == [] {
      done := {};
      WithNoClaims(h, c.action);
      assert c.matches + {} == c.matches && spare - {} == spare;
    } else {
      var k := keys[0];
      assert k in keys;
      assert SharesOk(h);
      assert c.action.conj in h;
      AddableStays(h, c, keys);
      ElemsFirst(keys);
      AddKeepsInv(h, base, e, c, k);
      AddKeepsLoose(h, base, e, c, k, spare);
      done := AddFlowsStep(h, base, e, c, keys, spare);
    }
  }

  lemma {:induction false} AddFlowsStep(h: Shares, base: map<PolicyEntry, set<FlowAction>>, e: Engine, c: Clause, keys: seq<Key>, spare: set<Key>)
    returns (done: set<Key>)
    requires keys != [] && c.action.conj in h
    requires Elems(keys) == {keys[0]} + Elems(keys[1..])
    requires Addable(WithClaim(h, c.action, keys[0]), c.(matches := c.matches + {keys[0]}), keys[1..])
    requires var r := AddConjunctiveMatchFlow(e, c, keys[0]);
             var h' := if r.ok then WithClaim(h, c.action, keys[0]) else h;
             && Inv(h', base, r.e)
             && Loose(h', r.e, if r.ok then spare - {keys[0]} else spare + {keys[0]})
             && r.clause == (if r.ok then c.(matches := c.matches + {keys[0]}) else c)
    ensures done <= Elems(keys)
    ensures var r := AddFlows(e, c, keys);
            && (r.ok ==> done == Elems(keys))
            && r.clause == c.(matches := c.matches + done)
            && Inv(WithClaims(h, c.action, done), base, r.e)
            && Loose(WithClaims(h, c.action, done), r.e, if r.ok then spare - done else spare + Elems(keys))
    decreases |keys|, 0
  {
    var k := keys[0];
    hide Inv, AddConjunctiveMatchFlow, Addable, WithClaim, WithClaims, Elems, Loose;
    var r := AddConjunctiveMatchFlow(e, c, k);
    if r.ok {
      var rest := AddFlowsKeepInv(WithClaim(h, c.action, k), base, r.e, r.clause, keys[1..], spare - {k});
      done := rest + {k};
      WithClaimsFirst(h, c.action, k, rest);
      assert c.matches + {k} + rest == c.matches + done;
      assert spare - {k} - rest == spare - done;
      var all := AddFlows(e, c, keys);
      if !all.ok {
        LooseMonotone(WithClaims(h, c.action, done), all.e, spare - {k} + Elems(keys[1..]), spare + Elems(keys));
      }
    } else {
      done := {};
      WithNoClaims(h, c.action);
      assert c.matches + {} == c.matches;
      LooseMonotone(h, r.e, spare + {k}, spare + Elems(keys));
    }
  }

  lemma LooseMonotone(h: Shares, e: Engine, spare: set<Key>, more: set<Key>)
    requires Loose(h, e, spare) && spare <= more
    ensures Loose(h, e, more)
  {
  }

  /***** deleteAddrFlows and deleteAllMatches *****/

  /** What a clause needs so that its keys can be deleted: it holds every key that its rule claims among them. */
  predicate Deletable(h: Shares, c: Clause, keys: seq<Key>) {
    && c.action.conj in h
    && (forall k | k in keys ::
          && IsRuleTable(k.table)
          && ClaimOf(h, c.action.conj, k) in {None, Some(c.action)}
          && (k !in c.matches ==> ClaimOf(h, c.action.conj, k).None?))
  }

  lemma DeletableStays(h: Shares, c: Clause, keys: seq<Key>)
    requires keys != [] && Deletable(h, c, keys) && SharesOk(h)
    ensures Deletable(WithoutClaim(h, c.action.conj, keys[0]), c.(matches := c.matches - {keys[0]}), keys[1..])
    ensures keys[0] !in c.matches ==> WithoutClaim(h, c.action.conj, keys[0]) == h
  {
    var k := keys[0];
    WithoutClaimOk(h, c.action.conj, k);
    var h' := WithoutClaim(h, c.action.conj, k);
    forall k' | k' in keys[1..] ensures k' in keys && ClaimOf(h', c.action.conj, k') in {None, ClaimOf(h, c.action.conj, k')} {
      assert k' != k ==> ClaimOf(h', c.action.conj, k') == ClaimOf(h, c.action.conj, k');
    }
    if k !in c.matches {
      assert k in keys;
      assert h[c.action.conj].claims - {k} == h[c.action.conj].claims;
    }
  }

  /**
   The loop takes the keys `gone` out of the clause and their claims with them; a failure may have released one more claim
   whose key stays in the clause.
   */
  lemma {:induction false} DeleteFlowsKeepInv(h: Shares, base: map<PolicyEntry, set<FlowAction>>, e: Engine, c: Clause, keys: seq<Key>, spare: set<Key>)
    returns (gone: set<Key>, released: set<Key>)
    requires Inv(h, base, e) && Loose(h, e, spare) && Deletable(h, c, keys)
    ensures gone <= released <= Elems(keys)
    ensures var r := DeleteFlows(e, c, keys);
            && (r.ok ==> gone == released == Elems(keys))
            && r.clause == c.(matches := c.matches - gone)
            && Inv(WithoutClaims(h, c.action.conj, released), base, r.e)
            && Loose(WithoutClaims(h, c.action.conj, released), r.e,
                     spare - (gone * c.matches) + if r.ok then {} else c.matches - gone)
    decreases |keys|
  {
    if keys == [] {
      gone, released := {}, {};
      WithNoClaims(h, c.action);
      assert c.matches - {} == c.matches && spare - ({} * c.matches) + {} == spare;
    } else {
      var k := keys[0];
      assert k in keys;
      assert SharesOk(h);
      assert c.action.conj in h;
      DeletableStays(h, c, keys);
      ElemsFirst(keys);
      var freed := true;
      if k in c.matches {
        freed := DeleteKeepsLoose(h, base, e, c, k, spare);
      }
      gone, released := DeleteFlowsStep(h, base, e, c, keys, spare, freed);
    }
  }

  lemma {:induction false} DeleteFlowsStep(h: Shares, base: map<PolicyEntry, set<FlowAction>>, e: Engine, c: Clause, keys: seq<Key>, spare: set<Key>, freed: bool)
    returns (gone: set<Key>, released: set<Key>)
    requires keys != [] && Inv(h, base, e) && Loose(h, e, spare) && c.action.conj in h
    requires Elems(keys) == {keys[0]} + Elems(keys[1..])
    requires Deletable(WithoutClaim(h, c.action.conj, keys[0]), c.(matches := c.matches - {keys[0]}), keys[1..])
    requires keys[0] !in c.matches ==> WithoutClaim(h, c.action.conj, keys[0]) == h
    requires var k := keys[0];
             var r := DeleteConjunctiveMatchFlow(e, c, k);
             var h' := if freed then WithoutClaim(h, c.action.conj, k) else h;
             k in c.matches ==>
               && Inv(h', base, r.e)
               && (r.ok ==> freed)
               && Loose(h', r.e, if r.ok then spare - {k} else spare + {k})
               && r.clause == (if r.ok then c.(matches := c.matches - {k}) else c)
    ensures gone <= released <= Elems(keys)
    ensures var r := DeleteFlows(e, c, keys);
            && (r.ok ==> gone == released == Elems(keys))
            && r.clause == c.(matches := c.matches - gone)
            && Inv(WithoutClaims(h, c.action.conj, released), base, r.e)
            && Loose(WithoutClaims(h, c.action.conj, released), r.e,
                     spare - (gone * c.matches) + if r.ok then {} else c.matches - gone)
    decreases |keys|, 0
  {
    var k := keys[0];
    var id := c.action.conj;
    assert k !in c.matches ==> c.matches - {k} == c.matches && DeleteConjunctiveMatchFlow(e, c, k) == ClauseResult(e, c, true);
    hide Inv, DeleteConjunctiveMatchFlow, Deletable, WithoutClaim, WithoutClaims, Elems;
    var r := DeleteConjunctiveMatchFlow(e, c, k);
    if r.ok {
      var h' := WithoutClaim(h, id, k);
      var spare' := if k in c.matches then spare - {k} else spare;
      var c' := c.(matches := c.matches - {k});
      assert r.clause == c';
      var g, l := DeleteFlowsKeepInv(h', base, r.e, c', keys[1..], spare');
      gone, released := g + {k}, l + {k};
      WithoutClaimsFirst(h, id, k, l);
      assert c.matches - {k} - g == c.matches - gone;
      var all := DeleteFlows(e, c, keys);
      assert spare' - (g * c'.matches) == spare - (gone * c.matches);
      assert c'.matches - g == c.matches - gone;
    } else {
      gone := {};
      released := if freed then {k} else {};
      assert c.matches - {} == c.matches;
      WithNoClaims(h, c.action);
      WithoutOneClaim(h, id, k);
      LooseMonotone(WithoutClaims(h, id, released), r.e, spare + {k}, spare - (gone * c.matches) + (c.matches - gone));
    }
  }

  /***** What the loops leave alone *****/

  /** The loops change no context but those of their keys. */
  lemma {:induction false} AddFlowsTouch(e: Engine, c: Clause, keys: seq<Key>, k: Key)
    requires k !in keys
    ensures Look(AddFlows(e, c, keys).e.cache, k) == Look(e.cache, k)
    decreases |keys|
  {
    if keys != [] {
      assert k != keys[0];
      var r := AddConjunctiveMatchFlow(e, c, keys[0]);
      if r.ok {
        AddFlowsTouch(r.e, r.clause, keys[1..], k);
      }
    }
  }

  lemma {:induction false} DeleteFlowsTouch(e: Engine, c: Clause, keys: seq<Key>, k: Key)
    requires k !in keys || k !in c.matches
    ensures Look(DeleteFlows(e, c, keys).e.cache, k) == Look(e.cache, k)
    decreases |keys|
  {
    hide Release;
    if keys != [] {
      var r := DeleteConjunctiveMatchFlow(e, c, keys[0]);
      if r.ok {
        DeleteFlowsTouch(r.e, r.clause, keys[1..], k);
      }
    }
  }

  /***** Action and except flows *****/

  type FlowTable = map<PolicyEntry, set<FlowAction>>

  predicate Within(part: FlowTable, full: FlowTable) {
    forall x | x in part :: x in full && part[x] == full[x]
  }

  function WithFlows(h: Shares, id: RuleId, flows: FlowTable): Shares
    requires id in h
  {
    h[id := Share(h[id].claims, flows)]
  }

  lemma SameClaimsKeepLoose(h: Shares, h': Shares, e: Engine, e': Engine, spare: set<Key>)
    requires Loose(h, e, spare) && e'.cache == e.cache
    requires forall id, k :: ClaimOf(h', id, k) == ClaimOf(h, id, k)
    ensures Loose(h', e', spare)
  {
    forall k | k in e'.cache && k !in spare ensures exists id :: Claims(h', id, k) {
      var id :| Claims(h, id, k);
      assert Claims(h', id, k);
    }
  }

  lemma WithFlowsClaims(h: Shares, id: RuleId, flows: FlowTable)
    requires id in h
    ensures forall i, k :: ClaimOf(WithFlows(h, id, flows), i, k) == ClaimOf(h, i, k)
    ensures WithFlows(h, id, h[id].flows) == h
    ensures forall more :: WithFlows(WithFlows(h, id, flows), id, more) == WithFlows(h, id, more)
  {
  }

  /** Every flow of the list belongs to rule `id` and is the one that `full` has for its entry. */
  predicate FlowsOf(id: RuleId, flows: seq<PolicyFlow>, full: FlowTable) {
    forall i | 0 <= i < |flows| ::
      OwnerOf(flows[i].entry) == RuleOf(id) && flows[i].entry in full && full[flows[i].entry] == flows[i].actions
  }

  /** Adding a rule's flows: a part of them is on the switch, and all of them if no command failed. */
  lemma {:induction false} AddActionFlowsKeepInv(h: Shares, base: FlowTable, e: Engine, id: RuleId, flows: seq<PolicyFlow>, full: FlowTable)
    returns (part: FlowTable)
    requires Inv(h, base, e) && id in h && FlowsOf(id, flows, full) && Within(h[id].flows, full)
    ensures var r := AddActionFlows(e.sw, flows);
            && Inv(WithFlows(h, id, part), base, e.(sw := r.sw))
            && Within(part, full) && h[id].flows.Keys <= part.Keys
            && (r.ok ==> forall i | 0 <= i < |flows| :: flows[i].entry in part)
    decreases |flows|
  {
    if flows == [] {
      part := h[id].flows;
      WithFlowsClaims(h, id, part);
      assert e.(sw := e.sw) == e;
    } else {
      hide Inv;
      OwnFlowKeepsInv(h, base, e, id, Add(flows[0]));
      if WillFail(e.sw) {
        part := h[id].flows;
        WithFlowsClaims(h, id, part);
      } else {
        var own := Apply(h[id].flows, Add(flows[0]));
        var e' := e.(sw := Exec(e.sw, Add(flows[0])));
        assert flows == [flows[0]] + flows[1..];
        part := AddActionFlowsKeepInv(WithFlows(h, id, own), base, e', id, flows[1..], full);
        WithFlowsClaims(h, id, own);
        assert e'.(sw := AddActionFlows(e.sw, flows).sw) == e.(sw := AddActionFlows(e.sw, flows).sw);
      }
    }
  }

  /** Deleting a rule's flows: none of them is left if no command failed, and the first one goes first. */
  lemma {:induction false} DeleteActionFlowsKeepInv(h: Shares, base: FlowTable, e: Engine, id: RuleId, flows: seq<PolicyFlow>)
    returns (part: FlowTable)
    requires Inv(h, base, e) && id in h
    requires forall i | 0 <= i < |flows| :: OwnerOf(flows[i].entry) == RuleOf(id)
    ensures var r := DeleteActionFlows(e.sw, flows);
            && Inv(WithFlows(h, id, part), base, e.(sw := r.sw))
            && Within(part, h[id].flows)
            && (r.ok ==> forall i | 0 <= i < |flows| :: flows[i].entry !in part)
            && (part == h[id].flows || (flows != [] && flows[0].entry !in part))
    decreases |flows|
  {
    if flows == [] {
      part := h[id].flows;
      WithFlowsClaims(h, id, part);
      assert e.(sw := e.sw) == e;
    } else {
      hide Inv;
      OwnFlowKeepsInv(h, base, e, id, Delete(flows[0]));
      if WillFail(e.sw) {
        part := h[id].flows;
        WithFlowsClaims(h, id, part);
      } else {
        var own := Apply(h[id].flows, Delete(flows[0]));
        var e' := e.(sw := Exec(e.sw, Delete(flows[0])));
        assert flows == [flows[0]] + flows[1..];
        part := DeleteActionFlowsKeepInv(WithFlows(h, id, own), base, e', id, flows[1..]);
        WithFlowsClaims(h, id, own);
        assert e'.(sw := DeleteActionFlows(e.sw, flows).sw) == e.(sw := DeleteActionFlows(e.sw, flows).sw);
      }
    }
  }
}
