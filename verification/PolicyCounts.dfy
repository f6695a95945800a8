/**
 Flow counts.  The counter of a table is a 64-bit unsigned number to which each successful Add adds one and from which each
 successful Delete takes one.  It is compared with what the tables should hold, command by command, failures included.
 */
module PolicyCounts {
  import opened OpenFlow
  import opened PolicyTypes
  import opened PolicyEngine
  import opened PolicyInvariant
  import opened PolicyInterleaving
  import opened PolicyLoops
  import opened Sequences
  import opened PolicyRules
  import opened PolicyStore
  import opened PolicyCommands

  /** The unsigned counter of table `t` shows the integer `n`. */
  predicate Shows<M, A>(sw: Switch<M, A>, t: TableId, n: int) {
    t in sw.counts && sw.counts[t] == n % UINT_LIMIT
  }

  /** How much a command that succeeds adds to the counter of table `t`. */
  function Effect<M, A>(cmd: Command<M, A>, t: TableId): int {
    if cmd.flow.entry.table == t then Delta(cmd) else 0
  }

  lemma ExecCounts<M, A>(sw: Switch<M, A>, cmd: Command<M, A>, t: TableId, n: int)
    requires Shows(sw, t, n)
    ensures Shows(Exec(sw, cmd), t, n + if WillFail(sw) then 0 else Effect(cmd, t))
  {
  }

  /***** What the tables should hold *****/

  predicate FlowIn(f: Option<PolicyFlow>, t: TableId) {
    f.Some? && f.value.entry.table == t
  }

  function Bit(b: bool): nat {
    if b then 1 else 0
  }

  /** The flows of one context in table `t`. */
  function ContextFlows(ctx: Context, t: TableId): nat {
    Bit(FlowIn(ctx.flow, t)) + Bit(FlowIn(ctx.dropFlow, t))
  }

  function ConjunctiveIn(cache: map<Key, Context>, t: TableId): set<Key> {
    set k | k in cache && FlowIn(cache[k].flow, t)
  }

  function DropsIn(cache: map<Key, Context>, t: TableId): set<Key> {
    set k | k in cache && FlowIn(cache[k].dropFlow, t)
  }

  /** The cached contexts with a conjunctive match flow in table `t`, and those with a drop flow there. */
  function SharedFlows(cache: map<Key, Context>, t: TableId): nat {
    |ConjunctiveIn(cache, t)| + |DropsIn(cache, t)|
  }

  function InTable(flows: seq<PolicyFlow>, t: TableId): nat
    decreases |flows|
  {
    if flows == [] then 0 else Bit(flows[0].entry.table == t) + InTable(flows[1..], t)
  }

  /** The action and except flows that the live rules have recorded for table `t`. */
  ghost function RecordedFlows(policies: map<RuleId, Conjunct>, t: TableId): nat
    decreases |policies|
  {
    if policies == map[] then 0
    else
      var id :| id in policies;
      assert policies - {id} != policies && |(policies - {id}).Keys| < |policies.Keys| by { FewerRules(policies, id); }
      InTable(policies[id].actionFlows, t) + RecordedFlows(policies - {id}, t)
  }

  lemma FewerRules(policies: map<RuleId, Conjunct>, id: RuleId)
    requires id in policies
    ensures policies - {id} != policies && |(policies - {id}).Keys| < |policies.Keys|
  {
  }

  ghost function Ledger(c: Client, t: TableId): nat {
    RecordedFlows(c.policies, t) + SharedFlows(c.engine.cache, t)
  }

  lemma {:induction false} RecordedWithout(policies: map<RuleId, Conjunct>, id: RuleId, t: TableId)
    requires id in policies
    ensures RecordedFlows(policies, t) == InTable(policies[id].actionFlows, t) + RecordedFlows(policies - {id}, t)
    decreases |policies|
  {
    var first :| first in policies
              && RecordedFlows(policies, t) == InTable(policies[first].actionFlows, t) + RecordedFlows(policies - {first}, t);
    if first != id {
      FewerRules(policies, first);
      RecordedWithout(policies - {first}, id, t);
      assert policies - {first} - {id} == policies - {id} - {first};
      FewerRules(policies, id);
      RecordedWithout(policies - {id}, first, t);
    }
  }

  lemma RecordedWith(policies: map<RuleId, Conjunct>, id: RuleId, c: Conjunct, t: TableId)
    ensures id !in policies ==> RecordedFlows(policies[id := c], t) == RecordedFlows(policies, t) + InTable(c.actionFlows, t)
    ensures id in policies && policies[id].actionFlows == c.actionFlows ==> RecordedFlows(policies[id := c], t) == RecordedFlows(policies, t)
  {
    RecordedWithout(policies[id := c], id, t);
    if id in policies {
      RecordedWithout(policies, id, t);
      assert policies[id := c] - {id} == policies - {id};
    } else {
      assert policies[id := c] - {id} == policies;
    }
  }

  lemma OneMember(s: set<Key>, s': set<Key>, k: Key)
    requires s' - {k} == s - {k}
    ensures |s'| == |s| - Bit(k in s) + Bit(k in s')
  {
    assert k in s ==> s - {k} + {k} == s;
    assert k !in s ==> s - {k} == s;
    assert k in s' ==> s' - {k} + {k} == s';
    assert k !in s' ==> s' - {k} == s';
  }

  lemma SharedWith(cache: map<Key, Context>, k: Key, ctx: Context, t: TableId)
    ensures SharedFlows(cache[k := ctx], t) == SharedFlows(cache, t)
              - (if k in cache then ContextFlows(cache[k], t) else 0) + ContextFlows(ctx, t)
  {
    hide FlowIn;
    var cache' := cache[k := ctx];
    OneMember(ConjunctiveIn(cache, t), ConjunctiveIn(cache', t), k);
    OneMember(DropsIn(cache, t), DropsIn(cache', t), k);
  }

  lemma SharedWithout(cache: map<Key, Context>, k: Key, t: TableId)
    requires k in cache
    ensures SharedFlows(cache - {k}, t) == SharedFlows(cache, t) - ContextFlows(cache[k], t)
  {
    hide FlowIn;
    OneMember(ConjunctiveIn(cache, t), ConjunctiveIn(cache - {k}, t), k);
    OneMember(DropsIn(cache, t), DropsIn(cache - {k}, t), k);
  }

  /***** One context *****/

  lemma InstallOrUpdateCounts(ctx: Context, k: Key, acts: set<Act>, sw: PolicySwitch, t: TableId, n: int)
    requires Shows(sw, t, n + ContextFlows(ctx, t))
    ensures var r := InstallOrUpdateFlow(ctx, k, acts, sw);
            Shows(r.sw, t, n + ContextFlows(r.ctx, t))
  {
  }

  lemma ClaimCounts(ctx: Context, k: Key, act: Act, sw: PolicySwitch, t: TableId, n: int)
    requires Shows(sw, t, n + ContextFlows(ctx, t))
    ensures var r := Claim(ctx, k, act, sw);
            Shows(r.sw, t, n + ContextFlows(r.ctx, t))
  {
  }

  lemma DisclaimCounts(ctx: Context, k: Key, act: Act, sw: PolicySwitch, t: TableId, n: int)
    requires Shows(sw, t, n + ContextFlows(ctx, t))
    ensures var r := Disclaim(ctx, k, act, sw);
            Shows(r.sw, t, n + ContextFlows(r.ctx, t))
  {
    if act.n > 1 && act.conj in ctx.actions {
      InstallOrUpdateCounts(ctx, k, LeftActions(ctx.actions, act.conj), sw, t, n);
      if ctx.flow.Some? {
        ExecCounts(sw, Delete(ctx.flow.value), t, n + ContextFlows(ctx, t));
      }
    }
  }

  lemma ReleaseCounts(ctx: Context, k: Key, act: Act, sw: PolicySwitch, t: TableId, n: int)
    requires Shows(sw, t, n + ContextFlows(ctx, t))
    ensures var r := Release(ctx, k, act, sw);
            Shows(r.sw, t, n + ContextFlows(r.ctx, t))
  {
    DisclaimCounts(ctx, k, act, sw, t, n);
    var d := Disclaim(ctx, k, act, sw);
    if d.ctx.dropFlow.Some? {
      ExecCounts(d.sw, Delete(d.ctx.dropFlow.value), t, n + ContextFlows(d.ctx, t));
    }
  }

  /***** One locked step, whatever fails *****/

  lemma AddMatchCounts(e: Engine, c: Clause, k: Key, t: TableId, n: int)
    requires Shows(e.sw, t, n + SharedFlows(e.cache, t))
    ensures var r := AddConjunctiveMatchFlow(e, c, k);
            Shows(r.e.sw, t, n + SharedFlows(r.e.cache, t))
  {
    hide Shows, SharedFlows, FindOrCreate, Claim, ContextFlows;
    if k !in c.matches {
      var before := if k in e.cache then ContextFlows(e.cache[k], t) else 0;
      var m := n + SharedFlows(e.cache, t) - before;
      FindOrCreateCounts(e, c, k, t, m);
      var (found, sw) := FindOrCreate(e, c, k);
      if found.Some? {
        ClaimCounts(found.value, k, c.action, sw, t, m);
        SharedWith(e.cache, k, Claim(found.value, k, c.action, sw).ctx, t);
      }
    }
  }

  lemma FindOrCreateCounts(e: Engine, c: Clause, k: Key, t: TableId, n: int)
    requires Shows(e.sw, t, n + if k in e.cache then ContextFlows(e.cache[k], t) else 0)
    ensures var (found, sw) := FindOrCreate(e, c, k);
            && Shows(sw, t, n + if found.Some? then ContextFlows(found.value, t) else 0)
            && (found.None? ==> k !in e.cache)
  {
  }

  /** A context leaves the cache with no flow left; otherwise the flows it lost are the ones deleted. */
  lemma DeleteMatchCounts(h: Shares, base: FlowTable, e: Engine, c: Clause, k: Key, t: TableId, n: int)
    requires Inv(h, base, e) && Shows(e.sw, t, n + SharedFlows(e.cache, t)) && IsRuleTable(k.table)
    ensures var r := DeleteConjunctiveMatchFlow(e, c, k);
            Shows(r.e.sw, t, n + SharedFlows(r.e.cache, t))
  {
    hide Inv, Release, SharedFlows, Shows;
    if k in c.matches {
      var ctx := HeldContext(e, k);
      var r := Release(ctx, k, c.action, e.sw);
      if k in e.cache {
        var m := n + SharedFlows(e.cache, t) - ContextFlows(ctx, t);
        ReleaseCounts(ctx, k, c.action, e.sw, t, m);
        SharedWith(e.cache, k, r.ctx, t);
        SharedWithout(e.cache, k, t);
        EvictedIsBare(h, base, e, k, c.action);
      } else {
        assert e.cache - {k} == e.cache;
        ReleaseNothing(k, c.action, e.sw);
      }
    }
  }

  lemma ReleaseNothing(k: Key, act: Act, sw: PolicySwitch)
    ensures Release(EMPTY_CONTEXT, k, act, sw).evict && Release(EMPTY_CONTEXT, k, act, sw).sw == sw
  {
  }

  lemma EvictedIsBare(h: Shares, base: FlowTable, e: Engine, k: Key, act: Act)
    requires Inv(h, base, e) && k in e.cache && IsRuleTable(k.table)
    ensures var r := Release(e.cache[k], k, act, e.sw);
            r.evict ==> r.ctx.flow.None? && r.ctx.dropFlow.None?
  {
    InvIsLocal(h, base, e, k);
    ReleaseLocal(e.sw.flows, e.cache[k], k, act, e.sw);
  }

  lemma {:induction false} AddFlowsCounts(e: Engine, c: Clause, keys: seq<Key>, t: TableId, n: int)
    requires Shows(e.sw, t, n + SharedFlows(e.cache, t))
    ensures var r := AddFlows(e, c, keys);
            Shows(r.e.sw, t, n + SharedFlows(r.e.cache, t))
    decreases |keys|
  {
    hide Shows, SharedFlows, AddConjunctiveMatchFlow;
    if keys != [] {
      AddMatchCounts(e, c, keys[0], t, n);
      var r := AddConjunctiveMatchFlow(e, c, keys[0]);
      if r.ok {
        AddFlowsCounts(r.e, r.clause, keys[1..], t, n);
      }
    }
  }

  lemma {:induction false} DeleteFlowsCounts(h: Shares, base: FlowTable, e: Engine, c: Clause, keys: seq<Key>, t: TableId, n: int)
    requires Inv(h, base, e) && Deletable(h, c, keys) && Shows(e.sw, t, n + SharedFlows(e.cache, t))
    ensures var r := DeleteFlows(e, c, keys);
            Shows(r.e.sw, t, n + SharedFlows(r.e.cache, t))
    decreases |keys|
  {
    hide Inv, Deletable, DeleteConjunctiveMatchFlow, SharedFlows, Shows, WithoutClaim;
    if keys != [] {
      NextDeletion(h, base, e, c, keys);
      DeleteMatchCounts(h, base, e, c, keys[0], t, n);
      var r := DeleteConjunctiveMatchFlow(e, c, keys[0]);
      if r.ok {
        var h' := WithoutClaim(h, c.action.conj, keys[0]);
        DeleteFlowsCounts(h', base, r.e, r.clause, keys[1..], t, n);
      }
    }
  }

  lemma NextDeletion(h: Shares, base: FlowTable, e: Engine, c: Clause, keys: seq<Key>)
    requires keys != [] && Inv(h, base, e) && Deletable(h, c, keys)
    ensures IsRuleTable(keys[0].table) && c.action.conj in h
    ensures var r := DeleteConjunctiveMatchFlow(e, c, keys[0]);
            var h' := WithoutClaim(h, c.action.conj, keys[0]);
            r.ok ==> Inv(h', base, r.e) && Deletable(h', r.clause, keys[1..])
  {
    var k := keys[0];
    assert k in keys;
    DeletableStays(h, c, keys);
    if k in c.matches {
      var _ := DeleteKeepsInv(h, base, e, c, k);
    } else {
      assert c.matches - {k} == c.matches;
    }
  }

  /***** Action and except flows *****/

  /** How many of the next `n` commands succeed before the first one that fails. */
  function Succeeding(fails: nat -> bool, clock: nat, n: nat): (m: nat)
    ensures m <= n
    decreases n
  {
    if n == 0 || fails(clock) then 0 else 1 + Succeeding(fails, clock + 1, n - 1)
  }

  lemma {:induction false} AddActionFlowsCounts(sw: PolicySwitch, flows: seq<PolicyFlow>, t: TableId, n: int)
    requires Shows(sw, t, n)
    ensures var r := AddActionFlows(sw, flows);
            var done := Succeeding(sw.fails, sw.clock, |flows|);
            && Shows(r.sw, t, n + InTable(flows[..done], t))
            && (r.ok <==> done == |flows|)
    decreases |flows|
  {
    if flows != [] && !WillFail(sw) {
      ExecCounts(sw, Add(flows[0]), t, n);
      AddActionFlowsCounts(Exec(sw, Add(flows[0])), flows[1..], t, n + Effect(Add(flows[0]), t));
      var done := Succeeding(sw.fails, sw.clock, |flows|);
      assert flows[..done][1..] == flows[1..][..done - 1];
    }
  }

  lemma {:induction false} DeleteActionFlowsCounts(sw: PolicySwitch, flows: seq<PolicyFlow>, t: TableId, n: int)
    requires Shows(sw, t, n)
    ensures var r := DeleteActionFlows(sw, flows);
            var done := Succeeding(sw.fails, sw.clock, |flows|);
            && Shows(r.sw, t, n - InTable(flows[..done], t))
            && (r.ok <==> done == |flows|)
    decreases |flows|
  {
    if flows != [] && !WillFail(sw) {
      ExecCounts(sw, Delete(flows[0]), t, n);
      DeleteActionFlowsCounts(Exec(sw, Delete(flows[0])), flows[1..], t, n + Effect(Delete(flows[0]), t));
      var done := Succeeding(sw.fails, sw.clock, |flows|);
      assert flows[..done][1..] == flows[1..][..done - 1];
    }
  }

  /***** One call, whatever fails *****/

  lemma AddClausesCounts(e: Engine, r: Rule, flows: seq<PolicyFlow>, t: TableId, n: int)
    requires Shows(e.sw, t, n + SharedFlows(e.cache, t))
    ensures var x := AddClauses(e, r, flows);
            Shows(x.e.sw, t, n + SharedFlows(x.e.cache, t))
  {
    hide Shows, SharedFlows, AddSide;
    AddSideCounts(e, r, From, t, n);
    var f := AddSide(e, r, From);
    AddSideCounts(f.e, r, To, t, n);
    AddSideCounts(AddSide(f.e, r, To).e, r, Service, t, n);
  }

  lemma AddSideCounts(e: Engine, r: Rule, side: Side, t: TableId, n: int)
    requires Shows(e.sw, t, n + SharedFlows(e.cache, t))
    ensures var x := AddSide(e, r, side);
            Shows(x.e.sw, t, n + SharedFlows(x.e.cache, t))
  {
    hide Shows, SharedFlows;
    AddFlowsCounts(e, SideClause(r, side), SideKeys(r, side), t, n);
  }

  /** The action flows that an installation adds, or an uninstallation deletes, before its first failing command. */
  function ActionFlowsDone(sw: PolicySwitch, flows: seq<PolicyFlow>): seq<PolicyFlow> {
    flows[..Succeeding(sw.fails, sw.clock, |flows|)]
  }

  /** A failed installation leaves the counter too high by the action flows that it added, to be added again by a retry. */
  lemma InstallCounts(p: Pipeline, c: Client, r: Rule, t: TableId, n: int)
    requires Shows(c.engine.sw, t, n + Ledger(c, t))
    ensures var x := InstallPolicyRuleFlows(c, p, r);
            var extra := if x.err.NoError? then 0 else InTable(ActionFlowsDone(c.engine.sw, ActionFlows(r, Next(p, r.dir))), t);
            Shows(x.c.engine.sw, t, n + extra + Ledger(x.c, t))
  {
    hide Shows, SharedFlows, AddClauses, RecordedFlows, ActionFlows;
    var flows := ActionFlows(r, Next(p, r.dir));
    if r.id !in c.policies {
      AddActionFlowsCounts(c.engine.sw, flows, t, n + Ledger(c, t));
      var a := AddActionFlows(c.engine.sw, flows);
      if a.ok {
        assert ActionFlowsDone(c.engine.sw, flows) == flows;
        var e := c.engine.(sw := a.sw);
        AddClausesCounts(e, r, flows, t, n + RecordedFlows(c.policies, t) + InTable(flows, t));
        RecordedWith(c.policies, r.id, AddClauses(e, r, flows).conj, t);
        AddedConjunct(e, r, flows);
      }
    }
  }

  lemma AddedConjunct(e: Engine, r: Rule, flows: seq<PolicyFlow>)
    ensures AddClauses(e, r, flows).conj.actionFlows == flows
  {
  }

  lemma DeleteSideCounts(h: Shares, base: FlowTable, e: Engine, id: RuleId, c: Conjunct, side: Side, keys: seq<Key>, t: TableId, n: int)
    requires Inv(h, base, e) && id in h && ConjunctOk(id, c) && Backed(c, h[id])
    requires ConjunctSide(c, side).Some? ==> forall k | k in keys :: ProperKey(side, ConjunctSide(c, side).value.ruleTable, k)
    requires Shows(e.sw, t, n + SharedFlows(e.cache, t))
    ensures var x := DeleteSide(e, ConjunctSide(c, side), keys);
            Shows(x.e.sw, t, n + SharedFlows(x.e.cache, t))
  {
    if ConjunctSide(c, side).Some? {
      BackedDeletable(h, id, c, side, keys);
      hide Inv, Shows, SharedFlows, Deletable;
      DeleteFlowsCounts(h, base, e, ConjunctSide(c, side).value, keys, t, n);
    }
  }

  lemma BackedDeletable(h: Shares, id: RuleId, c: Conjunct, side: Side, keys: seq<Key>)
    requires id in h && ConjunctOk(id, c) && Backed(c, h[id]) && ConjunctSide(c, side).Some?
    requires forall k | k in keys :: ProperKey(side, ConjunctSide(c, side).value.ruleTable, k)
    ensures Deletable(h, ConjunctSide(c, side).value, keys)
  {
  }

  lemma EmptySideCounts(h: Shares, base: FlowTable, e: Engine, id: RuleId, c: Conjunct, side: Side, keys: seq<Key>, t: TableId, n: int)
    returns (s: Share)
    requires Inv(h, base, e) && id in h && ConjunctOk(id, c) && Backed(c, h[id])
    requires Elems(keys) == Matches(ConjunctSide(c, side))
    requires Shows(e.sw, t, n + SharedFlows(e.cache, t))
    ensures var x := DeleteSide(e, ConjunctSide(c, side), keys);
            var c' := SetSide(c, side, x.clause);
            && Inv(h[id := s], base, x.e) && ConjunctOk(id, c') && Backed(c', s)
            && Shows(x.e.sw, t, n + SharedFlows(x.e.cache, t))
  {
    hide Inv, Shows, SharedFlows, Loose, DeleteSide, Backed, HeldKeys, SpareAfter;
    EmptySideKeys(id, c, side, keys);
    DeleteSideCounts(h, base, e, id, c, side, keys, t, n);
    EverythingSpare(h, e);
    s := EmptySide(h, base, e, id, c, side, keys, e.cache.Keys);
  }

  lemma EmptySideKeys(id: RuleId, c: Conjunct, side: Side, keys: seq<Key>)
    requires ConjunctOk(id, c) && Elems(keys) == Matches(ConjunctSide(c, side))
    ensures ConjunctSide(c, side).Some? ==> forall k | k in keys :: ProperKey(side, ConjunctSide(c, side).value.ruleTable, k)
  {
  }

  lemma EverythingSpare(h: Shares, e: Engine)
    ensures Loose(h, e, e.cache.Keys)
  {
  }

  lemma DeleteClausesCounts(h: Shares, base: FlowTable, e: Engine, id: RuleId, c: Conjunct, o: Orders, t: TableId, n: int)
    requires Inv(h, base, e) && id in h && ConjunctOk(id, c) && Backed(c, h[id]) && Enumerates(o, c)
    requires Shows(e.sw, t, n + SharedFlows(e.cache, t))
    ensures var x := DeleteClauses(e, c, o);
            Shows(x.e.sw, t, n + SharedFlows(x.e.cache, t)) && x.conj.actionFlows == c.actionFlows
  {
    hide Inv, Shows, SharedFlows, DeleteSide, ConjunctOk, Backed, Elems;
    var f := DeleteSide(e, c.from, o.from);
    var s := EmptySideCounts(h, base, e, id, c, From, o.from, t, n);
    if f.ok {
      var c1 := c.(from := f.clause);
      var d := DeleteSide(f.e, c.to, o.to);
      var s2 := EmptySideCounts(h[id := s], base, f.e, id, c1, To, o.to, t, n);
      if d.ok {
        var c2 := c1.(to := d.clause);
        var s3 := EmptySideCounts(h[id := s][id := s2], base, d.e, id, c2, Service, o.service, t, n);
      }
    }
  }

  /** A failed uninstallation leaves the counter too low by the action flows that it deleted, to be deleted again by a retry. */
  lemma UninstallCounts(h: Shares, base: FlowTable, c: Client, id: RuleId, o: Orders, t: TableId, n: int)
    requires Inv(h, base, c.engine) && id in h && id in c.policies && Leaving(id, c.policies[id], h[id])
    requires Enumerates(o, c.policies[id]) && Shows(c.engine.sw, t, n + Ledger(c, t))
    ensures var x := UninstallPolicyRuleFlows(c, id, o);
            var missing := if x.err.NoError? then 0
                           else InTable(ActionFlowsDone(c.engine.sw, c.policies[id].actionFlows), t);
            Shows(x.c.engine.sw, t, n - missing + Ledger(x.c, t))
  {
    hide Inv, Shows, SharedFlows, DeleteClauses, RecordedFlows, ConjunctOk, Enumerates, DeleteActionFlows, InTable, Leaving;
    var conj := c.policies[id];
    DeleteActionFlowsCounts(c.engine.sw, conj.actionFlows, t, n + Ledger(c, t));
    RecordedWithout(c.policies, id, t);
    var h1 := ActionFlowsGone(h, base, c, id);
    var a := DeleteActionFlows(c.engine.sw, conj.actionFlows);
    if a.ok {
      assert ActionFlowsDone(c.engine.sw, conj.actionFlows) == conj.actionFlows;
      var e := c.engine.(sw := a.sw);
      DeleteClausesCounts(h1, base, e, id, conj, o, t, n + RecordedFlows(c.policies, t) - InTable(conj.actionFlows, t));
      RecordedWith(c.policies, id, DeleteClauses(e, conj, o).conj, t);
    }
  }

  lemma ActionFlowsGone(h: Shares, base: FlowTable, c: Client, id: RuleId) returns (h': Shares)
    requires Inv(h, base, c.engine) && id in h && id in c.policies && Leaving(id, c.policies[id], h[id])
    ensures id in h' && Inv(h', base, c.engine.(sw := DeleteActionFlows(c.engine.sw, c.policies[id].actionFlows).sw))
    ensures ConjunctOk(id, c.policies[id]) && Backed(c.policies[id], h'[id])
  {
    var part := DeleteActionFlowsKeepInv(h, base, c.engine, id, c.policies[id].actionFlows);
    h' := WithFlows(h, id, part);
    BackedClaims(c.policies[id], h[id], h'[id]);
  }

  /** Calls on addresses keep the counter right even if a command fails. */
  lemma AddAddressCounts(c: Client, id: RuleId, at: AddressType, addrs: seq<Address>, t: TableId, n: int)
    requires Shows(c.engine.sw, t, n + Ledger(c, t))
    ensures var x := AddPolicyRuleAddress(c, id, at, addrs);
            Shows(x.c.engine.sw, t, n + Ledger(x.c, t))
  {
    hide Shows, SharedFlows, RecordedFlows, AddFlows;
    if id in c.policies && GetAddressClause(c.policies[id], at).Some? {
      var clause := GetAddressClause(c.policies[id], at).value;
      var keys := AddressKeys(clause.ruleTable, at, addrs);
      AddFlowsCounts(c.engine, clause, keys, t, n + RecordedFlows(c.policies, t));
      RecordedWith(c.policies, id, SetAddressClause(c.policies[id], at, AddFlows(c.engine, clause, keys).clause), t);
    }
  }

  lemma DeleteAddressCounts(base: FlowTable, c: Client, id: RuleId, at: AddressType, addrs: seq<Address>, t: TableId, n: int)
    requires ClientInv(base, c) && Shows(c.engine.sw, t, n + Ledger(c, t))
    ensures var x := DeletePolicyRuleAddress(c, id, at, addrs);
            Shows(x.c.engine.sw, t, n + Ledger(x.c, t))
  {
    hide Inv, Shows, SharedFlows, RecordedFlows, DeleteFlows, ConjunctOk, ClientInv, ProperKey, Backed;
    if id in c.policies && GetAddressClause(c.policies[id], at).Some? {
      var conj := c.policies[id];
      var clause := GetAddressClause(conj, at).value;
      var keys := AddressKeys(clause.ruleTable, at, addrs);
      LiveAddressSide(base, c, id, at, addrs);
      DeleteSideCounts(SharesOf(c.policies), base, c.engine, id, conj, AddressSide(at).value, keys, t, n + RecordedFlows(c.policies, t));
      RecordedWith(c.policies, id, SetAddressClause(conj, at, DeleteFlows(c.engine, clause, keys).clause), t);
    }
  }

  lemma LiveAddressSide(base: FlowTable, c: Client, id: RuleId, at: AddressType, addrs: seq<Address>)
    requires ClientInv(base, c) && id in c.policies && GetAddressClause(c.policies[id], at).Some?
    ensures var clause := GetAddressClause(c.policies[id], at).value;
            && Inv(SharesOf(c.policies), base, c.engine) && id in SharesOf(c.policies)
            && ConjunctOk(id, c.policies[id]) && Backed(c.policies[id], SharesOf(c.policies)[id])
            && ConjunctSide(c.policies[id], AddressSide(at).value) == Some(clause)
            && forall k | k in AddressKeys(clause.ruleTable, at, addrs) :: ProperKey(AddressSide(at).value, clause.ruleTable, k)
  {
  }

  /** The action flows that a failed call has added or deleted in vain. */
  function Drift(p: Pipeline, c: Client, call: Call, t: TableId): int {
    if !DoCall(p, c, call).err.SwitchError? then 0
    else match call
      case Install(r) => InTable(ActionFlowsDone(c.engine.sw, ActionFlows(r, Next(p, r.dir))), t)
      case Uninstall(id, _) =>
        if id in c.policies then 0 - InTable(ActionFlowsDone(c.engine.sw, c.policies[id].actionFlows), t) else 0
      case _ => 0
  }

  /** Whatever fails in a call, the counter of a table follows what the table holds, but for the drift of the call. */
  lemma CallCounts(p: Pipeline, base: FlowTable, c: Client, call: Call, t: TableId, n: int)
    requires ClientInv(base, c) && WellOrdered(c, call) && Shows(c.engine.sw, t, n + Ledger(c, t))
    ensures Shows(DoCall(p, c, call).c.engine.sw, t, n + Drift(p, c, call, t) + Ledger(DoCall(p, c, call).c, t))
  {
    hide Shows, ClientInv, InstallPolicyRuleFlows, UninstallPolicyRuleFlows, AddPolicyRuleAddress, DeletePolicyRuleAddress, Ledger, InTable, Enumerates;
    match call {
      case Install(r) =>
        InstallErrors(p, c, r);
        InstallCounts(p, c, r, t, n);
      case Uninstall(id, o) =>
        UninstallErrors(c, id, o);
        if id in c.policies {
          LiveUninstallCounts(base, c, id, o, t, n);
        }
      case AddAddresses(id, at, addrs) => AddAddressCounts(c, id, at, addrs, t, n);
      case DeleteAddresses(id, at, addrs) => DeleteAddressCounts(base, c, id, at, addrs, t, n);
    }
  }

  lemma LiveUninstallCounts(base: FlowTable, c: Client, id: RuleId, o: Orders, t: TableId, n: int)
    requires ClientInv(base, c) && id in c.policies && Enumerates(o, c.policies[id]) && Shows(c.engine.sw, t, n + Ledger(c, t))
    ensures var x := UninstallPolicyRuleFlows(c, id, o);
            var missing := if x.err.NoError? then 0
                           else InTable(ActionFlowsDone(c.engine.sw, c.policies[id].actionFlows), t);
            Shows(x.c.engine.sw, t, n - missing + Ledger(x.c, t))
  {
    hide Shows, Inv, Leaving, UninstallPolicyRuleFlows, Ledger, InTable, Enumerates;
    LiveRuleLeaving(c.policies, id);
    UninstallCounts(SharesOf(c.policies), base, c, id, o, t, n);
  }

  /***** Conservation *****/

  /**
   Flow counts are conserved: after any failure-free run from a client whose counters are right, the counter of each table
   is the number of action flows of the live rules there, plus the contexts with a conjunctive match flow there, plus the
   contexts with a drop flow there.
   */
  lemma {:induction false} FlowCountsConserved(p: Pipeline, base: FlowTable, s: PlainStore, c: Client, calls: seq<Call>, c': Client, t: TableId, n: int)
    requires Represents(p, base, s, c) && Runs(p, c, calls, c') && Shows(c.engine.sw, t, n + Ledger(c, t))
    ensures Shows(c'.engine.sw, t, n + Ledger(c', t))
    decreases |calls|
  {
    hide Shows, ClientInv, DoCall, Ledger, PlainCall, InTable, Enumerates;
    if calls != [] {
      CallRefines(p, base, s, c, calls[0]);
      CallCounts(p, base, c, calls[0], t, n);
      FlowCountsConserved(p, base, PlainCall(s, calls[0]).s, DoCall(p, c, calls[0]).c, calls[1..], c', t, n);
    }
  }

  lemma {:induction false} NothingRecorded(policies: map<RuleId, Conjunct>, t: TableId)
    requires forall id | id in policies :: forall f | f in policies[id].actionFlows :: f.entry.table != t
    ensures RecordedFlows(policies, t) == 0
    decreases |policies|
  {
    if policies != map[] {
      var id :| id in policies;
      RecordedWithout(policies, id, t);
      FewerRules(policies, id);
      InTableElsewhere(policies[id].actionFlows, t);
      NothingRecorded(policies - {id}, t);
    }
  }

  lemma {:induction false} InTableElsewhere(flows: seq<PolicyFlow>, t: TableId)
    requires forall f | f in flows :: f.entry.table != t
    ensures InTable(flows, t) == 0
    decreases |flows|
  {
    if flows != [] {
      assert flows[0] in flows;
      InTableElsewhere(flows[1..], t);
    }
  }

  /** What the ledger means: rule tables hold action flows and conjunctive match flows, default tables drop flows. */
  lemma LedgerByTable(p: Pipeline, base: FlowTable, s: PlainStore, c: Client, dir: Direction)
    requires Represents(p, base, s, c)
    ensures Ledger(c, RuleTable(dir)) == RecordedFlows(c.policies, RuleTable(dir))
              + |set k | k in c.engine.cache && k.table == RuleTable(dir) && c.engine.cache[k].actions != map[]|
    ensures Ledger(c, DefaultTable(dir)) == |set k | k in c.engine.cache && DropTableOf(k) == Some(DefaultTable(dir))|
  {
    hide FlowIn, Inv, ClientInv, RecordedFlows;
    var cache := c.engine.cache;
    forall k | k in cache
      ensures FlowIn(cache[k].flow, RuleTable(dir)) <==> k.table == RuleTable(dir) && cache[k].actions != map[]
      ensures !FlowIn(cache[k].dropFlow, RuleTable(dir)) && !FlowIn(cache[k].flow, DefaultTable(dir))
      ensures FlowIn(cache[k].dropFlow, DefaultTable(dir)) <==> DropTableOf(k) == Some(DefaultTable(dir))
    {
      ContextTables(base, c, k, dir);
    }
    assert ConjunctiveIn(cache, RuleTable(dir))
        == set k | k in cache && k.table == RuleTable(dir) && cache[k].actions != map[];
    assert DropsIn(cache, RuleTable(dir)) == {} && ConjunctiveIn(cache, DefaultTable(dir)) == {};
    assert DropsIn(cache, DefaultTable(dir)) == set k | k in cache && DropTableOf(k) == Some(DefaultTable(dir));
    RulesRecordNoDrops(p, s, dir);
  }

  lemma ContextTables(base: FlowTable, c: Client, k: Key, dir: Direction)
    requires ClientInv(base, c) && k in c.engine.cache
    ensures var ctx := c.engine.cache[k];
            && (FlowIn(ctx.flow, RuleTable(dir)) <==> k.table == RuleTable(dir) && ctx.actions != map[])
            && !FlowIn(ctx.dropFlow, RuleTable(dir)) && !FlowIn(ctx.flow, DefaultTable(dir))
            && (FlowIn(ctx.dropFlow, DefaultTable(dir)) <==> DropTableOf(k) == Some(DefaultTable(dir)))
  {
    assert ContextOk(SharesOf(c.policies), k, c.engine.cache[k]);
  }

  lemma RulesRecordNoDrops(p: Pipeline, s: PlainStore, dir: Direction)
    ensures RecordedFlows(PlainConjuncts(p, s), DefaultTable(dir)) == 0
  {
    hide ActionFlows, RecordedFlows;
    forall id | id in s ensures forall f | f in PlainConjuncts(p, s)[id].actionFlows :: f.entry.table != DefaultTable(dir) {
      RuleFlowsShape(p, Template(id, s[id]));
    }
    NothingRecorded(PlainConjuncts(p, s), DefaultTable(dir));
  }

  /***** When the counters are right *****/

  /** The action flows that a call is about to add or delete with its first commands. */
  function OwnFlows(p: Pipeline, c: Client, call: Call): seq<PolicyFlow> {
    match call
    case Install(r) => if r.id in c.policies then [] else ActionFlows(r, Next(p, r.dir))
    case Uninstall(id, _) => if id in c.policies then c.policies[id].actionFlows else []
    case _ => []
  }

  lemma {:induction false} InTableOfPrefix(flows: seq<PolicyFlow>, m: nat, t: TableId)
    requires m <= |flows|
    ensures InTable(flows[..m], t) <= InTable(flows, t)
    decreases m
  {
    if m > 0 {
      assert flows[..m][1..] == flows[1..][..m - 1];
      InTableOfPrefix(flows[1..], m - 1, t);
    }
  }

  lemma {:induction false} InTableOfOne(flows: seq<PolicyFlow>, at: TableId, t: TableId)
    requires forall f | f in flows :: f.entry.table == at
    ensures InTable(flows, t) == if t == at then |flows| else 0
    decreases |flows|
  {
    if flows != [] {
      assert flows[0] in flows;
      InTableOfOne(flows[1..], at, t);
    }
  }

  lemma OwnFlowsInOneTable(p: Pipeline, base: FlowTable, s: PlainStore, c: Client, call: Call) returns (at: TableId)
    requires Represents(p, base, s, c)
    ensures forall f | f in OwnFlows(p, c, call) :: f.entry.table == at
  {
    hide ClientInv, ActionFlows;
    match call {
      case Install(r) =>
        at := RuleTable(r.dir);
        RuleFlowsShape(p, r);
      case Uninstall(id, _) =>
        if id in s {
          at := RuleTable(s[id].dir);
          RuleFlowsShape(p, Template(id, s[id]));
        } else {
          at := EGRESS_RULE_TABLE;
        }
      case _ => at := EGRESS_RULE_TABLE;
    }
  }

  lemma DriftOfOwnFlows(p: Pipeline, base: FlowTable, s: PlainStore, c: Client, call: Call, t: TableId)
    requires Represents(p, base, s, c)
    ensures var own := OwnFlows(p, c, call);
            var done := Succeeding(c.engine.sw.fails, c.engine.sw.clock, |own|);
            var m := if DoCall(p, c, call).err.SwitchError? && own != [] && own[0].entry.table == t then done else 0;
            Drift(p, c, call, t) == if call.Uninstall? then 0 - m else m
  {
    hide ClientInv, ActionFlows;
    var own := OwnFlows(p, c, call);
    var done := Succeeding(c.engine.sw.fails, c.engine.sw.clock, |own|);
    var at := OwnFlowsInOneTable(p, base, s, c, call);
    InTableOfOne(own[..done], at, t);
    if own != [] {
      assert own[0] in own;
    }
    if call.Install? && call.rule.id in c.policies {
      InstallAgain(p, c, call.rule);
    }
  }

  lemma {:induction false} IssueSucceeds(sw: PolicySwitch, cmds: seq<PolicyCommand>)
    ensures Issue(sw, cmds).ok <==> Succeeding(sw.fails, sw.clock, |cmds|) == |cmds|
    decreases |cmds|
  {
    if cmds != [] && !WillFail(sw) {
      IssueSucceeds(Exec(sw, cmds[0]), cmds[1..]);
    }
  }

  lemma OwnFlowsComeFirst(p: Pipeline, c: Client, call: Call)
    requires OwnFlows(p, c, call) != []
    ensures CallCommands(p, c, call) != []
  {
  }

  /**
   A counter that was right stays right if and only if it is not the case that the call adds or deletes action flows in that
   table and the first command that fails is one of its commands other than the first.
   */
  lemma CountStaysRightIff(p: Pipeline, base: FlowTable, s: PlainStore, c: Client, call: Call, t: TableId)
    requires Represents(p, base, s, c) && WellOrdered(c, call) && Shows(c.engine.sw, t, Ledger(c, t))
    requires |OwnFlows(p, c, call)| < UINT_LIMIT
    ensures var n := |CallCommands(p, c, call)|;
            var done := Succeeding(c.engine.sw.fails, c.engine.sw.clock, n);
            Shows(DoCall(p, c, call).c.engine.sw, t, Ledger(DoCall(p, c, call).c, t)) <==>
            !(0 < done < n && OwnFlows(p, c, call) != [] && OwnFlows(p, c, call)[0].entry.table == t)
  {
    hide ClientInv, DoCall, Ledger, OwnFlows, InTable, CallCommands, Issue, WellOrdered;
    CallCounts(p, base, c, call, t, 0);
    DriftOfOwnFlows(p, base, s, c, call, t);
    SmallDrift(DoCall(p, c, call).c.engine.sw, t, Drift(p, c, call, t), Ledger(DoCall(p, c, call).c, t));
    CallIssues(p, c, call);
    IssueSucceeds(c.engine.sw, CallCommands(p, c, call));
    if OwnFlows(p, c, call) != [] {
      OwnFlowsComeFirst(p, c, call);
    }
  }

  lemma SmallDrift(sw: PolicySwitch, t: TableId, d: int, n: int)
    requires Shows(sw, t, d + n) && 0 - UINT_LIMIT < d < UINT_LIMIT
    ensures Shows(sw, t, n) <==> d == 0
  {
  }

  /**
   From a client whose counters are right, no command of any one call takes a counter below zero, wherever the call is cut
   short: the number that the counter stands for stays non-negative.
   */
  lemma NoUnderflow(p: Pipeline, base: FlowTable, c: Client, call: Call, t: TableId)
    requires ClientInv(base, c) && WellOrdered(c, call) && Shows(c.engine.sw, t, Ledger(c, t))
    ensures exists n: nat :: Shows(DoCall(p, c, call).c.engine.sw, t, n)
                          && n == Drift(p, c, call, t) + Ledger(DoCall(p, c, call).c, t)
  {
    hide ClientInv, Shows, Ledger, Enumerates, InTable;
    CallCounts(p, base, c, call, t, 0);
    if call.Uninstall? && call.id in c.policies && DoCall(p, c, call).err.SwitchError? {
      StillRecorded(base, c, call.id, call.orders, t);
      InTableOfPrefix(c.policies[call.id].actionFlows,
                      Succeeding(c.engine.sw.fails, c.engine.sw.clock, |c.policies[call.id].actionFlows|), t);
    }
    var n: int := Drift(p, c, call, t) + Ledger(DoCall(p, c, call).c, t);
    assert n >= 0;
    assert Shows(DoCall(p, c, call).c.engine.sw, t, n);
  }

  lemma StillRecorded(base: FlowTable, c: Client, id: RuleId, o: Orders, t: TableId)
    requires ClientInv(base, c) && id in c.policies && Enumerates(o, c.policies[id])
    requires UninstallPolicyRuleFlows(c, id, o).err.SwitchError?
    ensures Ledger(UninstallPolicyRuleFlows(c, id, o).c, t) >= InTable(c.policies[id].actionFlows, t)
  {
    hide Inv, Shows, Leaving, UninstallPolicyRuleFlows, InTable, Enumerates, RecordedFlows, SharedFlows;
    LiveRuleLeaving(c.policies, id);
    var h := SharesOf(c.policies);
    EverythingSpare(h, c.engine);
    var _ := UninstallAttempt(h, base, c, id, o, c.engine.cache.Keys);
    RecordedWithout(UninstallPolicyRuleFlows(c, id, o).c.policies, id, t);
  }

  function FailsOnceAt(at: nat): nat -> bool {
    n => n == at
  }

  /** A client without rules whose command number `at` will fail. */
  function NewClient(at: nat): Client {
    Client(Engine(map[], Switch(map[], map[EGRESS_RULE_TABLE := 0], FailsOnceAt(at), 0)), map[])
  }

  const NO_KEYS := Orders([], [], [])

  /** A rule without members that excepts one address. */
  const MEMBERLESS := Rule(1, Egress, Some([]), [IPAddress(7)], Some([]), [], None)

  lemma TwoFlows(p: Pipeline) returns (a: PolicyFlow, x: PolicyFlow)
    ensures ActionFlows(MEMBERLESS, Next(p, Egress)) == [a, x] && a.entry != x.entry && !SameSlot(a.entry, x.entry)
    ensures a.entry.table == x.entry.table == EGRESS_RULE_TABLE
  {
    a := ConjunctionActionFlow(1, EGRESS_RULE_TABLE, Next(p, Egress));
    x := ConjunctionExceptionFlow(1, EGRESS_RULE_TABLE, EGRESS_DEFAULT_TABLE, SrcAddress, IPAddress(7));
    assert ActionFlows(MEMBERLESS, Next(p, Egress)) == [a] + [x] + [];
  }

  lemma AddTwo(sw: PolicySwitch, a: PolicyFlow, x: PolicyFlow)
    ensures AddActionFlows(sw, [a, x]) ==
      if WillFail(sw) then SwitchResult(Exec(sw, Add(a)), false)
      else SwitchResult(Exec(Exec(sw, Add(a)), Add(x)), !WillFail(Exec(sw, Add(a))))
  {
    assert [a, x][1..] == [x] && [x][1..] == [];
    assert AddActionFlows(Exec(sw, Add(a)), [x]) == SwitchResult(Exec(Exec(sw, Add(a)), Add(x)), !WillFail(Exec(sw, Add(a))));
  }

  lemma DeleteTwo(sw: PolicySwitch, a: PolicyFlow, x: PolicyFlow)
    ensures DeleteActionFlows(sw, [a, x]) ==
      if WillFail(sw) then SwitchResult(Exec(sw, Delete(a)), false)
      else SwitchResult(Exec(Exec(sw, Delete(a)), Delete(x)), !WillFail(Exec(sw, Delete(a))))
  {
    assert [a, x][1..] == [x] && [x][1..] == [];
    assert DeleteActionFlows(Exec(sw, Delete(a)), [x]) == SwitchResult(Exec(Exec(sw, Delete(a)), Delete(x)), !WillFail(Exec(sw, Delete(a))));
  }

  /** The client while its only rule is MEMBERLESS. */
  function MemberlessClient(flows: FlowTable, own: seq<PolicyFlow>, count: nat, clock: nat): Client {
    var from := FromClause(MEMBERLESS);
    var to := ToClause(MEMBERLESS);
    Client(Engine(map[], Switch(flows, map[EGRESS_RULE_TABLE := count], FailsOnceAt(3), clock)),
           map[1 := Conjunct(1, Some(from), Some(to), None, own)])
  }

  lemma MemberlessInstalled(p: Pipeline, a: PolicyFlow, x: PolicyFlow)
    requires ActionFlows(MEMBERLESS, Next(p, Egress)) == [a, x] && a.entry.table == x.entry.table == EGRESS_RULE_TABLE
    ensures InstallPolicyRuleFlows(NewClient(3), p, MEMBERLESS)
            == CallResult(MemberlessClient(map[a.entry := a.actions, x.entry := x.actions], [a, x], 2, 2), NoError)
  {
    AddTwo(NewClient(3).engine.sw, a, x);
  }

  lemma MemberlessRemoval(flows: FlowTable, a: PolicyFlow, x: PolicyFlow, count: nat, clock: nat)
    requires !SameSlot(a.entry, x.entry) && a.entry.table == x.entry.table == EGRESS_RULE_TABLE
    requires clock != 3 && count < UINT_LIMIT && flows.Keys <= {a.entry, x.entry}
    ensures UninstallPolicyRuleFlows(MemberlessClient(flows, [a, x], count, clock), 1, NO_KEYS) ==
            if clock == 2 then CallResult(MemberlessClient(flows - {a.entry}, [a, x], Bump(count, -1), 4), SwitchError)
            else CallResult(Client(Engine(map[], Switch(map[], map[EGRESS_RULE_TABLE := Bump(Bump(count, -1), -1)],
                                                        FailsOnceAt(3), clock + 2)), map[]), NoError)
  {
    hide Bump;
    var c := MemberlessClient(flows, [a, x], count, clock);
    DeleteTwo(c.engine.sw, a, x);
    assert Apply(flows, Delete(a)) == flows - {a.entry};
    assert Apply(flows - {a.entry}, Delete(x)) == map[];
    assert c.policies - {1} == map[];
  }

  /**
   Repeating a failed uninstallation does take it below zero.  A rule without members owns two action flows; if deleting
   the second one fails, the retry deletes the first one once more and the counter wraps around.
   */
  lemma RetryWrapsCounter(p: Pipeline)
    ensures var installed := InstallPolicyRuleFlows(NewClient(3), p, MEMBERLESS);
            var stopped := UninstallPolicyRuleFlows(installed.c, 1, NO_KEYS);
            var retried := UninstallPolicyRuleFlows(stopped.c, 1, NO_KEYS);
            && installed.err.NoError? && stopped.err.SwitchError? && retried.err.NoError?
            && retried.c.policies == map[] && retried.c.engine.cache == map[] && retried.c.engine.sw.flows == map[]
            && Look(installed.c.engine.sw.counts, EGRESS_RULE_TABLE) == Some(2)
            && Look(retried.c.engine.sw.counts, EGRESS_RULE_TABLE) == Some(UINT_LIMIT - 1)
  {
    hide InstallPolicyRuleFlows, UninstallPolicyRuleFlows, ActionFlows;
    var a, x := TwoFlows(p);
    MemberlessInstalled(p, a, x);
    var flows: FlowTable := map[a.entry := a.actions, x.entry := x.actions];
    MemberlessRemoval(flows, a, x, 2, 2);
    MemberlessRemoval(flows - {a.entry}, a, x, 1, 4);
  }
}
