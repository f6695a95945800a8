/**
 Calls on distinct rules interleave at lock granularity.  A world holds every live clause, finished or half-way through a
 call; one step is one locked clause operation, one action-flow command, or the birth or end of a clause.
 */
module PolicyInterleaving {
  import opened OpenFlow
  import opened PolicyTypes
  import opened PolicyEngine
  import opened PolicyInvariant

  datatype Slot = Slot(id: RuleId, side: Side)

  datatype World = World(e: Engine, clauses: map<Slot, Clause>)

  datatype Step =
    | Begin(slot: Slot, clause: Clause)
    | AddMatch(slot: Slot, key: Key)
    | DeleteMatch(slot: Slot, key: Key)
    | OwnFlow(id: RuleId, cmd: Command<PolicyMatch, set<FlowAction>>)
    | End(slot: Slot)

  datatype WorldResult = WorldResult(w: World, ok: bool)

  /***** Which clauses and keys the client builds *****/

  function SideOf(kind: MatchType): Side {
    if IsSrcKind(kind) then From else if IsDstKind(kind) then To else Service
  }

  function SideDrop(ruleTable: TableId, side: Side): Option<TableId> {
    if ruleTable == EGRESS_RULE_TABLE && side.From? then Some(EGRESS_DEFAULT_TABLE)
    else if ruleTable == INGRESS_RULE_TABLE && side.To? then Some(INGRESS_DEFAULT_TABLE)
    else None
  }

  predicate ProperKey(side: Side, ruleTable: TableId, k: Key) {
    IsRuleTable(ruleTable) && k.table == ruleTable && SideOf(k.kind) == side
  }

  predicate ProperClause(s: Slot, c: Clause) {
    && c.action.conj == s.id && IsRuleTable(c.ruleTable) && c.dropTable == SideDrop(c.ruleTable, s.side)
    && forall k | k in c.matches :: ProperKey(s.side, c.ruleTable, k)
  }

  /**
   Clauses that share a key agree on the rule table and on whether and where the key has a drop flow, and two clauses of
   one rule never share a key.
   */
  lemma ProperClausesShare(s1: Slot, c1: Clause, s2: Slot, c2: Clause, k: Key)
    requires ProperClause(s1, c1) && ProperClause(s2, c2) && k in c1.matches && k in c2.matches
    ensures c1.ruleTable == c2.ruleTable && c1.dropTable == c2.dropTable == DropTableOf(k)
    ensures s1.id == s2.id ==> s1 == s2
  {
  }

  /** The three clauses that InstallPolicyRuleFlows builds, and the keys it puts into them, are proper. */
  lemma RuleClausesProper(r: Rule, side: Side)
    ensures ProperClause(Slot(r.id, side), SideClause(r, side))
    ensures forall k | k in SideKeys(r, side) :: ProperKey(side, RuleTable(r.dir), k)
  {
  }

  /***** Steps *****/

  predicate Enabled(w: World, st: Step) {
    match st
    case Begin(s, c) => s !in w.clauses && ProperClause(s, c) && c.matches == {}
    case AddMatch(s, k) => s in w.clauses && ProperKey(s.side, w.clauses[s].ruleTable, k)
    case DeleteMatch(s, _) => s in w.clauses
    case OwnFlow(id, cmd) => OwnerOf(cmd.flow.entry) == RuleOf(id)
    case End(s) => s in w.clauses && w.clauses[s].matches == {}
  }

  function Do(w: World, st: Step): WorldResult
    requires Enabled(w, st)
  {
    match st
    case Begin(s, c) => WorldResult(w.(clauses := w.clauses[s := c]), true)
    case AddMatch(s, k) =>
      var r := AddConjunctiveMatchFlow(w.e, w.clauses[s], k);
      WorldResult(World(r.e, w.clauses[s := r.clause]), r.ok)
    case DeleteMatch(s, k) =>
      var r := DeleteConjunctiveMatchFlow(w.e, w.clauses[s], k);
      WorldResult(World(r.e, w.clauses[s := r.clause]), r.ok)
    case OwnFlow(_, cmd) =>
      WorldResult(w.(e := w.e.(sw := Exec(w.e.sw, cmd))), !WillFail(w.e.sw))
    case End(s) => WorldResult(w.(clauses := w.clauses - {s}), true)
  }

  /** The worlds that failure-free runs reach. */
  ghost predicate Reaches(w: World, steps: seq<Step>, w': World)
    decreases |steps|
  {
    if steps == [] then w == w'
    else Enabled(w, steps[0]) && Do(w, steps[0]).ok && Reaches(Do(w, steps[0]).w, steps[1..], w')
  }

  /***** The invariant, in terms of the clauses alone *****/

  /** The action with which some clause of rule `id` holds the key. */
  function HolderOf(w: World, id: RuleId, k: Key): Option<Act> {
    var s := Slot(id, SideOf(k.kind));
    if s in w.clauses && k in w.clauses[s].matches then Some(w.clauses[s].action) else None
  }

  /**
   A context is cached exactly while some clause holds its key; its actions and DENY-ALL rules are those of the holding
   clauses, split by the number of clauses; its conjunctive match flow is on the switch exactly while it has actions, with
   exactly those actions; its drop flow is on the switch exactly while it is cached and its key asks for one.
   */
  ghost predicate SharedExactly(w: World) {
    && (forall s | s in w.clauses :: ProperClause(s, w.clauses[s]))
    && (forall k :: k in w.e.cache <==> exists s :: s in w.clauses && k in w.clauses[s].matches)
    && (forall k, id | k in w.e.cache ::
          && Look(w.e.cache[k].actions, id) == Allow(HolderOf(w, id, k))
          && (id in w.e.cache[k].denyAllRules <==> Denies(HolderOf(w, id, k))))
    && (forall k: Key | IsRuleTable(k.table) ::
          Look(w.e.sw.flows, ConjEntry(k)) ==
          if k in w.e.cache && w.e.cache[k].actions != map[] then Some(Conjunctions(w.e.cache[k].actions.Values)) else None)
    && (forall k: Key | IsRuleTable(k.table) && DropTableOf(k).Some? ::
          Look(w.e.sw.flows, DropEntry(DropTableOf(k).value, k)) == if k in w.e.cache then Some({Drop}) else None)
  }

  /** The same, with the shares that module PolicyInvariant reasons about. */
  ghost predicate Agrees(w: World, h: Shares) {
    && (forall s | s in w.clauses :: ProperClause(s, w.clauses[s]) && s.id in h)
    && (forall id, k :: ClaimOf(h, id, k) == HolderOf(w, id, k))
  }

  ghost predicate WorldInv(w: World, h: Shares, base: map<PolicyEntry, set<FlowAction>>) {
    Agrees(w, h) && Inv(h, base, w.e) && Tight(h, w.e)
  }

  lemma HolderIsClause(w: World, s: Slot, k: Key)
    requires s in w.clauses && ProperClause(s, w.clauses[s]) && k in w.clauses[s].matches
    ensures HolderOf(w, s.id, k) == Some(w.clauses[s].action)
  {
  }

  lemma InvGivesSharing(w: World, h: Shares, base: map<PolicyEntry, set<FlowAction>>)
    requires WorldInv(w, h, base)
    ensures SharedExactly(w)
  {
    forall k ensures k in w.e.cache <==> exists s :: s in w.clauses && k in w.clauses[s].matches {
      CachedIffClaimed(h, w.e, k);
      if k in w.e.cache {
        var id :| Claims(h, id, k);
        assert ClaimOf(h, id, k) == HolderOf(w, id, k);
        assert Slot(id, SideOf(k.kind)) in w.clauses;
      } else if s :| s in w.clauses && k in w.clauses[s].matches {
        HolderIsClause(w, s, k);
        assert ClaimOf(h, s.id, k) == HolderOf(w, s.id, k);
        assert Claims(h, s.id, k);
        assert false;
      }
    }
    forall k, id | k in w.e.cache
      ensures Look(w.e.cache[k].actions, id) == Allow(HolderOf(w, id, k))
      ensures id in w.e.cache[k].denyAllRules <==> Denies(HolderOf(w, id, k))
    {
      assert ContextOk(h, k, w.e.cache[k]);
      assert ClaimOf(h, id, k) == HolderOf(w, id, k);
    }
    InvGivesFlows(w, h, base);
  }

  lemma InvGivesFlows(w: World, h: Shares, base: map<PolicyEntry, set<FlowAction>>)
    requires Inv(h, base, w.e)
    ensures forall k: Key | IsRuleTable(k.table) ::
              Look(w.e.sw.flows, ConjEntry(k)) ==
              if k in w.e.cache && w.e.cache[k].actions != map[] then Some(Conjunctions(w.e.cache[k].actions.Values)) else None
    ensures forall k: Key | IsRuleTable(k.table) && DropTableOf(k).Some? ::
              Look(w.e.sw.flows, DropEntry(DropTableOf(k).value, k)) == if k in w.e.cache then Some({Drop}) else None
  {
  }

  /***** Every step keeps it *****/

  function Register(h: Shares, id: RuleId): Shares {
    if id in h then h else h[id := NO_SHARE]
  }

  lemma RegisterKeepsInv(w: World, h: Shares, base: map<PolicyEntry, set<FlowAction>>, id: RuleId)
    requires WorldInv(w, h, base)
    ensures WorldInv(w, Register(h, id), base)
    ensures id in Register(h, id)
  {
    if id !in h {
      EmptyShareKeepsInv(h, base, w.e, id);
      var h' := Register(h, id);
      forall i, k ensures ClaimOf(h', i, k) == ClaimOf(h, i, k) {
      }
      forall k | k in w.e.cache ensures exists i :: Claims(h', i, k) {
        var i :| Claims(h, i, k);
        assert Claims(h', i, k);
      }
    }
  }

  /** A change at key `k` of one clause that the shares follow keeps the two in agreement. */
  lemma ClauseChangeAgrees(w: World, w': World, h: Shares, h': Shares, s: Slot, c': Clause, k: Key)
    requires Agrees(w, h) && s in w.clauses && SameBut(h, h', k)
    requires w'.clauses == w.clauses[s := c'] && ProperClause(s, c')
    requires c'.action == w.clauses[s].action && c'.matches - {k} == w.clauses[s].matches - {k}
    requires SideOf(k.kind) == s.side
    requires forall id :: ClaimOf(h', id, k) == if id != s.id then ClaimOf(h, id, k) else if k in c'.matches then Some(c'.action) else None
    ensures Agrees(w', h')
  {
    forall id, k' ensures ClaimOf(h', id, k') == HolderOf(w', id, k') {
      assert ClaimOf(h, id, k') == HolderOf(w, id, k');
      if k' != k {
        assert ClaimOf(h', id, k') == ClaimOf(h, id, k');
        assert k' in c'.matches <==> k' in c'.matches - {k};
        assert k' in w.clauses[s].matches <==> k' in w.clauses[s].matches - {k};
      }
    }
  }

  lemma AddMatchKeeps(w: World, h: Shares, base: map<PolicyEntry, set<FlowAction>>, s: Slot, k: Key)
    requires WorldInv(w, h, base) && Enabled(w, AddMatch(s, k)) && Do(w, AddMatch(s, k)).ok
    ensures WorldInv(Do(w, AddMatch(s, k)).w, WithClaim(h, w.clauses[s].action, k), base)
  {
    var c := w.clauses[s];
    assert ClaimOf(h, s.id, k) == HolderOf(w, s.id, k);
    assert SharesOk(h);
    assert {} - {k} == {};
    hide Inv, SharesOk, FlowsOk, CacheOk, SameBut, WithClaim, ClaimOf, AddConjunctiveMatchFlow, Loose, Agrees, HolderOf;
    AddKeepsInv(h, base, w.e, c, k);
    AddKeepsLoose(h, base, w.e, c, k, {});
    WithClaimOk(h, c.action, k);
    ClauseChangeAgrees(w, Do(w, AddMatch(s, k)).w, h, WithClaim(h, c.action, k), s, c.(matches := c.matches + {k}), k);
  }

  lemma DeleteMatchKeeps(w: World, h: Shares, base: map<PolicyEntry, set<FlowAction>>, s: Slot, k: Key)
    requires WorldInv(w, h, base) && Enabled(w, DeleteMatch(s, k)) && Do(w, DeleteMatch(s, k)).ok && k in w.clauses[s].matches
    ensures WorldInv(Do(w, DeleteMatch(s, k)).w, WithoutClaim(h, s.id, k), base)
  {
    var c := w.clauses[s];
    assert ProperKey(s.side, c.ruleTable, k);
    assert ClaimOf(h, s.id, k) == HolderOf(w, s.id, k);
    assert SharesOk(h);
    assert {} - {k} == {};
    hide Inv, SharesOk, FlowsOk, CacheOk, SameBut, WithoutClaim, ClaimOf, DeleteConjunctiveMatchFlow, Loose, Agrees, HolderOf;
    var _ := DeleteKeepsLoose(h, base, w.e, c, k, {});
    WithoutClaimOk(h, s.id, k);
    ClauseChangeAgrees(w, Do(w, DeleteMatch(s, k)).w, h, WithoutClaim(h, s.id, k), s, c.(matches := c.matches - {k}), k);
  }

  lemma OwnFlowStepKeeps(w: World, h: Shares, base: map<PolicyEntry, set<FlowAction>>, id: RuleId, cmd: Command<PolicyMatch, set<FlowAction>>)
    requires WorldInv(w, h, base) && id in h && OwnerOf(cmd.flow.entry) == RuleOf(id) && !WillFail(w.e.sw)
    ensures WorldInv(Do(w, OwnFlow(id, cmd)).w, h[id := Share(h[id].claims, Apply(h[id].flows, cmd))], base)
  {
    hide Inv, Tight, ClaimOf, HolderOf, ProperClause;
    var w', h' := Do(w, OwnFlow(id, cmd)).w, h[id := Share(h[id].claims, Apply(h[id].flows, cmd))];
    OwnFlowKeepsInv(h, base, w.e, id, cmd);
    SameClaims(w.e, w'.e, h, id, Apply(h[id].flows, cmd));
    forall i, k ensures HolderOf(w', i, k) == HolderOf(w, i, k) {
      SameHolders(w, w', i, k);
    }
  }

  lemma SameHolders(w: World, w': World, id: RuleId, k: Key)
    requires w'.clauses == w.clauses
    ensures HolderOf(w', id, k) == HolderOf(w, id, k)
  {
  }

  lemma SameClaims(e: Engine, e': Engine, h: Shares, id: RuleId, flows: map<PolicyEntry, set<FlowAction>>)
    requires id in h && e'.cache == e.cache
    ensures forall i, k :: ClaimOf(h[id := Share(h[id].claims, flows)], i, k) == ClaimOf(h, i, k)
    ensures Tight(h, e) ==> Tight(h[id := Share(h[id].claims, flows)], e')
  {
    var h' := h[id := Share(h[id].claims, flows)];
    if Tight(h, e) {
      forall k | k in e.cache ensures exists i :: Claims(h', i, k) {
        var i :| Claims(h, i, k);
        assert Claims(h', i, k);
      }
    }
  }

  /** The birth or end of a clause without matches changes nobody's claims. */
  lemma EmptyClauseKeeps(w: World, w': World, h: Shares, base: map<PolicyEntry, set<FlowAction>>, s: Slot)
    requires WorldInv(w, h, base) && s.id in h && w'.e == w.e
    requires s in w.clauses ==> w.clauses[s].matches == {}
    requires w'.clauses.Keys - {s} == w.clauses.Keys - {s}
    requires forall s' | s' in w.clauses && s' != s :: s' in w'.clauses && w'.clauses[s'] == w.clauses[s']
    requires s in w'.clauses ==> ProperClause(s, w'.clauses[s]) && w'.clauses[s].matches == {}
    ensures WorldInv(w', h, base)
  {
    forall s' | s' in w'.clauses && s' != s ensures s' in w.clauses {
      assert s' in w'.clauses.Keys - {s};
    }
    forall id, k ensures ClaimOf(h, id, k) == HolderOf(w', id, k) {
      assert ClaimOf(h, id, k) == HolderOf(w, id, k);
    }
  }

  /** The action and except flows of a rule. */
  function OwnFlowsIn(h: Shares, id: RuleId): map<PolicyEntry, set<FlowAction>> {
    if id in h then h[id].flows else map[]
  }

  lemma StepKeeps(w: World, h: Shares, base: map<PolicyEntry, set<FlowAction>>, st: Step) returns (h': Shares)
    requires WorldInv(w, h, base) && Enabled(w, st) && Do(w, st).ok
    ensures WorldInv(Do(w, st).w, h', base)
    ensures forall id :: OwnFlowsIn(h', id) ==
              if st.OwnFlow? && st.id == id then Apply(OwnFlowsIn(h, id), st.cmd) else OwnFlowsIn(h, id)
  {
    hide WorldInv;
    match st {
      case Begin(s, c) =>
        RegisterKeepsInv(w, h, base, s.id);
        h' := Register(h, s.id);
        EmptyClauseKeeps(w, Do(w, st).w, h', base, s);
      case AddMatch(s, k) =>
        AddMatchKeeps(w, h, base, s, k);
        h' := WithClaim(h, w.clauses[s].action, k) by { ClauseOwnersRegistered(w, h, base, s); }
      case DeleteMatch(s, k) =>
        if k in w.clauses[s].matches {
          DeleteMatchKeeps(w, h, base, s, k);
          h' := WithoutClaim(h, s.id, k) by { ClauseOwnersRegistered(w, h, base, s); }
        } else {
          assert w.clauses[s := w.clauses[s]] == w.clauses;
          h' := h;
        }
      case OwnFlow(id, cmd) =>
        RegisterKeepsInv(w, h, base, id);
        var g := Register(h, id);
        OwnFlowStepKeeps(w, g, base, id, cmd);
        h' := g[id := Share(g[id].claims, Apply(g[id].flows, cmd))];
      case End(s) =>
        ClauseOwnersRegistered(w, h, base, s);
        h' := h;
        EmptyClauseKeeps(w, Do(w, st).w, h', base, s);
    }
  }

  lemma ClauseOwnersRegistered(w: World, h: Shares, base: map<PolicyEntry, set<FlowAction>>, s: Slot)
    requires WorldInv(w, h, base) && s in w.clauses
    ensures s.id in h && w.clauses[s].action.conj == s.id
  {
  }

  lemma {:induction false} RunKeeps(w: World, h: Shares, base: map<PolicyEntry, set<FlowAction>>, steps: seq<Step>, w': World)
    returns (h': Shares)
    requires WorldInv(w, h, base) && Reaches(w, steps, w')
    ensures WorldInv(w', h', base)
    decreases |steps|
  {
    if steps == [] {
      h' := h;
    } else {
      var h1 := StepKeeps(w, h, base, steps[0]);
      h' := RunKeeps(Do(w, steps[0]).w, h1, base, steps[1..], w');
    }
  }

  /** A client without policies on a switch that holds only its miss flows. */
  ghost predicate Fresh(w: World, base: map<PolicyEntry, set<FlowAction>>) {
    BaseOk(base) && w.e.sw.flows == base && w.e.cache == map[] && w.clauses == map[]
  }

  /**
   After every step of every failure-free interleaving of any number of rules, each context is shared exactly by the
   clauses that hold its key.
   */
  lemma InterleavingInvariant(w: World, base: map<PolicyEntry, set<FlowAction>>, steps: seq<Step>, w': World)
    requires Fresh(w, base) && Reaches(w, steps, w')
    ensures SharedExactly(w')
  {
    assert WorldInv(w, map[], base);
    var h := RunKeeps(w, map[], base, steps, w');
    InvGivesSharing(w', h, base);
  }

  /**
   Drop sharing is sound in every reachable world: clauses that share a context agree on the rule table and on whether and
   where its key has a drop flow, that drop flow is on the switch exactly if they ask for one, and two clauses of one rule
   never share a context.
   */
  lemma DropSharingIsSound(w: World, base: map<PolicyEntry, set<FlowAction>>, steps: seq<Step>, w': World, s1: Slot, s2: Slot, k: Key)
    requires Fresh(w, base) && Reaches(w, steps, w') && s1 in w'.clauses && s2 in w'.clauses
    requires k in w'.clauses[s1].matches && k in w'.clauses[s2].matches
    ensures w'.clauses[s1].ruleTable == w'.clauses[s2].ruleTable
    ensures w'.clauses[s1].dropTable == w'.clauses[s2].dropTable == DropTableOf(k)
    ensures k in w'.e.cache && w'.e.cache[k].dropFlow.Some? == DropTableOf(k).Some?
    ensures DropTableOf(k).Some? ==> Look(w'.e.sw.flows, DropEntry(DropTableOf(k).value, k)) == Some({Drop})
    ensures s1.id == s2.id ==> s1 == s2
  {
    hide Inv, Fresh, Reaches;
    FreshIsOk(w, base);
    var h := RunKeeps(w, map[], base, steps, w');
    InvGivesSharing(w', h, base);
    ProperClausesShare(s1, w'.clauses[s1], s2, w'.clauses[s2], k);
    CachedShape(h, base, w'.e, k);
    assert IsRuleTable(k.table);
  }

  lemma FreshIsOk(w: World, base: map<PolicyEntry, set<FlowAction>>)
    requires Fresh(w, base)
    ensures WorldInv(w, map[], base)
  {
  }

  lemma CachedShape(h: Shares, base: map<PolicyEntry, set<FlowAction>>, e: Engine, k: Key)
    requires Inv(h, base, e) && k in e.cache
    ensures IsRuleTable(k.table) && ContextShape(k, e.cache[k])
  {
  }

  /**
   Two interleavings, however different, that leave the same clauses behind leave the same contexts, conjunctive match
   flows and drop flows behind.
   */
  lemma InterleavingsConverge(w: World, base: map<PolicyEntry, set<FlowAction>>, steps1: seq<Step>, w1: World, steps2: seq<Step>, w2: World)
    requires Fresh(w, base) && Reaches(w, steps1, w1) && Reaches(w, steps2, w2) && w1.clauses == w2.clauses
    ensures w1.e.cache == w2.e.cache
    ensures forall x | OwnerOf(x).ConjOf? || OwnerOf(x).DropOf? :: Look(w1.e.sw.flows, x) == Look(w2.e.sw.flows, x)
  {
    assert WorldInv(w, map[], base);
    var h1 := RunKeeps(w, map[], base, steps1, w1);
    var h2 := RunKeeps(w, map[], base, steps2, w2);
    SameClausesSameState(w1, h1, w2, h2, base);
  }

  lemma SameClausesSameState(w1: World, h1: Shares, w2: World, h2: Shares, base: map<PolicyEntry, set<FlowAction>>)
    requires WorldInv(w1, h1, base) && WorldInv(w2, h2, base) && w1.clauses == w2.clauses
    ensures w1.e.cache == w2.e.cache
    ensures forall x | OwnerOf(x).ConjOf? || OwnerOf(x).DropOf? :: Look(w1.e.sw.flows, x) == Look(w2.e.sw.flows, x)
  {
    forall k ensures Look(w1.e.cache, k) == Look(w2.e.cache, k) {
      SameClausesSameContext(w1, h1, w2, h2, base, k);
    }
    LookDetermines(w1.e.cache, w2.e.cache);
    forall x | OwnerOf(x).ConjOf? || OwnerOf(x).DropOf? ensures Look(w1.e.sw.flows, x) == Look(w2.e.sw.flows, x) {
      assert Look(w1.e.sw.flows, x) == Want(h1, base, w1.e.cache, x);
      assert Look(w2.e.sw.flows, x) == Want(h2, base, w2.e.cache, x);
    }
  }

  lemma SameClausesSameContext(w1: World, h1: Shares, w2: World, h2: Shares, base: map<PolicyEntry, set<FlowAction>>, k: Key)
    requires WorldInv(w1, h1, base) && WorldInv(w2, h2, base) && w1.clauses == w2.clauses
    ensures Look(w1.e.cache, k) == Look(w2.e.cache, k)
  {
    forall id ensures ClaimOf(h1, id, k) == ClaimOf(h2, id, k) {
      assert ClaimOf(h1, id, k) == HolderOf(w1, id, k);
      assert ClaimOf(h2, id, k) == HolderOf(w2, id, k);
    }
    CachedIffClaimed(h1, w1.e, k);
    CachedIffClaimed(h2, w2.e, k);
    if k in w1.e.cache {
      var id :| Claims(h1, id, k);
      assert Claims(h2, id, k);
      assert ContextOk(h1, k, w1.e.cache[k]);
      assert ContextOk(h2, k, w2.e.cache[k]);
      ContextDetermined(h1, k, w1.e.cache[k], w2.e.cache[k]);
    } else {
      forall id ensures !Claims(h2, id, k) {
        assert !Claims(h1, id, k);
      }
    }
  }
}
