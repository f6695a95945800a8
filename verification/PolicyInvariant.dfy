/**
 The sharing invariant: the context cache and every flow entry of the policy tables are a function of what each rule
 currently claims.  Rules may be finished or half-way through a call, and the steps of different rules may interleave.
 */
module PolicyInvariant {
  import opened OpenFlow
  import opened PolicyTypes
  import opened PolicyEngine

  /** What one rule owns: the keys it claims with its conjunctive actions, and its action and except flows. */
  datatype Share = Share(claims: map<Key, Act>, flows: map<PolicyEntry, set<FlowAction>>)

  const NO_SHARE := Share(map[], map[])

  type Shares = map<RuleId, Share>

  /** The conjunctive action with which rule `id` claims key `k`. */
  function ClaimOf(h: Shares, id: RuleId, k: Key): Option<Act> {
    if id in h then Look(h[id].claims, k) else None
  }

  predicate Claims(h: Shares, id: RuleId, k: Key) {
    ClaimOf(h, id, k).Some?
  }

  predicate IsRuleTable(t: TableId) {
    t == EGRESS_RULE_TABLE || t == INGRESS_RULE_TABLE
  }

  /** The default table in which a key owns a drop flow: the key decides, not the clause that met it first. */
  function DropTableOf(k: Key): Option<TableId> {
    if k.table == EGRESS_RULE_TABLE && IsSrcKind(k.kind) then Some(EGRESS_DEFAULT_TABLE)
    else if k.table == INGRESS_RULE_TABLE && IsDstKind(k.kind) then Some(INGRESS_DEFAULT_TABLE)
    else None
  }

  /***** Ownership of flow entries *****/

  datatype Owner = ConjOf(k: Key) | DropOf(k: Key) | RuleOf(id: RuleId) | Nobody

  function OwnerOf(x: PolicyEntry): Owner {
    match x.on
    case OnKey(kind, value) =>
      if x.priority != PRIORITY_NORMAL then Nobody
      else if IsRuleTable(x.table) then ConjOf(Key(x.table, kind, value))
      else if x.table == EGRESS_DEFAULT_TABLE && IsSrcKind(kind) then DropOf(Key(EGRESS_RULE_TABLE, kind, value))
      else if x.table == INGRESS_DEFAULT_TABLE && IsDstKind(kind) then DropOf(Key(INGRESS_RULE_TABLE, kind, value))
      else Nobody
    case OnConj(id) => RuleOf(id)
    case OnConjKey(id, _, _) => RuleOf(id)
    case OnIP => Nobody
  }

  function Actions(f: Option<PolicyFlow>): Option<set<FlowAction>> {
    if f.Some? then Some(f.value.actions) else None
  }

  /** The actions that an entry must have, given the shares, the cache and the flows that were there before. */
  function Want(h: Shares, base: map<PolicyEntry, set<FlowAction>>, cache: map<Key, Context>, x: PolicyEntry)
    : Option<set<FlowAction>>
  {
    match OwnerOf(x)
    case ConjOf(k) => if k in cache then Actions(cache[k].flow) else None
    case DropOf(k) => if k in cache then Actions(cache[k].dropFlow) else None
    case RuleOf(id) => if id in h then Look(h[id].flows, x) else None
    case Nobody => Look(base, x)
  }

  /***** The invariant *****/

  /** A context holds exactly the claims on its key, and its two flows follow from them. */
  ghost predicate ContextOk(h: Shares, k: Key, ctx: Context) {
    && (forall id :: Look(ctx.actions, id) == Allow(ClaimOf(h, id, k)))
    && (forall id :: id in ctx.denyAllRules <==> Denies(ClaimOf(h, id, k)))
    && ContextShape(k, ctx)
  }

  function Allow(a: Option<Act>): Option<Act> {
    if a.Some? && a.value.n > 1 then a else None
  }

  predicate Denies(a: Option<Act>) {
    a.Some? && a.value.n <= 1
  }

  predicate ContextShape(k: Key, ctx: Context) {
    && ctx.flow == (if ctx.actions == map[] then None else Some(ConjunctiveMatchFlow(k, ctx.actions.Values)))
    && ctx.dropFlow == (if DropTableOf(k).Some? then Some(DefaultDropFlow(DropTableOf(k).value, k)) else None)
  }

  predicate BaseOk(base: map<PolicyEntry, set<FlowAction>>) {
    forall x | x in base :: x.on.OnIP?
  }

  predicate ShareOk(id: RuleId, s: Share) {
    && (forall k | k in s.claims :: s.claims[k].conj == id && IsRuleTable(k.table))
    && (forall x | x in s.flows :: OwnerOf(x) == RuleOf(id))
  }

  predicate SharesOk(h: Shares) {
    forall id | id in h :: ShareOk(id, h[id])
  }

  ghost predicate FlowsOk(h: Shares, base: map<PolicyEntry, set<FlowAction>>, e: Engine) {
    forall x :: Look(e.sw.flows, x) == Want(h, base, e.cache, x)
  }

  ghost predicate CacheOk(h: Shares, e: Engine) {
    && (forall k | k in e.cache :: IsRuleTable(k.table) && ContextOk(h, k, e.cache[k]))
    && (forall id, k | Claims(h, id, k) :: k in e.cache)
  }

  /** The invariant of every reachable state; a failed command may leave a cached context that nobody claims. */
  ghost predicate Inv(h: Shares, base: map<PolicyEntry, set<FlowAction>>, e: Engine) {
    BaseOk(base) && SharesOk(h) && CacheOk(h, e) && FlowsOk(h, base, e)
  }

  /** Every cached key is claimed, except perhaps some of `spare`. */
  ghost predicate Loose(h: Shares, e: Engine, spare: set<Key>) {
    forall k | k in e.cache && k !in spare :: exists id :: Claims(h, id, k)
  }

  /** No cached context is left without a claim; failure-free runs keep this. */
  ghost predicate Tight(h: Shares, e: Engine) {
    Loose(h, e, {})
  }

  /***** One context at a time *****/

  /** The flows agree with `f0` except on the entries of key `k`, which are those of the context. */
  ghost predicate Local(flows: map<PolicyEntry, set<FlowAction>>, f0: map<PolicyEntry, set<FlowAction>>, k: Key, ctx: Context) {
    forall x :: Look(flows, x) ==
      if OwnerOf(x) == ConjOf(k) then Actions(ctx.flow)
      else if OwnerOf(x) == DropOf(k) then Actions(ctx.dropFlow)
      else Look(f0, x)
  }

  predicate Tidy(flows: map<PolicyEntry, set<FlowAction>>) {
    forall x | x in flows && x.on.OnKey? :: OwnerOf(x) != Nobody
  }

  lemma OwnerOfKey(k: Key, x: PolicyEntry)
    requires IsRuleTable(k.table)
    ensures OwnerOf(x) == ConjOf(k) <==> x == ConjEntry(k)
    ensures OwnerOf(x) == DropOf(k) <==> DropTableOf(k).Some? && x == DropEntry(DropTableOf(k).value, k)
  {
  }

  /** Adding, modifying or deleting the conjunctive match flow of a context touches that one entry. */
  lemma InstallOrUpdateLocal(f0: map<PolicyEntry, set<FlowAction>>, ctx: Context, k: Key, acts: set<Act>, sw: PolicySwitch)
    requires IsRuleTable(k.table) && Tidy(f0) && Local(sw.flows, f0, k, ctx) && ContextShape(k, ctx)
    ensures var r := InstallOrUpdateFlow(ctx, k, acts, sw);
            && Local(r.sw.flows, f0, k, r.ctx)
            && (!r.ok ==> r.ctx == ctx)
            && (r.ok ==> r.ctx == ctx.(flow := if ctx.flow.None? && acts == {} then None
                                               else Some(ConjunctiveMatchFlow(k, acts))))
  {
  }

  lemma DeleteFlowLocal(f0: map<PolicyEntry, set<FlowAction>>, ctx: Context, k: Key, sw: PolicySwitch)
    requires IsRuleTable(k.table) && Tidy(f0) && Local(sw.flows, f0, k, ctx)
    ensures ctx.flow.Some? && ctx.flow.value.entry == ConjEntry(k) && !WillFail(sw) ==>
              Local(Exec(sw, Delete(ctx.flow.value)).flows, f0, k, ctx.(flow := None))
    ensures ctx.dropFlow.Some? && DropTableOf(k).Some? && ctx.dropFlow.value.entry == DropEntry(DropTableOf(k).value, k)
            && !WillFail(sw) ==>
              Local(Exec(sw, Delete(ctx.dropFlow.value)).flows, f0, k, ctx.(dropFlow := None))
  {
  }

  predicate ActionsOwned(ctx: Context) {
    forall id | id in ctx.actions :: ctx.actions[id].conj == id
  }

  lemma ValuesAdd(m: map<RuleId, Act>, id: RuleId, a: Act)
    requires id !in m
    ensures m[id := a].Values == m.Values + {a}
  {
    var m' := m[id := a];
    forall v | v in m.Values + {a} ensures v in m'.Values {
      if v == a {
        assert m'[id] == v;
      } else {
        var i :| i in m && m[i] == v;
        assert m'[i] == v;
      }
    }
  }

  lemma ValuesLeft(m: map<RuleId, Act>, id: RuleId)
    requires forall i | i in m :: m[i].conj == i
    ensures LeftActions(m, id) == (m - {id}).Values
    ensures |m| == 1 && id in m ==> m - {id} == map[]
    ensures |m| != 1 && id in m ==> m - {id} != map[]
  {
    forall v | v in LeftActions(m, id) ensures v in (m - {id}).Values {
      var i :| i in m && m[i] == v;
      assert i in m - {id} && (m - {id})[i] == v;
    }
    if id in m {
      assert (m - {id}).Keys == m.Keys - {id};
      assert |m.Keys - {id}| == |m| - 1;
      if m - {id} == map[] {
        assert m.Keys - {id} == {};
      }
      if |m| == 1 {
        assert m.Keys - {id} == {};
      }
    }
  }

  /** Claiming a context: all or nothing, and no entry of another key changes. */
  lemma ClaimLocal(f0: map<PolicyEntry, set<FlowAction>>, ctx: Context, k: Key, act: Act, sw: PolicySwitch)
    requires IsRuleTable(k.table) && Tidy(f0) && Local(sw.flows, f0, k, ctx) && ContextShape(k, ctx)
    requires act.conj in ctx.actions ==> act.n > 1 && ctx.actions[act.conj] == act
    ensures var r := Claim(ctx, k, act, sw);
            && Local(r.sw.flows, f0, k, r.ctx) && ContextShape(k, r.ctx)
            && (!r.ok ==> r.ctx == ctx)
            && (r.ok ==> r.ctx.actions == if act.n > 1 then ctx.actions[act.conj := act] else ctx.actions)
            && (r.ok ==> r.ctx.denyAllRules == if act.n > 1 then ctx.denyAllRules else ctx.denyAllRules + {act.conj})
  {
    if act.n > 1 {
      if act.conj in ctx.actions {
        assert ctx.actions[act.conj := act] == ctx.actions;
      } else {
        InstallOrUpdateLocal(f0, ctx, k, ctx.actions.Values + {act}, sw);
        ValuesAdd(ctx.actions, act.conj, act);
        var r := Claim(ctx, k, act, sw);
        if r.ok {
          assert act.conj in r.ctx.actions;
        }
      }
    }
  }

  /** Disclaiming a context: all or nothing, and no entry of another key changes. */
  lemma DisclaimLocal(f0: map<PolicyEntry, set<FlowAction>>, ctx: Context, k: Key, act: Act, sw: PolicySwitch)
    requires IsRuleTable(k.table) && Tidy(f0) && Local(sw.flows, f0, k, ctx) && ContextShape(k, ctx) && ActionsOwned(ctx)
    ensures var r := Disclaim(ctx, k, act, sw);
            && Local(r.sw.flows, f0, k, r.ctx) && ContextShape(k, r.ctx)
            && (!r.ok ==> r.ctx == ctx)
            && (r.ok ==> r.ctx.actions == if act.n > 1 then ctx.actions - {act.conj} else ctx.actions)
            && (r.ok ==> r.ctx.denyAllRules == if act.n > 1 then ctx.denyAllRules else ctx.denyAllRules - {act.conj})
  {
    if act.n > 1 {
      if act.conj in ctx.actions {
        ValuesLeft(ctx.actions, act.conj);
        DeleteFlowLocal(f0, ctx, k, sw);
        InstallOrUpdateLocal(f0, ctx, k, LeftActions(ctx.actions, act.conj), sw);
        assert ctx.actions != map[];
      } else {
        assert ctx.actions - {act.conj} == ctx.actions;
      }
    }
  }

  /**
   Releasing a context.  On failure either nothing happened or only the drop flow is left to delete; the context leaves
   the cache exactly when its last claim has gone, and then it has no flow left.
   */
  lemma ReleaseLocal(f0: map<PolicyEntry, set<FlowAction>>, ctx: Context, k: Key, act: Act, sw: PolicySwitch)
    requires IsRuleTable(k.table) && Tidy(f0) && Local(sw.flows, f0, k, ctx) && ContextShape(k, ctx) && ActionsOwned(ctx)
    ensures var r := Release(ctx, k, act, sw);
            var actions := if act.n > 1 then ctx.actions - {act.conj} else ctx.actions;
            var denied := if act.n > 1 then ctx.denyAllRules else ctx.denyAllRules - {act.conj};
            && Local(r.sw.flows, f0, k, r.ctx)
            && (r.ok || r.ctx != ctx ==> r.ctx.actions == actions && r.ctx.denyAllRules == denied)
            && (!r.ok ==> !r.evict && ContextShape(k, r.ctx) && (r.ctx == ctx || (actions == map[] && denied == {})))
            && (r.ok ==> r.evict == (actions == map[] && denied == {}))
            && (r.evict ==> r.ctx.flow.None? && r.ctx.dropFlow.None?)
            && (!r.evict ==> ContextShape(k, r.ctx))
  {
    DisclaimLocal(f0, ctx, k, act, sw);
    var d := Disclaim(ctx, k, act, sw);
    DeleteFlowLocal(f0, d.ctx, k, d.sw);
  }

  /***** One locked step at a time *****/

  function WithClaim(h: Shares, act: Act, k: Key): Shares
    requires act.conj in h
  {
    h[act.conj := Share(h[act.conj].claims[k := act], h[act.conj].flows)]
  }

  function WithoutClaim(h: Shares, id: RuleId, k: Key): Shares
    requires id in h
  {
    h[id := Share(h[id].claims - {k}, h[id].flows)]
  }

  lemma InvIsLocal(h: Shares, base: map<PolicyEntry, set<FlowAction>>, e: Engine, k: Key)
    requires Inv(h, base, e)
    ensures Tidy(e.sw.flows)
    ensures Local(e.sw.flows, e.sw.flows, k, if k in e.cache then e.cache[k] else EMPTY_CONTEXT)
    ensures k in e.cache ==> ActionsOwned(e.cache[k])
  {
    if k in e.cache {
      forall id | id in e.cache[k].actions ensures e.cache[k].actions[id].conj == id {
        assert Look(e.cache[k].actions, id) == Allow(ClaimOf(h, id, k));
      }
    }
    forall x | x in e.sw.flows && x.on.OnKey? ensures OwnerOf(x) != Nobody {
      assert Look(e.sw.flows, x) == Want(h, base, e.cache, x);
    }
    forall x
      ensures Look(e.sw.flows, x) == Want(h, base, e.cache, x)
    {
    }
  }

  /** Two families of shares that differ at most in who claims key `k`. */
  ghost predicate SameBut(h: Shares, h': Shares, k: Key) {
    && h.Keys == h'.Keys
    && (forall id | id in h :: h'[id].flows == h[id].flows)
    && (forall id, k' | k' != k :: ClaimOf(h', id, k') == ClaimOf(h, id, k'))
  }

  /** A change of key `k`'s context and of its entries alone carries the invariant over. */
  lemma LocalChangeKeepsInv(h: Shares, h': Shares, base: map<PolicyEntry, set<FlowAction>>, e: Engine, e': Engine, k: Key, ctx: Context)
    requires Inv(h, base, e) && SharesOk(h') && SameBut(h, h', k) && IsRuleTable(k.table)
    requires Local(e'.sw.flows, e.sw.flows, k, ctx)
    requires forall k' | k' != k :: Look(e'.cache, k') == Look(e.cache, k')
    requires if k in e'.cache then e'.cache[k] == ctx && ContextOk(h', k, ctx)
             else ctx.flow.None? && ctx.dropFlow.None? && forall id :: ClaimOf(h', id, k).None?
    ensures Inv(h', base, e')
  {
    LocalChangeKeepsFlows(h, h', base, e, e', k, ctx);
    forall k' | k' in e'.cache ensures IsRuleTable(k'.table) && ContextOk(h', k', e'.cache[k']) {
      if k' != k {
        assert Look(e'.cache, k') == Look(e.cache, k');
        OtherContextOk(h, h', k, k', e.cache[k']);
      }
    }
    forall id, k' | Claims(h', id, k') ensures k' in e'.cache {
      if k' != k {
        assert ClaimOf(h', id, k') == ClaimOf(h, id, k');
        assert Claims(h, id, k');
        assert Look(e'.cache, k') == Look(e.cache, k');
      }
    }
  }

  lemma LocalChangeKeepsFlows(h: Shares, h': Shares, base: map<PolicyEntry, set<FlowAction>>, e: Engine, e': Engine, k: Key, ctx: Context)
    requires FlowsOk(h, base, e) && SameBut(h, h', k)
    requires Local(e'.sw.flows, e.sw.flows, k, ctx)
    requires forall k' | k' != k :: Look(e'.cache, k') == Look(e.cache, k')
    requires if k in e'.cache then e'.cache[k] == ctx else ctx.flow.None? && ctx.dropFlow.None?
    ensures FlowsOk(h', base, e')
  {
    forall x ensures Look(e'.sw.flows, x) == Want(h', base, e'.cache, x) {
      assert Look(e.sw.flows, x) == Want(h, base, e.cache, x);
      match OwnerOf(x) {
        case ConjOf(k') => assert k' != k ==> Look(e'.cache, k') == Look(e.cache, k');
        case DropOf(k') => assert k' != k ==> Look(e'.cache, k') == Look(e.cache, k');
        case _ =>
      }
    }
  }

  lemma OtherContextOk(h: Shares, h': Shares, k: Key, k': Key, ctx: Context)
    requires SameBut(h, h', k) && k' != k && ContextOk(h, k', ctx)
    ensures ContextOk(h', k', ctx)
  {
  }

  lemma WithClaimOk(h: Shares, act: Act, k: Key)
    requires SharesOk(h) && act.conj in h && IsRuleTable(k.table)
    ensures var h' := WithClaim(h, act, k);
            && SharesOk(h') && SameBut(h, h', k)
            && forall id :: ClaimOf(h', id, k) == if id == act.conj then Some(act) else ClaimOf(h, id, k)
  {
  }

  lemma WithoutClaimOk(h: Shares, gone: RuleId, k: Key)
    requires SharesOk(h) && gone in h
    ensures var h' := WithoutClaim(h, gone, k);
            && SharesOk(h') && SameBut(h, h', k)
            && forall id :: ClaimOf(h', id, k) == if id == gone then None else ClaimOf(h, id, k)
  {
  }

  /** The context before the step: the cached one, or an empty one with the drop flow that the key asks for. */
  function ContextBefore(e: Engine, k: Key): Context {
    if k in e.cache then e.cache[k]
    else EMPTY_CONTEXT.(dropFlow := if DropTableOf(k).Some? then Some(DefaultDropFlow(DropTableOf(k).value, k)) else None)
  }

  lemma FindOrCreateLocal(h: Shares, base: map<PolicyEntry, set<FlowAction>>, e: Engine, c: Clause, k: Key)
    requires Inv(h, base, e) && IsRuleTable(k.table) && c.dropTable == DropTableOf(k)
    ensures ContextOk(h, k, ContextBefore(e, k))
    ensures var (found, sw) := FindOrCreate(e, c, k);
            && (found.None? ==> sw.flows == e.sw.flows)
            && (found.Some? ==> found.value == ContextBefore(e, k) && Local(sw.flows, e.sw.flows, k, found.value))
  {
    InvIsLocal(h, base, e, k);
    var (found, sw) := FindOrCreate(e, c, k);
    if k !in e.cache {
      forall id ensures ClaimOf(h, id, k).None? {
        assert !Claims(h, id, k);
      }
      if found.Some? {
        forall x
          ensures Look(sw.flows, x) ==
            if OwnerOf(x) == ConjOf(k) then Actions(found.value.flow)
            else if OwnerOf(x) == DropOf(k) then Actions(found.value.dropFlow)
            else Look(e.sw.flows, x)
        {
          OwnerOfKey(k, x);
          assert Look(e.sw.flows, x) ==
            if OwnerOf(x) == ConjOf(k) then Actions(EMPTY_CONTEXT.flow)
            else if OwnerOf(x) == DropOf(k) then Actions(EMPTY_CONTEXT.dropFlow)
            else Look(e.sw.flows, x);
        }
      }
    }
  }

  lemma ClaimedContextOk(h: Shares, k: Key, act: Act, before: Context, ctx: Context)
    requires SharesOk(h) && act.conj in h && IsRuleTable(k.table)
    requires ContextOk(h, k, before) && ContextShape(k, ctx)
    requires ClaimOf(h, act.conj, k) in {None, Some(act)}
    requires ctx.actions == if act.n > 1 then before.actions[act.conj := act] else before.actions
    requires ctx.denyAllRules == if act.n > 1 then before.denyAllRules else before.denyAllRules + {act.conj}
    ensures ContextOk(WithClaim(h, act, k), k, ctx)
  {
    WithClaimOk(h, act, k);
    var h' := WithClaim(h, act, k);
    forall id
      ensures Look(ctx.actions, id) == Allow(ClaimOf(h', id, k))
      ensures id in ctx.denyAllRules <==> Denies(ClaimOf(h', id, k))
    {
      assert Look(before.actions, id) == Allow(ClaimOf(h, id, k));
      assert id in before.denyAllRules <==> Denies(ClaimOf(h, id, k));
    }
  }

  lemma ReleasedContextOk(h: Shares, k: Key, act: Act, before: Context, ctx: Context)
    requires SharesOk(h) && act.conj in h
    requires ContextOk(h, k, before)
    requires ClaimOf(h, act.conj, k) in {None, Some(act)}
    requires ctx.actions == if act.n > 1 then before.actions - {act.conj} else before.actions
    requires ctx.denyAllRules == if act.n > 1 then before.denyAllRules else before.denyAllRules - {act.conj}
    ensures ContextShape(k, ctx) ==> ContextOk(WithoutClaim(h, act.conj, k), k, ctx)
    ensures ctx.actions == map[] && ctx.denyAllRules == {} ==>
              forall id :: ClaimOf(WithoutClaim(h, act.conj, k), id, k).None?
  {
    WithoutClaimOk(h, act.conj, k);
    var h' := WithoutClaim(h, act.conj, k);
    forall id
      ensures Look(ctx.actions, id) == Allow(ClaimOf(h', id, k))
      ensures id in ctx.denyAllRules <==> Denies(ClaimOf(h', id, k))
      ensures ctx.actions == map[] && ctx.denyAllRules == {} ==> ClaimOf(h', id, k).None?
    {
      assert Look(before.actions, id) == Allow(ClaimOf(h, id, k));
      assert id in before.denyAllRules <==> Denies(ClaimOf(h, id, k));
    }
  }

  /**
   addConjunctiveMatchFlow keeps the invariant whatever command fails: the clause's rule has claimed the key if the call
   succeeded, and otherwise nobody's claims changed.
   */
  lemma AddKeepsInv(h: Shares, base: map<PolicyEntry, set<FlowAction>>, e: Engine, c: Clause, k: Key)
    requires Inv(h, base, e) && c.action.conj in h
    requires IsRuleTable(k.table) && c.dropTable == DropTableOf(k)
    requires ClaimOf(h, c.action.conj, k) in {None, Some(c.action)}
    requires k in c.matches ==> Claims(h, c.action.conj, k)
    ensures var r := AddConjunctiveMatchFlow(e, c, k);
            && Inv(if r.ok then WithClaim(h, c.action, k) else h, base, r.e)
            && e.cache.Keys <= r.e.cache.Keys <= e.cache.Keys + {k}
            && r.clause == (if r.ok then c.(matches := c.matches + {k}) else c)
  {
    var r := AddConjunctiveMatchFlow(e, c, k);
    var act := c.action;
    if k in c.matches {
      assert h[act.conj].claims[k := act] == h[act.conj].claims;
      assert WithClaim(h, act, k) == h;
      assert c.matches + {k} == c.matches;
    } else {
      var (found, sw) := FindOrCreate(e, c, k);
      FindOrCreateLocal(h, base, e, c, k);
      if found.None? {
        SameFlowsKeepInv(h, base, e, r.e);
      } else {
        AddClaimKeepsInv(h, base, e, act, k, sw);
      }
    }
  }

  lemma SameFlowsKeepInv(h: Shares, base: map<PolicyEntry, set<FlowAction>>, e: Engine, e': Engine)
    requires Inv(h, base, e) && e'.cache == e.cache && e'.sw.flows == e.sw.flows
    ensures Inv(h, base, e')
  {
  }

  lemma AddClaimKeepsInv(h: Shares, base: map<PolicyEntry, set<FlowAction>>, e: Engine, act: Act, k: Key, sw: PolicySwitch)
    requires Inv(h, base, e) && act.conj in h && IsRuleTable(k.table)
    requires ClaimOf(h, act.conj, k) in {None, Some(act)}
    requires ContextOk(h, k, ContextBefore(e, k))
    requires Local(sw.flows, e.sw.flows, k, ContextBefore(e, k))
    ensures var r := Claim(ContextBefore(e, k), k, act, sw);
            Inv(if r.ok then WithClaim(h, act, k) else h, base, Engine(e.cache[k := r.ctx], r.sw))
  {
    var ctx := ContextBefore(e, k);
    var r := Claim(ctx, k, act, sw);
    InvIsLocal(h, base, e, k);
    assert Look(ctx.actions, act.conj) == Allow(ClaimOf(h, act.conj, k));
    ClaimLocal(e.sw.flows, ctx, k, act, sw);
    var e' := Engine(e.cache[k := r.ctx], r.sw);
    if r.ok {
      ClaimedContextOk(h, k, act, ctx, r.ctx);
      WithClaimOk(h, act, k);
      LocalChangeKeepsInv(h, WithClaim(h, act, k), base, e, e', k, r.ctx);
    } else {
      LocalChangeKeepsInv(h, h, base, e, e', k, r.ctx);
    }
  }

  /**
   deleteConjunctiveMatchFlow keeps the invariant whatever command fails.  A failure leaves the claim in place, or leaves
   a context without claims in the cache and its key in the clause.
   */
  lemma DeleteKeepsInv(h: Shares, base: map<PolicyEntry, set<FlowAction>>, e: Engine, c: Clause, k: Key) returns (released: bool)
    requires Inv(h, base, e) && c.action.conj in h && k in c.matches && IsRuleTable(k.table)
    requires ClaimOf(h, c.action.conj, k) in {None, Some(c.action)}
    ensures var r := DeleteConjunctiveMatchFlow(e, c, k);
            && Inv(if released then WithoutClaim(h, c.action.conj, k) else h, base, r.e)
            && (r.ok ==> released)
            && e.cache.Keys - {k} <= r.e.cache.Keys <= e.cache.Keys
            && (r.ok && k in r.e.cache ==> exists id :: id != c.action.conj && Claims(h, id, k))
            && r.clause == (if r.ok then c.(matches := c.matches - {k}) else c)
  {
    var r := DeleteConjunctiveMatchFlow(e, c, k);
    var id := c.action.conj;
    WithoutClaimOk(h, id, k);
    if k !in e.cache {
      released := true;
      assert !Claims(h, id, k);
      assert h[id].claims - {k} == h[id].claims;
      assert WithoutClaim(h, id, k) == h;
      assert e.cache - {k} == e.cache;
      SameFlowsKeepInv(h, base, e, r.e);
    } else {
      released := ReleaseKeepsInv(h, base, e, c.action, k);
    }
  }

  lemma ReleaseKeepsInv(h: Shares, base: map<PolicyEntry, set<FlowAction>>, e: Engine, act: Act, k: Key) returns (released: bool)
    requires Inv(h, base, e) && act.conj in h && k in e.cache && IsRuleTable(k.table)
    requires ClaimOf(h, act.conj, k) in {None, Some(act)}
    ensures var r := Release(e.cache[k], k, act, e.sw);
            && Inv(if released then WithoutClaim(h, act.conj, k) else h, base,
                   Engine(if r.evict then e.cache - {k} else e.cache[k := r.ctx], r.sw))
            && (r.ok ==> released)
            && (r.ok && !r.evict ==> exists id :: id != act.conj && Claims(h, id, k))
  {
    var ctx := e.cache[k];
    InvIsLocal(h, base, e, k);
    ReleaseLocal(e.sw.flows, ctx, k, act, e.sw);
    var r := Release(ctx, k, act, e.sw);
    var e' := Engine(if r.evict then e.cache - {k} else e.cache[k := r.ctx], r.sw);
    released := r.ok || r.ctx != ctx;
    if released {
      ReleasedKeepsInv(h, base, e, act, k, r.ctx, e', r.evict);
      if r.ok && !r.evict {
        ReleasedContextOk(h, k, act, ctx, r.ctx);
        SomeoneClaims(WithoutClaim(h, act.conj, k), k, r.ctx);
        WithoutClaimOk(h, act.conj, k);
        var id :| Claims(WithoutClaim(h, act.conj, k), id, k);
        assert id != act.conj && Claims(h, id, k);
      }
    } else {
      LocalChangeKeepsInv(h, h, base, e, e', k, r.ctx);
    }
  }

  lemma CachedIsOk(h: Shares, base: map<PolicyEntry, set<FlowAction>>, e: Engine, k: Key)
    requires Inv(h, base, e) && k in e.cache
    ensures SharesOk(h) && ContextOk(h, k, e.cache[k])
  {
  }

  lemma ReleasedKeepsInv(h: Shares, base: map<PolicyEntry, set<FlowAction>>, e: Engine, act: Act, k: Key, ctx: Context, e': Engine, evict: bool)
    requires Inv(h, base, e) && act.conj in h && k in e.cache && IsRuleTable(k.table)
    requires ClaimOf(h, act.conj, k) in {None, Some(act)}
    requires ctx.actions == if act.n > 1 then e.cache[k].actions - {act.conj} else e.cache[k].actions
    requires ctx.denyAllRules == if act.n > 1 then e.cache[k].denyAllRules else e.cache[k].denyAllRules - {act.conj}
    requires e'.cache == if evict then e.cache - {k} else e.cache[k := ctx]
    requires Local(e'.sw.flows, e.sw.flows, k, ctx)
    requires if evict then ctx.flow.None? && ctx.dropFlow.None? && ctx.actions == map[] && ctx.denyAllRules == {}
             else ContextShape(k, ctx)
    ensures Inv(WithoutClaim(h, act.conj, k), base, e')
  {
    hide Inv, SharesOk, ContextOk, SameBut, Local, ContextShape, WithoutClaim, ClaimOf;
    CachedIsOk(h, base, e, k);
    WithoutClaimOk(h, act.conj, k);
    ReleasedContextOk(h, k, act, e.cache[k], ctx);
    LocalChangeKeepsInv(h, WithoutClaim(h, act.conj, k), base, e, e', k, ctx);
  }

  lemma SomeoneClaims(h: Shares, k: Key, ctx: Context)
    requires ContextOk(h, k, ctx) && (ctx.actions != map[] || ctx.denyAllRules != {})
    ensures exists id :: Claims(h, id, k)
  {
    if ctx.actions != map[] {
      var id :| id in ctx.actions;
      assert Look(ctx.actions, id) == Allow(ClaimOf(h, id, k));
      assert Claims(h, id, k);
    } else {
      var id :| id in ctx.denyAllRules;
      assert Denies(ClaimOf(h, id, k));
      assert Claims(h, id, k);
    }
  }

  /***** Contexts without a claim *****/

  lemma AddKeepsLoose(h: Shares, base: map<PolicyEntry, set<FlowAction>>, e: Engine, c: Clause, k: Key, spare: set<Key>)
    requires Inv(h, base, e) && c.action.conj in h && Loose(h, e, spare)
    requires IsRuleTable(k.table) && c.dropTable == DropTableOf(k)
    requires ClaimOf(h, c.action.conj, k) in {None, Some(c.action)}
    requires k in c.matches ==> Claims(h, c.action.conj, k)
    ensures var r := AddConjunctiveMatchFlow(e, c, k);
            if r.ok then Loose(WithClaim(h, c.action, k), r.e, spare - {k}) else Loose(h, r.e, spare + {k})
  {
    AddKeepsInv(h, base, e, c, k);
    WithClaimOk(h, c.action, k);
    var r := AddConjunctiveMatchFlow(e, c, k);
    var h' := WithClaim(h, c.action, k);
    if r.ok {
      forall k' | k' in r.e.cache && k' !in spare - {k} ensures exists id :: Claims(h', id, k') {
        if k' == k {
          assert Claims(h', c.action.conj, k);
        } else {
          var id :| Claims(h, id, k');
          assert ClaimOf(h', id, k') == ClaimOf(h, id, k');
          assert Claims(h', id, k');
        }
      }
    }
  }

  lemma DeleteKeepsLoose(h: Shares, base: map<PolicyEntry, set<FlowAction>>, e: Engine, c: Clause, k: Key, spare: set<Key>)
    returns (released: bool)
    requires Inv(h, base, e) && c.action.conj in h && k in c.matches && IsRuleTable(k.table) && Loose(h, e, spare)
    requires ClaimOf(h, c.action.conj, k) in {None, Some(c.action)}
    ensures var r := DeleteConjunctiveMatchFlow(e, c, k);
            var h' := if released then WithoutClaim(h, c.action.conj, k) else h;
            && Inv(h', base, r.e)
            && (r.ok ==> released)
            && Loose(h', r.e, if r.ok then spare - {k} else spare + {k})
            && r.clause == (if r.ok then c.(matches := c.matches - {k}) else c)
  {
    released := DeleteKeepsInv(h, base, e, c, k);
    WithoutClaimOk(h, c.action.conj, k);
    var r := DeleteConjunctiveMatchFlow(e, c, k);
    var h' := if released then WithoutClaim(h, c.action.conj, k) else h;
    forall k' | k' in r.e.cache && k' !in (if r.ok then spare - {k} else spare + {k})
      ensures exists id :: Claims(h', id, k')
    {
      var id :| Claims(h, id, k') && (k' == k ==> id != c.action.conj);
      assert ClaimOf(h', id, k') == ClaimOf(h, id, k');
      assert Claims(h', id, k');
    }
  }

  /***** Action and except flows *****/

  /** A command on one of rule `id`'s own entries changes that rule's flows and nothing else. */
  lemma OwnFlowKeepsInv(h: Shares, base: map<PolicyEntry, set<FlowAction>>, e: Engine, id: RuleId, cmd: Command<PolicyMatch, set<FlowAction>>)
    requires Inv(h, base, e) && id in h && OwnerOf(cmd.flow.entry) == RuleOf(id)
    ensures var h' := if WillFail(e.sw) then h else h[id := Share(h[id].claims, Apply(h[id].flows, cmd))];
            Inv(h', base, e.(sw := Exec(e.sw, cmd)))
  {
    var e' := e.(sw := Exec(e.sw, cmd));
    if WillFail(e.sw) {
      SameFlowsKeepInv(h, base, e, e');
    } else {
      var s := Share(h[id].claims, Apply(h[id].flows, cmd));
      assert ShareOk(id, h[id]);
      OwnShareOk(h, id, s);
      SameClaimsKeepCache(h, h[id := s], e, e');
      OwnFlowKeepsFlows(h, base, e, id, cmd);
    }
  }

  lemma OwnShareOk(h: Shares, id: RuleId, s: Share)
    requires SharesOk(h) && id in h && s.claims == h[id].claims && ShareOk(id, s)
    ensures SharesOk(h[id := s])
    ensures forall i, k :: ClaimOf(h[id := s], i, k) == ClaimOf(h, i, k)
  {
  }

  lemma OwnFlowKeepsFlows(h: Shares, base: map<PolicyEntry, set<FlowAction>>, e: Engine, id: RuleId, cmd: Command<PolicyMatch, set<FlowAction>>)
    requires FlowsOk(h, base, e) && id in h && OwnerOf(cmd.flow.entry) == RuleOf(id)
    ensures FlowsOk(h[id := Share(h[id].claims, Apply(h[id].flows, cmd))], base, e.(sw := e.sw.(flows := Apply(e.sw.flows, cmd))))
  {
    var h' := h[id := Share(h[id].claims, Apply(h[id].flows, cmd))];
    forall x ensures Look(Apply(e.sw.flows, cmd), x) == Want(h', base, e.cache, x) {
      assert Look(e.sw.flows, x) == Want(h, base, e.cache, x);
      assert SameSlot(x, cmd.flow.entry) ==> OwnerOf(x) == RuleOf(id);
    }
  }

  lemma SameClaimsKeepCache(h: Shares, h': Shares, e: Engine, e': Engine)
    requires CacheOk(h, e) && e'.cache == e.cache
    requires forall id, k :: ClaimOf(h', id, k) == ClaimOf(h, id, k)
    ensures CacheOk(h', e')
  {
    forall k | k in e'.cache ensures IsRuleTable(k.table) && ContextOk(h', k, e'.cache[k]) {
      assert ContextOk(h, k, e.cache[k]);
      forall id ensures ClaimOf(h', id, k) == ClaimOf(h, id, k) {
      }
    }
    forall id, k | Claims(h', id, k) ensures k in e'.cache {
      assert ClaimOf(h', id, k) == ClaimOf(h, id, k);
      assert Claims(h, id, k);
    }
  }

  /** A rule that owns nothing may come and go. */
  lemma EmptyShareKeepsInv(h: Shares, base: map<PolicyEntry, set<FlowAction>>, e: Engine, id: RuleId)
    requires Inv(h, base, e)
    ensures id !in h ==> Inv(h[id := NO_SHARE], base, e)
    ensures id in h && h[id] == NO_SHARE ==> Inv(h - {id}, base, e)
  {
    if id !in h {
      var h' := h[id := NO_SHARE];
      SameClaimsKeepCache(h, h', e, e);
      forall x ensures Look(e.sw.flows, x) == Want(h', base, e.cache, x) {
        assert Look(e.sw.flows, x) == Want(h, base, e.cache, x);
      }
    } else if h[id] == NO_SHARE {
      var h' := h - {id};
      SameClaimsKeepCache(h, h', e, e);
      forall x ensures Look(e.sw.flows, x) == Want(h', base, e.cache, x) {
        assert Look(e.sw.flows, x) == Want(h, base, e.cache, x);
      }
    }
  }

  /***** The state is a function of the claims *****/

  lemma ContextDetermined(h: Shares, k: Key, a: Context, b: Context)
    requires ContextOk(h, k, a) && ContextOk(h, k, b)
    ensures a == b
  {
    forall id ensures Look(a.actions, id) == Look(b.actions, id) {
      assert Look(a.actions, id) == Allow(ClaimOf(h, id, k));
    }
    LookDetermines(a.actions, b.actions);
    forall id ensures id in a.denyAllRules <==> id in b.denyAllRules {
      assert id in a.denyAllRules <==> Denies(ClaimOf(h, id, k));
    }
  }

  lemma CachedIffClaimed(h: Shares, e: Engine, k: Key)
    requires CacheOk(h, e) && Tight(h, e)
    ensures k in e.cache <==> exists id :: Claims(h, id, k)
  {
  }

  /** Two states in which the rules claim the same have the same cache and the same flows, whatever their histories. */
  lemma StateDetermined(h: Shares, base: map<PolicyEntry, set<FlowAction>>, a: Engine, b: Engine)
    requires Inv(h, base, a) && Inv(h, base, b) && Tight(h, a) && Tight(h, b)
    ensures a.cache == b.cache && a.sw.flows == b.sw.flows
  {
    forall k ensures Look(a.cache, k) == Look(b.cache, k) {
      CachedIffClaimed(h, a, k);
      CachedIffClaimed(h, b, k);
      if k in a.cache {
        ContextDetermined(h, k, a.cache[k], b.cache[k]);
      }
    }
    LookDetermines(a.cache, b.cache);
    forall x ensures Look(a.sw.flows, x) == Look(b.sw.flows, x) {
      assert Look(a.sw.flows, x) == Want(h, base, a.cache, x);
    }
    LookDetermines(a.sw.flows, b.sw.flows);
  }
}
