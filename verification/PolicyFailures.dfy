/** Calls whose commands fail, and that they can be repeated until they succeed. */
module PolicyFailures {
  import opened OpenFlow
  import opened PolicyTypes
  import opened PolicyEngine
  import opened PolicyInvariant
  import opened PolicyInterleaving
  import opened PolicyLoops
  import opened Sequences
  import opened PolicyRules
  import opened PolicyStore
  import opened PolicyVerdict

  /***** Interrupted installations *****/

  /** The client represents `s`, and beside it any part of rule `r` that failed attempts to install it have left. */
  ghost predicate Interrupted(p: Pipeline, base: FlowTable, s: PlainStore, r: Rule, c: Client) {
    r.id !in s && exists sh :: PartialShare(p, r, sh) && RepresentsAside(p, base, map[r.id := sh], RuleKeys(r), s, c)
  }

  lemma NotYetInstalled(p: Pipeline, base: FlowTable, s: PlainStore, r: Rule, c: Client)
    requires Represents(p, base, s, c) && r.id !in s
    ensures Interrupted(p, base, s, r, c)
  {
    var h := SharesOf(c.policies);
    var h' := h + map[r.id := NO_SHARE];
    assert h' == h[r.id := NO_SHARE];
    EmptyShareKeepsInv(h, base, c.engine, r.id);
    LooseIgnoresEmptyShare(h, c.engine, r.id, {});
    LooseMonotone(h', c.engine, {}, RuleKeys(r));
    NoShareIsPartial(p, r);
    assert RepresentsAside(p, base, map[r.id := NO_SHARE], RuleKeys(r), s, c);
  }

  /** An attempt keeps the client in such a state if a command fails, and completes the rule if none does. */
  lemma AttemptResumes(p: Pipeline, base: FlowTable, s: PlainStore, r: Rule, c: Client)
    requires Interrupted(p, base, s, r, c)
    ensures var x := InstallPolicyRuleFlows(c, p, r);
            && (x.err.SwitchError? ==> Interrupted(p, base, s, r, x.c))
            && (x.err.NoError? ==> Represents(p, base, s[r.id := PlainOf(r)], x.c))
            && x.err in {NoError, SwitchError}
  {
    hide Inv, Loose, PartialShare, RuleKeys, InstallPolicyRuleFlows, AttemptedKeys, InstalledConjunct, RuleShare, ConjunctsOk, SharesOf, PlainConjunct;
    var sh :| PartialShare(p, r, sh) && RepresentsAside(p, base, map[r.id := sh], RuleKeys(r), s, c);
    var h := SharesOf(c.policies) + map[r.id := sh];
    var t := InstallAttempt(p, r, h, base, c, RuleKeys(r));
    var x := InstallPolicyRuleFlows(c, p, r);
    assert h[r.id := t] == SharesOf(c.policies) + map[r.id := t];
    if x.err.SwitchError? {
      assert RuleKeys(r) + RuleKeys(r) == RuleKeys(r);
      assert RepresentsAside(p, base, map[r.id := t], RuleKeys(r), s, x.c);
    } else {
      assert RuleKeys(r) - RuleKeys(r) == {};
      AddLast(SharesOf(c.policies), r.id, t);
      AttemptCompletes(p, base, s, r, c.policies, x.c);
    }
  }

  lemma AttemptCompletes(p: Pipeline, base: FlowTable, s: PlainStore, r: Rule, policies: map<RuleId, Conjunct>, c: Client)
    requires policies == PlainConjuncts(p, s) && ConjunctsOk(policies)
    requires c.policies == policies[r.id := InstalledConjunct(p, r)]
    requires var h := SharesOf(policies)[r.id := RuleShare(p, r)];
             Inv(h, base, c.engine) && Loose(h, c.engine, {})
    ensures Represents(p, base, s[r.id := PlainOf(r)], c)
  {
    hide Inv, Loose, InstalledConjunct, RuleShare, ConjunctsOk, SharesOf, PlainConjunct;
    InstalledShare(p, r);
    ReplaceShare(policies, map[], r.id, InstalledConjunct(p, r));
    AddLast(SharesOf(policies), r.id, RuleShare(p, r));
    AddLast(SharesOf(c.policies), r.id, RuleShare(p, r));
    InstalledIsPlain(p, r);
    ReplacedConjunct(p, s, r.id, PlainOf(r));
  }

  lemma AddLast(h: Shares, id: RuleId, s: Share)
    ensures h + map[id := s] == h[id := s] && h + map[] == h
  {
  }

  /** Other rules may be called meanwhile, even on keys that the interrupted rule uses. */
  lemma OthersMayProceed(p: Pipeline, base: FlowTable, s: PlainStore, r: Rule, c: Client, call: Call)
    requires Interrupted(p, base, s, r, c) && Clean(p, c, call) && CalledRule(call) != r.id
    ensures Interrupted(p, base, PlainCall(s, call).s, r, DoCall(p, c, call).c)
  {
    hide PartialShare, RepresentsAside, RuleKeys, Clean, DoCall;
    PlainCallElsewhere(s, call, r.id);
    var sh :| PartialShare(p, r, sh) && RepresentsAside(p, base, map[r.id := sh], RuleKeys(r), s, c);
    CallRefinesAside(p, base, map[r.id := sh], RuleKeys(r), s, c, call);
  }

  lemma PlainCallElsewhere(s: PlainStore, call: Call, id: RuleId)
    requires CalledRule(call) != id && id !in s
    ensures id !in PlainCall(s, call).s
  {
  }

  datatype Event = FailedAttempt | OtherCall(call: Call)

  /** `c'` is reached by failing attempts to install `r` and clean calls on other rules, in any order. */
  ghost predicate Troubled(p: Pipeline, r: Rule, c: Client, events: seq<Event>, c': Client)
    decreases |events|
  {
    if events == [] then c' == c
    else match events[0]
      case FailedAttempt =>
        var x := InstallPolicyRuleFlows(c, p, r);
        x.err.SwitchError? && Troubled(p, r, x.c, events[1..], c')
      case OtherCall(call) =>
        Clean(p, c, call) && CalledRule(call) != r.id && Troubled(p, r, DoCall(p, c, call).c, events[1..], c')
  }

  function PlainEvents(s: PlainStore, events: seq<Event>): PlainStore
    decreases |events|
  {
    if events == [] then s
    else match events[0]
      case FailedAttempt => PlainEvents(s, events[1..])
      case OtherCall(call) => PlainEvents(PlainCall(s, call).s, events[1..])
  }

  lemma {:induction false} TroubleInterrupts(p: Pipeline, base: FlowTable, s: PlainStore, r: Rule, c: Client, events: seq<Event>, c': Client)
    requires Interrupted(p, base, s, r, c) && Troubled(p, r, c, events, c')
    ensures Interrupted(p, base, PlainEvents(s, events), r, c')
    decreases |events|
  {
    hide Interrupted, InstallPolicyRuleFlows, DoCall, Clean, PlainCall;
    if events != [] {
      match events[0] {
        case FailedAttempt =>
          AttemptResumes(p, base, s, r, c);
          TroubleInterrupts(p, base, s, r, InstallPolicyRuleFlows(c, p, r).c, events[1..], c');
        case OtherCall(call) =>
          OthersMayProceed(p, base, s, r, c, call);
          TroubleInterrupts(p, base, PlainCall(s, call).s, r, DoCall(p, c, call).c, events[1..], c');
      }
    }
  }

  /**
   Install retries converge: after any number of attempts that failed at any command, with any clean calls on other rules
   in between, the first attempt that succeeds leaves the state of a client in which nothing ever failed.
   */
  lemma InstallRetryConverges(p: Pipeline, base: FlowTable, s: PlainStore, r: Rule, c: Client, events: seq<Event>, c': Client, clean: Client)
    requires Represents(p, base, s, c) && r.id !in s && Troubled(p, r, c, events, c')
    requires InstallPolicyRuleFlows(c', p, r).err.NoError?
    requires Represents(p, base, PlainEvents(s, events)[r.id := PlainOf(r)], clean)
    ensures SameState(InstallPolicyRuleFlows(c', p, r).c, clean)
  {
    hide Represents, Interrupted, InstallPolicyRuleFlows, Troubled;
    NotYetInstalled(p, base, s, r, c);
    TroubleInterrupts(p, base, s, r, c, events, c');
    AttemptResumes(p, base, PlainEvents(s, events), r, c');
    PlainRulesDetermineState(p, base, PlainEvents(s, events)[r.id := PlainOf(r)], InstallPolicyRuleFlows(c', p, r).c, clean);
  }

  /***** Installations that are given up *****/

  /** Nothing of rule `id` is on the switch or in the context cache, and no context is left without a claim. */
  predicate NothingLeft(id: RuleId, e: Engine) {
    && (forall x | x in e.sw.flows :: OwnerOf(x) != RuleOf(id))
    && (forall k | k in e.cache ::
          && id !in e.cache[k].actions && id !in e.cache[k].denyAllRules
          && !(e.cache[k].actions == map[] && e.cache[k].denyAllRules == {}))
  }

  /**
   A failed installation is not in the policy cache, so uninstalling the rule reports success and does nothing: whatever the
   attempts have left stays.  The client represents the rules without it if and only if they have left nothing.
   */
  lemma GivenUpInstallStays(p: Pipeline, base: FlowTable, s: PlainStore, r: Rule, c: Client, o: Orders)
    requires Interrupted(p, base, s, r, c)
    ensures UninstallPolicyRuleFlows(c, r.id, o) == CallResult(c, NoError)
    ensures Represents(p, base, s, c) <==> NothingLeft(r.id, c.engine)
  {
    hide Inv, PartialShare, Loose, ConjunctsOk, PlainConjunct, NothingLeft;
    var sh :| PartialShare(p, r, sh) && RepresentsAside(p, base, map[r.id := sh], RuleKeys(r), s, c);
    var h := SharesOf(c.policies)[r.id := sh];
    AddLast(SharesOf(c.policies), r.id, sh);
    assert r.id !in c.policies;
    if Represents(p, base, s, c) {
      NothingOfOthers(SharesOf(c.policies), base, c.engine, r.id);
    }
    if NothingLeft(r.id, c.engine) {
      NothingOwned(h, base, c.engine, r.id);
      EmptyShareKeepsInv(h, base, c.engine, r.id);
      assert h - {r.id} == SharesOf(c.policies);
      AllClaimed(SharesOf(c.policies), base, c.engine, r.id);
    }
  }

  lemma NothingOfOthers(h: Shares, base: FlowTable, e: Engine, id: RuleId)
    requires Inv(h, base, e) && Tight(h, e) && id !in h
    ensures NothingLeft(id, e)
  {
    forall x | x in e.sw.flows ensures OwnerOf(x) != RuleOf(id) {
      assert Look(e.sw.flows, x) == Want(h, base, e.cache, x);
    }
    forall k | k in e.cache
      ensures id !in e.cache[k].actions && id !in e.cache[k].denyAllRules
      ensures !(e.cache[k].actions == map[] && e.cache[k].denyAllRules == {})
    {
      assert ContextOk(h, k, e.cache[k]);
      assert Look(e.cache[k].actions, id) == Allow(ClaimOf(h, id, k));
      var some :| Claims(h, some, k);
      assert Look(e.cache[k].actions, some) == Allow(ClaimOf(h, some, k));
    }
  }

  lemma NothingOwned(h: Shares, base: FlowTable, e: Engine, id: RuleId)
    requires Inv(h, base, e) && id in h && NothingLeft(id, e)
    ensures h[id] == NO_SHARE
  {
    forall x ensures x !in h[id].flows {
      assert Look(e.sw.flows, x) == Want(h, base, e.cache, x);
      assert ShareOk(id, h[id]);
    }
    forall k ensures k !in h[id].claims {
      if k in h[id].claims {
        assert Claims(h, id, k);
        UnlistedIsUnclaimed(h, k, e.cache[k], id);
        assert false;
      }
    }
  }

  lemma UnlistedIsUnclaimed(h: Shares, k: Key, ctx: Context, id: RuleId)
    requires ContextOk(h, k, ctx) && id !in ctx.actions && id !in ctx.denyAllRules
    ensures !Claims(h, id, k)
  {
  }

  lemma AllClaimed(h: Shares, base: FlowTable, e: Engine, id: RuleId)
    requires Inv(h, base, e) && NothingLeft(id, e)
    ensures Tight(h, e)
  {
    forall k | k in e.cache ensures exists id :: Claims(h, id, k) {
      assert ContextOk(h, k, e.cache[k]);
      SomeoneClaims(h, k, e.cache[k]);
    }
  }

  /** The way out: repeating the installation until it succeeds, and then uninstalling, leaves the other rules alone. */
  lemma RetryThenUninstallCleans(p: Pipeline, base: FlowTable, s: PlainStore, r: Rule, c: Client, o: Orders)
    requires Interrupted(p, base, s, r, c) && InstallPolicyRuleFlows(c, p, r).err.NoError?
    requires Clean(p, InstallPolicyRuleFlows(c, p, r).c, Uninstall(r.id, o))
    ensures Represents(p, base, s, UninstallPolicyRuleFlows(InstallPolicyRuleFlows(c, p, r).c, r.id, o).c)
  {
    hide Interrupted, Represents, InstallPolicyRuleFlows, UninstallPolicyRuleFlows, WellOrdered;
    AttemptResumes(p, base, s, r, c);
    NotLiveYet(p, base, s, r, c);
    CallRefines(p, base, s[r.id := PlainOf(r)], InstallPolicyRuleFlows(c, p, r).c, Uninstall(r.id, o));
    assert s[r.id := PlainOf(r)] - {r.id} == s;
  }

  lemma NotLiveYet(p: Pipeline, base: FlowTable, s: PlainStore, r: Rule, c: Client)
    requires Interrupted(p, base, s, r, c)
    ensures r.id !in s
  {
  }

  /***** Interrupted uninstallations *****/

  /** The client represents `s` without rule `id`, and beside it what failed attempts to uninstall `id` have left. */
  ghost predicate Departing(p: Pipeline, base: FlowTable, s: PlainStore, id: RuleId, c: Client) {
    && id in s && id in c.policies && c.policies - {id} == PlainConjuncts(p, s - {id})
    && ConjunctsOk(c.policies - {id})
    && exists sh ::
         && Leaving(id, c.policies[id], sh)
         && Departed(p, id, s[id], sh)
         && Inv(SharesOf(c.policies - {id})[id := sh], base, c.engine)
         && Loose(SharesOf(c.policies - {id})[id := sh], c.engine, HeldKeys(c.policies[id]))
  }

  /** Either nothing of the rule is gone yet, or its conjunction action flow is. */
  ghost predicate Departed(p: Pipeline, id: RuleId, r: PlainRule, sh: Share) {
    && Within(sh.flows, RuleFlows(p, Template(id, r)))
    && (forall k :: Look(sh.claims, k) in {None, HeldBy(PlainConjunct(p, id, r), k)})
    && (sh.flows == RuleFlows(p, Template(id, r)) || Entry(RuleTable(r.dir), PRIORITY_LOW, OnConj(id)) !in sh.flows)
  }

  lemma StillInstalled(p: Pipeline, base: FlowTable, s: PlainStore, id: RuleId, c: Client)
    requires Represents(p, base, s, c) && id in s
    ensures Departing(p, base, s, id, c)
    ensures c.policies[id].actionFlows == ActionFlows(Template(id, s[id]), Next(p, s[id].dir))
  {
    hide Inv, Loose, Leaving, Departed, ConjunctOk, HeldKeys, ShareOf, ActionFlows;
    var h := SharesOf(c.policies);
    LiveRuleLeaving(c.policies, id);
    LiveIsDeparted(p, id, s[id]);
    assert c.policies - {id} == PlainConjuncts(p, s - {id});
    assert SharesOf(c.policies - {id})[id := h[id]] == h;
    LooseMonotone(h, c.engine, {}, HeldKeys(c.policies[id]));
  }

  lemma LiveIsDeparted(p: Pipeline, id: RuleId, r: PlainRule)
    ensures Departed(p, id, r, ShareOf(PlainConjunct(p, id, r)))
  {
  }

  lemma DepartedFurther(p: Pipeline, id: RuleId, r: PlainRule, sh: Share, t: Share, flows: seq<PolicyFlow>)
    requires Departed(p, id, r, sh) && Within(t.flows, sh.flows)
    requires forall k :: Look(t.claims, k) in {None, Look(sh.claims, k)}
    requires flows == ActionFlows(Template(id, r), Next(p, r.dir))
    requires t != sh && flows != [] ==> flows[0].entry !in t.flows
    ensures Departed(p, id, r, t)
  {
  }

  /** An attempt keeps the client in such a state if a command fails, and completes the removal if none does. */
  lemma RemovalResumes(p: Pipeline, base: FlowTable, s: PlainStore, id: RuleId, c: Client, o: Orders)
    requires Departing(p, base, s, id, c) && Enumerates(o, c.policies[id])
    requires c.policies[id].actionFlows == ActionFlows(Template(id, s[id]), Next(p, s[id].dir))
    ensures var x := UninstallPolicyRuleFlows(c, id, o);
            && (x.err.SwitchError? ==> Departing(p, base, s, id, x.c) && x.c.policies[id].actionFlows == c.policies[id].actionFlows)
            && (x.err.NoError? ==> Represents(p, base, s - {id}, x.c))
            && x.err in {NoError, SwitchError}
  {
    hide Inv, Loose, Leaving, Departed, HeldKeys, UninstallPolicyRuleFlows, ConjunctsOk, SharesOf, PlainConjuncts, Enumerates, ActionFlows;
    var conj := c.policies[id];
    var sh :| Leaving(id, conj, sh) && Departed(p, id, s[id], sh)
              && Inv(SharesOf(c.policies - {id})[id := sh], base, c.engine)
              && Loose(SharesOf(c.policies - {id})[id := sh], c.engine, HeldKeys(conj));
    var g: Shares := SharesOf(c.policies - {id});
    var t := UninstallAttempt(g[id := sh], base, c, id, o, HeldKeys(conj));
    var x := UninstallPolicyRuleFlows(c, id, o);
    assert g[id := sh][id := t] == g[id := t];
    DepartedFurther(p, id, s[id], sh, t, conj.actionFlows);
    if x.err.NoError? {
      assert HeldKeys(conj) - HeldKeys(conj) == {};
      RemovalCompletes(base, c.policies, id, x.c);
    } else {
      assert x.c.policies - {id} == c.policies - {id};
      assert SpareAfter(HeldKeys(conj), conj, x.c.policies[id]) == HeldKeys(x.c.policies[id]);
    }
  }

  lemma RemovalCompletes(base: FlowTable, policies: map<RuleId, Conjunct>, id: RuleId, c: Client)
    requires c.policies == policies - {id} && ConjunctsOk(c.policies)
    requires Inv(SharesOf(c.policies)[id := NO_SHARE], base, c.engine)
    requires Loose(SharesOf(c.policies)[id := NO_SHARE], c.engine, {})
    ensures ClientInv(base, c)
  {
    hide Inv, Loose, ConjunctsOk;
    var h := SharesOf(c.policies);
    EmptyShareKeepsInv(h[id := NO_SHARE], base, c.engine, id);
    LooseIgnoresEmptyShare(h[id := NO_SHARE], c.engine, id, {});
    assert h[id := NO_SHARE] - {id} == h;
  }

  /***** Other calls between the attempts *****/

  /** A clean call neither sees nor disturbs another rule in the policy cache. */
  lemma CallFrame(p: Pipeline, c: Client, call: Call, id: RuleId)
    requires id in c.policies && CalledRule(call) != id
    ensures var x, y := DoCall(p, c, call), DoCall(p, c.(policies := c.policies - {id}), call);
            && x.err == y.err && x.c.engine == y.c.engine
            && id in x.c.policies && x.c.policies[id] == c.policies[id] && x.c.policies - {id} == y.c.policies
    ensures CallKeys(c.(policies := c.policies - {id}), call) == CallKeys(c, call)
    ensures WellOrdered(c, call) <==> WellOrdered(c.(policies := c.policies - {id}), call)
  {
    hide AddActionFlows, AddClauses, DeleteActionFlows, DeleteClauses, AddFlows, DeleteFlows, ActionFlows, RuleKeys, HeldKeys, Enumerates;
  }

  lemma SidesTouch(e: Engine, r: Rule, side: Side, k: Key)
    requires k !in RuleKeys(r)
    ensures Look(AddSide(e, r, side).e.cache, k) == Look(e.cache, k)
  {
    if SidePresent(r, side) {
      AddFlowsTouch(e, SideClause(r, side), SideKeys(r, side), k);
    }
  }

  lemma EmptyingTouches(e: Engine, c: Option<Clause>, keys: seq<Key>, k: Key)
    requires k !in Matches(c)
    ensures Look(DeleteSide(e, c, keys).e.cache, k) == Look(e.cache, k)
  {
    if c.Some? {
      DeleteFlowsTouch(e, c.value, keys, k);
    }
  }

  /** A call changes no context but those of its keys. */
  lemma CallTouches(p: Pipeline, c: Client, call: Call, k: Key)
    requires k !in CallKeys(c, call)
    ensures Look(DoCall(p, c, call).c.engine.cache, k) == Look(c.engine.cache, k)
  {
    hide AddActionFlows, DeleteActionFlows, AddFlows, DeleteFlows, ActionFlows, AddSide, DeleteSide, RuleKeys, SideKeys;
    match call {
      case Install(r) =>
        if r.id !in c.policies {
          var e := c.engine.(sw := AddActionFlows(c.engine.sw, ActionFlows(r, Next(p, r.dir))).sw);
          SidesTouch(e, r, From, k);
          var f := AddSide(e, r, From);
          SidesTouch(f.e, r, To, k);
          SidesTouch(AddSide(f.e, r, To).e, r, Service, k);
        }
      case Uninstall(id, o) =>
        if id in c.policies {
          var conj := c.policies[id];
          var e := c.engine.(sw := DeleteActionFlows(c.engine.sw, conj.actionFlows).sw);
          EmptyingTouches(e, conj.from, o.from, k);
          var f := DeleteSide(e, conj.from, o.from);
          EmptyingTouches(f.e, conj.to, o.to, k);
          EmptyingTouches(DeleteSide(f.e, conj.to, o.to).e, conj.service, o.service, k);
        }
      case AddAddresses(id, t, addrs) =>
        var clause := CalledClause(c, id, t);
        if clause.Some? {
          AddFlowsTouch(c.engine, clause.value, AddressKeys(clause.value.ruleTable, t, addrs), k);
        }
      case DeleteAddresses(id, t, addrs) =>
        var clause := CalledClause(c, id, t);
        if clause.Some? {
          DeleteFlowsTouch(c.engine, clause.value, AddressKeys(clause.value.ruleTable, t, addrs), k);
        }
    }
  }

  lemma PlainCallFrame(s: PlainStore, call: Call, id: RuleId)
    requires CalledRule(call) != id && id in s
    ensures id in PlainCall(s, call).s && PlainCall(s, call).s[id] == s[id]
    ensures PlainCall(s, call).s - {id} == PlainCall(s - {id}, call).s
  {
  }

  /** A clean call on another rule does what it should beside an interrupted removal, and leaves that one resumable. */
  lemma OthersProceedBeside(p: Pipeline, base: FlowTable, s: PlainStore, id: RuleId, c: Client, call: Call) returns (sh: Share)
    requires Departing(p, base, s, id, c) && Clean(p, c, call) && CalledRule(call) != id
    ensures Departing(p, base, PlainCall(s, call).s, id, DoCall(p, c, call).c)
    ensures DoCall(p, c, call).c.policies[id] == c.policies[id] && PlainCall(s, call).s[id] == s[id]
    ensures Inv(SharesOf(c.policies - {id})[id := sh], base, c.engine)
    ensures Inv(SharesOf(DoCall(p, c, call).c.policies - {id})[id := sh], base, DoCall(p, c, call).c.engine)
  {
    hide Inv, Loose, Leaving, Departed, ConjunctsOk, SharesOf, PlainConjuncts, DoCall, PlainCall, HeldKeys, WellOrdered;
    sh :| Leaving(id, c.policies[id], sh) && Departed(p, id, s[id], sh)
          && Inv(SharesOf(c.policies - {id})[id := sh], base, c.engine)
          && Loose(SharesOf(c.policies - {id})[id := sh], c.engine, HeldKeys(c.policies[id]));
    var others := c.(policies := c.policies - {id});
    CallFrame(p, c, call, id);
    PlainCallFrame(s, call, id);
    AddLast(SharesOf(c.policies - {id}), id, sh);
    CallRefinesAside(p, base, map[id := sh], HeldKeys(c.policies[id]), s - {id}, others, call);
    AddLast(SharesOf(DoCall(p, others, call).c.policies), id, sh);
  }

  /***** The keys that an interrupted removal still holds *****/

  /** Every key that the rule still holds is cached: no context that it holds has died. */
  predicate KeysHeld(c: Client, id: RuleId)
    requires id in c.policies
  {
    HeldKeys(c.policies[id]) <= c.engine.cache.Keys
  }

  /** The keys that the rule still holds although it has released them: those whose drop flow could not be deleted. */
  function StuckKeys(c: Client, id: RuleId): set<Key>
    requires id in c.policies
  {
    set k | k in HeldKeys(c.policies[id])
            && !(k in c.engine.cache && (id in c.engine.cache[k].actions || id in c.engine.cache[k].denyAllRules))
  }

  lemma FailureKeepsCached(ctx: Context, k: Key, act: Act, sw: PolicySwitch)
    ensures !Release(ctx, k, act, sw).ok ==> !Release(ctx, k, act, sw).evict
  {
  }

  lemma {:induction false} DeleteFlowsHold(e: Engine, c: Clause, keys: seq<Key>)
    requires c.matches <= e.cache.Keys
    ensures var r := DeleteFlows(e, c, keys);
            r.clause.matches <= r.e.cache.Keys && r.clause.matches <= c.matches
    decreases |keys|
  {
    hide Release;
    if keys != [] {
      var r := DeleteConjunctiveMatchFlow(e, c, keys[0]);
      FailureKeepsCached(HeldContext(e, keys[0]), keys[0], c.action, e.sw);
      if r.ok {
        DeleteFlowsHold(r.e, r.clause, keys[1..]);
      }
    }
  }

  lemma DeleteSideHolds(e: Engine, id: RuleId, conj: Conjunct, side: Side, keys: seq<Key>)
    requires ConjunctOk(id, conj) && HeldKeys(conj) <= e.cache.Keys
    ensures var x := DeleteSide(e, ConjunctSide(conj, side), keys);
            var conj' := SetSide(conj, side, x.clause);
            HeldKeys(conj') <= x.e.cache.Keys && ConjunctOk(id, conj')
  {
    hide DeleteFlows;
    var clause := ConjunctSide(conj, side);
    if clause.Some? {
      assert Matches(clause) <= HeldKeys(conj);
      DeleteFlowsHold(e, clause.value, keys);
      var x := DeleteSide(e, clause, keys);
      var conj' := SetSide(conj, side, x.clause);
      DeletedActionStays(e, clause.value, keys);
      assert forall side': Side | ConjunctSide(conj, side').Some? :: ProperClause(Slot(id, side'), ConjunctSide(conj, side').value);
      forall k | k in HeldKeys(conj') ensures k in x.e.cache {
        if k !in Matches(x.clause) {
          var side': Side :| side' != side && k in Matches(ConjunctSide(conj, side'));
          assert SideOf(k.kind) == side';
          DeleteFlowsTouch(e, clause.value, keys, k);
          assert Look(x.e.cache, k) == Look(e.cache, k);
        }
      }
    } else {
      assert SetSide(conj, side, None) == conj;
    }
  }

  lemma {:induction false} DeletedActionStays(e: Engine, c: Clause, keys: seq<Key>)
    ensures DeleteFlows(e, c, keys).clause == c.(matches := DeleteFlows(e, c, keys).clause.matches)
    decreases |keys|
  {
    hide Release;
    if keys != [] {
      var r := DeleteConjunctiveMatchFlow(e, c, keys[0]);
      if r.ok {
        DeletedActionStays(r.e, r.clause, keys[1..]);
      }
    }
  }

  /** A failed attempt to uninstall keeps every key that it leaves in the clauses cached. */
  lemma FailedRemovalHolds(c: Client, id: RuleId, o: Orders)
    requires id in c.policies && ConjunctOk(id, c.policies[id]) && KeysHeld(c, id)
    ensures var x := UninstallPolicyRuleFlows(c, id, o);
            x.err.SwitchError? ==> id in x.c.policies && KeysHeld(x.c, id)
  {
    hide ConjunctOk, HeldKeys, DeleteSide, DeleteActionFlows;
    var conj := c.policies[id];
    var e := c.engine.(sw := DeleteActionFlows(c.engine.sw, conj.actionFlows).sw);
    DeleteSideHolds(e, id, conj, From, o.from);
    var f := DeleteSide(e, conj.from, o.from);
    var c1 := conj.(from := f.clause);
    DeleteSideHolds(f.e, id, c1, To, o.to);
    var t := DeleteSide(f.e, conj.to, o.to);
    DeleteSideHolds(t.e, id, c1.(to := t.clause), Service, o.service);
  }

  lemma StuckOrClaimed(h: Shares, base: FlowTable, c: Client, id: RuleId, k: Key)
    requires Inv(h, base, c.engine) && id in c.policies && KeysHeld(c, id) && k in HeldKeys(c.policies[id])
    ensures k in StuckKeys(c, id) || Claims(h, id, k)
  {
  }

  lemma ClaimedIsCached(h: Shares, base: FlowTable, e: Engine, id: RuleId, k: Key)
    requires Inv(h, base, e) && Claims(h, id, k)
    ensures k in e.cache
  {
  }

  /** A clean call on another rule that leaves the stuck keys alone, if it may share all others, kills no held context. */
  lemma OthersKeepKeysHeld(p: Pipeline, base: FlowTable, s: PlainStore, id: RuleId, c: Client, call: Call)
    requires Departing(p, base, s, id, c) && Clean(p, c, call) && CalledRule(call) != id
    requires KeysHeld(c, id) && CallKeys(c, call) !! StuckKeys(c, id)
    ensures id in DoCall(p, c, call).c.policies && KeysHeld(DoCall(p, c, call).c, id)
  {
    var sh := OthersProceedBeside(p, base, s, id, c, call);
    hide Inv, Departing, Clean, DoCall, HeldKeys, StuckKeys, SharesOf, CallKeys;
    CallFrame(p, c, call, id);
    var c' := DoCall(p, c, call).c;
    forall k | k in HeldKeys(c.policies[id]) ensures k in c'.engine.cache {
      var h, h' := SharesOf(c.policies - {id})[id := sh], SharesOf(c'.policies - {id})[id := sh];
      StuckOrClaimed(h, base, c, id, k);
      if k in StuckKeys(c, id) {
        CallTouches(p, c, call, k);
        assert Look(c'.engine.cache, k) == Look(c.engine.cache, k);
      } else {
        assert ClaimOf(h', id, k) == ClaimOf(h, id, k);
        ClaimedIsCached(h', base, c'.engine, id, k);
      }
    }
  }

  /***** Retries *****/

  datatype Interruption = FailedRemoval(orders: Orders) | Between(call: Call)

  /**
   `c'` is reached by failing attempts to uninstall rule `id`, each of which meets the keys that are left in some order, and
   clean calls on other rules.  These may share keys with rule `id` as long as they leave alone the keys that are stuck; what
   happens otherwise is the subject of module PolicyStale.
   */
  ghost predicate Beset(p: Pipeline, id: RuleId, c: Client, events: seq<Interruption>, c': Client)
    decreases |events|
  {
    id in c.policies
    && if events == [] then c' == c
       else match events[0]
         case FailedRemoval(o) =>
           var x := UninstallPolicyRuleFlows(c, id, o);
           Enumerates(o, c.policies[id]) && x.err.SwitchError? && Beset(p, id, x.c, events[1..], c')
         case Between(call) =>
           && Clean(p, c, call) && CalledRule(call) != id && CallKeys(c, call) !! StuckKeys(c, id)
           && Beset(p, id, DoCall(p, c, call).c, events[1..], c')
  }

  function PlainBetween(s: PlainStore, events: seq<Interruption>): PlainStore
    decreases |events|
  {
    if events == [] then s
    else match events[0]
      case FailedRemoval(_) => PlainBetween(s, events[1..])
      case Between(call) => PlainBetween(PlainCall(s, call).s, events[1..])
  }

  ghost predicate Resumable(p: Pipeline, base: FlowTable, s: PlainStore, id: RuleId, c: Client) {
    && Departing(p, base, s, id, c) && KeysHeld(c, id)
    && c.policies[id].actionFlows == ActionFlows(Template(id, s[id]), Next(p, s[id].dir))
  }

  lemma DepartingConjunctOk(p: Pipeline, base: FlowTable, s: PlainStore, id: RuleId, c: Client)
    requires Departing(p, base, s, id, c)
    ensures id in c.policies && ConjunctOk(id, c.policies[id])
  {
  }

  /** Throughout, the removal can be resumed, and no context that the rule holds has died. */
  lemma {:induction false} BesetStaysResumable(p: Pipeline, base: FlowTable, s: PlainStore, id: RuleId, c: Client, events: seq<Interruption>, c': Client)
    requires Resumable(p, base, s, id, c) && Beset(p, id, c, events, c')
    ensures Resumable(p, base, PlainBetween(s, events), id, c')
    decreases |events|
  {
    hide Departing, UninstallPolicyRuleFlows, Enumerates, ActionFlows, KeysHeld, Clean, DoCall, PlainCall, CallKeys, StuckKeys, ConjunctOk;
    if events != [] {
      match events[0] {
        case FailedRemoval(o) =>
          RemovalResumes(p, base, s, id, c, o);
          DepartingConjunctOk(p, base, s, id, c);
          FailedRemovalHolds(c, id, o);
          BesetStaysResumable(p, base, s, id, UninstallPolicyRuleFlows(c, id, o).c, events[1..], c');
        case Between(call) =>
          var _ := OthersProceedBeside(p, base, s, id, c, call);
          OthersKeepKeysHeld(p, base, s, id, c, call);
          BesetStaysResumable(p, base, PlainCall(s, call).s, id, DoCall(p, c, call).c, events[1..], c');
      }
    }
  }

  lemma LiveIsResumable(p: Pipeline, base: FlowTable, s: PlainStore, id: RuleId, c: Client)
    requires Represents(p, base, s, c) && id in s
    ensures Resumable(p, base, s, id, c)
  {
    StillInstalled(p, base, s, id, c);
    hide Departing, ActionFlows;
    forall k | k in HeldKeys(c.policies[id]) ensures k in c.engine.cache {
      LiveKeyIsClaimed(c, id, k);
      ClaimedIsCached(SharesOf(c.policies), base, c.engine, id, k);
    }
  }

  lemma LiveKeyIsClaimed(c: Client, id: RuleId, k: Key)
    requires ConjunctsOk(c.policies) && id in c.policies && k in HeldKeys(c.policies[id])
    ensures Claims(SharesOf(c.policies), id, k)
  {
    var side: Side :| k in Matches(ConjunctSide(c.policies[id], side));
    assert ConjunctOk(id, c.policies[id]);
    assert ProperClause(Slot(id, side), ConjunctSide(c.policies[id], side).value);
    ShareIsBacked(c.policies[id]);
    assert Look(ShareOf(c.policies[id]).claims, k) == HeldBy(c.policies[id], k);
  }

  /**
   Uninstall retries converge: after any number of attempts that failed at any command, with any clean calls on other rules
   in between that leave the stuck keys alone, the first attempt that succeeds leaves the state of a client in which nothing
   ever failed.
   */
  lemma {:induction false} UninstallRetryConverges(p: Pipeline, base: FlowTable, s: PlainStore, id: RuleId, c: Client, events: seq<Interruption>, c': Client, o: Orders, clean: Client)
    requires Represents(p, base, s, c) && id in s && Beset(p, id, c, events, c')
    requires id in c'.policies && Enumerates(o, c'.policies[id]) && UninstallPolicyRuleFlows(c', id, o).err.NoError?
    requires Represents(p, base, PlainBetween(s, events) - {id}, clean)
    ensures SameState(UninstallPolicyRuleFlows(c', id, o).c, clean)
  {
    hide Departing, UninstallPolicyRuleFlows, Represents, Enumerates, KeysHeld, Beset, ActionFlows;
    LiveIsResumable(p, base, s, id, c);
    BesetStaysResumable(p, base, s, id, c, events, c');
    var s' := PlainBetween(s, events);
    RemovalResumes(p, base, s', id, c', o);
    PlainRulesDetermineState(p, base, s' - {id}, UninstallPolicyRuleFlows(c', id, o).c, clean);
  }
}
