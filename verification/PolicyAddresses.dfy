/** Address updates whose commands fail: what they leave, and that they can be repeated until they succeed. */
module PolicyAddresses {
  import opened OpenFlow
  import opened PolicyTypes
  import opened PolicyEngine
  import opened PolicyInvariant
  import opened PolicyInterleaving
  import opened PolicyLoops
  import opened Sequences
  import opened PolicyRules
  import opened PolicyStore
  import opened PolicyFailures

  /***** Interrupted additions *****/

  predicate HasSide(s: PlainStore, id: RuleId, t: AddressType) {
    id in s && PlainSide(s[id], t).Some?
  }

  /** The plain rules with the addresses `part` added to one side of rule `id`. */
  function WithPart(s: PlainStore, id: RuleId, t: AddressType, part: set<Address>): PlainStore
    requires HasSide(s, id, t)
  {
    s[id := WithPlainSide(s[id], t, PlainSide(s[id], t).value + part)]
  }

  /** The keys of an address update. */
  function UpdateKeys(r: PlainRule, t: AddressType, addrs: seq<Address>): set<Key> {
    AddressImage(RuleTable(r.dir), t, Elems(addrs))
  }

  /** The client represents `s` with some of the addresses added; contexts of the call's keys may be left without a claim. */
  ghost predicate Adding(p: Pipeline, base: FlowTable, s: PlainStore, id: RuleId, t: AddressType, addrs: seq<Address>, c: Client) {
    && HasSide(s, id, t)
    && exists part :: part <= Elems(addrs)
                   && RepresentsAside(p, base, map[], UpdateKeys(s[id], t, addrs), WithPart(s, id, t, part), c)
  }

  lemma NothingAdded(p: Pipeline, base: FlowTable, s: PlainStore, id: RuleId, t: AddressType, addrs: seq<Address>, c: Client)
    requires Represents(p, base, s, c) && HasSide(s, id, t)
    ensures Adding(p, base, s, id, t, addrs, c)
  {
    hide Inv, Loose, ConjunctsOk;
    NothingAside(base, c);
    LooseMonotone(SharesOf(c.policies) + map[], c.engine, {}, UpdateKeys(s[id], t, addrs));
    assert PlainSide(s[id], t).value + {} == PlainSide(s[id], t).value;
    assert WithPart(s, id, t, {}) == s;
  }

  /** The addresses whose keys are among `keys`. */
  function AddressesWith(table: TableId, t: AddressType, addrs: set<Address>, keys: set<Key>): set<Address> {
    set a | a in addrs && AddressKey(table, t, a) in keys
  }

  lemma KeysOfPart(table: TableId, t: AddressType, addrs: set<Address>, keys: set<Key>)
    requires keys <= AddressImage(table, t, addrs)
    ensures AddressImage(table, t, AddressesWith(table, t, addrs, keys)) == keys
    ensures keys == AddressImage(table, t, addrs) ==> AddressesWith(table, t, addrs, keys) == addrs
  {
  }

  /** Changing the addresses of a side in the plain rules changes the matches of its clause. */
  lemma SideChanged(p: Pipeline, s: PlainStore, id: RuleId, t: AddressType, addrs: set<Address>)
    requires HasSide(s, id, t)
    ensures PlainConjuncts(p, s[id := WithPlainSide(s[id], t, addrs)])
            == PlainConjuncts(p, s)[id := WithMatches(PlainConjunct(p, id, s[id]), AddressSide(t).value,
                                                      AddressImage(RuleTable(s[id].dir), t, addrs))]
  {
    hide PlainConjunct, WithMatches;
    PlainSideClause(p, id, s[id], t);
    ReplacedConjunct(p, s, id, WithPlainSide(s[id], t, addrs));
  }

  lemma PartOfPart(s: PlainStore, id: RuleId, t: AddressType, part: set<Address>, more: set<Address>)
    requires HasSide(s, id, t)
    ensures var s1 := WithPart(s, id, t, part);
            && HasSide(s1, id, t) && s1[id].dir == s[id].dir
            && PlainSide(s1[id], t).value == PlainSide(s[id], t).value + part
            && WithPart(s1, id, t, more) == WithPart(s, id, t, part + more)
  {
    assert PlainSide(s[id], t).value + part + more == PlainSide(s[id], t).value + (part + more);
  }

  /** An attempt keeps the client in such a state if a command fails, and completes the addition if none does. */
  lemma AdditionResumes(p: Pipeline, base: FlowTable, s: PlainStore, id: RuleId, t: AddressType, addrs: seq<Address>, c: Client)
    requires Adding(p, base, s, id, t, addrs, c)
    ensures var x := AddPolicyRuleAddress(c, id, t, addrs);
            && x.err in {NoError, SwitchError}
            && (x.err.SwitchError? ==> Adding(p, base, s, id, t, addrs, x.c))
            && (x.err.NoError? ==> Represents(p, base, WithPart(s, id, t, Elems(addrs)), x.c))
  {
    hide Aside, PlainConjunct, AddPolicyRuleAddress, WithMatches, AddressImage, Elems;
    var keys := UpdateKeys(s[id], t, addrs);
    var part :| part <= Elems(addrs) && RepresentsAside(p, base, map[], keys, WithPart(s, id, t, part), c);
    var s1 := WithPart(s, id, t, part);
    PartOfPart(s, id, t, part, {});
    PlainSideClause(p, id, s1[id], t);
    KeysOfAddresses(RuleTable(s[id].dir), t, addrs);
    var done := AddAddressAttempt(base, c, map[], keys, id, t, addrs);
    var more := AddressesWith(RuleTable(s[id].dir), t, Elems(addrs), done);
    KeysOfPart(RuleTable(s[id].dir), t, Elems(addrs), done);
    AddressImageLaws(RuleTable(s[id].dir), t, PlainSide(s1[id], t).value, more);
    SideChanged(p, s1, id, t, PlainSide(s1[id], t).value + more);
    PartOfPart(s, id, t, part, more);
    var x := AddPolicyRuleAddress(c, id, t, addrs);
    assert x.c.policies == PlainConjuncts(p, WithPart(s, id, t, part + more));
    assert keys + keys == keys && keys - keys == {};
    if x.err.NoError? {
      NothingAside(base, x.c);
      assert part + more == Elems(addrs);
    } else {
      assert RepresentsAside(p, base, map[], keys, WithPart(s, id, t, part + more), x.c);
    }
  }

  lemma CallLeavesPart(s: PlainStore, id: RuleId, t: AddressType, part: set<Address>, call: Call)
    requires HasSide(s, id, t) && CalledRule(call) != id
    ensures var s' := PlainCall(s, call).s;
            && HasSide(s', id, t) && s'[id] == s[id]
            && PlainCall(WithPart(s, id, t, part), call).s == WithPart(s', id, t, part)
  {
  }

  /** Clean calls on other rules do what they should meanwhile. */
  lemma OthersProceedWhileAdding(p: Pipeline, base: FlowTable, s: PlainStore, id: RuleId, t: AddressType, addrs: seq<Address>, c: Client, call: Call)
    requires Adding(p, base, s, id, t, addrs, c) && Clean(p, c, call) && CalledRule(call) != id
    ensures Adding(p, base, PlainCall(s, call).s, id, t, addrs, DoCall(p, c, call).c)
  {
    hide RepresentsAside, UpdateKeys, Clean, DoCall, PlainCall, WithPart;
    var keys := UpdateKeys(s[id], t, addrs);
    var part :| part <= Elems(addrs) && RepresentsAside(p, base, map[], keys, WithPart(s, id, t, part), c);
    CallRefinesAside(p, base, map[], keys, WithPart(s, id, t, part), c, call);
    CallLeavesPart(s, id, t, part, call);
  }

  /** `c'` is reached by failing attempts to add the addresses and clean calls on other rules, in any order. */
  ghost predicate AddTroubled(p: Pipeline, id: RuleId, t: AddressType, addrs: seq<Address>, c: Client, events: seq<Event>, c': Client)
    decreases |events|
  {
    if events == [] then c' == c
    else match events[0]
      case FailedAttempt =>
        var x := AddPolicyRuleAddress(c, id, t, addrs);
        x.err.SwitchError? && AddTroubled(p, id, t, addrs, x.c, events[1..], c')
      case OtherCall(call) =>
        Clean(p, c, call) && CalledRule(call) != id && AddTroubled(p, id, t, addrs, DoCall(p, c, call).c, events[1..], c')
  }

  lemma {:induction false} TroubleKeepsAdding(p: Pipeline, base: FlowTable, s: PlainStore, id: RuleId, t: AddressType, addrs: seq<Address>, c: Client, events: seq<Event>, c': Client)
    requires Adding(p, base, s, id, t, addrs, c) && AddTroubled(p, id, t, addrs, c, events, c')
    ensures Adding(p, base, PlainEvents(s, events), id, t, addrs, c')
    decreases |events|
  {
    hide Adding, AddPolicyRuleAddress, DoCall, Clean, PlainCall;
    if events != [] {
      match events[0] {
        case FailedAttempt =>
          AdditionResumes(p, base, s, id, t, addrs, c);
          TroubleKeepsAdding(p, base, s, id, t, addrs, AddPolicyRuleAddress(c, id, t, addrs).c, events[1..], c');
        case OtherCall(call) =>
          OthersProceedWhileAdding(p, base, s, id, t, addrs, c, call);
          TroubleKeepsAdding(p, base, PlainCall(s, call).s, id, t, addrs, DoCall(p, c, call).c, events[1..], c');
      }
    }
  }

  /**
   Retried additions converge: after any number of attempts that failed at any command, with any clean calls on other rules
   in between, the first attempt that succeeds leaves the state of a client in which nothing ever failed.
   */
  lemma AddRetryConverges(p: Pipeline, base: FlowTable, s: PlainStore, id: RuleId, t: AddressType, addrs: seq<Address>, c: Client, events: seq<Event>, c': Client, clean: Client)
    requires Represents(p, base, s, c) && HasSide(s, id, t) && AddTroubled(p, id, t, addrs, c, events, c')
    requires AddPolicyRuleAddress(c', id, t, addrs).err.NoError?
    requires Represents(p, base, PlainCall(PlainEvents(s, events), AddAddresses(id, t, addrs)).s, clean)
    ensures SameState(AddPolicyRuleAddress(c', id, t, addrs).c, clean)
  {
    hide Represents, RepresentsAside, AddPolicyRuleAddress, AddTroubled;
    NothingAdded(p, base, s, id, t, addrs, c);
    TroubleKeepsAdding(p, base, s, id, t, addrs, c, events, c');
    var s' := PlainEvents(s, events);
    AdditionResumes(p, base, s', id, t, addrs, c');
    assert PlainCall(s', AddAddresses(id, t, addrs)).s == WithPart(s', id, t, Elems(addrs));
    PlainRulesDetermineState(p, base, WithPart(s', id, t, Elems(addrs)), AddPolicyRuleAddress(c', id, t, addrs).c, clean);
  }

  /***** Interrupted deletions *****/

  /** The rule claims every key that it holds, except perhaps some of `keys`. */
  ghost predicate ShedShare(conj: Conjunct, keys: set<Key>, sh: Share) {
    && sh.flows == FlowTableOf(conj.actionFlows)
    && forall k :: Look(sh.claims, k) == HeldBy(conj, k) || (k in keys && Look(sh.claims, k).None?)
  }

  /**
   One attempt to delete addresses, beside any other shares `g`.  Whatever fails, the clause keeps all keys but `gone`, and
   of the keys that it keeps only those of the call may have been released; a success takes all keys of the call out.
   */
  lemma DeleteAddressAttempt(base: FlowTable, g: Shares, c: Client, id: RuleId, sh: Share, t: AddressType, addrs: seq<Address>)
    returns (gone: set<Key>, sh': Share)
    requires id in c.policies && ConjunctOk(id, c.policies[id]) && GetAddressClause(c.policies[id], t).Some?
    requires var clause := GetAddressClause(c.policies[id], t).value;
             var keys := Elems(AddressKeys(clause.ruleTable, t, addrs));
             && ShedShare(c.policies[id], keys, sh) && Inv(g[id := sh], base, c.engine)
             && Loose(g[id := sh], c.engine, keys * clause.matches)
    ensures var x := DeletePolicyRuleAddress(c, id, t, addrs);
            var clause := GetAddressClause(c.policies[id], t).value;
            var keys := Elems(AddressKeys(clause.ruleTable, t, addrs));
            var conj' := WithMatches(c.policies[id], AddressSide(t).value, clause.matches - gone);
            && x.err in {NoError, SwitchError}
            && gone <= keys && (x.err.NoError? ==> gone == keys && sh' == ShareOf(conj'))
            && ConjunctOk(id, conj') && x.c.policies == c.policies[id := conj']
            && ShedShare(conj', keys, sh') && Inv(g[id := sh'], base, x.c.engine)
            && Loose(g[id := sh'], x.c.engine, keys * (clause.matches - gone))
  {
    hide Inv, Loose, DeleteFlows, ShareOf, FlowTableOf, ShedShare, Deletable;
    var conj := c.policies[id];
    var side := AddressSide(t).value;
    var clause := GetAddressClause(conj, t).value;
    var keys := AddressKeys(clause.ruleTable, t, addrs);
    var h := g[id := sh];
    assert ConjunctSide(conj, side) == Some(clause);
    assert ProperClause(Slot(id, side), clause);
    AddressKeysProper(t, clause.ruleTable, addrs);
    ShedIsDeletable(h, id, conj, side, keys);
    var released: set<Key>;
    gone, released := DeleteFlowsKeepInv(h, base, c.engine, clause, keys, Elems(keys) * clause.matches);
    MatchesChangeOk(id, conj, side, clause.matches - gone);
    sh' := Share(sh.claims - released, sh.flows);
    assert WithoutClaims(h, id, released) == g[id := sh'];
    var r := DeleteFlows(c.engine, clause, keys);
    ShedFurther(id, conj, side, keys, sh, gone, released);
    hide ConjunctOk;
    KeptAreClaimed(g, id, WithMatches(conj, side, clause.matches - gone), side, Elems(keys), sh', r.e,
                   Elems(keys) * clause.matches - (gone * clause.matches) + if r.ok then {} else clause.matches - gone);
  }

  lemma ShedIsDeletable(h: Shares, id: RuleId, conj: Conjunct, side: Side, keys: seq<Key>)
    requires id in h && ConjunctOk(id, conj) && ConjunctSide(conj, side).Some? && ShedShare(conj, Elems(keys), h[id])
    requires forall k | k in keys :: ProperKey(side, ConjunctSide(conj, side).value.ruleTable, k)
    ensures Deletable(h, ConjunctSide(conj, side).value, keys)
  {
    assert ProperClause(Slot(id, side), ConjunctSide(conj, side).value);
    forall k | k in keys ensures ClaimOf(h, id, k) in {None, HeldBy(conj, k)} && SideOf(k.kind) == side {
    }
  }

  /** The share and the clause after the loop still fit, and fit fully if all keys are gone. */
  lemma ShedFurther(id: RuleId, conj: Conjunct, side: Side, keys: seq<Key>, sh: Share, gone: set<Key>, released: set<Key>)
    requires ConjunctOk(id, conj) && ConjunctSide(conj, side).Some? && ShedShare(conj, Elems(keys), sh)
    requires forall k | k in keys :: ProperKey(side, ConjunctSide(conj, side).value.ruleTable, k)
    requires gone <= released <= Elems(keys)
    ensures var conj' := WithMatches(conj, side, ConjunctSide(conj, side).value.matches - gone);
            var sh' := Share(sh.claims - released, sh.flows);
            && ShedShare(conj', Elems(keys), sh')
            && (gone == Elems(keys) ==> sh' == ShareOf(conj'))
  {
    var clause := ConjunctSide(conj, side).value;
    assert ProperClause(Slot(id, side), clause);
    var conj' := WithMatches(conj, side, clause.matches - gone);
    var sh' := Share(sh.claims - released, sh.flows);
    MatchesChangeOk(id, conj, side, clause.matches - gone);
    forall k
      ensures Look(sh'.claims, k) == HeldBy(conj', k) || (k in Elems(keys) && Look(sh'.claims, k).None?)
      ensures gone == Elems(keys) ==> Look(sh'.claims, k) == HeldBy(conj', k)
    {
      assert Look(sh.claims, k) == HeldBy(conj, k) || (k in Elems(keys) && Look(sh.claims, k).None?);
      assert k in Elems(keys) ==> SideOf(k.kind) == side;
    }
    if gone == Elems(keys) {
      BackedShare(conj', sh');
    }
  }

  /** A cached key that the clause keeps is claimed, unless it is one of the call's. */
  lemma KeptAreClaimed(g: Shares, id: RuleId, conj: Conjunct, side: Side, keys: set<Key>, sh: Share, e: Engine, spare: set<Key>)
    requires ConjunctOk(id, conj) && ConjunctSide(conj, side).Some? && ShedShare(conj, keys, sh) && Loose(g[id := sh], e, spare)
    requires spare <= ConjunctSide(conj, side).value.matches
    ensures Loose(g[id := sh], e, keys * ConjunctSide(conj, side).value.matches)
  {
    var clause := ConjunctSide(conj, side).value;
    assert ProperClause(Slot(id, side), clause);
    var h := g[id := sh];
    forall k | k in e.cache && k !in keys * clause.matches ensures exists i :: Claims(h, i, k) {
      if k in spare {
        assert HeldBy(conj, k) == Some(clause.action);
        assert Claims(h, id, k);
      }
    }
  }

  /**
   The client represents `s`, but rule `id` has lost some of the addresses; of those that it still holds, some may have been
   released already, because their drop flow could not be deleted.
   */
  ghost predicate Shedding(p: Pipeline, base: FlowTable, s: PlainStore, id: RuleId, t: AddressType, addrs: seq<Address>, c: Client) {
    && HasSide(s, id, t) && id in c.policies && c.policies - {id} == PlainConjuncts(p, s - {id}) && ConjunctsOk(c.policies)
    && exists left, sh :: Shed(p, base, s, id, t, addrs, c, left, sh)
  }

  ghost predicate Shed(p: Pipeline, base: FlowTable, s: PlainStore, id: RuleId, t: AddressType, addrs: seq<Address>, c: Client, left: set<Address>, sh: Share)
    requires HasSide(s, id, t) && id in c.policies
  {
    var keys, all := UpdateKeys(s[id], t, addrs), PlainSide(s[id], t).value;
    && all - Elems(addrs) <= left <= all
    && c.policies[id] == PlainConjunct(p, id, WithPlainSide(s[id], t, left))
    && ShedShare(c.policies[id], keys, sh)
    && Inv(SharesOf(c.policies - {id})[id := sh], base, c.engine)
    && Loose(SharesOf(c.policies - {id})[id := sh], c.engine, keys * AddressImage(RuleTable(s[id].dir), t, left))
  }

  lemma NothingDeleted(p: Pipeline, base: FlowTable, s: PlainStore, id: RuleId, t: AddressType, addrs: seq<Address>, c: Client)
    requires Represents(p, base, s, c) && HasSide(s, id, t)
    ensures Shedding(p, base, s, id, t, addrs, c)
  {
    hide Inv, Loose, ConjunctOk, PlainConjunct, AddressImage;
    var h, all := SharesOf(c.policies), PlainSide(s[id], t).value;
    var keys := UpdateKeys(s[id], t, addrs);
    assert WithPlainSide(s[id], t, all) == s[id];
    assert c.policies - {id} == PlainConjuncts(p, s - {id});
    assert SharesOf(c.policies - {id})[id := h[id]] == h;
    ShareIsBacked(c.policies[id]);
    LooseMonotone(h, c.engine, {}, keys * AddressImage(RuleTable(s[id].dir), t, all));
    assert Shed(p, base, s, id, t, addrs, c, all, h[id]);
  }

  /** An attempt keeps the client in such a state if a command fails, and completes the deletion if none does. */
  lemma DeletionResumes(p: Pipeline, base: FlowTable, s: PlainStore, id: RuleId, t: AddressType, addrs: seq<Address>, c: Client)
    requires Shedding(p, base, s, id, t, addrs, c)
    ensures var x := DeletePolicyRuleAddress(c, id, t, addrs);
            && x.err in {NoError, SwitchError}
            && (x.err.SwitchError? ==> Shedding(p, base, s, id, t, addrs, x.c))
            && (x.err.NoError? ==> Represents(p, base, PlainCall(s, DeleteAddresses(id, t, addrs)).s, x.c))
  {
    hide Inv, Loose, PlainConjunct, DeletePolicyRuleAddress, WithMatches, AddressImage, Elems, ShareOf, ShedShare, ConjunctOk;
    var left, sh :| Shed(p, base, s, id, t, addrs, c, left, sh);
    var table, side, r := RuleTable(s[id].dir), AddressSide(t).value, WithPlainSide(s[id], t, left);
    var g := SharesOf(c.policies - {id});
    SideReplaced(s[id], t, left);
    PlainSideClause(p, id, r, t);
    KeysOfAddresses(table, t, addrs);
    var gone, sh' := DeleteAddressAttempt(base, g, c, id, sh, t, addrs);
    var lost := AddressesWith(table, t, Elems(addrs), gone);
    KeysOfPart(table, t, Elems(addrs), gone);
    AddressImageLaws(table, t, left, lost);
    SideReplacedTwice(s[id], t, left, left - lost);
    var x := DeletePolicyRuleAddress(c, id, t, addrs);
    assert x.c.policies[id] == PlainConjunct(p, id, WithPlainSide(s[id], t, left - lost));
    assert x.c.policies - {id} == c.policies - {id};
    if x.err.NoError? {
      assert left - lost == PlainSide(s[id], t).value - Elems(addrs);
      SheddingEnds(p, base, s, id, t, addrs, x.c, sh');
    } else {
      assert Shed(p, base, s, id, t, addrs, x.c, left - lost, sh');
    }
  }

  lemma SideReplaced(r: PlainRule, t: AddressType, addrs: set<Address>)
    requires PlainSide(r, t).Some?
    ensures var r' := WithPlainSide(r, t, addrs);
            r'.dir == r.dir && PlainSide(r', t) == Some(addrs)
  {
  }

  lemma SideReplacedTwice(r: PlainRule, t: AddressType, addrs: set<Address>, more: set<Address>)
    ensures WithPlainSide(WithPlainSide(r, t, addrs), t, more) == WithPlainSide(r, t, more)
  {
  }

  lemma SheddingEnds(p: Pipeline, base: FlowTable, s: PlainStore, id: RuleId, t: AddressType, addrs: seq<Address>, c: Client, sh: Share)
    requires HasSide(s, id, t) && id in c.policies && c.policies - {id} == PlainConjuncts(p, s - {id}) && ConjunctsOk(c.policies)
    requires var left := PlainSide(s[id], t).value - Elems(addrs);
             && c.policies[id] == PlainConjunct(p, id, WithPlainSide(s[id], t, left))
             && sh == ShareOf(c.policies[id])
             && Inv(SharesOf(c.policies - {id})[id := sh], base, c.engine)
             && Loose(SharesOf(c.policies - {id})[id := sh], c.engine,
                      UpdateKeys(s[id], t, addrs) * AddressImage(RuleTable(s[id].dir), t, left))
    ensures Represents(p, base, PlainCall(s, DeleteAddresses(id, t, addrs)).s, c)
  {
    hide Inv, PlainConjunct, ShareOf, ConjunctOk;
    var left := PlainSide(s[id], t).value - Elems(addrs);
    AddressImageLaws(RuleTable(s[id].dir), t, PlainSide(s[id], t).value, Elems(addrs));
    assert UpdateKeys(s[id], t, addrs) * AddressImage(RuleTable(s[id].dir), t, left) == {};
    assert SharesOf(c.policies - {id})[id := sh] == SharesOf(c.policies);
    assert c.policies == (c.policies - {id})[id := c.policies[id]];
    assert PlainConjuncts(p, s[id := WithPlainSide(s[id], t, left)]) == c.policies;
  }

  /***** Other calls between the attempts *****/

  /** A half-finished deletion is also a removal that can be resumed, so the whole rule may be uninstalled instead. */
  lemma SheddingIsResumable(p: Pipeline, base: FlowTable, s: PlainStore, id: RuleId, t: AddressType, addrs: seq<Address>, c: Client)
    requires Shedding(p, base, s, id, t, addrs, c) && KeysHeld(c, id)
    ensures Resumable(p, base, s, id, c)
  {
    hide Inv, Loose, ConjunctOk, ShedShare, FlowTableOf;
    var left, sh :| Shed(p, base, s, id, t, addrs, c, left, sh);
    ShedIsLeaving(p, s, id, t, addrs, c.policies[id], left, sh);
    LooseMonotone(SharesOf(c.policies - {id})[id := sh], c.engine,
                  UpdateKeys(s[id], t, addrs) * AddressImage(RuleTable(s[id].dir), t, left), HeldKeys(c.policies[id]));
  }

  lemma ShedIsLeaving(p: Pipeline, s: PlainStore, id: RuleId, t: AddressType, addrs: seq<Address>, conj: Conjunct, left: set<Address>, sh: Share)
    requires HasSide(s, id, t) && ConjunctOk(id, conj) && left <= PlainSide(s[id], t).value
    requires conj == PlainConjunct(p, id, WithPlainSide(s[id], t, left)) && ShedShare(conj, UpdateKeys(s[id], t, addrs), sh)
    ensures Leaving(id, conj, sh) && Departed(p, id, s[id], sh)
    ensures conj.actionFlows == ActionFlows(Template(id, s[id]), Next(p, s[id].dir))
    ensures UpdateKeys(s[id], t, addrs) * AddressImage(RuleTable(s[id].dir), t, left) <= HeldKeys(conj)
  {
    hide ActionFlows, FlowTableOf;
    assert Template(id, WithPlainSide(s[id], t, left)) == Template(id, s[id]);
    forall k ensures Look(sh.claims, k) in {None, HeldBy(conj, k)} && HeldBy(conj, k) in {None, HeldBy(PlainConjunct(p, id, s[id]), k)} {
    }
  }

  /** A clean call on another rule does what it should beside a half-finished deletion. */
  lemma OthersProceedWhileShedding(p: Pipeline, base: FlowTable, s: PlainStore, id: RuleId, t: AddressType, addrs: seq<Address>, c: Client, call: Call)
    requires Shedding(p, base, s, id, t, addrs, c) && Clean(p, c, call) && CalledRule(call) != id
    ensures Shedding(p, base, PlainCall(s, call).s, id, t, addrs, DoCall(p, c, call).c)
  {
    hide Inv, Loose, ShedShare, PlainConjuncts, DoCall, PlainCall, WellOrdered, SharesOf, ConjunctOk;
    var left, sh :| Shed(p, base, s, id, t, addrs, c, left, sh);
    var others := c.(policies := c.policies - {id});
    var keys := UpdateKeys(s[id], t, addrs) * AddressImage(RuleTable(s[id].dir), t, left);
    CallFrame(p, c, call, id);
    PlainCallFrame(s, call, id);
    AddLast(SharesOf(c.policies - {id}), id, sh);
    CallRefinesAside(p, base, map[id := sh], keys, s - {id}, others, call);
    var c' := DoCall(p, c, call).c;
    AddLast(SharesOf(DoCall(p, others, call).c.policies), id, sh);
    assert forall i | i in c'.policies && i != id :: i in c'.policies - {id};
    assert Shed(p, base, PlainCall(s, call).s, id, t, addrs, c', left, sh);
  }

  /** A failed attempt keeps every key that it leaves in the clauses cached. */
  lemma FailedDeletionHolds(c: Client, id: RuleId, t: AddressType, addrs: seq<Address>)
    requires id in c.policies && ConjunctOk(id, c.policies[id]) && KeysHeld(c, id)
    ensures var x := DeletePolicyRuleAddress(c, id, t, addrs);
            id in x.c.policies && KeysHeld(x.c, id)
  {
    hide ConjunctOk, HeldKeys, DeleteFlows;
    var clause := GetAddressClause(c.policies[id], t);
    if clause.Some? {
      DeleteSideHolds(c.engine, id, c.policies[id], AddressSide(t).value, AddressKeys(clause.value.ruleTable, t, addrs));
    }
  }

  /** As PolicyFailures.Beset, for failing attempts to delete addresses. */
  ghost predicate DeleteTroubled(p: Pipeline, id: RuleId, t: AddressType, addrs: seq<Address>, c: Client, events: seq<Event>, c': Client)
    decreases |events|
  {
    id in c.policies
    && if events == [] then c' == c
       else match events[0]
         case FailedAttempt =>
           var x := DeletePolicyRuleAddress(c, id, t, addrs);
           x.err.SwitchError? && DeleteTroubled(p, id, t, addrs, x.c, events[1..], c')
         case OtherCall(call) =>
           && Clean(p, c, call) && CalledRule(call) != id && CallKeys(c, call) !! StuckKeys(c, id)
           && DeleteTroubled(p, id, t, addrs, DoCall(p, c, call).c, events[1..], c')
  }

  lemma {:induction false} TroubleKeepsShedding(p: Pipeline, base: FlowTable, s: PlainStore, id: RuleId, t: AddressType, addrs: seq<Address>, c: Client, events: seq<Event>, c': Client)
    requires Shedding(p, base, s, id, t, addrs, c) && KeysHeld(c, id) && DeleteTroubled(p, id, t, addrs, c, events, c')
    ensures Shedding(p, base, PlainEvents(s, events), id, t, addrs, c') && KeysHeld(c', id)
    decreases |events|
  {
    hide Shed, DeletePolicyRuleAddress, DoCall, Clean, PlainCall, KeysHeld, CallKeys, StuckKeys, Departing, ConjunctOk;
    if events != [] {
      match events[0] {
        case FailedAttempt =>
          DeletionResumes(p, base, s, id, t, addrs, c);
          FailedDeletionHolds(c, id, t, addrs);
          TroubleKeepsShedding(p, base, s, id, t, addrs, DeletePolicyRuleAddress(c, id, t, addrs).c, events[1..], c');
        case OtherCall(call) =>
          OthersProceedWhileShedding(p, base, s, id, t, addrs, c, call);
          SheddingIsResumable(p, base, s, id, t, addrs, c);
          OthersKeepKeysHeld(p, base, s, id, c, call);
          TroubleKeepsShedding(p, base, PlainCall(s, call).s, id, t, addrs, DoCall(p, c, call).c, events[1..], c');
      }
    }
  }

  /**
   Retried deletions converge: after any number of attempts that failed at any command, with any clean calls on other rules
   in between that leave the stuck keys alone, the first attempt that succeeds leaves the state of a client in which nothing
   ever failed.
   */
  lemma DeleteRetryConverges(p: Pipeline, base: FlowTable, s: PlainStore, id: RuleId, t: AddressType, addrs: seq<Address>, c: Client, events: seq<Event>, c': Client, clean: Client)
    requires Represents(p, base, s, c) && HasSide(s, id, t) && DeleteTroubled(p, id, t, addrs, c, events, c')
    requires DeletePolicyRuleAddress(c', id, t, addrs).err.NoError?
    requires Represents(p, base, PlainCall(PlainEvents(s, events), DeleteAddresses(id, t, addrs)).s, clean)
    ensures SameState(DeletePolicyRuleAddress(c', id, t, addrs).c, clean)
  {
    hide Represents, Shedding, Resumable, DeletePolicyRuleAddress, DeleteTroubled, PlainCall;
    NothingDeleted(p, base, s, id, t, addrs, c);
    assert KeysHeld(c, id) by { LiveKeysHeld(p, base, s, id, c); }
    TroubleKeepsShedding(p, base, s, id, t, addrs, c, events, c');
    var s' := PlainEvents(s, events);
    DeletionResumes(p, base, s', id, t, addrs, c');
    PlainRulesDetermineState(p, base, PlainCall(s', DeleteAddresses(id, t, addrs)).s, DeletePolicyRuleAddress(c', id, t, addrs).c, clean);
  }

  lemma LiveKeysHeld(p: Pipeline, base: FlowTable, s: PlainStore, id: RuleId, c: Client)
    requires Represents(p, base, s, c) && id in s
    ensures id in c.policies && KeysHeld(c, id)
  {
    hide Departing, Represents, KeysHeld;
    LiveIsResumable(p, base, s, id, c);
    StillInstalled(p, base, s, id, c);
    DepartingConjunctOk(p, base, s, id, c);
  }
}
