/**
 The plain rule set that the engine stands for.  A rule is a product From x To x Service of sets, the four calls are set
 operations, and the engine refines them: cache, switch and policy cache are a function of the plain rules.
 */
module PolicyStore {
  import opened OpenFlow
  import opened PolicyTypes
  import opened PolicyEngine
  import opened PolicyInvariant
  import opened PolicyInterleaving
  import opened PolicyLoops
  import opened Sequences
  import opened PolicyRules

  /***** Clients between calls *****/

  function ClaimsOf(c: Conjunct): map<Key, Act> {
    map k | k in HeldKeys(c) && HeldBy(c, k).Some? :: HeldBy(c, k).value
  }

  function ShareOf(c: Conjunct): Share {
    Share(ClaimsOf(c), FlowTableOf(c.actionFlows))
  }

  function SharesOf(policies: map<RuleId, Conjunct>): Shares {
    map id | id in policies :: ShareOf(policies[id])
  }

  predicate ConjunctsOk(policies: map<RuleId, Conjunct>) {
    forall id | id in policies :: ConjunctOk(id, policies[id])
  }

  /** Every reachable state of failure-free runs. */
  ghost predicate ClientInv(base: FlowTable, c: Client) {
    && ConjunctsOk(c.policies)
    && Inv(SharesOf(c.policies), base, c.engine)
    && Tight(SharesOf(c.policies), c.engine)
  }

  /**
   The same beside rules whose installation has stopped half-way: their shares are `extra`, and contexts among `spare` may
   be unclaimed.
   */
  ghost predicate Aside(base: FlowTable, c: Client, extra: Shares, spare: set<Key>) {
    && ConjunctsOk(c.policies) && extra.Keys !! c.policies.Keys
    && Inv(SharesOf(c.policies) + extra, base, c.engine)
    && Loose(SharesOf(c.policies) + extra, c.engine, spare)
  }

  lemma NothingAside(base: FlowTable, c: Client)
    ensures ClientInv(base, c) <==> Aside(base, c, map[], {})
  {
    assert SharesOf(c.policies) + map[] == SharesOf(c.policies);
  }

  lemma ShareIsBacked(c: Conjunct)
    ensures FullyBacked(c, ShareOf(c))
  {
  }

  lemma BackedShare(c: Conjunct, s: Share)
    requires FullyBacked(c, s) && s.flows == FlowTableOf(c.actionFlows)
    ensures s == ShareOf(c)
  {
    ShareIsBacked(c);
    forall k ensures Look(s.claims, k) == Look(ClaimsOf(c), k) {
      assert Look(s.claims, k) == HeldBy(c, k);
      assert Look(ShareOf(c).claims, k) == HeldBy(c, k);
    }
    LookDetermines(s.claims, ClaimsOf(c));
  }

  lemma InstalledShare(p: Pipeline, r: Rule)
    ensures ConjunctOk(r.id, InstalledConjunct(p, r))
    ensures ShareOf(InstalledConjunct(p, r)) == RuleShare(p, r)
  {
    var c := InstalledConjunct(p, r);
    forall side: Side ensures ConjunctSide(c, side) == InstalledSide(r, side) {
      RuleClausesProper(r, side);
    }
    RuleFlowsShape(p, r);
    forall f | f in c.actionFlows ensures OwnerOf(f.entry) == RuleOf(r.id) {
      assert ActionFlowShape(r, Next(p, r.dir), f);
    }
    forall side: Side | ConjunctSide(c, side).Some?
      ensures ProperClause(Slot(r.id, side), ConjunctSide(c, side).value)
    {
      RuleClausesProper(r, side);
    }
    forall k ensures Look(RuleClaims(r), k) == HeldBy(c, k) {
      RuleClaimHeld(p, r, k);
    }
    BackedShare(c, RuleShare(p, r));
  }

  lemma RuleClaimHeld(p: Pipeline, r: Rule, k: Key)
    ensures Look(RuleClaims(r), k) == HeldBy(InstalledConjunct(p, r), k)
  {
  }

  lemma ReplaceShare(policies: map<RuleId, Conjunct>, extra: Shares, id: RuleId, c: Conjunct)
    requires ConjunctsOk(policies) && ConjunctOk(id, c) && id !in extra
    ensures ConjunctsOk(policies[id := c])
    ensures SharesOf(policies[id := c]) + extra == (SharesOf(policies) + extra)[id := ShareOf(c)]
  {
  }

  lemma LooseIgnoresEmptyShare(h: Shares, e: Engine, id: RuleId, spare: set<Key>)
    ensures id !in h && Loose(h, e, spare) ==> Loose(h[id := NO_SHARE], e, spare)
    ensures id in h && h[id] == NO_SHARE && Loose(h, e, spare) ==> Loose(h - {id}, e, spare)
  {
    if id !in h {
      forall i, k ensures ClaimOf(h[id := NO_SHARE], i, k) == ClaimOf(h, i, k) {
      }
      if Loose(h, e, spare) {
        SameClaimsKeepLoose(h, h[id := NO_SHARE], e, e, spare);
      }
    } else if h[id] == NO_SHARE && Loose(h, e, spare) {
      forall i, k ensures ClaimOf(h - {id}, i, k) == ClaimOf(h, i, k) {
      }
      SameClaimsKeepLoose(h, h - {id}, e, e, spare);
    }
  }

  /***** The four calls, when no command fails *****/

  lemma NewRuleOwnsNothing(base: FlowTable, c: Client, extra: Shares, spare: set<Key>, id: RuleId)
    requires Aside(base, c, extra, spare) && id !in c.policies && id !in extra
    ensures var h := (SharesOf(c.policies) + extra)[id := NO_SHARE];
            Inv(h, base, c.engine) && Loose(h, c.engine, spare) && ConjunctsOk(c.policies)
  {
    EmptyShareKeepsInv(SharesOf(c.policies) + extra, base, c.engine, id);
    LooseIgnoresEmptyShare(SharesOf(c.policies) + extra, c.engine, id, spare);
  }

  lemma InstallKeeps(p: Pipeline, base: FlowTable, c: Client, extra: Shares, spare: set<Key>, r: Rule)
    requires Aside(base, c, extra, spare) && r.id !in c.policies && r.id !in extra
    requires InstallPolicyRuleFlows(c, p, r).err.NoError?
    ensures Aside(base, InstallPolicyRuleFlows(c, p, r).c, extra, spare)
    ensures InstallPolicyRuleFlows(c, p, r).c.policies == c.policies[r.id := InstalledConjunct(p, r)]
  {
    hide Inv, Loose, ConjunctOk, ConjunctsOk, InstallPolicyRuleFlows, InstalledConjunct, RuleShare, RuleKeys, ShareOf, SharesOf, PartialShare;
    var h := (SharesOf(c.policies) + extra)[r.id := NO_SHARE];
    NewRuleOwnsNothing(base, c, extra, spare, r.id);
    NoShareIsPartial(p, r);
    var s := InstallAttempt(p, r, h, base, c, spare);
    InstalledShare(p, r);
    ReplaceShare(c.policies, extra, r.id, InstalledConjunct(p, r));
    var e := InstallPolicyRuleFlows(c, p, r).c.engine;
    assert h[r.id := s] == SharesOf(c.policies[r.id := InstalledConjunct(p, r)]) + extra;
    LooseMonotone(h[r.id := s], e, spare - RuleKeys(r), spare);
  }

  lemma NoShareIsPartial(p: Pipeline, r: Rule)
    ensures PartialShare(p, r, NO_SHARE)
  {
  }

  lemma UninstallKeeps(base: FlowTable, c: Client, extra: Shares, spare: set<Key>, id: RuleId, o: Orders)
    requires Aside(base, c, extra, spare) && id in c.policies && Enumerates(o, c.policies[id])
    requires UninstallPolicyRuleFlows(c, id, o).err.NoError?
    ensures Aside(base, UninstallPolicyRuleFlows(c, id, o).c, extra, spare)
    ensures UninstallPolicyRuleFlows(c, id, o).c.policies == c.policies - {id}
  {
    hide Inv, Loose, Leaving, ConjunctOk, UninstallPolicyRuleFlows, ShareOf, FlowTableOf, Enumerates;
    var h := SharesOf(c.policies) + extra;
    LiveRuleLeaving(c.policies, id);
    var s := UninstallAttempt(h, base, c, id, o, spare);
    var x := UninstallPolicyRuleFlows(c, id, o);
    EmptyShareKeepsInv(h[id := s], base, x.c.engine, id);
    LooseMonotone(h[id := s], x.c.engine, spare - HeldKeys(c.policies[id]), spare);
    LooseIgnoresEmptyShare(h[id := s], x.c.engine, id, spare);
    assert h[id := s] - {id} == SharesOf(c.policies - {id}) + extra;
  }

  lemma LiveRuleLeaving(policies: map<RuleId, Conjunct>, id: RuleId)
    requires ConjunctsOk(policies) && id in policies
    ensures Leaving(id, policies[id], ShareOf(policies[id])) && ConjunctsOk(policies - {id})
  {
  }

  /** What AddPolicyRuleAddress and DeletePolicyRuleAddress leave in the policy cache. */
  function WithMatches(c: Conjunct, side: Side, matches: set<Key>): Conjunct
    requires ConjunctSide(c, side).Some?
  {
    SetSide(c, side, Some(ConjunctSide(c, side).value.(matches := matches)))
  }

  function AddressSide(t: AddressType): Option<Side> {
    match t
    case SrcAddress => Some(From)
    case DstAddress => Some(To)
    case UnknownAddressType => None
  }

  lemma AddressKeysProper(t: AddressType, table: TableId, addrs: seq<Address>)
    requires IsRuleTable(table) && AddressSide(t).Some?
    ensures forall k | k in AddressKeys(table, t, addrs) :: ProperKey(AddressSide(t).value, table, k)
  {
  }

  lemma MatchesChangeOk(id: RuleId, c: Conjunct, side: Side, matches: set<Key>)
    requires ConjunctOk(id, c) && ConjunctSide(c, side).Some?
    requires forall k | k in matches :: ProperKey(side, ConjunctSide(c, side).value.ruleTable, k)
    ensures ConjunctOk(id, WithMatches(c, side, matches))
    ensures forall k :: HeldBy(WithMatches(c, side, matches), k) ==
              if SideOf(k.kind) != side then HeldBy(c, k)
              else if k in matches then Some(ConjunctSide(c, side).value.action) else None
  {
  }

  /**
   One attempt to add addresses.  Whatever fails, the clause records the keys `done` that the rule has claimed, and only keys
   of the call can be left without a claim; a success claims all of them.
   */
  lemma AddAddressAttempt(base: FlowTable, c: Client, extra: Shares, spare: set<Key>, id: RuleId, t: AddressType, addrs: seq<Address>)
    returns (done: set<Key>)
    requires Aside(base, c, extra, spare) && id in c.policies && GetAddressClause(c.policies[id], t).Some?
    ensures var x := AddPolicyRuleAddress(c, id, t, addrs);
            var clause := GetAddressClause(c.policies[id], t).value;
            var keys := Elems(AddressKeys(clause.ruleTable, t, addrs));
            && x.err in {NoError, SwitchError}
            && done <= keys && (x.err.NoError? ==> done == keys)
            && Aside(base, x.c, extra, if x.err.NoError? then spare - keys else spare + keys)
            && x.c.policies == c.policies[id := WithMatches(c.policies[id], AddressSide(t).value, clause.matches + done)]
  {
    var h := SharesOf(c.policies) + extra;
    var conj := c.policies[id];
    var side := AddressSide(t).value;
    var clause := GetAddressClause(conj, t).value;
    var keys := AddressKeys(clause.ruleTable, t, addrs);
    assert ConjunctOk(id, conj) && ConjunctSide(conj, side) == Some(clause);
    assert ProperClause(Slot(id, side), clause);
    AddressKeysProper(t, clause.ruleTable, addrs);
    AddedClauseAddable(h, id, conj, side, keys);
    done := AddFlowsKeepInv(h, base, c.engine, clause, keys, spare);
    MatchesChangeOk(id, conj, side, clause.matches + done);
    var conj' := WithMatches(conj, side, clause.matches + done);
    AddedShare(h, id, conj, side, done);
    hide Inv, Loose, ConjunctOk, AddFlows, WithClaims, ShareOf;
    ReplaceShare(c.policies, extra, id, conj');
    assert WithClaims(h, clause.action, done) == SharesOf(c.policies[id := conj']) + extra;
  }

  lemma AddAddressKeeps(base: FlowTable, c: Client, extra: Shares, spare: set<Key>, id: RuleId, t: AddressType, addrs: seq<Address>)
    requires Aside(base, c, extra, spare) && id in c.policies && GetAddressClause(c.policies[id], t).Some?
    requires AddPolicyRuleAddress(c, id, t, addrs).err.NoError?
    ensures var x := AddPolicyRuleAddress(c, id, t, addrs);
            var clause := GetAddressClause(c.policies[id], t).value;
            && Aside(base, x.c, extra, spare)
            && x.c.policies == c.policies[id := WithMatches(c.policies[id], AddressSide(t).value,
                                                 clause.matches + Elems(AddressKeys(clause.ruleTable, t, addrs)))]
  {
    hide Inv, Loose, AddPolicyRuleAddress, WithMatches;
    var keys := Elems(AddressKeys(GetAddressClause(c.policies[id], t).value.ruleTable, t, addrs));
    var _ := AddAddressAttempt(base, c, extra, spare, id, t, addrs);
    var x := AddPolicyRuleAddress(c, id, t, addrs);
    LooseMonotone(SharesOf(x.c.policies) + extra, x.c.engine, spare - keys, spare);
  }

  lemma AddedClauseAddable(h: Shares, id: RuleId, conj: Conjunct, side: Side, keys: seq<Key>)
    requires id in h && h[id] == ShareOf(conj) && ConjunctOk(id, conj) && ConjunctSide(conj, side).Some?
    requires forall k | k in keys :: ProperKey(side, ConjunctSide(conj, side).value.ruleTable, k)
    ensures Addable(h, ConjunctSide(conj, side).value, keys)
  {
  }

  lemma AddedShare(h: Shares, id: RuleId, conj: Conjunct, side: Side, keys: set<Key>)
    requires id in h && h[id] == ShareOf(conj) && ConjunctOk(id, conj) && ConjunctSide(conj, side).Some?
    requires forall k | k in keys :: ProperKey(side, ConjunctSide(conj, side).value.ruleTable, k)
    ensures var clause := ConjunctSide(conj, side).value;
            && clause.action.conj == id
            && WithClaims(h, clause.action, keys) == h[id := ShareOf(WithMatches(conj, side, clause.matches + keys))]
  {
    var clause := ConjunctSide(conj, side).value;
    assert ProperClause(Slot(id, side), clause);
    var conj' := WithMatches(conj, side, clause.matches + keys);
    MatchesChangeOk(id, conj, side, clause.matches + keys);
    ShareIsBacked(conj);
    var s := WithClaims(h, clause.action, keys)[id];
    forall k ensures Look(s.claims, k) == HeldBy(conj', k) {
      assert Look(h[id].claims, k) == HeldBy(conj, k);
      assert k in keys ==> ProperKey(side, clause.ruleTable, k);
    }
    BackedShare(conj', s);
  }

  lemma DeleteAddressKeeps(base: FlowTable, c: Client, extra: Shares, spare: set<Key>, id: RuleId, t: AddressType, addrs: seq<Address>)
    requires Aside(base, c, extra, spare) && id in c.policies && GetAddressClause(c.policies[id], t).Some?
    requires DeletePolicyRuleAddress(c, id, t, addrs).err.NoError?
    ensures var x := DeletePolicyRuleAddress(c, id, t, addrs);
            var clause := GetAddressClause(c.policies[id], t).value;
            && Aside(base, x.c, extra, spare)
            && x.c.policies == c.policies[id := WithMatches(c.policies[id], AddressSide(t).value,
                                                 clause.matches - Elems(AddressKeys(clause.ruleTable, t, addrs)))]
  {
    var h := SharesOf(c.policies) + extra;
    var conj := c.policies[id];
    var side := AddressSide(t).value;
    var clause := GetAddressClause(conj, t).value;
    var keys := AddressKeys(clause.ruleTable, t, addrs);
    assert ConjunctOk(id, conj) && ConjunctSide(conj, side) == Some(clause);
    assert ProperClause(Slot(id, side), clause);
    AddressKeysProper(t, clause.ruleTable, addrs);
    ShareIsBacked(conj);
    var s := DeleteSideKeepsInv(h, base, c.engine, id, conj, side, keys, spare);
    var r := DeleteFlows(c.engine, clause, keys);
    var conj' := WithMatches(conj, side, clause.matches - Elems(keys));
    assert SetSide(conj, side, Some(r.clause)) == conj';
    BackedShare(conj', s);
    hide Inv, Loose, ConjunctOk, DeleteFlows, ShareOf;
    ReplaceShare(c.policies, extra, id, conj');
    LooseMonotone(h[id := s], r.e, spare - (Matches(Some(clause)) - Matches(Some(r.clause))) + {}, spare);
  }

  /***** The plain rule set *****/

  datatype PlainRule = PlainRule(
    dir: Direction,
    from: Option<set<Address>>,
    exceptFrom: seq<Address>,
    to: Option<set<Address>>,
    exceptTo: seq<Address>,
    service: Option<set<ServicePort>>)

  type PlainStore = map<RuleId, PlainRule>

  function Members<T>(s: Option<seq<T>>): Option<set<T>> {
    if s.Some? then Some(Elems(s.value)) else None
  }

  function PlainOf(r: Rule): PlainRule {
    PlainRule(r.dir, Members(r.from), r.exceptFrom, Members(r.to), r.exceptTo, Members(r.service))
  }

  datatype PlainResult = PlainResult(s: PlainStore, err: Error)

  function PlainSide(r: PlainRule, t: AddressType): Option<set<Address>> {
    match t
    case SrcAddress => r.from
    case DstAddress => r.to
    case UnknownAddressType => None
  }

  function WithPlainSide(r: PlainRule, t: AddressType, addrs: set<Address>): PlainRule {
    match t
    case SrcAddress => r.(from := Some(addrs))
    case DstAddress => r.(to := Some(addrs))
    case UnknownAddressType => r
  }

  datatype Call =
    | Install(rule: Rule)
    | Uninstall(id: RuleId, orders: Orders)
    | AddAddresses(id: RuleId, t: AddressType, addrs: seq<Address>)
    | DeleteAddresses(id: RuleId, t: AddressType, addrs: seq<Address>)

  function DoCall(p: Pipeline, c: Client, call: Call): CallResult {
    match call
    case Install(r) => InstallPolicyRuleFlows(c, p, r)
    case Uninstall(id, o) => UninstallPolicyRuleFlows(c, id, o)
    case AddAddresses(id, t, addrs) => AddPolicyRuleAddress(c, id, t, addrs)
    case DeleteAddresses(id, t, addrs) => DeletePolicyRuleAddress(c, id, t, addrs)
  }

  /** What a call means for the plain rules. */
  function PlainCall(s: PlainStore, call: Call): PlainResult {
    match call
    case Install(r) => PlainResult(if r.id in s then s else s[r.id := PlainOf(r)], NoError)
    case Uninstall(id, _) => PlainResult(s - {id}, NoError)
    case AddAddresses(id, t, addrs) =>
      if id !in s then PlainResult(s, ConjunctionNotFound)
      else if PlainSide(s[id], t).None? then PlainResult(s, NoClause)
      else PlainResult(s[id := WithPlainSide(s[id], t, PlainSide(s[id], t).value + Elems(addrs))], NoError)
    case DeleteAddresses(id, t, addrs) =>
      if id !in s then PlainResult(s, ConjunctionNotFound)
      else if PlainSide(s[id], t).None? then PlainResult(s, NoClause)
      else PlainResult(s[id := WithPlainSide(s[id], t, PlainSide(s[id], t).value - Elems(addrs))], NoError)
  }

  /***** How a plain rule is represented *****/

  function Blank<T, U>(s: Option<set<T>>): Option<seq<U>> {
    if s.Some? then Some([]) else None
  }

  /** A rule with the same sides and excepts but without members. */
  function Template(id: RuleId, r: PlainRule): Rule {
    Rule(id, r.dir, Blank(r.from), r.exceptFrom, Blank(r.to), r.exceptTo, Blank(r.service))
  }

  function AddressImage(table: TableId, t: AddressType, addrs: set<Address>): set<Key> {
    set a | a in addrs :: AddressKey(table, t, a)
  }

  function PortImage(table: TableId, ports: set<ServicePort>): set<Key> {
    set q | q in ports :: PortKey(table, q)
  }

  function PlainConjunct(p: Pipeline, id: RuleId, r: PlainRule): Conjunct {
    var t := Template(id, r);
    Conjunct(id,
             if r.from.Some? then Some(FromClause(t).(matches := AddressImage(RuleTable(r.dir), SrcAddress, r.from.value))) else None,
             if r.to.Some? then Some(ToClause(t).(matches := AddressImage(RuleTable(r.dir), DstAddress, r.to.value))) else None,
             if r.service.Some? then Some(ServiceClause(t).(matches := PortImage(RuleTable(r.dir), r.service.value))) else None,
             ActionFlows(t, Next(p, r.dir)))
  }

  function PlainConjuncts(p: Pipeline, s: PlainStore): map<RuleId, Conjunct> {
    map id | id in s :: PlainConjunct(p, id, s[id])
  }

  /** The client represents the plain rules `s` on a switch that held the flows `base` at the start. */
  ghost predicate Represents(p: Pipeline, base: FlowTable, s: PlainStore, c: Client) {
    c.policies == PlainConjuncts(p, s) && ClientInv(base, c)
  }

  /** The deleteAllMatches loops of the call, if any, meet every key of their clauses. */
  predicate WellOrdered(c: Client, call: Call) {
    call.Uninstall? && call.id in c.policies ==> Enumerates(call.orders, c.policies[call.id])
  }

  /** Calls whose commands all succeed. */
  predicate Clean(p: Pipeline, c: Client, call: Call) {
    !DoCall(p, c, call).err.SwitchError? && WellOrdered(c, call)
  }

  lemma InstalledIsPlain(p: Pipeline, r: Rule)
    ensures InstalledConjunct(p, r) == PlainConjunct(p, r.id, PlainOf(r))
  {
    var pr := PlainOf(r);
    if r.from.Some? {
      KeysOfAddresses(RuleTable(r.dir), SrcAddress, r.from.value);
    }
    if r.to.Some? {
      KeysOfAddresses(RuleTable(r.dir), DstAddress, r.to.value);
    }
    if r.service.Some? {
      KeysOfPorts(RuleTable(r.dir), r.service.value);
    }
  }

  lemma KeysOfPorts(table: TableId, ports: seq<ServicePort>)
    ensures Elems(PortKeys(table, ports)) == PortImage(table, Elems(ports))
  {
  }

  lemma KeysOfAddresses(table: TableId, t: AddressType, addrs: seq<Address>)
    ensures Elems(AddressKeys(table, t, addrs)) == AddressImage(table, t, Elems(addrs))
  {
  }

  /** Different addresses have different keys, so removing keys removes addresses. */
  lemma AddressImageLaws(table: TableId, t: AddressType, a: set<Address>, b: set<Address>)
    ensures AddressImage(table, t, a + b) == AddressImage(table, t, a) + AddressImage(table, t, b)
    ensures AddressImage(table, t, a - b) == AddressImage(table, t, a) - AddressImage(table, t, b)
  {
  }

  lemma PlainSideClause(p: Pipeline, id: RuleId, r: PlainRule, t: AddressType)
    ensures var clause := GetAddressClause(PlainConjunct(p, id, r), t);
            && (clause.None? <==> PlainSide(r, t).None?)
            && (clause.Some? ==>
                  && clause.value.ruleTable == RuleTable(r.dir)
                  && clause.value.matches == AddressImage(RuleTable(r.dir), t, PlainSide(r, t).value)
                  && forall addrs :: PlainConjunct(p, id, WithPlainSide(r, t, addrs))
                       == WithMatches(PlainConjunct(p, id, r), AddressSide(t).value, AddressImage(RuleTable(r.dir), t, addrs)))
  {
  }

  ghost predicate RepresentsAside(p: Pipeline, base: FlowTable, extra: Shares, spare: set<Key>, s: PlainStore, c: Client) {
    c.policies == PlainConjuncts(p, s) && Aside(base, c, extra, spare)
  }

  function CalledRule(call: Call): RuleId {
    match call
    case Install(r) => r.id
    case Uninstall(id, _) => id
    case AddAddresses(id, _, _) => id
    case DeleteAddresses(id, _, _) => id
  }

  function CalledClause(c: Client, id: RuleId, t: AddressType): Option<Clause> {
    if id in c.policies then GetAddressClause(c.policies[id], t) else None
  }

  /** The keys on which a call works. */
  function CallKeys(c: Client, call: Call): set<Key> {
    match call
    case Install(r) => if r.id in c.policies then {} else RuleKeys(r)
    case Uninstall(id, _) => if id in c.policies then HeldKeys(c.policies[id]) else {}
    case AddAddresses(id, t, addrs) =>
      var clause := CalledClause(c, id, t);
      if clause.None? then {} else Elems(AddressKeys(clause.value.ruleTable, t, addrs))
    case DeleteAddresses(id, t, addrs) =>
      var clause := CalledClause(c, id, t);
      if clause.None? then {} else Elems(AddressKeys(clause.value.ruleTable, t, addrs)) * clause.value.matches
  }

  /** A clean call refines its plain meaning even beside half-installed other rules, with which it may share keys. */
  lemma CallRefinesAside(p: Pipeline, base: FlowTable, extra: Shares, spare: set<Key>, s: PlainStore, c: Client, call: Call)
    requires RepresentsAside(p, base, extra, spare, s, c) && Clean(p, c, call) && CalledRule(call) !in extra
    ensures RepresentsAside(p, base, extra, spare, PlainCall(s, call).s, DoCall(p, c, call).c)
    ensures PlainCall(s, call).err == DoCall(p, c, call).err
  {
    hide Aside, PlainConjunct, InstallPolicyRuleFlows, UninstallPolicyRuleFlows, Enumerates;
    match call {
      case Install(r) =>
        if r.id in s {
          InstallAgain(p, c, r);
        } else {
          InstallErrors(p, c, r);
          InstallKeeps(p, base, c, extra, spare, r);
          InstalledIsPlain(p, r);
          ReplacedConjunct(p, s, r.id, PlainOf(r));
        }
      case Uninstall(id, o) =>
        UninstallErrors(c, id, o);
        if id in s {
          UninstallKeeps(base, c, extra, spare, id, o);
          assert PlainConjuncts(p, s - {id}) == c.policies - {id};
        } else {
          assert s - {id} == s;
        }
      case AddAddresses(id, t, addrs) => AddRefines(p, base, extra, spare, s, c, id, t, addrs);
      case DeleteAddresses(id, t, addrs) => DeleteRefines(p, base, extra, spare, s, c, id, t, addrs);
    }
  }

  /** Each call whose commands all succeed does to the plain rules what it says, and reports the same error. */
  lemma CallRefines(p: Pipeline, base: FlowTable, s: PlainStore, c: Client, call: Call)
    requires Represents(p, base, s, c) && Clean(p, c, call)
    ensures Represents(p, base, PlainCall(s, call).s, DoCall(p, c, call).c)
    ensures PlainCall(s, call).err == DoCall(p, c, call).err
  {
    hide ClientInv, Aside, PlainCall, DoCall, Clean;
    NothingAside(base, c);
    CallRefinesAside(p, base, map[], {}, s, c, call);
    NothingAside(base, DoCall(p, c, call).c);
  }

  lemma InstallAgain(p: Pipeline, c: Client, r: Rule)
    requires r.id in c.policies
    ensures InstallPolicyRuleFlows(c, p, r) == CallResult(c, NoError)
  {
  }

  lemma InstallErrors(p: Pipeline, c: Client, r: Rule)
    ensures InstallPolicyRuleFlows(c, p, r).err in {NoError, SwitchError}
  {
  }

  lemma UninstallErrors(c: Client, id: RuleId, o: Orders)
    ensures UninstallPolicyRuleFlows(c, id, o).err in {NoError, SwitchError}
    ensures id !in c.policies ==> UninstallPolicyRuleFlows(c, id, o) == CallResult(c, NoError)
  {
  }

  lemma AddRefines(p: Pipeline, base: FlowTable, extra: Shares, spare: set<Key>, s: PlainStore, c: Client, id: RuleId, t: AddressType, addrs: seq<Address>)
    requires RepresentsAside(p, base, extra, spare, s, c) && id !in extra && Clean(p, c, AddAddresses(id, t, addrs))
    ensures RepresentsAside(p, base, extra, spare, PlainCall(s, AddAddresses(id, t, addrs)).s, DoCall(p, c, AddAddresses(id, t, addrs)).c)
    ensures PlainCall(s, AddAddresses(id, t, addrs)).err == DoCall(p, c, AddAddresses(id, t, addrs)).err
  {
    hide Aside, PlainConjunct, Enumerates, AddFlows, WithMatches;
    if id in s {
      PlainSideClause(p, id, s[id], t);
      if PlainSide(s[id], t).Some? {
        AddAddressKeeps(base, c, extra, spare, id, t, addrs);
        KeysOfAddresses(RuleTable(s[id].dir), t, addrs);
        AddressImageLaws(RuleTable(s[id].dir), t, PlainSide(s[id], t).value, Elems(addrs));
        ReplacedConjunct(p, s, id, WithPlainSide(s[id], t, PlainSide(s[id], t).value + Elems(addrs)));
      }
    }
  }

  lemma DeleteRefines(p: Pipeline, base: FlowTable, extra: Shares, spare: set<Key>, s: PlainStore, c: Client, id: RuleId, t: AddressType, addrs: seq<Address>)
    requires RepresentsAside(p, base, extra, spare, s, c) && id !in extra && Clean(p, c, DeleteAddresses(id, t, addrs))
    ensures RepresentsAside(p, base, extra, spare, PlainCall(s, DeleteAddresses(id, t, addrs)).s, DoCall(p, c, DeleteAddresses(id, t, addrs)).c)
    ensures PlainCall(s, DeleteAddresses(id, t, addrs)).err == DoCall(p, c, DeleteAddresses(id, t, addrs)).err
  {
    hide Aside, PlainConjunct, Enumerates, DeleteFlows, WithMatches;
    if id in s {
      PlainSideClause(p, id, s[id], t);
      if PlainSide(s[id], t).Some? {
        DeleteAddressKeeps(base, c, extra, spare, id, t, addrs);
        KeysOfAddresses(RuleTable(s[id].dir), t, addrs);
        AddressImageLaws(RuleTable(s[id].dir), t, PlainSide(s[id], t).value, Elems(addrs));
        ReplacedConjunct(p, s, id, WithPlainSide(s[id], t, PlainSide(s[id], t).value - Elems(addrs)));
      }
    }
  }

  lemma ReplacedConjunct(p: Pipeline, s: PlainStore, id: RuleId, r: PlainRule)
    ensures PlainConjuncts(p, s[id := r]) == PlainConjuncts(p, s)[id := PlainConjunct(p, id, r)]
  {
  }

  /***** Runs *****/

  /** `c'` is reached from `c` by the calls, none of whose commands fails. */
  ghost predicate Runs(p: Pipeline, c: Client, calls: seq<Call>, c': Client)
    decreases |calls|
  {
    if calls == [] then c' == c
    else Clean(p, c, calls[0]) && Runs(p, DoCall(p, c, calls[0]).c, calls[1..], c')
  }

  function PlainRun(s: PlainStore, calls: seq<Call>): PlainStore
    decreases |calls|
  {
    if calls == [] then s else PlainRun(PlainCall(s, calls[0]).s, calls[1..])
  }

  lemma {:induction false} RunRefines(p: Pipeline, base: FlowTable, s: PlainStore, c: Client, calls: seq<Call>, c': Client)
    requires Represents(p, base, s, c) && Runs(p, c, calls, c')
    ensures Represents(p, base, PlainRun(s, calls), c')
    decreases |calls|
  {
    if calls != [] {
      CallRefines(p, base, s, c, calls[0]);
      RunRefines(p, base, PlainCall(s, calls[0]).s, DoCall(p, c, calls[0]).c, calls[1..], c');
    }
  }

  /** Policy cache, context cache and switch are a function of the live rules and their members. */
  lemma PlainRulesDetermineState(p: Pipeline, base: FlowTable, s: PlainStore, c1: Client, c2: Client)
    requires Represents(p, base, s, c1) && Represents(p, base, s, c2)
    ensures c1.policies == c2.policies && c1.engine.cache == c2.engine.cache && c1.engine.sw.flows == c2.engine.sw.flows
  {
    StateDetermined(SharesOf(c1.policies), base, c1.engine, c2.engine);
  }

  predicate SameState(c1: Client, c2: Client) {
    c1.policies == c2.policies && c1.engine.cache == c2.engine.cache && c1.engine.sw.flows == c2.engine.sw.flows
  }

  /** History independence: two runs that mean the same for the plain rules end in the same state. */
  lemma HistoryIndependence(p: Pipeline, base: FlowTable, s: PlainStore, c: Client, calls1: seq<Call>, c1: Client, calls2: seq<Call>, c2: Client)
    requires Represents(p, base, s, c) && Runs(p, c, calls1, c1) && Runs(p, c, calls2, c2)
    requires PlainRun(s, calls1) == PlainRun(s, calls2)
    ensures SameState(c1, c2)
  {
    hide Represents, Runs;
    RunRefines(p, base, s, c, calls1, c1);
    RunRefines(p, base, s, c, calls2, c2);
    PlainRulesDetermineState(p, base, PlainRun(s, calls1), c1, c2);
  }

  function AddressesOf(r: Rule, t: AddressType): Option<seq<Address>> {
    match t
    case SrcAddress => r.from
    case DstAddress => r.to
    case UnknownAddressType => None
  }

  /** The rule with more addresses on one side. */
  function WithMore(r: Rule, t: AddressType, more: seq<Address>): Rule
    requires AddressesOf(r, t).Some?
  {
    if t.SrcAddress? then r.(from := Some(r.from.value + more)) else r.(to := Some(r.to.value + more))
  }

  /** Installing a rule with From (or To) = A + B is installing it with A and adding B. */
  lemma InstallThenAdd(p: Pipeline, base: FlowTable, s: PlainStore, c: Client, r: Rule, t: AddressType, more: seq<Address>, c1: Client, c2: Client)
    requires Represents(p, base, s, c) && r.id !in s && AddressesOf(r, t).Some?
    requires Runs(p, c, [Install(WithMore(r, t, more))], c1)
    requires Runs(p, c, [Install(r), AddAddresses(r.id, t, more)], c2)
    ensures SameState(c1, c2)
  {
    hide Represents, Runs;
    var calls1 := [Install(WithMore(r, t, more))];
    var calls2 := [Install(r), AddAddresses(r.id, t, more)];
    assert Elems(AddressesOf(r, t).value + more) == Elems(AddressesOf(r, t).value) + Elems(more);
    var s1 := s[r.id := PlainOf(r)];
    assert calls2[1..] == [AddAddresses(r.id, t, more)] && calls2[1..][1..] == [] && calls1[1..] == [];
    assert PlainRun(s1, calls2[1..]) == PlainCall(s1, calls2[1..][0]).s;
    assert PlainRun(s, calls2) == PlainRun(s1, calls2[1..]);
    assert PlainRun(s, calls1) == PlainCall(s, calls1[0]).s;
    HistoryIndependence(p, base, s, c, calls1, c1, calls2, c2);
  }

  lemma {:induction false} PlainRunSnoc(s: PlainStore, calls: seq<Call>, last: Call)
    ensures PlainRun(s, calls + [last]) == PlainCall(PlainRun(s, calls), last).s
    decreases |calls|
  {
    if calls == [] {
      assert [last][1..] == [];
      assert calls + [last] == [last];
      assert PlainRun(s, [last]) == PlainRun(PlainCall(s, last).s, []);
    } else {
      assert (calls + [last])[1..] == calls[1..] + [last];
      PlainRunSnoc(PlainCall(s, calls[0]).s, calls[1..], last);
    }
  }

  /** Calls on other rules neither see nor disturb rule `id`. */
  lemma {:induction false} PlainRunFrame(s: PlainStore, id: RuleId, r: PlainRule, calls: seq<Call>)
    requires id !in s && forall call | call in calls :: CalledRule(call) != id
    ensures id !in PlainRun(s, calls) && PlainRun(s[id := r], calls) == PlainRun(s, calls)[id := r]
    decreases |calls|
  {
    if calls != [] {
      var call := calls[0];
      assert call in calls;
      assert PlainCall(s[id := r], call).s == PlainCall(s, call).s[id := r];
      PlainRunFrame(PlainCall(s, call).s, id, r, calls[1..]);
    }
  }

  /** Installing a rule, any calls on other rules, and uninstalling it again leaves what those calls alone leave. */
  lemma UninstallUndoesInstall(p: Pipeline, base: FlowTable, s: PlainStore, c: Client, r: Rule, calls: seq<Call>, o: Orders, c1: Client, c2: Client)
    requires Represents(p, base, s, c) && r.id !in s && forall call | call in calls :: CalledRule(call) != r.id
    requires Runs(p, c, [Install(r)] + calls + [Uninstall(r.id, o)], c1) && Runs(p, c, calls, c2)
    ensures SameState(c1, c2)
  {
    PlainRunSnoc(s, [Install(r)] + calls, Uninstall(r.id, o));
    assert ([Install(r)] + calls)[1..] == calls;
    PlainRunFrame(s, r.id, PlainOf(r), calls);
    assert PlainRun(s, calls)[r.id := PlainOf(r)] - {r.id} == PlainRun(s, calls);
    HistoryIndependence(p, base, s, c, [Install(r)] + calls + [Uninstall(r.id, o)], c1, calls, c2);
  }
}
