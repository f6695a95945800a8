/** Installing and uninstalling one rule: what a call leaves behind, whichever of its commands fails. */
module PolicyRules {
  import opened OpenFlow
  import opened PolicyTypes
  import opened PolicyEngine
  import opened PolicyInvariant
  import opened PolicyInterleaving
  import opened PolicyLoops
  import opened Sequences

  /***** The share of a rule that is fully installed *****/

  function RuleKeys(r: Rule): set<Key> {
    Elems(SideKeys(r, From)) + Elems(SideKeys(r, To)) + Elems(SideKeys(r, Service))
  }

  function RuleClaims(r: Rule): map<Key, Act> {
    map k | k in RuleKeys(r) :: SideClause(r, SideOf(k.kind)).action
  }

  function FlowTableOf(flows: seq<PolicyFlow>): FlowTable {
    if flows == [] then map[] else FlowTableOf(flows[1..])[flows[0].entry := flows[0].actions]
  }

  function RuleFlows(p: Pipeline, r: Rule): FlowTable {
    FlowTableOf(ActionFlows(r, Next(p, r.dir)))
  }

  function RuleShare(p: Pipeline, r: Rule): Share {
    Share(RuleClaims(r), RuleFlows(p, r))
  }

  /** A rule whose installation may have stopped half-way: nothing is claimed before all its flows are there. */
  predicate PartialShare(p: Pipeline, r: Rule, s: Share) {
    && Within(s.flows, RuleFlows(p, r))
    && (forall k | k in s.claims :: k in RuleClaims(r) && s.claims[k] == RuleClaims(r)[k])
    && (s.claims != map[] ==> s.flows == RuleFlows(p, r))
  }

  lemma SideKeysProper(r: Rule, side: Side)
    ensures ProperClause(Slot(r.id, side), SideClause(r, side)) && SideClause(r, side).ruleTable == RuleTable(r.dir)
    ensures forall k | k in SideKeys(r, side) ::
              && ProperKey(side, RuleTable(r.dir), k)
              && k in RuleClaims(r) && RuleClaims(r)[k] == SideClause(r, side).action
              && SideClause(r, side).dropTable == DropTableOf(k)
  {
  }

  predicate ActionFlowShape(r: Rule, next: TableId, f: PolicyFlow) {
    && f.entry.table == RuleTable(r.dir)
    && match f.entry.on
       case OnConj(id) => id == r.id && f.entry.priority == PRIORITY_LOW && f.actions == {Resubmit(next)}
       case OnConjKey(id, _, _) =>
         id == r.id && f.entry.priority == PRIORITY_NORMAL && f.actions == {Resubmit(DefaultTable(r.dir))}
       case _ => false
  }

  lemma {:induction false} FlowTableMembers(flows: seq<PolicyFlow>)
    ensures forall x | x in FlowTableOf(flows) :: Flow(x, FlowTableOf(flows)[x]) in flows
    ensures forall f | f in flows :: f.entry in FlowTableOf(flows)
    decreases |flows|
  {
    if flows != [] {
      FlowTableMembers(flows[1..]);
      var table := FlowTableOf(flows);
      forall x | x in table ensures Flow(x, table[x]) in flows {
        if x == flows[0].entry {
          assert flows[0] == Flow(x, table[x]);
        } else {
          assert Flow(x, table[x]) in flows[1..];
        }
      }
      forall f | f in flows ensures f.entry in table {
        assert f == flows[0] || f in flows[1..];
      }
    }
  }

  lemma FlowTableShape(r: Rule, next: TableId, flows: seq<PolicyFlow>)
    requires forall f | f in flows :: ActionFlowShape(r, next, f)
    ensures FlowsOf(r.id, flows, FlowTableOf(flows))
  {
    FlowTableMembers(flows);
    var table := FlowTableOf(flows);
    forall i | 0 <= i < |flows|
      ensures OwnerOf(flows[i].entry) == RuleOf(r.id) && flows[i].entry in table && table[flows[i].entry] == flows[i].actions
    {
      var f := Flow(flows[i].entry, table[flows[i].entry]);
      assert ActionFlowShape(r, next, flows[i]) && ActionFlowShape(r, next, f);
    }
  }

  lemma RuleFlowsShape(p: Pipeline, r: Rule)
    ensures forall f | f in ActionFlows(r, Next(p, r.dir)) :: ActionFlowShape(r, Next(p, r.dir), f)
    ensures FlowsOf(r.id, ActionFlows(r, Next(p, r.dir)), RuleFlows(p, r))
    ensures forall x | x in RuleFlows(p, r) :: Flow(x, RuleFlows(p, r)[x]) in ActionFlows(r, Next(p, r.dir))
  {
    FlowTableShape(r, Next(p, r.dir), ActionFlows(r, Next(p, r.dir)));
    FlowTableMembers(ActionFlows(r, Next(p, r.dir)));
  }

  /***** Installing *****/

  lemma PartialAddable(p: Pipeline, r: Rule, side: Side, h: Shares)
    requires r.id in h && PartialShare(p, r, h[r.id])
    ensures Addable(h, SideClause(r, side), SideKeys(r, side))
  {
  }

  /** One side of an installation. */
  lemma AddSideKeepsInv(p: Pipeline, r: Rule, side: Side, h: Shares, base: FlowTable, e: Engine, spare: set<Key>)
    returns (s: Share)
    requires Inv(h, base, e) && Loose(h, e, spare) && r.id in h
    requires PartialShare(p, r, h[r.id]) && h[r.id].flows == RuleFlows(p, r)
    ensures PartialShare(p, r, s) && s.flows == RuleFlows(p, r)
    ensures s.claims.Keys == h[r.id].claims.Keys + Matches(AddSide(e, r, side).clause)
    ensures var x := AddSide(e, r, side);
            && Inv(h[r.id := s], base, x.e)
            && Loose(h[r.id := s], x.e, if x.ok then spare - Elems(SideKeys(r, side)) else spare + RuleKeys(r))
            && (x.ok ==> x.clause == if SidePresent(r, side)
                                     then Some(SideClause(r, side).(matches := Elems(SideKeys(r, side)))) else None)
  {
    hide Inv, Loose, Addable, PartialShare, RuleFlows, RuleKeys;
    var c, keys := SideClause(r, side), SideKeys(r, side);
    if SidePresent(r, side) {
      PartialAddable(p, r, side, h);
      var done := AddFlowsKeepInv(h, base, e, c, keys, spare);
      s := WithClaims(h, c.action, done)[r.id];
      PartlyClaimed(p, r, side, h[r.id], done);
      assert WithClaims(h, c.action, done) == h[r.id := s];
      assert {} + done == done;
      var x := AddFlows(e, c, keys);
      if !x.ok {
        LooseMonotone(h[r.id := s], x.e, spare + Elems(keys), spare + RuleKeys(r));
      }
    } else {
      s := h[r.id];
      assert h[r.id := s] == h;
      assert spare - Elems(keys) == spare;
    }
  }

  lemma PartlyClaimed(p: Pipeline, r: Rule, side: Side, s: Share, done: set<Key>)
    requires PartialShare(p, r, s) && s.flows == RuleFlows(p, r) && done <= Elems(SideKeys(r, side))
    ensures var s' := Share(s.claims + Constant(done, SideClause(r, side).action), s.flows);
            PartialShare(p, r, s') && s'.claims.Keys == s.claims.Keys + done
    ensures SideClause(r, side).action.conj == r.id && Elems(SideKeys(r, side)) <= RuleKeys(r)
  {
    SideKeysProper(r, side);
  }

  function InstalledSide(r: Rule, side: Side): Option<Clause> {
    if SidePresent(r, side) then Some(SideClause(r, side).(matches := Elems(SideKeys(r, side)))) else None
  }

  /** The policyRuleConjunction of a fully installed rule. */
  function InstalledConjunct(p: Pipeline, r: Rule): Conjunct {
    Conjunct(r.id, InstalledSide(r, From), InstalledSide(r, To), InstalledSide(r, Service), ActionFlows(r, Next(p, r.dir)))
  }

  lemma FullShare(p: Pipeline, r: Rule, s: Share)
    requires PartialShare(p, r, s) && s.flows == RuleFlows(p, r) && RuleKeys(r) <= s.claims.Keys
    ensures s == RuleShare(p, r)
  {
  }

  lemma AddClausesKeepInv(p: Pipeline, r: Rule, h: Shares, base: FlowTable, e: Engine, spare: set<Key>)
    returns (s: Share)
    requires Inv(h, base, e) && Loose(h, e, spare) && r.id in h
    requires PartialShare(p, r, h[r.id]) && h[r.id].flows == RuleFlows(p, r)
    ensures PartialShare(p, r, s)
    ensures s.claims.Keys == h[r.id].claims.Keys + HeldKeys(AddClauses(e, r, ActionFlows(r, Next(p, r.dir))).conj)
    ensures var x := AddClauses(e, r, ActionFlows(r, Next(p, r.dir)));
            && Inv(h[r.id := s], base, x.e)
            && Loose(h[r.id := s], x.e, if x.ok then spare - RuleKeys(r) else spare + RuleKeys(r))
            && (x.ok ==> s == RuleShare(p, r) && x.conj == InstalledConjunct(p, r))
  {
    hide Inv, Loose, PartialShare, AddSide, SideClause, RuleFlows;
    s := AddSideKeepsInv(p, r, From, h, base, e, spare);
    var f := AddSide(e, r, From);
    if f.ok {
      var h1 := h[r.id := s];
      var t := AddSide(f.e, r, To);
      var s1 := AddSideKeepsInv(p, r, To, h1, base, f.e, spare - Elems(SideKeys(r, From)));
      assert h1[r.id := s1] == h[r.id := s1];
      if t.ok {
        var h2 := h[r.id := s1];
        var s2 := AddSideKeepsInv(p, r, Service, h2, base, t.e, spare - Elems(SideKeys(r, From)) - Elems(SideKeys(r, To)));
        assert h2[r.id := s2] == h[r.id := s2];
        var v := AddSide(t.e, r, Service);
        if v.ok {
          assert spare - Elems(SideKeys(r, From)) - Elems(SideKeys(r, To)) - Elems(SideKeys(r, Service)) == spare - RuleKeys(r);
          FullShare(p, r, s2);
        } else {
          LooseMonotone(h[r.id := s2], v.e, spare - Elems(SideKeys(r, From)) - Elems(SideKeys(r, To)) + RuleKeys(r), spare + RuleKeys(r));
        }
        s := s2;
      } else {
        LooseMonotone(h[r.id := s1], t.e, spare - Elems(SideKeys(r, From)) + RuleKeys(r), spare + RuleKeys(r));
        s := s1;
      }
    }
  }

  /** The keys that one attempt gets into the clauses that it builds. */
  function AttemptedKeys(c: Client, p: Pipeline, r: Rule): set<Key> {
    var flows := ActionFlows(r, Next(p, r.dir));
    var a := AddActionFlows(c.engine.sw, flows);
    if a.ok then HeldKeys(AddClauses(c.engine.(sw := a.sw), r, flows).conj) else {}
  }

  /**
   One attempt to install a rule of which any part is already there.  Whatever fails, the invariant holds and the rule
   owns a part of its share; if nothing fails it owns all of it and no context of the rule is left unclaimed.
   */
  lemma InstallAttempt(p: Pipeline, r: Rule, h: Shares, base: FlowTable, c: Client, spare: set<Key>)
    returns (s: Share)
    requires Inv(h, base, c.engine) && Loose(h, c.engine, spare) && r.id in h && r.id !in c.policies
    requires PartialShare(p, r, h[r.id])
    ensures PartialShare(p, r, s) && s.claims.Keys == h[r.id].claims.Keys + AttemptedKeys(c, p, r)
    ensures var x := InstallPolicyRuleFlows(c, p, r);
            && Inv(h[r.id := s], base, x.c.engine)
            && (x.err == NoError || x.err == SwitchError)
            && Loose(h[r.id := s], x.c.engine, if x.err.NoError? then spare - RuleKeys(r) else spare + RuleKeys(r))
            && (x.err.NoError? ==> s == RuleShare(p, r))
            && x.c.policies == if x.err.NoError? then c.policies[r.id := InstalledConjunct(p, r)] else c.policies
  {
    hide Inv, Loose, PartialShare, AddClauses, RuleFlows, ActionFlows, RuleKeys, AddActionFlows;
    var a := AddActionFlows(c.engine.sw, ActionFlows(r, Next(p, r.dir)));
    var e := c.engine.(sw := a.sw);
    s := ActionFlowsAttempt(p, r, h, base, c.engine, spare);
    if a.ok {
      var s' := AddClausesKeepInv(p, r, h[r.id := s], base, e, spare);
      assert h[r.id := s][r.id := s'] == h[r.id := s'];
      s := s';
    } else {
      LooseMonotone(h[r.id := s], e, spare, spare + RuleKeys(r));
    }
  }

  lemma ActionFlowsAttempt(p: Pipeline, r: Rule, h: Shares, base: FlowTable, e: Engine, spare: set<Key>)
    returns (s: Share)
    requires Inv(h, base, e) && Loose(h, e, spare) && r.id in h && PartialShare(p, r, h[r.id])
    ensures PartialShare(p, r, s) && s.claims == h[r.id].claims
    ensures var a := AddActionFlows(e.sw, ActionFlows(r, Next(p, r.dir)));
            && Inv(h[r.id := s], base, e.(sw := a.sw)) && Loose(h[r.id := s], e.(sw := a.sw), spare)
            && (a.ok ==> s.flows == RuleFlows(p, r))
  {
    var flows := ActionFlows(r, Next(p, r.dir));
    RuleFlowsShape(p, r);
    var part := AddActionFlowsKeepInv(h, base, e, r.id, flows, RuleFlows(p, r));
    var a := AddActionFlows(e.sw, flows);
    WithFlowsClaims(h, r.id, part);
    SameClaimsKeepLoose(h, WithFlows(h, r.id, part), e, e.(sw := a.sw), spare);
    PartialFlows(p, r, h[r.id], part);
    if a.ok {
      AllFlows(p, r, part);
    }
    s := Share(h[r.id].claims, part);
    assert WithFlows(h, r.id, part) == h[r.id := s];
  }

  lemma PartialFlows(p: Pipeline, r: Rule, s: Share, part: FlowTable)
    requires PartialShare(p, r, s) && Within(part, RuleFlows(p, r)) && s.flows.Keys <= part.Keys
    ensures PartialShare(p, r, Share(s.claims, part))
  {
  }

  lemma AllFlows(p: Pipeline, r: Rule, part: FlowTable)
    requires var flows := ActionFlows(r, Next(p, r.dir));
             Within(part, RuleFlows(p, r)) && forall i | 0 <= i < |flows| :: flows[i].entry in part
    ensures part == RuleFlows(p, r)
  {
    RuleFlowsShape(p, r);
    var flows := ActionFlows(r, Next(p, r.dir));
    forall x ensures Look(part, x) == Look(RuleFlows(p, r), x) {
      if x in RuleFlows(p, r) {
        var i :| 0 <= i < |flows| && flows[i] == Flow(x, RuleFlows(p, r)[x]);
        assert flows[i].entry in part;
      }
    }
    LookDetermines(part, RuleFlows(p, r));
  }

  /***** Conjuncts in the policy cache *****/

  function ConjunctSide(c: Conjunct, side: Side): Option<Clause> {
    match side
    case From => c.from
    case To => c.to
    case Service => c.service
  }

  function SetSide(c: Conjunct, side: Side, clause: Option<Clause>): Conjunct {
    match side
    case From => c.(from := clause)
    case To => c.(to := clause)
    case Service => c.(service := clause)
  }

  function Matches(c: Option<Clause>): set<Key> {
    if c.Some? then c.value.matches else {}
  }

  function HeldKeys(c: Conjunct): set<Key> {
    Matches(c.from) + Matches(c.to) + Matches(c.service)
  }

  function HeldBy(c: Conjunct, k: Key): Option<Act> {
    var clause := ConjunctSide(c, SideOf(k.kind));
    if clause.Some? && k in clause.value.matches then Some(clause.value.action) else None
  }

  predicate ConjunctOk(id: RuleId, c: Conjunct) {
    && c.id == id
    && (forall side: Side :: ConjunctSide(c, side).Some? ==> ProperClause(Slot(id, side), ConjunctSide(c, side).value))
    && (forall f | f in c.actionFlows :: OwnerOf(f.entry) == RuleOf(id))
  }

  /** Every claim of the rule is held by one of its clauses. */
  ghost predicate Backed(c: Conjunct, s: Share) {
    forall k :: Look(s.claims, k) in {None, HeldBy(c, k)}
  }

  /** And every key that a clause holds is claimed. */
  ghost predicate FullyBacked(c: Conjunct, s: Share) {
    forall k :: Look(s.claims, k) == HeldBy(c, k)
  }

  /***** Deleting addresses and uninstalling *****/

  lemma DeleteSideKeepsInv(h: Shares, base: FlowTable, e: Engine, id: RuleId, c: Conjunct, side: Side, keys: seq<Key>, spare: set<Key>)
    returns (s: Share)
    requires Inv(h, base, e) && Loose(h, e, spare) && id in h && ConjunctOk(id, c) && Backed(c, h[id])
    requires ConjunctSide(c, side).Some? ==> forall k | k in keys :: ProperKey(side, ConjunctSide(c, side).value.ruleTable, k)
    ensures s.flows == h[id].flows && forall k :: Look(s.claims, k) in {None, Look(h[id].claims, k)}
    ensures var x := DeleteSide(e, ConjunctSide(c, side), keys);
            var c' := SetSide(c, side, x.clause);
            && Inv(h[id := s], base, x.e)
            && ConjunctOk(id, c') && Backed(c', s) && Matches(x.clause) <= Matches(ConjunctSide(c, side))
            && (x.ok && FullyBacked(c, h[id]) ==> FullyBacked(c', s))
            && (x.ok ==> x.clause == match ConjunctSide(c, side)
                                     case None => None
                                     case Some(clause) => Some(clause.(matches := clause.matches - Elems(keys))))
            && Loose(h[id := s], x.e, spare - (Matches(ConjunctSide(c, side)) - Matches(x.clause))
                                            + if x.ok then {} else Matches(x.clause))
  {
    var clause := ConjunctSide(c, side);
    if clause.None? {
      s := h[id];
      assert h[id := s] == h;
      assert SetSide(c, side, None) == c;
      assert spare - ({} - {}) + {} == spare;
    } else {
      var cl := clause.value;
      assert ProperClause(Slot(id, side), cl);
      forall k | k in keys
        ensures IsRuleTable(k.table) && SideOf(k.kind) == side && ClaimOf(h, id, k) in {None, HeldBy(c, k)}
      {
        assert ProperKey(side, cl.ruleTable, k);
        assert Look(h[id].claims, k) in {None, HeldBy(c, k)};
      }
      var gone, released := DeleteFlowsKeepInv(h, base, e, cl, keys, spare);
      s := WithoutClaims(h, id, released)[id];
      assert WithoutClaims(h, id, released) == h[id := s];
      assert cl.matches - (cl.matches - gone) == gone * cl.matches;
      DeletedSideBacked(id, c, side, keys, h[id], gone, released);
    }
  }

  lemma DeletedSideBacked(id: RuleId, c: Conjunct, side: Side, keys: seq<Key>, s: Share, gone: set<Key>, released: set<Key>)
    requires ConjunctOk(id, c) && Backed(c, s) && ConjunctSide(c, side).Some? && gone <= released <= Elems(keys)
    requires forall k | k in keys :: ProperKey(side, ConjunctSide(c, side).value.ruleTable, k)
    ensures var clause := ConjunctSide(c, side).value;
            var c' := SetSide(c, side, Some(clause.(matches := clause.matches - gone)));
            var s' := Share(s.claims - released, s.flows);
            && ConjunctOk(id, c') && Backed(c', s')
            && (gone == released && FullyBacked(c, s) ==> FullyBacked(c', s'))
  {
    var clause := ConjunctSide(c, side).value;
    var c' := SetSide(c, side, Some(clause.(matches := clause.matches - gone)));
    forall k ensures HeldBy(c', k) == if k in gone then None else HeldBy(c, k) {
      assert k in gone ==> ProperKey(side, clause.ruleTable, k);
      if k in gone {
        assert SideOf(k.kind) == side;
      }
    }
    forall side' | ConjunctSide(c', side').Some?
      ensures ProperClause(Slot(id, side'), ConjunctSide(c', side').value)
    {
      assert ProperClause(Slot(id, side), clause);
    }
    forall k ensures Look(s.claims, k) in {None, HeldBy(c, k)} {
    }
  }

  predicate Enumerates(o: Orders, c: Conjunct) {
    Elems(o.from) == Matches(c.from) && Elems(o.to) == Matches(c.to) && Elems(o.service) == Matches(c.service)
  }

  predicate Smaller(c': Conjunct, c: Conjunct) {
    && c'.actionFlows == c.actionFlows
    && forall side: Side :: Matches(ConjunctSide(c', side)) <= Matches(ConjunctSide(c, side))
  }

  /** The contexts that may be unclaimed after the clauses of `c` have shrunk to those of `c'`. */
  function SpareAfter(spare: set<Key>, c: Conjunct, c': Conjunct): set<Key> {
    spare - (HeldKeys(c) - HeldKeys(c')) + HeldKeys(c')
  }

  lemma SpareBound(spare: set<Key>, c: Conjunct, c': Conjunct, side: Side, l: set<Key>)
    requires c' == SetSide(c, side, ConjunctSide(c', side))
    requires Matches(ConjunctSide(c', side)) <= Matches(ConjunctSide(c, side))
    requires l <= spare - (Matches(ConjunctSide(c, side)) - Matches(ConjunctSide(c', side))) + Matches(ConjunctSide(c', side))
    ensures l <= SpareAfter(spare, c, c') && HeldKeys(c') <= HeldKeys(c)
  {
  }

  lemma NothingHeld(c: Conjunct)
    requires Matches(c.from) == {} && Matches(c.to) == {} && Matches(c.service) == {}
    ensures HeldKeys(c) == {}
  {
  }

  lemma SpareTrans(spare: set<Key>, c: Conjunct, c1: Conjunct, c2: Conjunct)
    requires HeldKeys(c2) <= HeldKeys(c1) <= HeldKeys(c)
    ensures SpareAfter(SpareAfter(spare, c, c1), c1, c2) <= SpareAfter(spare, c, c2)
  {
  }

  /** deleteAllMatches on one side of a rule. */
  lemma EmptySide(h: Shares, base: FlowTable, e: Engine, id: RuleId, c: Conjunct, side: Side, keys: seq<Key>, spare: set<Key>)
    returns (s: Share)
    requires Inv(h, base, e) && Loose(h, e, spare) && id in h && ConjunctOk(id, c) && Backed(c, h[id])
    requires Elems(keys) == Matches(ConjunctSide(c, side))
    ensures s.flows == h[id].flows && forall k :: Look(s.claims, k) in {None, Look(h[id].claims, k)}
    ensures var x := DeleteSide(e, ConjunctSide(c, side), keys);
            var c' := SetSide(c, side, x.clause);
            && Inv(h[id := s], base, x.e)
            && ConjunctOk(id, c') && Backed(c', s)
            && Matches(x.clause) <= Matches(ConjunctSide(c, side)) && HeldKeys(c') <= HeldKeys(c)
            && (x.ok ==> Matches(x.clause) == {})
            && Loose(h[id := s], x.e, SpareAfter(spare, c, c'))
  {
    if ConjunctSide(c, side).Some? {
      var clause := ConjunctSide(c, side).value;
      assert ProperClause(Slot(id, side), clause);
      forall k | k in keys ensures ProperKey(side, clause.ruleTable, k) {
        assert k in Elems(keys);
      }
    }
    s := DeleteSideKeepsInv(h, base, e, id, c, side, keys, spare);
    var x := DeleteSide(e, ConjunctSide(c, side), keys);
    var l := spare - (Matches(ConjunctSide(c, side)) - Matches(x.clause)) + if x.ok then {} else Matches(x.clause);
    SpareBound(spare, c, SetSide(c, side, x.clause), side, l);
    LooseMonotone(h[id := s], x.e, l, SpareAfter(spare, c, SetSide(c, side, x.clause)));
  }

  lemma DeleteClausesKeepInv(h: Shares, base: FlowTable, e: Engine, id: RuleId, c: Conjunct, o: Orders, spare: set<Key>)
    returns (s: Share)
    requires Inv(h, base, e) && Loose(h, e, spare) && id in h && ConjunctOk(id, c) && Backed(c, h[id])
    requires Enumerates(o, c)
    ensures s.flows == h[id].flows && forall k :: Look(s.claims, k) in {None, Look(h[id].claims, k)}
    ensures var x := DeleteClauses(e, c, o);
            && Inv(h[id := s], base, x.e)
            && ConjunctOk(id, x.conj) && Backed(x.conj, s) && Smaller(x.conj, c)
            && (x.ok ==> HeldKeys(x.conj) == {})
            && Loose(h[id := s], x.e, SpareAfter(spare, c, x.conj))
  {
    var x := DeleteClauses(e, c, o);
    hide Inv, Loose, DeleteSide, ConjunctOk, Backed, Elems, HeldKeys, SpareAfter;
    var f := DeleteSide(e, c.from, o.from);
    var c1 := c.(from := f.clause);
    s := EmptySide(h, base, e, id, c, From, o.from, spare);
    if f.ok {
      var h1 := h[id := s];
      var t := DeleteSide(f.e, c.to, o.to);
      var c2 := c1.(to := t.clause);
      var s2 := EmptySide(h1, base, f.e, id, c1, To, o.to, SpareAfter(spare, c, c1));
      assert h1[id := s2] == h[id := s2];
      SpareTrans(spare, c, c1, c2);
      LooseMonotone(h[id := s2], t.e, SpareAfter(SpareAfter(spare, c, c1), c1, c2), SpareAfter(spare, c, c2));
      s := s2;
      if t.ok {
        var v := DeleteSide(t.e, c.service, o.service);
        var s3 := EmptySide(h[id := s2], base, t.e, id, c2, Service, o.service, SpareAfter(spare, c, c2));
        assert h[id := s2][id := s3] == h[id := s3];
        SpareTrans(spare, c, c2, x.conj);
        LooseMonotone(h[id := s3], v.e, SpareAfter(SpareAfter(spare, c, c2), c2, x.conj), SpareAfter(spare, c, x.conj));
        s := s3;
        if v.ok {
          NothingHeld(x.conj);
        }
      }
    }
  }


  /** The share of a rule that is being uninstalled: its claims are backed, and its flows are some of the recorded ones. */
  ghost predicate Leaving(id: RuleId, c: Conjunct, s: Share) {
    ConjunctOk(id, c) && Backed(c, s) && Within(s.flows, FlowTableOf(c.actionFlows))
  }

  /**
   One attempt to uninstall a rule.  Whatever fails, the invariant holds, and the rule's first flow, which is its
   conjunction action flow, is gone before anything else changes; if nothing fails the rule owns nothing any more.
   */
  lemma UninstallAttempt(h: Shares, base: FlowTable, c: Client, id: RuleId, o: Orders, spare: set<Key>)
    returns (s: Share)
    requires Inv(h, base, c.engine) && Loose(h, c.engine, spare) && id in h && id in c.policies
    requires Leaving(id, c.policies[id], h[id]) && Enumerates(o, c.policies[id])
    ensures var x := UninstallPolicyRuleFlows(c, id, o);
            var conj := c.policies[id];
            && Inv(h[id := s], base, x.c.engine)
            && Within(s.flows, h[id].flows) && (forall k :: Look(s.claims, k) in {None, Look(h[id].claims, k)})
            && (s != h[id] && conj.actionFlows != [] ==> conj.actionFlows[0].entry !in s.flows)
            && (x.err.NoError? ==>
                  && s == NO_SHARE && x.c.policies == c.policies - {id}
                  && Loose(h[id := s], x.c.engine, spare - HeldKeys(conj)))
            && (!x.err.NoError? ==>
                  && x.err.SwitchError? && id in x.c.policies && x.c.policies == c.policies[id := x.c.policies[id]]
                  && Leaving(id, x.c.policies[id], s) && x.c.policies[id].actionFlows == conj.actionFlows
                  && HeldKeys(x.c.policies[id]) <= HeldKeys(conj)
                  && Loose(h[id := s], x.c.engine, SpareAfter(spare, conj, x.c.policies[id])))
  {
    var conj := c.policies[id];
    var part := DeleteActionFlowsKeepInv(h, base, c.engine, id, conj.actionFlows);
    var a := DeleteActionFlows(c.engine.sw, conj.actionFlows);
    var e := c.engine.(sw := a.sw);
    var h1 := WithFlows(h, id, part);
    WithFlowsClaims(h, id, part);
    SameClaimsKeepLoose(h, h1, c.engine, e, spare);
    FlowTableMembers(conj.actionFlows);
    FirstFlowGone(conj.actionFlows, part);
    var x := UninstallPolicyRuleFlows(c, id, o);
    hide Inv, Loose, DeleteActionFlows, DeleteClauses, ConjunctOk, Backed, Enumerates, HeldKeys, FlowTableOf, Smaller;
    s := Share(h[id].claims, part);
    assert h1 == h[id := s];
    if a.ok {
      BackedClaims(conj, h[id], s);
      s := DeleteClausesKeepInv(h1, base, e, id, conj, o, spare);
      assert h1[id := s] == h[id := s];
      var d := DeleteClauses(e, conj, o);
      if d.ok {
        NothingBacked(d.conj, s);
        assert part == map[];
        assert s == NO_SHARE;
        LooseMonotone(h[id := s], d.e, SpareAfter(spare, conj, d.conj), spare - HeldKeys(conj));
      } else {
        SmallerConjunct(d.conj, conj);
      }
    } else {
      BackedClaims(conj, h[id], s);
      assert c.policies == c.policies[id := conj];
      LooseMonotone(h[id := s], e, spare, SpareAfter(spare, conj, conj));
    }
  }

  lemma SmallerConjunct(c': Conjunct, c: Conjunct)
    requires Smaller(c', c)
    ensures c'.actionFlows == c.actionFlows && HeldKeys(c') <= HeldKeys(c)
  {
    assert Matches(ConjunctSide(c', From)) <= Matches(ConjunctSide(c, From));
    assert Matches(ConjunctSide(c', To)) <= Matches(ConjunctSide(c, To));
    assert Matches(ConjunctSide(c', Service)) <= Matches(ConjunctSide(c, Service));
  }

  lemma FirstFlowGone(flows: seq<PolicyFlow>, part: FlowTable)
    requires forall x | x in part :: x in FlowTableOf(flows)
    ensures part == map[] || exists i :: 0 <= i < |flows| && flows[i].entry in part
  {
    FlowTableMembers(flows);
    if part != map[] {
      var x :| x in part;
      var i :| 0 <= i < |flows| && flows[i] == Flow(x, FlowTableOf(flows)[x]);
      assert flows[i].entry in part;
    }
  }

  lemma BackedClaims(c: Conjunct, s: Share, s': Share)
    requires Backed(c, s) && s'.claims == s.claims
    ensures Backed(c, s')
  {
  }

  lemma NothingBacked(c: Conjunct, s: Share)
    requires Backed(c, s) && HeldKeys(c) == {}
    ensures s.claims == map[]
  {
    forall k ensures k !in s.claims {
      assert Look(s.claims, k) in {None, HeldBy(c, k)};
      assert HeldBy(c, k).Some? ==> k in HeldKeys(c);
    }
  }
}
