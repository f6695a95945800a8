/**
 Whole calls, interleaved.  Each rule's calls come one after the other, those of different rules at the same time; every
 locked clause operation and every command is one step.  However the steps of all rules are interleaved, if none fails they
 end in a state that represents what each rule's own calls mean.
 */
module PolicyConcurrency {
  import opened OpenFlow
  import opened PolicyTypes
  import opened PolicyEngine
  import opened PolicyInvariant
  import opened PolicyInterleaving
  import opened PolicyLoops
  import opened Sequences
  import opened PolicyRules
  import opened PolicyStore
  import opened PolicyVerdict

  /***** One rule's part of a world *****/

  /** The clauses of one rule and its own flows. */
  datatype RuleState = RuleState(clauses: map<Side, Clause>, own: FlowTable)

  function StateOf(w: World, h: Shares, id: RuleId): RuleState {
    RuleState(map side: Side | Slot(id, side) in w.clauses :: w.clauses[Slot(id, side)], OwnFlowsIn(h, id))
  }

  /** The rule whose step it is. */
  function Mover(st: Step): RuleId {
    match st
    case Begin(s, _) => s.id
    case AddMatch(s, _) => s.id
    case DeleteMatch(s, _) => s.id
    case OwnFlow(id, _) => id
    case End(s) => s.id
  }

  function WithKeys(l: RuleState, side: Side, matches: set<Key>): RuleState
    requires side in l.clauses
  {
    l.(clauses := l.clauses[side := l.clauses[side].(matches := matches)])
  }

  /** What a step that succeeds does to the rule whose step it is. */
  function Advance(l: RuleState, st: Step): RuleState {
    match st
    case Begin(s, c) => l.(clauses := l.clauses[s.side := c])
    case AddMatch(s, k) => if s.side in l.clauses then WithKeys(l, s.side, l.clauses[s.side].matches + {k}) else l
    case DeleteMatch(s, k) => if s.side in l.clauses then WithKeys(l, s.side, l.clauses[s.side].matches - {k}) else l
    case OwnFlow(_, cmd) => l.(own := Apply(l.own, cmd))
    case End(s) => l.(clauses := l.clauses - {s.side})
  }

  function AdvanceAll(l: RuleState, steps: seq<Step>): RuleState
    decreases |steps|
  {
    if steps == [] then l else AdvanceAll(Advance(l, steps[0]), steps[1..])
  }

  /** The steps of one rule in an interleaving. */
  function StepsOf(steps: seq<Step>, id: RuleId): seq<Step>
    decreases |steps|
  {
    if steps == [] then []
    else (if Mover(steps[0]) == id then [steps[0]] else []) + StepsOf(steps[1..], id)
  }

  lemma AddedClause(e: Engine, c: Clause, k: Key)
    ensures var r := AddConjunctiveMatchFlow(e, c, k);
            r.ok ==> r.clause == c.(matches := c.matches + {k})
  {
    assert k in c.matches ==> c.matches + {k} == c.matches;
  }

  lemma DeletedClause(e: Engine, c: Clause, k: Key)
    ensures var r := DeleteConjunctiveMatchFlow(e, c, k);
            r.ok ==> r.clause == c.(matches := c.matches - {k})
  {
    assert k !in c.matches ==> c.matches - {k} == c.matches;
  }

  lemma ClauseSet(w: World, w': World, s: Slot, c: Clause, h: Shares, id: RuleId)
    requires w'.clauses == w.clauses[s := c]
    ensures StateOf(w', h, id).clauses == if id == s.id then StateOf(w, h, id).clauses[s.side := c] else StateOf(w, h, id).clauses
  {
  }

  lemma ClauseEnds(w: World, w': World, s: Slot, h: Shares, id: RuleId)
    requires w'.clauses == w.clauses - {s}
    ensures StateOf(w', h, id).clauses == if id == s.id then StateOf(w, h, id).clauses - {s.side} else StateOf(w, h, id).clauses
  {
  }

  lemma ClausesAdvance(w: World, st: Step, h: Shares, id: RuleId)
    requires Enabled(w, st) && Do(w, st).ok
    ensures StateOf(Do(w, st).w, h, id).clauses ==
            if id == Mover(st) then Advance(StateOf(w, h, id), st).clauses else StateOf(w, h, id).clauses
  {
    hide AddConjunctiveMatchFlow, DeleteConjunctiveMatchFlow, ProperClause, ProperKey, StateOf;
    var w' := Do(w, st).w;
    match st {
      case Begin(s, c) => ClauseSet(w, w', s, c, h, id);
      case AddMatch(s, k) =>
        AddedClause(w.e, w.clauses[s], k);
        ClauseSet(w, w', s, w'.clauses[s], h, id);
        ClauseIsThere(w, s, h);
      case DeleteMatch(s, k) =>
        DeletedClause(w.e, w.clauses[s], k);
        ClauseSet(w, w', s, w'.clauses[s], h, id);
        ClauseIsThere(w, s, h);
      case End(s) => ClauseEnds(w, w', s, h, id);
      case OwnFlow(_, _) => SameClauses(w, w', h, id);
    }
  }

  lemma ClauseIsThere(w: World, s: Slot, h: Shares)
    requires s in w.clauses
    ensures s.side in StateOf(w, h, s.id).clauses && StateOf(w, h, s.id).clauses[s.side] == w.clauses[s]
  {
  }

  lemma SameClauses(w: World, w': World, h: Shares, id: RuleId)
    requires w'.clauses == w.clauses
    ensures StateOf(w', h, id).clauses == StateOf(w, h, id).clauses
  {
  }

  lemma {:induction false} RunAdvances(w: World, h: Shares, base: FlowTable, steps: seq<Step>, w': World) returns (h': Shares)
    requires WorldInv(w, h, base) && Reaches(w, steps, w')
    ensures WorldInv(w', h', base)
    ensures forall id :: StateOf(w', h', id) == AdvanceAll(StateOf(w, h, id), StepsOf(steps, id))
    decreases |steps|
  {
    hide WorldInv, Enabled, Do, Advance;
    if steps == [] {
      h' := h;
    } else {
      var st := steps[0];
      var h1 := StepKeeps(w, h, base, st);
      var w1 := Do(w, st).w;
      h' := RunAdvances(w1, h1, base, steps[1..], w');
      forall id ensures StateOf(w', h', id) == AdvanceAll(StateOf(w, h, id), StepsOf(steps, id)) {
        OneStepAdvances(w, h, h1, st, id);
        assert id == Mover(st) ==> StepsOf(steps, id)[0] == st && StepsOf(steps, id)[1..] == StepsOf(steps[1..], id);
        assert id != Mover(st) ==> StepsOf(steps, id) == StepsOf(steps[1..], id);
      }
    }
  }

  lemma OneStepAdvances(w: World, h: Shares, h1: Shares, st: Step, id: RuleId)
    requires Enabled(w, st) && Do(w, st).ok
    requires OwnFlowsIn(h1, id) == if st.OwnFlow? && st.id == id then Apply(OwnFlowsIn(h, id), st.cmd) else OwnFlowsIn(h, id)
    ensures StateOf(Do(w, st).w, h1, id) == if id == Mover(st) then Advance(StateOf(w, h, id), st) else StateOf(w, h, id)
  {
    ClausesAdvance(w, st, h1, id);
    assert StateOf(w, h, id).clauses == StateOf(w, h1, id).clauses;
  }

  /***** The steps of a call *****/

  function OwnSteps(id: RuleId, flows: seq<PolicyFlow>, add: bool): seq<Step>
    decreases |flows|
  {
    if flows == [] then []
    else [OwnFlow(id, if add then Add(flows[0]) else Delete(flows[0]))] + OwnSteps(id, flows[1..], add)
  }

  function MatchSteps(s: Slot, keys: seq<Key>, add: bool): seq<Step>
    decreases |keys|
  {
    if keys == [] then [] else [if add then AddMatch(s, keys[0]) else DeleteMatch(s, keys[0])] + MatchSteps(s, keys[1..], add)
  }

  function AddSideSteps(r: Rule, side: Side): seq<Step> {
    if SidePresent(r, side) then
      [Begin(Slot(r.id, side), SideClause(r, side))] + MatchSteps(Slot(r.id, side), SideKeys(r, side), true)
    else []
  }

  function InstallSteps(p: Pipeline, r: Rule): seq<Step> {
    OwnSteps(r.id, ActionFlows(r, Next(p, r.dir)), true)
    + (AddSideSteps(r, From) + (AddSideSteps(r, To) + AddSideSteps(r, Service)))
  }

  function OrderOf(o: Orders, side: Side): seq<Key> {
    match side
    case From => o.from
    case To => o.to
    case Service => o.service
  }

  /** deleteAllMatches on one side; the clause goes with the policy cache entry. */
  function DeleteSideSteps(id: RuleId, r: PlainRule, o: Orders, side: Side): seq<Step> {
    if PlainPresent(r, side) then
      MatchSteps(Slot(id, side), OrderOf(o, side), false) + [End(Slot(id, side))]
    else []
  }

  function UninstallSteps(p: Pipeline, id: RuleId, r: PlainRule, o: Orders): seq<Step> {
    OwnSteps(id, ActionFlows(Template(id, r), Next(p, r.dir)), false)
    + (DeleteSideSteps(id, r, o, From) + (DeleteSideSteps(id, r, o, To) + DeleteSideSteps(id, r, o, Service)))
  }

  /** The steps of a call on a rule that is `l` before it, or not live. */
  function CallSteps(p: Pipeline, id: RuleId, l: Option<PlainRule>, call: Call): seq<Step> {
    match call
    case Install(r) => if l.Some? then [] else InstallSteps(p, r)
    case Uninstall(_, o) => if l.None? then [] else UninstallSteps(p, id, l.value, o)
    case AddAddresses(_, t, addrs) =>
      if l.None? || PlainSide(l.value, t).None? then []
      else MatchSteps(Slot(id, AddressSide(t).value), AddressKeys(RuleTable(l.value.dir), t, addrs), true)
    case DeleteAddresses(_, t, addrs) =>
      if l.None? || PlainSide(l.value, t).None? then []
      else MatchSteps(Slot(id, AddressSide(t).value), AddressKeys(RuleTable(l.value.dir), t, addrs), false)
  }

  /** What the call means for its rule. */
  function PlainOne(id: RuleId, l: Option<PlainRule>, call: Call): Option<PlainRule> {
    Look(PlainCall(if l.Some? then map[id := l.value] else map[], call).s, id)
  }

  function ClausesOf(c: Conjunct): map<Side, Clause> {
    map side: Side | ConjunctSide(c, side).Some? :: ConjunctSide(c, side).value
  }

  /** The state that a rule should be in. */
  function PlainState(p: Pipeline, id: RuleId, l: Option<PlainRule>): RuleState {
    if l.None? then RuleState(map[], map[])
    else RuleState(ClausesOf(PlainConjunct(p, id, l.value)), RuleFlows(p, Template(id, l.value)))
  }

  lemma {:induction false} AdvanceSum(l: RuleState, a: seq<Step>, b: seq<Step>)
    ensures AdvanceAll(l, a + b) == AdvanceAll(AdvanceAll(l, a), b)
    decreases |a|
  {
    hide Advance;
    if a == [] {
      assert a + b == b;
    } else {
      assert (a + b)[1..] == a[1..] + b;
      AdvanceSum(Advance(l, a[0]), a[1..], b);
    }
  }

  lemma {:induction false} MatchStepsAdvance(l: RuleState, s: Slot, keys: seq<Key>, add: bool)
    requires s.side in l.clauses
    ensures AdvanceAll(l, MatchSteps(s, keys, add)) ==
            WithKeys(l, s.side, if add then l.clauses[s.side].matches + Elems(keys) else l.clauses[s.side].matches - Elems(keys))
    decreases |keys|
  {
    var c := l.clauses[s.side];
    if keys == [] {
      assert Elems(keys) == {};
      assert c.matches + Elems(keys) == c.matches && c.matches - Elems(keys) == c.matches;
      assert WithKeys(l, s.side, c.matches).clauses == l.clauses;
    } else {
      ElemsFirst(keys);
      var steps := MatchSteps(s, keys, add);
      assert steps[1..] == MatchSteps(s, keys[1..], add);
      var next := Advance(l, steps[0]);
      MatchStepsAdvance(next, s, keys[1..], add);
      assert c.matches + {keys[0]} + Elems(keys[1..]) == c.matches + Elems(keys);
      assert c.matches - {keys[0]} - Elems(keys[1..]) == c.matches - Elems(keys);
    }
  }

  lemma {:induction false} OwnAddsAdvance(l: RuleState, id: RuleId, flows: seq<PolicyFlow>, full: FlowTable)
    requires Within(l.own, full) && FlowsOf(id, flows, full)
    ensures var l' := AdvanceAll(l, OwnSteps(id, flows, true));
            && l'.clauses == l.clauses && Within(l'.own, full)
            && l.own.Keys <= l'.own.Keys && forall i | 0 <= i < |flows| :: flows[i].entry in l'.own
    decreases |flows|
  {
    if flows != [] {
      var steps := OwnSteps(id, flows, true);
      assert steps[1..] == OwnSteps(id, flows[1..], true);
      assert flows == [flows[0]] + flows[1..];
      OwnAddsAdvance(Advance(l, steps[0]), id, flows[1..], full);
    }
  }

  lemma {:induction false} OwnDeletesAdvance(l: RuleState, id: RuleId, flows: seq<PolicyFlow>)
    ensures var l' := AdvanceAll(l, OwnSteps(id, flows, false));
            && l'.clauses == l.clauses && l'.own.Keys <= l.own.Keys
            && forall i | 0 <= i < |flows| :: flows[i].entry !in l'.own
    decreases |flows|
  {
    if flows != [] {
      var steps := OwnSteps(id, flows, false);
      assert steps[1..] == OwnSteps(id, flows[1..], false);
      assert flows == [flows[0]] + flows[1..];
      OwnDeletesAdvance(Advance(l, steps[0]), id, flows[1..]);
    }
  }

  /***** A call's steps do what it means *****/

  lemma PlainSides(p: Pipeline, id: RuleId, r: PlainRule, side: Side)
    ensures ConjunctSide(PlainConjunct(p, id, r), side).Some? <==> PlainPresent(r, side)
    ensures Template(id, r).id == id && (SidePresent(Template(id, r), side) <==> PlainPresent(r, side))
  {
  }

  lemma AddSideAdvances(l: RuleState, r: Rule, side: Side)
    ensures AdvanceAll(l, AddSideSteps(r, side)) ==
            if SidePresent(r, side) then l.(clauses := l.clauses[side := InstalledSide(r, side).value]) else l
  {
    hide SideKeys, SideClause, MatchSteps;
    if SidePresent(r, side) {
      var c := SideClause(r, side);
      assert c.matches == {} by { RuleClausesAreEmpty(r, side); }
      var steps := AddSideSteps(r, side);
      assert steps[1..] == MatchSteps(Slot(r.id, side), SideKeys(r, side), true);
      var next := l.(clauses := l.clauses[side := c]);
      MatchStepsAdvance(next, Slot(r.id, side), SideKeys(r, side), true);
      assert {} + Elems(SideKeys(r, side)) == Elems(SideKeys(r, side));
    }
  }

  lemma RuleClausesAreEmpty(r: Rule, side: Side)
    ensures SideClause(r, side).matches == {}
  {
  }

  lemma InstallAdvances(p: Pipeline, r: Rule)
    ensures AdvanceAll(PlainState(p, r.id, None), InstallSteps(p, r)) == PlainState(p, r.id, Some(PlainOf(r)))
  {
    hide ActionFlows, AddSideSteps, OwnSteps, InstalledSide, RuleFlows, PlainConjunct;
    var flows := ActionFlows(r, Next(p, r.dir));
    var start := PlainState(p, r.id, None);
    RuleFlowsShape(p, r);
    OwnAddsAdvance(start, r.id, flows, RuleFlows(p, r));
    var l := AdvanceAll(start, OwnSteps(r.id, flows, true));
    AllFlows(p, r, l.own);
    var to := AddSideSteps(r, To) + AddSideSteps(r, Service);
    AdvanceSum(start, OwnSteps(r.id, flows, true), AddSideSteps(r, From) + to);
    AdvanceSum(l, AddSideSteps(r, From), to);
    AddSideAdvances(l, r, From);
    var l1 := AdvanceAll(l, AddSideSteps(r, From));
    AdvanceSum(l1, AddSideSteps(r, To), AddSideSteps(r, Service));
    AddSideAdvances(l1, r, To);
    var l2 := AdvanceAll(l1, AddSideSteps(r, To));
    AddSideAdvances(l2, r, Service);
    InstalledIsPlain(p, r);
    InstalledClauses(p, r, l2, AdvanceAll(l2, AddSideSteps(r, Service)));
    assert RuleFlows(p, r) == RuleFlows(p, Template(r.id, PlainOf(r))) by { SameRuleFlows(p, r); }
  }

  lemma SameRuleFlows(p: Pipeline, r: Rule)
    ensures RuleFlows(p, r) == RuleFlows(p, Template(r.id, PlainOf(r)))
  {
  }

  lemma InstalledClauses(p: Pipeline, r: Rule, l2: RuleState, l3: RuleState)
    requires forall side: Side :: side != Service ==>
               (side in l2.clauses <==> SidePresent(r, side)) && (side in l2.clauses ==> l2.clauses[side] == InstalledSide(r, side).value)
    requires Service !in l2.clauses
    requires l3.clauses == if SidePresent(r, Service) then l2.clauses[Service := InstalledSide(r, Service).value] else l2.clauses
    ensures l3.clauses == ClausesOf(InstalledConjunct(p, r))
  {
    hide SideClause, SideKeys, ActionFlows;
    forall side: Side ensures ConjunctSide(InstalledConjunct(p, r), side) == InstalledSide(r, side) {
    }
  }

  lemma DeleteSideAdvances(l: RuleState, id: RuleId, r: PlainRule, o: Orders, side: Side)
    requires side in l.clauses <==> PlainPresent(r, side)
    ensures AdvanceAll(l, DeleteSideSteps(id, r, o, side)) == l.(clauses := l.clauses - {side})
  {
    hide MatchSteps;
    if PlainPresent(r, side) {
      var s := Slot(id, side);
      MatchStepsAdvance(l, s, OrderOf(o, side), false);
      AdvanceSum(l, MatchSteps(s, OrderOf(o, side), false), [End(s)]);
      var l1 := AdvanceAll(l, MatchSteps(s, OrderOf(o, side), false));
      assert [End(s)][1..] == [];
      assert AdvanceAll(l1, [End(s)]) == Advance(l1, End(s));
      assert l1.clauses - {side} == l.clauses - {side};
    } else {
      assert l.clauses - {side} == l.clauses;
    }
  }

  lemma UninstallAdvances(p: Pipeline, id: RuleId, r: PlainRule, o: Orders)
    ensures AdvanceAll(PlainState(p, id, Some(r)), UninstallSteps(p, id, r, o)) == PlainState(p, id, None)
  {
    hide ActionFlows, DeleteSideSteps, OwnSteps, RuleFlows, PlainConjunct;
    var flows := ActionFlows(Template(id, r), Next(p, r.dir));
    var start := PlainState(p, id, Some(r));
    RuleFlowsShape(p, Template(id, r));
    OwnDeletesAdvance(start, id, flows);
    var l := AdvanceAll(start, OwnSteps(id, flows, false));
    assert l.own == map[];
    PlainSides(p, id, r, From);
    PlainSides(p, id, r, To);
    PlainSides(p, id, r, Service);
    var to := DeleteSideSteps(id, r, o, To) + DeleteSideSteps(id, r, o, Service);
    AdvanceSum(start, OwnSteps(id, flows, false), DeleteSideSteps(id, r, o, From) + to);
    AdvanceSum(l, DeleteSideSteps(id, r, o, From), to);
    DeleteSideAdvances(l, id, r, o, From);
    var l1 := AdvanceAll(l, DeleteSideSteps(id, r, o, From));
    AdvanceSum(l1, DeleteSideSteps(id, r, o, To), DeleteSideSteps(id, r, o, Service));
    DeleteSideAdvances(l1, id, r, o, To);
    DeleteSideAdvances(AdvanceAll(l1, DeleteSideSteps(id, r, o, To)), id, r, o, Service);
  }

  lemma AddressesAdvance(p: Pipeline, id: RuleId, r: PlainRule, t: AddressType, addrs: seq<Address>, add: bool)
    requires PlainSide(r, t).Some?
    ensures var all := if add then PlainSide(r, t).value + Elems(addrs) else PlainSide(r, t).value - Elems(addrs);
            AdvanceAll(PlainState(p, id, Some(r)), MatchSteps(Slot(id, AddressSide(t).value), AddressKeys(RuleTable(r.dir), t, addrs), add))
            == PlainState(p, id, Some(WithPlainSide(r, t, all)))
  {
    hide MatchSteps, RuleFlows, PlainConjunct;
    var side := AddressSide(t).value;
    var all := if add then PlainSide(r, t).value + Elems(addrs) else PlainSide(r, t).value - Elems(addrs);
    var conj := PlainConjunct(p, id, r);
    PlainSideClause(p, id, r, t);
    assert ConjunctSide(conj, side) == GetAddressClause(conj, t);
    MatchStepsAdvance(PlainState(p, id, Some(r)), Slot(id, side), AddressKeys(RuleTable(r.dir), t, addrs), add);
    KeysOfAddresses(RuleTable(r.dir), t, addrs);
    AddressImageLaws(RuleTable(r.dir), t, PlainSide(r, t).value, Elems(addrs));
    ChangedClauses(conj, side, AddressImage(RuleTable(r.dir), t, all));
    assert RuleFlows(p, Template(id, r)) == RuleFlows(p, Template(id, WithPlainSide(r, t, all))) by { SameOwnFlows(p, id, r, t, all); }
  }

  lemma ChangedClauses(conj: Conjunct, side: Side, matches: set<Key>)
    requires ConjunctSide(conj, side).Some?
    ensures ClausesOf(WithMatches(conj, side, matches))
            == ClausesOf(conj)[side := ConjunctSide(conj, side).value.(matches := matches)]
  {
  }

  lemma SameOwnFlows(p: Pipeline, id: RuleId, r: PlainRule, t: AddressType, addrs: set<Address>)
    requires PlainSide(r, t).Some?
    ensures RuleFlows(p, Template(id, r)) == RuleFlows(p, Template(id, WithPlainSide(r, t, addrs)))
  {
  }

  /** The steps of a call lead its rule from the state it should be in to the state it should be in afterwards. */
  lemma CallAdvances(p: Pipeline, id: RuleId, l: Option<PlainRule>, call: Call)
    requires CalledRule(call) == id
    ensures AdvanceAll(PlainState(p, id, l), CallSteps(p, id, l, call)) == PlainState(p, id, PlainOne(id, l, call))
  {
    hide InstallSteps, UninstallSteps, MatchSteps, PlainState, PlainOf;
    match call {
      case Install(r) =>
        if l.None? {
          InstallAdvances(p, r);
        }
      case Uninstall(_, o) =>
        if l.Some? {
          UninstallAdvances(p, id, l.value, o);
        }
      case AddAddresses(_, t, addrs) =>
        if l.Some? && PlainSide(l.value, t).Some? {
          AddressesAdvance(p, id, l.value, t, addrs, true);
        }
      case DeleteAddresses(_, t, addrs) =>
        if l.Some? && PlainSide(l.value, t).Some? {
          AddressesAdvance(p, id, l.value, t, addrs, false);
        }
    }
  }

  /***** Programs *****/

  /** The steps of one rule's calls, one call after the other. */
  function Program(p: Pipeline, id: RuleId, l: Option<PlainRule>, calls: seq<Call>): seq<Step>
    decreases |calls|
  {
    if calls == [] then [] else CallSteps(p, id, l, calls[0]) + Program(p, id, PlainOne(id, l, calls[0]), calls[1..])
  }

  /** What these calls make of the rule. */
  function PlainLast(id: RuleId, l: Option<PlainRule>, calls: seq<Call>): Option<PlainRule>
    decreases |calls|
  {
    if calls == [] then l else PlainLast(id, PlainOne(id, l, calls[0]), calls[1..])
  }

  lemma {:induction false} ProgramAdvances(p: Pipeline, id: RuleId, l: Option<PlainRule>, calls: seq<Call>)
    requires forall call | call in calls :: CalledRule(call) == id
    ensures AdvanceAll(PlainState(p, id, l), Program(p, id, l, calls)) == PlainState(p, id, PlainLast(id, l, calls))
    decreases |calls|
  {
    hide PlainState, CallSteps, PlainOne;
    if calls != [] {
      assert calls[0] in calls;
      CallAdvances(p, id, l, calls[0]);
      AdvanceSum(PlainState(p, id, l), CallSteps(p, id, l, calls[0]), Program(p, id, PlainOne(id, l, calls[0]), calls[1..]));
      ProgramAdvances(p, id, PlainOne(id, l, calls[0]), calls[1..]);
    }
  }

  type Programs = map<RuleId, seq<Call>>

  predicate OwnCallsOnly(programs: Programs) {
    forall id, call | id in programs && call in programs[id] :: CalledRule(call) == id
  }

  function CallsOf(programs: Programs, id: RuleId): seq<Call> {
    if id in programs then programs[id] else []
  }

  /** The rules that are live in the end. */
  function PlainOutcome(programs: Programs): PlainStore {
    map id | id in programs && PlainLast(id, None, programs[id]).Some? :: PlainLast(id, None, programs[id]).value
  }

  lemma OutcomeAt(programs: Programs, id: RuleId)
    ensures Look(PlainOutcome(programs), id) == PlainLast(id, None, CallsOf(programs, id))
  {
  }

  /** The interleaving runs each rule's calls in their order, and nothing else. */
  ghost predicate Interleaves(p: Pipeline, programs: Programs, steps: seq<Step>) {
    OwnCallsOnly(programs) && forall id :: StepsOf(steps, id) == Program(p, id, None, CallsOf(programs, id))
  }

  /***** The outcome *****/

  lemma PlainConjunctOk(p: Pipeline, id: RuleId, r: PlainRule)
    ensures ConjunctOk(id, PlainConjunct(p, id, r))
  {
    var c := PlainConjunct(p, id, r);
    RuleFlowsShape(p, Template(id, r));
    forall f | f in c.actionFlows ensures OwnerOf(f.entry) == RuleOf(id) {
      assert ActionFlowShape(Template(id, r), Next(p, r.dir), f);
    }
    forall side: Side | ConjunctSide(c, side).Some? ensures ProperClause(Slot(id, side), ConjunctSide(c, side).value) {
      RuleClausesProper(Template(id, r), side);
    }
  }

  lemma HolderIsPlain(p: Pipeline, w: World, h: Shares, id: RuleId, l: Option<PlainRule>, k: Key)
    requires StateOf(w, h, id) == PlainState(p, id, l)
    ensures HolderOf(w, id, k) == if l.Some? then HeldBy(PlainConjunct(p, id, l.value), k) else None
  {
    hide PlainConjunct, RuleFlows, OwnFlowsIn;
    var side := SideOf(k.kind);
    assert StateOf(w, h, id).clauses == if l.Some? then ClausesOf(PlainConjunct(p, id, l.value)) else map[];
    assert Slot(id, side) in w.clauses <==> side in StateOf(w, h, id).clauses;
    if Slot(id, side) in w.clauses {
      assert StateOf(w, h, id).clauses[side] == w.clauses[Slot(id, side)];
    }
  }

  /** Shares that claim and own the same are as good. */
  lemma SameSharesKeepInv(h: Shares, h': Shares, base: FlowTable, e: Engine)
    requires Inv(h, base, e) && Tight(h, e) && SharesOk(h')
    requires forall id, k :: ClaimOf(h', id, k) == ClaimOf(h, id, k)
    requires forall id :: OwnFlowsIn(h', id) == OwnFlowsIn(h, id)
    ensures Inv(h', base, e) && Tight(h', e)
  {
    hide Want, CacheOk, Loose, ClaimOf, SharesOf, OwnFlowsIn;
    SameClaimsKeepCache(h, h', e, e);
    SameClaimsKeepLoose(h, h', e, e, {});
    forall x ensures Look(e.sw.flows, x) == Want(h', base, e.cache, x) {
      assert Look(e.sw.flows, x) == Want(h, base, e.cache, x);
      SameOwnSameWant(h, h', base, e, x);
    }
  }

  lemma SameOwnSameWant(h: Shares, h': Shares, base: FlowTable, e: Engine, x: PolicyEntry)
    requires OwnerOf(x).RuleOf? ==> OwnFlowsIn(h', OwnerOf(x).id) == OwnFlowsIn(h, OwnerOf(x).id)
    ensures Want(h', base, e.cache, x) == Want(h, base, e.cache, x)
  {
  }

  lemma OutcomeShares(p: Pipeline, s: PlainStore, w: World, h: Shares, base: FlowTable)
    requires WorldInv(w, h, base) && forall id :: StateOf(w, h, id) == PlainState(p, id, Look(s, id))
    ensures Represents(p, base, s, Client(w.e, PlainConjuncts(p, s)))
  {
    hide Inv, Loose, PlainConjunct, RuleFlows, HeldBy, ConjunctOk, ShareOf;
    var policies := PlainConjuncts(p, s);
    forall id | id in policies ensures ConjunctOk(id, policies[id]) {
      PlainConjunctOk(p, id, s[id]);
    }
    forall id, k ensures ClaimOf(SharesOf(policies), id, k) == ClaimOf(h, id, k) {
      HolderIsPlain(p, w, h, id, Look(s, id), k);
      assert ClaimOf(h, id, k) == HolderOf(w, id, k);
      PlainShareClaims(p, s, id, k);
    }
    forall id ensures OwnFlowsIn(SharesOf(policies), id) == OwnFlowsIn(h, id) {
      assert StateOf(w, h, id).own == PlainState(p, id, Look(s, id)).own;
      PlainShareFlows(p, s, id);
    }
    PlainSharesOk(p, s);
    SameSharesKeepInv(h, SharesOf(policies), base, w.e);
  }

  lemma PlainShareClaims(p: Pipeline, s: PlainStore, id: RuleId, k: Key)
    ensures ClaimOf(SharesOf(PlainConjuncts(p, s)), id, k) == if id in s then HeldBy(PlainConjunct(p, id, s[id]), k) else None
  {
    if id in s {
      ShareIsBacked(PlainConjunct(p, id, s[id]));
    }
  }

  lemma PlainShareFlows(p: Pipeline, s: PlainStore, id: RuleId)
    ensures OwnFlowsIn(SharesOf(PlainConjuncts(p, s)), id) == if id in s then RuleFlows(p, Template(id, s[id])) else map[]
  {
  }

  lemma PlainSharesOk(p: Pipeline, s: PlainStore)
    ensures SharesOk(SharesOf(PlainConjuncts(p, s)))
  {
    forall id | id in s ensures ShareOk(id, ShareOf(PlainConjunct(p, id, s[id]))) {
      PlainConjunctOk(p, id, s[id]);
      LiveShareOk(id, PlainConjunct(p, id, s[id]));
    }
  }

  lemma LiveShareOk(id: RuleId, c: Conjunct)
    requires ConjunctOk(id, c)
    ensures ShareOk(id, ShareOf(c))
  {
    FlowTableMembers(c.actionFlows);
    forall k | k in ShareOf(c).claims ensures ShareOf(c).claims[k].conj == id && IsRuleTable(k.table) {
      var side := SideOf(k.kind);
      assert ProperClause(Slot(id, side), ConjunctSide(c, side).value);
    }
  }

  /**
   Any failure-free interleaving of whole calls on any number of rules ends in a state that represents the plain rules that
   each rule's own calls make: as if the calls had come one after the other.
   */
  lemma InterleavedCallsRefine(p: Pipeline, base: FlowTable, w: World, programs: Programs, steps: seq<Step>, w': World)
    requires Fresh(w, base) && Reaches(w, steps, w') && Interleaves(p, programs, steps)
    ensures Represents(p, base, PlainOutcome(programs), Client(w'.e, PlainConjuncts(p, PlainOutcome(programs))))
  {
    hide Inv, Reaches, Represents, PlainLast, Program;
    FreshIsOk(w, base);
    var h := RunAdvances(w, map[], base, steps, w');
    forall id ensures StateOf(w', h, id) == PlainState(p, id, Look(PlainOutcome(programs), id)) {
      ProgramAdvances(p, id, None, CallsOf(programs, id));
      OutcomeAt(programs, id);
      assert StateOf(w, map[], id) == PlainState(p, id, None);
    }
    OutcomeShares(p, PlainOutcome(programs), w', h, base);
  }

  /** Nobody can tell the interleaving from a run of the calls one after the other that means the same. */
  lemma InterleavingIsSerializable(p: Pipeline, base: FlowTable, w: World, programs: Programs, steps: seq<Step>, w': World,
                                   c: Client, calls: seq<Call>, c': Client)
    requires Fresh(w, base) && Reaches(w, steps, w') && Interleaves(p, programs, steps)
    requires Represents(p, base, map[], c) && Runs(p, c, calls, c') && PlainRun(map[], calls) == PlainOutcome(programs)
    ensures w'.e.cache == c'.engine.cache && w'.e.sw.flows == c'.engine.sw.flows
  {
    hide Represents, Runs, Reaches, Interleaves;
    InterleavedCallsRefine(p, base, w, programs, steps, w');
    RunRefines(p, base, map[], c, calls, c');
    PlainRulesDetermineState(p, base, PlainOutcome(programs), Client(w'.e, PlainConjuncts(p, PlainOutcome(programs))), c');
  }
}
