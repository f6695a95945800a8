/**
 What a failed installation leaves to packets: which packets may satisfy the conjunction of a rule that is installed in part,
 and so exactly when the remark that it "will never be hit" is true.
 */
module PolicyPartial {
  import opened OpenFlow
  import opened PolicyTypes
  import opened PolicyEngine
  import opened PolicyInvariant
  import opened PolicyInterleaving
  import opened PolicyLoops
  import opened Sequences
  import opened PolicyRules
  import opened PolicyStore
  import opened PolicyVerdict
  import opened PolicyFailures
  import opened PolicySafety
  import opened PolicyCommands

  /***** Packets and the claims of a part *****/

  predicate KeyHits(k: Key, pkt: Packet) {
    Hits(KeyMatchers(k.kind, k.value), pkt)
  }

  /** The packet hits a key of this side that the rule claims. */
  predicate HitsClaim(s: Share, side: Side, pkt: Packet) {
    exists k | k in s.claims :: SideOf(k.kind) == side && KeyHits(k, pkt)
  }

  lemma ClaimOfPart(p: Pipeline, r: Rule, s: Share, k: Key)
    requires PartialShare(p, r, s) && k in s.claims
    ensures k.table == RuleTable(r.dir) && SidePresent(r, SideOf(k.kind)) && k in SideKeys(r, SideOf(k.kind))
    ensures s.claims[k] == SideClause(r, SideOf(k.kind)).action
  {
    RuleClausesProper(r, From);
    RuleClausesProper(r, To);
    RuleClausesProper(r, Service);
  }

  function SideWithId(r: Rule, i: nat): (side: Side)
    requires 1 <= i <= NClause(r)
    ensures SidePresent(r, side) && SideClause(r, side).action == Act(r.id, i, NClause(r))
  {
    if r.from.Some? && i == 1 then From
    else if r.to.Some? && i == One(r.from) + 1 then To
    else Service
  }

  lemma SideIdIsUnique(r: Rule, side: Side, side': Side)
    requires SidePresent(r, side) && SidePresent(r, side') && SideClause(r, side).action == SideClause(r, side').action
    ensures side == side'
    ensures 1 <= SideClause(r, side).action.clause <= NClause(r)
  {
  }

  /**
   Pointwise: beside any represented rules, a packet satisfies the conjunction of a rule of which a part is there if and only
   if the rule has more than one side and the packet hits a claimed key of each of its sides.
   */
  lemma PartIsSatisfiedIff(p: Pipeline, base: FlowTable, s: PlainStore, r: Rule, sh: Share, spare: set<Key>, c: Client, dir: Direction, pkt: Packet)
    requires RepresentsAside(p, base, map[r.id := sh], spare, s, c) && r.id !in s && PartialShare(p, r, sh) && MissFlows(p, base)
    ensures Satisfied(c.engine.sw.flows, RuleTable(dir), pkt, r.id) <==>
            r.dir == dir && NClause(r) > 1 && forall side: Side | SidePresent(r, side) :: HitsClaim(sh, side, pkt)
  {
    hide Inv, PartialShare, Loose, AllBounded, Hits, SideClause, SideKeys, NClause, MissFlows;
    var flows, t, h := c.engine.sw.flows, RuleTable(dir), SharesOf(c.policies)[r.id := sh];
    AddLast(SharesOf(c.policies), r.id, sh);
    if Satisfied(flows, t, pkt, r.id) {
      var n: nat :| n > 1 && AllClausesHit(flows, t, pkt, r.id, n);
      LiveAreBounded(p, s);
      PartialIsBounded(p, r, sh);
      OneMoreBounded(p, s, SharesOf(c.policies), r.id, PlainOf(r), sh);
      HitClaimsOfPart(p, base, s[r.id := PlainOf(r)], r, h, c.engine, dir, pkt, n);
    }
    if r.dir == dir && NClause(r) > 1 && forall side: Side | SidePresent(r, side) :: HitsClaim(sh, side, pkt) {
      var n := NClause(r);
      forall i: nat | 1 <= i <= n ensures ClauseHit(flows, t, pkt, Act(r.id, i, n)) {
        var side := SideWithId(r, i);
        assert HitsClaim(sh, side, pkt);
        var k :| k in sh.claims && SideOf(k.kind) == side && KeyHits(k, pkt);
        ClaimOfPart(p, r, sh, k);
        assert ClaimOf(h, r.id, k) == Some(Act(r.id, i, n));
        FlowFromClaim(h, base, k, c.engine, Act(r.id, i, n));
        assert Hits(Matchers(ConjEntry(k).on), pkt);
      }
      assert AllClausesHit(flows, t, pkt, r.id, n);
    }
  }

  lemma HitClaimsOfPart(p: Pipeline, base: FlowTable, all: PlainStore, r: Rule, h: Shares, e: Engine, dir: Direction, pkt: Packet, n: nat)
    requires Inv(h, base, e) && AllBounded(p, all, h) && MissFlows(p, base)
    requires r.id in h && PartialShare(p, r, h[r.id])
    requires n > 1 && AllClausesHit(e.sw.flows, RuleTable(dir), pkt, r.id, n)
    ensures r.dir == dir && NClause(r) > 1 && forall side: Side | SidePresent(r, side) :: HitsClaim(h[r.id], side, pkt)
  {
    hide Inv, PartialShare, AllBounded, Hits, SideKeys, MissFlows;
    assert ClauseHit(e.sw.flows, RuleTable(dir), pkt, Act(r.id, 1, n));
    var k := ClauseHitIsClaimed(p, all, h, base, e, RuleTable(dir), pkt, Act(r.id, 1, n));
    ClaimOfPart(p, r, h[r.id], k);
    forall side: Side | SidePresent(r, side) ensures HitsClaim(h[r.id], side, pkt) {
      SideIdIsUnique(r, side, side);
      var act := SideClause(r, side).action;
      assert ClauseHit(e.sw.flows, RuleTable(dir), pkt, Act(r.id, act.clause, n));
      var k' := ClauseHitIsClaimed(p, all, h, base, e, RuleTable(dir), pkt, act);
      ClaimOfPart(p, r, h[r.id], k');
      SideIdIsUnique(r, side, SideOf(k'.kind));
    }
  }

  /***** Where an installation can stop *****/

  /** The side that is installed last. */
  function LastSide(r: Rule): Side {
    if r.service.Some? then Service else if r.to.Some? then To else From
  }

  /** Some later key of the list has not occurred before it: the loop may have this key and fail at that one. */
  predicate BeforeNewKey(keys: seq<Key>, k: Key) {
    exists j | 0 <= j < |keys| :: k in keys[..j] && keys[j] !in keys[..j]
  }

  /** The last side is claimed up to some key that is new to it, if at all. */
  predicate StopsInLastSide(r: Rule, claims: set<Key>) {
    forall k | k in claims && SideOf(k.kind) == LastSide(r) :: BeforeNewKey(SideKeys(r, LastSide(r)), k)
  }

  lemma {:induction false} AddFlowsStops(e: Engine, c: Clause, keys: seq<Key>) returns (j: nat)
    requires !AddFlows(e, c, keys).ok
    ensures j < |keys| && keys[j] !in c.matches && keys[j] !in keys[..j]
    ensures AddFlows(e, c, keys).clause == c.(matches := c.matches + Elems(keys[..j]))
    decreases |keys|
  {
    hide FindOrCreate, Claim;
    var r := AddConjunctiveMatchFlow(e, c, keys[0]);
    if r.ok {
      var i := AddFlowsStops(r.e, r.clause, keys[1..]);
      j := i + 1;
      assert keys[..j][0] == keys[0] && keys[..j][1..] == keys[1..][..i];
      ElemsFirst(keys[..j]);
      assert keys[..j] == [keys[0]] + keys[1..][..i];
      assert r.clause == c.(matches := c.matches + {keys[0]}) by {
        assert keys[0] in c.matches ==> c.matches + {keys[0]} == c.matches;
      }
      assert c.matches + {keys[0]} + Elems(keys[1..][..i]) == c.matches + Elems(keys[..j]);
    } else {
      j := 0;
      assert keys[..0] == [];
      assert c.matches + Elems(keys[..0]) == c.matches;
    }
  }

  /** A failing loop over the last side leaves its clause short of a new key. */
  lemma LastSideStops(e: Engine, r: Rule, k: Key)
    requires !AddSide(e, r, LastSide(r)).ok && k in Matches(AddSide(e, r, LastSide(r)).clause)
    ensures BeforeNewKey(SideKeys(r, LastSide(r)), k)
  {
    var keys := SideKeys(r, LastSide(r));
    var j := AddFlowsStops(e, SideClause(r, LastSide(r)), keys);
    assert k in keys[..j];
  }

  lemma SideMatchesProper(e: Engine, r: Rule, side: Side, k: Key)
    requires k in Matches(AddSide(e, r, side).clause)
    ensures SideOf(k.kind) == side
  {
    AddedMatches(e, SideClause(r, side), SideKeys(r, side));
    RuleClausesProper(r, side);
  }

  lemma {:induction false} AddedMatches(e: Engine, c: Clause, keys: seq<Key>)
    ensures var r := AddFlows(e, c, keys);
            r.clause.matches <= c.matches + Elems(keys) && (r.ok ==> r.clause == c.(matches := c.matches + Elems(keys)))
    decreases |keys|
  {
    hide FindOrCreate, Claim;
    if keys == [] {
      assert c.matches + {} == c.matches;
    } else {
      var r := AddConjunctiveMatchFlow(e, c, keys[0]);
      ElemsFirst(keys);
      assert keys[0] in c.matches ==> c.matches + {keys[0]} == c.matches;
      if r.ok {
        AddedMatches(r.e, r.clause, keys[1..]);
        assert c.matches + {keys[0]} + Elems(keys[1..]) == c.matches + Elems(keys);
      }
    }
  }

  /** Whatever command of an installation fails, the last side is not complete. */
  lemma FailedClausesStop(e: Engine, r: Rule, flows: seq<PolicyFlow>)
    requires !AddClauses(e, r, flows).ok && NClause(r) > 1
    ensures StopsInLastSide(r, HeldKeys(AddClauses(e, r, flows).conj))
  {
    hide AddSide, SideKeys, BeforeNewKey;
    var f := AddSide(e, r, From);
    var t := AddSide(f.e, r, To);
    var v := AddSide(t.e, r, Service);
    if r.service.None? {
      AbsentSideIsEmpty(t.e, r, Service);
    }
    forall k | k in HeldKeys(AddClauses(e, r, flows).conj) && SideOf(k.kind) == LastSide(r)
      ensures BeforeNewKey(SideKeys(r, LastSide(r)), k)
    {
      if k in Matches(f.clause) {
        SideMatchesProper(e, r, From, k);
      } else if k in Matches(t.clause) {
        SideMatchesProper(f.e, r, To, k);
        LastSideStops(f.e, r, k);
      } else {
        SideMatchesProper(t.e, r, Service, k);
        LastSideStops(t.e, r, k);
      }
    }
  }

  lemma AbsentSideIsEmpty(e: Engine, r: Rule, side: Side)
    requires !SidePresent(r, side)
    ensures AddSide(e, r, side) == SideResult(e, None, true)
  {
  }

  /***** And that it can stop anywhere there *****/

  /** The next `m` commands succeed, and all later ones fail. */
  ghost predicate Left(sw: PolicySwitch, m: nat) {
    forall i: nat | i >= sw.clock :: sw.fails(i) <==> i >= sw.clock + m
  }

  lemma {:induction false} IssueWithin(sw: PolicySwitch, cmds: seq<PolicyCommand>, m: nat)
    requires Left(sw, m) && |cmds| <= m
    ensures Issue(sw, cmds).ok && Left(Issue(sw, cmds).sw, m - |cmds|)
    decreases |cmds|
  {
    if cmds != [] {
      IssueWithin(Exec(sw, cmds[0]), cmds[1..], m - 1);
    }
  }

  lemma SideSucceeds(e: Engine, r: Rule, side: Side, m: nat)
    requires Left(e.sw, m) && |AddSideCommands(e.cache, r, side)| <= m
    ensures var x := AddSide(e, r, side);
            && x.ok && Left(x.e.sw, m - |AddSideCommands(e.cache, r, side)|) && x.e.cache == AddSideCache(e.cache, r, side)
            && Matches(x.clause) == (if SidePresent(r, side) then Elems(SideKeys(r, side)) else {})
            && forall k: Key | SideOf(k.kind) != side :: Look(x.e.cache, k) == Look(e.cache, k)
  {
    hide AddFlows, AddFlowsCommands, AddFlowsCache, Left, SideKeys;
    var c, keys := SideClause(r, side), SideKeys(r, side);
    AddSideIssues(e, r, side);
    IssueWithin(e.sw, AddSideCommands(e.cache, r, side), m);
    if SidePresent(r, side) {
      AddedMatches(e, c, keys);
      forall k: Key | SideOf(k.kind) != side ensures Look(AddSide(e, r, side).e.cache, k) == Look(e.cache, k) {
        RuleClausesProper(r, side);
        AddFlowsTouch(e, c, keys, k);
      }
    }
  }

  lemma {:induction false} AddFlowsSum(e: Engine, c: Clause, a: seq<Key>, b: seq<Key>)
    ensures var r := AddFlows(e, c, a);
            AddFlows(e, c, a + b) == if r.ok then AddFlows(r.e, r.clause, b) else r
    decreases |a|
  {
    hide AddConjunctiveMatchFlow;
    if a == [] {
      assert a + b == b;
    } else {
      assert (a + b)[1..] == a[1..] + b;
      var r := AddConjunctiveMatchFlow(e, c, a[0]);
      if r.ok {
        AddFlowsSum(r.e, r.clause, a[1..], b);
      }
    }
  }

  lemma NewKeyFails(e: Engine, c: Clause, keys: seq<Key>)
    requires keys != [] && keys[0] !in c.matches && c.action.n > 1 && Left(e.sw, 0)
    requires keys[0] in e.cache ==> c.action.conj !in e.cache[keys[0]].actions
    ensures !AddFlows(e, c, keys).ok && AddFlows(e, c, keys).clause == c
  {
  }

  /** With just enough commands for the keys before it, the loop over the last side fails at the j-th key. */
  lemma LastSideFailsAt(e: Engine, r: Rule, j: nat)
    requires var keys := SideKeys(r, LastSide(r));
             && NClause(r) > 1 && j < |keys| && keys[j] !in keys[..j]
             && Left(e.sw, |AddFlowsCommands(e.cache, SideClause(r, LastSide(r)), keys[..j])|)
             && (keys[j] in e.cache ==> r.id !in e.cache[keys[j]].actions)
    ensures var x := AddSide(e, r, LastSide(r));
            !x.ok && Elems(SideKeys(r, LastSide(r))[..j]) <= Matches(x.clause)
  {
    hide AddFlows, AddFlowsCommands, SideKeys;
    var c, keys := SideClause(r, LastSide(r)), SideKeys(r, LastSide(r));
    var a, b := keys[..j], keys[j..];
    assert keys == a + b;
    AddFlowsSum(e, c, a, b);
    AddFlowsIssue(e, c, a);
    IssueWithin(e.sw, AddFlowsCommands(e.cache, c, a), |AddFlowsCommands(e.cache, c, a)|);
    AddedMatches(e, c, a);
    AddFlowsTouch(e, c, a, keys[j]);
    var x := AddFlows(e, c, a);
    assert Look(x.e.cache, keys[j]) == Look(e.cache, keys[j]);
    NewKeyFails(x.e, x.clause, b);
  }

  lemma NotClaimedYet(p: Pipeline, base: FlowTable, s: PlainStore, c: Client, id: RuleId, k: Key)
    requires Represents(p, base, s, c) && id !in s && k in c.engine.cache
    ensures id !in c.engine.cache[k].actions
  {
    assert ContextOk(SharesOf(c.policies), k, c.engine.cache[k]);
    assert Look(c.engine.cache[k].actions, id) == Allow(ClaimOf(SharesOf(c.policies), id, k));
  }

  /** Every side but the last is complete, and the last has the keys before the j-th. */
  ghost predicate ReachesKey(r: Rule, j: nat, claims: set<Key>) {
    && (forall side: Side | SidePresent(r, side) && side != LastSide(r) :: Elems(SideKeys(r, side)) <= claims)
    && j <= |SideKeys(r, LastSide(r))| && Elems(SideKeys(r, LastSide(r))[..j]) <= claims
  }

  /** How many commands an installation issues for its clauses before it comes to the j-th key of the last side. */
  function CommandsBefore(cache: map<Key, Context>, r: Rule, j: nat): nat
    requires j <= |SideKeys(r, LastSide(r))|
  {
    var afterFrom := AddSideCache(cache, r, From);
    var reached := SideKeys(r, LastSide(r))[..j];
    |AddSideCommands(cache, r, From)|
    + if r.service.Some? then
        |AddSideCommands(afterFrom, r, To)| + |AddFlowsCommands(AddSideCache(afterFrom, r, To), SideClause(r, LastSide(r)), reached)|
      else |AddFlowsCommands(afterFrom, SideClause(r, LastSide(r)), reached)|
  }

  /** The j-th key of the last side is new to it and not claimed by the rule. */
  predicate IsNewKey(cache: map<Key, Context>, r: Rule, j: nat) {
    var keys := SideKeys(r, LastSide(r));
    && NClause(r) > 1 && j < |keys| && keys[j] !in keys[..j] && SideOf(keys[j].kind) == LastSide(r)
    && (keys[j] in cache ==> r.id !in cache[keys[j]].actions)
  }

  lemma FailsInService(e: Engine, r: Rule, flows: seq<PolicyFlow>, j: nat)
    requires IsNewKey(e.cache, r, j) && r.service.Some? && Left(e.sw, CommandsBefore(e.cache, r, j))
    ensures !AddClauses(e, r, flows).ok && ReachesKey(r, j, HeldKeys(AddClauses(e, r, flows).conj))
  {
    hide AddFlows, AddFlowsCommands, AddSide, AddSideCommands, AddSideCache, SideKeys, SideClause, Left, Elems;
    var k := SideKeys(r, LastSide(r))[j];
    SideSucceeds(e, r, From, CommandsBefore(e.cache, r, j));
    var f := AddSide(e, r, From);
    SideSucceeds(f.e, r, To, CommandsBefore(e.cache, r, j) - |AddSideCommands(e.cache, r, From)|);
    var t := AddSide(f.e, r, To);
    assert Look(f.e.cache, k) == Look(e.cache, k) && Look(t.e.cache, k) == Look(f.e.cache, k);
    LastSideFailsAt(t.e, r, j);
  }

  lemma FailsInTo(e: Engine, r: Rule, flows: seq<PolicyFlow>, j: nat)
    requires IsNewKey(e.cache, r, j) && r.service.None? && Left(e.sw, CommandsBefore(e.cache, r, j))
    ensures !AddClauses(e, r, flows).ok && ReachesKey(r, j, HeldKeys(AddClauses(e, r, flows).conj))
  {
    hide AddFlows, AddFlowsCommands, AddSide, AddSideCommands, AddSideCache, SideKeys, SideClause, Left, Elems;
    var k := SideKeys(r, LastSide(r))[j];
    SideSucceeds(e, r, From, CommandsBefore(e.cache, r, j));
    var f := AddSide(e, r, From);
    assert Look(f.e.cache, k) == Look(e.cache, k);
    LastSideFailsAt(f.e, r, j);
  }

  /** Some number of commands takes an installation to the j-th key of the last side, and no further. */
  lemma CanStopAt(p: Pipeline, c: Client, r: Rule, j: nat) returns (n: nat)
    requires r.id !in c.policies && IsNewKey(c.engine.cache, r, j)
    ensures InstallPolicyRuleFlows(Until(c, n), p, r).err.SwitchError?
    ensures ReachesKey(r, j, AttemptedKeys(Until(c, n), p, r))
  {
    hide ActionFlows, AddClauses, CommandsBefore, Left, IsNewKey, Adds;
    var flows := ActionFlows(r, Next(p, r.dir));
    assert j <= |SideKeys(r, LastSide(r))| by { NewKeyIsThere(c.engine.cache, r, j); }
    n := |Adds(flows)| + CommandsBefore(c.engine.cache, r, j);
    var e := Until(c, n).engine;
    UntilLeft(c, n);
    ActionFlowsIssue(e.sw, flows);
    IssueWithin(e.sw, Adds(flows), n);
    var e1 := e.(sw := AddActionFlows(e.sw, flows).sw);
    if r.service.Some? {
      FailsInService(e1, r, flows, j);
    } else {
      FailsInTo(e1, r, flows, j);
    }
  }

  lemma NewKeyIsThere(cache: map<Key, Context>, r: Rule, j: nat)
    requires IsNewKey(cache, r, j)
    ensures j < |SideKeys(r, LastSide(r))|
  {
  }

  lemma UntilLeft(c: Client, n: nat)
    ensures Left(Until(c, n).engine.sw, n)
  {
  }

  /***** When the remark is true *****/

  /** The same client, with this outlook on which commands fail. */
  function WithOutlook(c: Client, fails: nat -> bool): Client {
    c.(engine := c.engine.(sw := c.engine.sw.(fails := fails)))
  }

  /** The installation fails and leaves the packet satisfying the rule's conjunction. */
  ghost predicate FailsAccepting(p: Pipeline, c: Client, r: Rule, pkt: Packet, fails: nat -> bool) {
    var x := InstallPolicyRuleFlows(WithOutlook(c, fails), p, r);
    x.err.SwitchError? && Satisfied(x.c.engine.sw.flows, RuleTable(r.dir), pkt, r.id)
  }

  /**
   The packet hits a key of every side but the last, and one of the last side that precedes another, new key there.  Both
   can be seen from the rule.
   */
  predicate MayBeAccepted(r: Rule, pkt: Packet) {
    && NClause(r) > 1
    && (forall side: Side | SidePresent(r, side) && side != LastSide(r) :: exists k | k in SideKeys(r, side) :: KeyHits(k, pkt))
    && exists k | k in SideKeys(r, LastSide(r)) :: KeyHits(k, pkt) && BeforeNewKey(SideKeys(r, LastSide(r)), k)
  }

  lemma RepresentsWhatever(p: Pipeline, base: FlowTable, s: PlainStore, c: Client, fails: nat -> bool)
    requires Represents(p, base, s, c)
    ensures Represents(p, base, s, WithOutlook(c, fails))
  {
  }

  /** What the first attempt leaves if it fails: a part of the rule whose claims are the keys that it got to. */
  lemma FailedAttemptLeaves(p: Pipeline, base: FlowTable, s: PlainStore, c: Client, r: Rule) returns (sh: Share)
    requires Represents(p, base, s, c) && r.id !in s && InstallPolicyRuleFlows(c, p, r).err.SwitchError?
    ensures PartialShare(p, r, sh) && sh.claims.Keys == AttemptedKeys(c, p, r)
    ensures RepresentsAside(p, base, map[r.id := sh], RuleKeys(r), s, InstallPolicyRuleFlows(c, p, r).c)
  {
    hide Inv, Loose, PartialShare, RuleKeys, InstallPolicyRuleFlows, AttemptedKeys, ConjunctsOk, ConjunctOk, SharesOf, ShareOf, PlainConjunct;
    var h := SharesOf(c.policies);
    NothingAside(base, c);
    AddLast(h, r.id, NO_SHARE);
    NewRuleOwnsNothing(base, c, map[], {}, r.id);
    NoShareIsPartial(p, r);
    sh := InstallAttempt(p, r, h[r.id := NO_SHARE], base, c, {});
    assert h[r.id := NO_SHARE][r.id := sh] == h + map[r.id := sh];
    assert {} + RuleKeys(r) == RuleKeys(r);
    assert NO_SHARE.claims.Keys + AttemptedKeys(c, p, r) == AttemptedKeys(c, p, r);
  }

  lemma FailedAttemptStops(c: Client, p: Pipeline, r: Rule)
    requires InstallPolicyRuleFlows(c, p, r).err.SwitchError? && NClause(r) > 1
    ensures StopsInLastSide(r, AttemptedKeys(c, p, r))
  {
    hide AddActionFlows, ActionFlows, AddClauses, SideKeys;
    var flows := ActionFlows(r, Next(p, r.dir));
    var a := AddActionFlows(c.engine.sw, flows);
    if a.ok {
      FailedClausesStop(c.engine.(sw := a.sw), r, flows);
    }
  }

  lemma AcceptedWasPossible(p: Pipeline, r: Rule, sh: Share, pkt: Packet)
    requires PartialShare(p, r, sh) && NClause(r) > 1 && StopsInLastSide(r, sh.claims.Keys)
    requires forall side: Side | SidePresent(r, side) :: HitsClaim(sh, side, pkt)
    ensures MayBeAccepted(r, pkt)
  {
    hide PartialShare, SideKeys, KeyHits, BeforeNewKey;
    forall side: Side | SidePresent(r, side)
      ensures exists k | k in SideKeys(r, side) :: KeyHits(k, pkt) && (side == LastSide(r) ==> BeforeNewKey(SideKeys(r, side), k))
    {
      var k :| k in sh.claims && SideOf(k.kind) == side && KeyHits(k, pkt);
      ClaimOfPart(p, r, sh, k);
    }
    assert SidePresent(r, LastSide(r));
  }

  /**
   For each packet: some pattern of failures makes the installation of a new rule fail with the packet satisfying its
   conjunction, if and only if the packet may be accepted in the above sense.
   */
  lemma MayBeAcceptedIff(p: Pipeline, base: FlowTable, s: PlainStore, c: Client, r: Rule, pkt: Packet)
    requires Represents(p, base, s, c) && r.id !in s && MissFlows(p, base)
    ensures (exists fails: nat -> bool :: FailsAccepting(p, c, r, pkt, fails)) <==> MayBeAccepted(r, pkt)
  {
    hide Represents, RepresentsAside, PartialShare, InstallPolicyRuleFlows, AttemptedKeys, MayBeAccepted, HitsClaim, StopsInLastSide, MissFlows, NClause, Satisfied;
    if fails: nat -> bool :| FailsAccepting(p, c, r, pkt, fails) {
      var c' := WithOutlook(c, fails);
      RepresentsWhatever(p, base, s, c, fails);
      var sh := FailedAttemptLeaves(p, base, s, c', r);
      PartIsSatisfiedIff(p, base, s, r, sh, RuleKeys(r), InstallPolicyRuleFlows(c', p, r).c, r.dir, pkt);
      FailedAttemptStops(c', p, r);
      AcceptedWasPossible(p, r, sh, pkt);
    }
    if MayBeAccepted(r, pkt) {
      var fails := AcceptingFailure(p, base, s, c, r, pkt);
    }
  }

  lemma AcceptingFailure(p: Pipeline, base: FlowTable, s: PlainStore, c: Client, r: Rule, pkt: Packet) returns (fails: nat -> bool)
    requires Represents(p, base, s, c) && r.id !in s && MissFlows(p, base) && MayBeAccepted(r, pkt)
    ensures FailsAccepting(p, c, r, pkt, fails)
  {
    var keys := SideKeys(r, LastSide(r));
    var k :| k in keys && KeyHits(k, pkt) && BeforeNewKey(keys, k);
    var j: nat :| j < |keys| && k in keys[..j] && keys[j] !in keys[..j];
    assert c.policies.Keys == s.Keys;
    LastKeyIsNew(p, base, s, c, r, j);
    hide Represents, RepresentsAside, PartialShare, InstallPolicyRuleFlows, AttemptedKeys, IsNewKey, MissFlows, NClause, Satisfied, KeyHits, SideKeys, Elems;
    var n := CanStopAt(p, c, r, j);
    fails := StopsAfter(c.engine.sw.clock, n);
    var c' := WithOutlook(c, fails);
    assert c' == Until(c, n);
    RepresentsWhatever(p, base, s, c, fails);
    var sh := FailedAttemptLeaves(p, base, s, c', r);
    forall side: Side | SidePresent(r, side) ensures HitsClaim(sh, side, pkt) {
      ReachedIsHit(r, j, sh, side, k, pkt);
    }
    PartIsSatisfiedIff(p, base, s, r, sh, RuleKeys(r), InstallPolicyRuleFlows(c', p, r).c, r.dir, pkt);
  }

  lemma LastKeyIsNew(p: Pipeline, base: FlowTable, s: PlainStore, c: Client, r: Rule, j: nat)
    requires Represents(p, base, s, c) && r.id !in s && NClause(r) > 1
    requires var keys := SideKeys(r, LastSide(r));
             j < |keys| && keys[j] !in keys[..j]
    ensures IsNewKey(c.engine.cache, r, j)
  {
    var keys := SideKeys(r, LastSide(r));
    RuleClausesProper(r, LastSide(r));
    if keys[j] in c.engine.cache {
      NotClaimedYet(p, base, s, c, r.id, keys[j]);
    }
  }

  lemma ReachedIsHit(r: Rule, j: nat, sh: Share, side: Side, last: Key, pkt: Packet)
    requires ReachesKey(r, j, sh.claims.Keys) && MayBeAccepted(r, pkt) && SidePresent(r, side)
    requires last in SideKeys(r, LastSide(r))[..j] && KeyHits(last, pkt)
    ensures HitsClaim(sh, side, pkt)
  {
    hide KeyHits, BeforeNewKey;
    RuleClausesProper(r, side);
    if side == LastSide(r) {
      assert last in Elems(SideKeys(r, side)[..j]);
    } else {
      var k :| k in SideKeys(r, side) && KeyHits(k, pkt);
      assert k in Elems(SideKeys(r, side));
    }
  }

  /**
   When the remark is true: no failure of the installation leaves a packet that satisfies the conjunction, if and only if no
   packet may be accepted in the above sense.
   */
  lemma RemarkIsTrueIff(p: Pipeline, base: FlowTable, s: PlainStore, c: Client, r: Rule)
    requires Represents(p, base, s, c) && r.id !in s && MissFlows(p, base)
    ensures (forall fails: nat -> bool, pkt :: !FailsAccepting(p, c, r, pkt, fails)) <==> (forall pkt :: !MayBeAccepted(r, pkt))
  {
    hide Represents, MissFlows, FailsAccepting, MayBeAccepted;
    forall fails: nat -> bool, pkt | FailsAccepting(p, c, r, pkt, fails) ensures MayBeAccepted(r, pkt) {
      MayBeAcceptedIff(p, base, s, c, r, pkt);
    }
    forall pkt | MayBeAccepted(r, pkt) ensures exists fails: nat -> bool :: FailsAccepting(p, c, r, pkt, fails) {
      MayBeAcceptedIff(p, base, s, c, r, pkt);
    }
  }

  /** It is true of a rule with one side, of one with an empty side, and of one whose last side has a single key. */
  lemma RemarkHoldsFor(r: Rule, pkt: Packet)
    requires || NClause(r) <= 1
             || (exists side: Side :: SidePresent(r, side) && SideKeys(r, side) == [])
             || (forall i | 0 <= i < |SideKeys(r, LastSide(r))| :: SideKeys(r, LastSide(r))[i] == SideKeys(r, LastSide(r))[0])
    ensures !MayBeAccepted(r, pkt)
  {
  }
}
