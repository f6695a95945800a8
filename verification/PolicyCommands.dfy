/**
 Calls as lists of commands.  Which commands a call issues depends on the caches alone, and the first failure ends it; so a
 call is a fixed list of commands that the switch carries out up to the first failure.  This makes "at every command of a
 call" a statement about the prefixes of that list.
 */
module PolicyCommands {
  import opened OpenFlow
  import opened PolicyTypes
  import opened PolicyEngine
  import opened PolicyInvariant
  import opened PolicyLoops
  import opened Sequences
  import opened PolicyRules
  import opened PolicyStore
  import opened PolicyVerdict
  import opened PolicyFailures
  import opened PolicySafety

  type PolicyCommand = Command<PolicyMatch, set<FlowAction>>

  /** Issues the commands one after the other, up to the first failure. */
  function Issue(sw: PolicySwitch, cmds: seq<PolicyCommand>): SwitchResult
    decreases |cmds|
  {
    if cmds == [] then SwitchResult(sw, true)
    else
      var sw' := Exec(sw, cmds[0]);
      if WillFail(sw) then SwitchResult(sw', false) else Issue(sw', cmds[1..])
  }

  lemma {:induction false} IssueSum(sw: PolicySwitch, a: seq<PolicyCommand>, b: seq<PolicyCommand>)
    ensures Issue(sw, a + b) == if Issue(sw, a).ok then Issue(Issue(sw, a).sw, b) else Issue(sw, a)
    decreases |a|
  {
    if a == [] {
      assert a + b == b;
    } else {
      assert (a + b)[1..] == a[1..] + b;
      IssueSum(Exec(sw, a[0]), a[1..], b);
    }
  }

  lemma IssueOne(sw: PolicySwitch, cmd: PolicyCommand)
    ensures Issue(sw, [cmd]) == SwitchResult(Exec(sw, cmd), !WillFail(sw))
    ensures Issue(sw, []) == SwitchResult(sw, true)
  {
    assert [cmd][1..] == [];
  }

  /** A switch on which nothing fails. */
  ghost predicate Quiet(sw: PolicySwitch) {
    forall i :: !sw.fails(i)
  }

  lemma {:induction false} QuietSucceeds(sw: PolicySwitch, cmds: seq<PolicyCommand>)
    requires Quiet(sw)
    ensures Issue(sw, cmds).ok && Quiet(Issue(sw, cmds).sw)
    decreases |cmds|
  {
    if cmds != [] {
      QuietSucceeds(Exec(sw, cmds[0]), cmds[1..]);
    }
  }

  /***** The commands of one step *****/

  /** Tells what a step does to the caches if it succeeds. */
  const QUIET: PolicySwitch := Switch(map[], map[], n => false, 0)

  function UpdateCommands(ctx: Context, k: Key, acts: set<Act>): seq<PolicyCommand> {
    if ctx.flow.None? then if acts == {} then [] else [Add(ConjunctiveMatchFlow(k, acts))]
    else [Modify(Flow(ctx.flow.value.entry, Conjunctions(acts)))]
  }

  function ClaimCommands(ctx: Context, k: Key, act: Act): seq<PolicyCommand> {
    if act.n > 1 && act.conj !in ctx.actions then UpdateCommands(ctx, k, ctx.actions.Values + {act}) else []
  }

  function DisclaimCommands(ctx: Context, k: Key, act: Act): seq<PolicyCommand> {
    if act.n <= 1 || act.conj !in ctx.actions then []
    else if |ctx.actions| == 1 && ctx.flow.Some? then [Delete(ctx.flow.value)]
    else UpdateCommands(ctx, k, LeftActions(ctx.actions, act.conj))
  }

  function ReleaseCommands(ctx: Context, k: Key, act: Act): seq<PolicyCommand> {
    var left := Disclaim(ctx, k, act, QUIET).ctx;
    DisclaimCommands(ctx, k, act)
    + if left.actions == map[] && left.denyAllRules == {} && left.dropFlow.Some? then [Delete(left.dropFlow.value)] else []
  }

  function AddMatchCommands(cache: map<Key, Context>, c: Clause, k: Key): seq<PolicyCommand> {
    if k in c.matches then []
    else if k in cache then ClaimCommands(cache[k], k, c.action)
    else if c.dropTable.Some? then
      var drop := DefaultDropFlow(c.dropTable.value, k);
      [Add(drop)] + ClaimCommands(EMPTY_CONTEXT.(dropFlow := Some(drop)), k, c.action)
    else ClaimCommands(EMPTY_CONTEXT, k, c.action)
  }

  function DeleteMatchCommands(cache: map<Key, Context>, c: Clause, k: Key): seq<PolicyCommand> {
    if k !in c.matches then [] else ReleaseCommands(if k in cache then cache[k] else EMPTY_CONTEXT, k, c.action)
  }

  lemma ClaimIssues(ctx: Context, k: Key, act: Act, sw: PolicySwitch)
    ensures var r, i := Claim(ctx, k, act, sw), Issue(sw, ClaimCommands(ctx, k, act));
            r.sw == i.sw && r.ok == i.ok && (r.ok ==> r.ctx == Claim(ctx, k, act, QUIET).ctx)
  {
    forall cmd ensures Issue(sw, [cmd]) == SwitchResult(Exec(sw, cmd), !WillFail(sw)) {
      IssueOne(sw, cmd);
    }
  }

  lemma DisclaimIssues(ctx: Context, k: Key, act: Act, sw: PolicySwitch)
    ensures var r, i := Disclaim(ctx, k, act, sw), Issue(sw, DisclaimCommands(ctx, k, act));
            r.sw == i.sw && r.ok == i.ok && (r.ok ==> r.ctx == Disclaim(ctx, k, act, QUIET).ctx)
  {
    forall cmd ensures Issue(sw, [cmd]) == SwitchResult(Exec(sw, cmd), !WillFail(sw)) {
      IssueOne(sw, cmd);
    }
  }

  lemma ReleaseIssues(ctx: Context, k: Key, act: Act, sw: PolicySwitch)
    ensures var r, i := Release(ctx, k, act, sw), Issue(sw, ReleaseCommands(ctx, k, act));
            && r.sw == i.sw && r.ok == i.ok && Release(ctx, k, act, QUIET).ok
            && (r.ok ==> r.ctx == Release(ctx, k, act, QUIET).ctx && r.evict == Release(ctx, k, act, QUIET).evict)
  {
    hide Disclaim, DisclaimCommands, Issue;
    DisclaimIssues(ctx, k, act, sw);
    DisclaimIssues(ctx, k, act, QUIET);
    QuietSucceeds(QUIET, DisclaimCommands(ctx, k, act));
    var d := Disclaim(ctx, k, act, sw);
    var left := Disclaim(ctx, k, act, QUIET).ctx;
    var tail := if left.actions == map[] && left.denyAllRules == {} && left.dropFlow.Some? then [Delete(left.dropFlow.value)] else [];
    IssueSum(sw, DisclaimCommands(ctx, k, act), tail);
    IssueOne(d.sw, if tail == [] then Delete(DefaultDropFlow(0, k)) else tail[0]);
  }

  lemma AddMatchIssues(e: Engine, c: Clause, k: Key)
    ensures var r, i, q := AddConjunctiveMatchFlow(e, c, k), Issue(e.sw, AddMatchCommands(e.cache, c, k)),
                           AddConjunctiveMatchFlow(Engine(e.cache, QUIET), c, k);
            && r.e.sw == i.sw && r.ok == i.ok && (r.ok ==> r.e.cache == q.e.cache && r.clause == q.clause)
  {
    hide Claim, ClaimCommands, Issue;
    if k !in c.matches {
      var drop := DefaultDropFlow(if c.dropTable.Some? then c.dropTable.value else 0, k);
      var bare := EMPTY_CONTEXT.(dropFlow := if c.dropTable.Some? then Some(drop) else None);
      var ctx := if k in e.cache then e.cache[k] else bare;
      var (found, sw) := FindOrCreate(e, c, k);
      ClaimIssues(ctx, k, c.action, sw);
      ClaimIssues(ctx, k, c.action, FindOrCreate(Engine(e.cache, QUIET), c, k).1);
      QuietSucceeds(FindOrCreate(Engine(e.cache, QUIET), c, k).1, ClaimCommands(ctx, k, c.action));
      IssueSum(e.sw, [Add(drop)], ClaimCommands(ctx, k, c.action));
      IssueOne(e.sw, Add(drop));
    } else {
      IssueOne(e.sw, Add(DefaultDropFlow(0, k)));
    }
  }

  lemma DeleteMatchIssues(e: Engine, c: Clause, k: Key)
    ensures var r, i, q := DeleteConjunctiveMatchFlow(e, c, k), Issue(e.sw, DeleteMatchCommands(e.cache, c, k)),
                           DeleteConjunctiveMatchFlow(Engine(e.cache, QUIET), c, k);
            && r.e.sw == i.sw && r.ok == i.ok && (r.ok ==> r.e.cache == q.e.cache && r.clause == q.clause)
  {
    hide Release, ReleaseCommands, Issue;
    IssueOne(e.sw, Add(DefaultDropFlow(0, k)));
    ReleaseIssues(HeldContext(e, k), k, c.action, e.sw);
    ReleaseIssues(HeldContext(e, k), k, c.action, QUIET);
  }

  /***** The commands of a call *****/

  function AddFlowsCommands(cache: map<Key, Context>, c: Clause, keys: seq<Key>): seq<PolicyCommand>
    decreases |keys|
  {
    if keys == [] then []
    else
      var q := AddConjunctiveMatchFlow(Engine(cache, QUIET), c, keys[0]);
      AddMatchCommands(cache, c, keys[0]) + AddFlowsCommands(q.e.cache, q.clause, keys[1..])
  }

  function DeleteFlowsCommands(cache: map<Key, Context>, c: Clause, keys: seq<Key>): seq<PolicyCommand>
    decreases |keys|
  {
    if keys == [] then []
    else
      var q := DeleteConjunctiveMatchFlow(Engine(cache, QUIET), c, keys[0]);
      DeleteMatchCommands(cache, c, keys[0]) + DeleteFlowsCommands(q.e.cache, q.clause, keys[1..])
  }

  /** The caches after the loops if nothing fails. */
  function AddFlowsCache(cache: map<Key, Context>, c: Clause, keys: seq<Key>): map<Key, Context>
    decreases |keys|
  {
    if keys == [] then cache
    else
      var q := AddConjunctiveMatchFlow(Engine(cache, QUIET), c, keys[0]);
      AddFlowsCache(q.e.cache, q.clause, keys[1..])
  }

  function DeleteFlowsCache(cache: map<Key, Context>, c: Clause, keys: seq<Key>): map<Key, Context>
    decreases |keys|
  {
    if keys == [] then cache
    else
      var q := DeleteConjunctiveMatchFlow(Engine(cache, QUIET), c, keys[0]);
      DeleteFlowsCache(q.e.cache, q.clause, keys[1..])
  }

  lemma {:induction false} AddFlowsIssue(e: Engine, c: Clause, keys: seq<Key>)
    ensures var r, i := AddFlows(e, c, keys), Issue(e.sw, AddFlowsCommands(e.cache, c, keys));
            r.e.sw == i.sw && r.ok == i.ok && (r.ok ==> r.e.cache == AddFlowsCache(e.cache, c, keys))
    decreases |keys|
  {
    hide AddConjunctiveMatchFlow, AddMatchCommands;
    if keys != [] {
      AddMatchIssues(e, c, keys[0]);
      var r := AddConjunctiveMatchFlow(e, c, keys[0]);
      var q := AddConjunctiveMatchFlow(Engine(e.cache, QUIET), c, keys[0]);
      IssueSum(e.sw, AddMatchCommands(e.cache, c, keys[0]), AddFlowsCommands(q.e.cache, q.clause, keys[1..]));
      if r.ok {
        AddFlowsIssue(r.e, r.clause, keys[1..]);
      }
    }
  }

  lemma {:induction false} DeleteFlowsIssue(e: Engine, c: Clause, keys: seq<Key>)
    ensures var r, i := DeleteFlows(e, c, keys), Issue(e.sw, DeleteFlowsCommands(e.cache, c, keys));
            r.e.sw == i.sw && r.ok == i.ok && (r.ok ==> r.e.cache == DeleteFlowsCache(e.cache, c, keys))
    decreases |keys|
  {
    hide DeleteConjunctiveMatchFlow, DeleteMatchCommands;
    if keys != [] {
      DeleteMatchIssues(e, c, keys[0]);
      var r := DeleteConjunctiveMatchFlow(e, c, keys[0]);
      var q := DeleteConjunctiveMatchFlow(Engine(e.cache, QUIET), c, keys[0]);
      IssueSum(e.sw, DeleteMatchCommands(e.cache, c, keys[0]), DeleteFlowsCommands(q.e.cache, q.clause, keys[1..]));
      if r.ok {
        DeleteFlowsIssue(r.e, r.clause, keys[1..]);
      }
    }
  }

  function Adds(flows: seq<PolicyFlow>): seq<PolicyCommand>
    decreases |flows|
  {
    if flows == [] then [] else [Add(flows[0])] + Adds(flows[1..])
  }

  function Deletes(flows: seq<PolicyFlow>): seq<PolicyCommand>
    decreases |flows|
  {
    if flows == [] then [] else [Delete(flows[0])] + Deletes(flows[1..])
  }

  lemma {:induction false} ActionFlowsIssue(sw: PolicySwitch, flows: seq<PolicyFlow>)
    ensures AddActionFlows(sw, flows) == Issue(sw, Adds(flows)) && DeleteActionFlows(sw, flows) == Issue(sw, Deletes(flows))
    decreases |flows|
  {
    if flows != [] {
      assert Adds(flows)[1..] == Adds(flows[1..]) && Deletes(flows)[1..] == Deletes(flows[1..]);
      ActionFlowsIssue(Exec(sw, Add(flows[0])), flows[1..]);
      ActionFlowsIssue(Exec(sw, Delete(flows[0])), flows[1..]);
    }
  }

  function AddSideCommands(cache: map<Key, Context>, r: Rule, side: Side): seq<PolicyCommand> {
    if SidePresent(r, side) then AddFlowsCommands(cache, SideClause(r, side), SideKeys(r, side)) else []
  }

  function AddSideCache(cache: map<Key, Context>, r: Rule, side: Side): map<Key, Context> {
    if SidePresent(r, side) then AddFlowsCache(cache, SideClause(r, side), SideKeys(r, side)) else cache
  }

  function AddClausesCommands(cache: map<Key, Context>, r: Rule): seq<PolicyCommand> {
    var afterFrom := AddSideCache(cache, r, From);
    var afterTo := AddSideCache(afterFrom, r, To);
    AddSideCommands(cache, r, From) + (AddSideCommands(afterFrom, r, To) + AddSideCommands(afterTo, r, Service))
  }

  /** The commands of InstallPolicyRuleFlows. */
  function InstallCommands(c: Client, p: Pipeline, r: Rule): seq<PolicyCommand> {
    if r.id in c.policies then [] else Adds(ActionFlows(r, Next(p, r.dir))) + AddClausesCommands(c.engine.cache, r)
  }

  function DeleteSideCommands(cache: map<Key, Context>, c: Option<Clause>, keys: seq<Key>): seq<PolicyCommand> {
    if c.Some? then DeleteFlowsCommands(cache, c.value, keys) else []
  }

  function DeleteSideCache(cache: map<Key, Context>, c: Option<Clause>, keys: seq<Key>): map<Key, Context> {
    if c.Some? then DeleteFlowsCache(cache, c.value, keys) else cache
  }

  function DeleteClausesCommands(cache: map<Key, Context>, conj: Conjunct, o: Orders): seq<PolicyCommand> {
    var afterFrom := DeleteSideCache(cache, conj.from, o.from);
    var afterTo := DeleteSideCache(afterFrom, conj.to, o.to);
    DeleteSideCommands(cache, conj.from, o.from)
    + (DeleteSideCommands(afterFrom, conj.to, o.to) + DeleteSideCommands(afterTo, conj.service, o.service))
  }

  /** The commands of UninstallPolicyRuleFlows. */
  function UninstallCommands(c: Client, id: RuleId, o: Orders): seq<PolicyCommand> {
    if id !in c.policies then []
    else Deletes(c.policies[id].actionFlows) + DeleteClausesCommands(c.engine.cache, c.policies[id], o)
  }

  /** The commands of a call on its rule's action and except flows, which come first. */
  function OwnCommands(p: Pipeline, c: Client, call: Call): seq<PolicyCommand> {
    match call
    case Install(r) => if r.id in c.policies then [] else Adds(ActionFlows(r, Next(p, r.dir)))
    case Uninstall(id, _) => if id in c.policies then Deletes(c.policies[id].actionFlows) else []
    case _ => []
  }

  /** The commands of a call on the conjunctive match flows and drop flows of its keys. */
  function KeyCommands(c: Client, call: Call): seq<PolicyCommand> {
    match call
    case Install(r) => if r.id in c.policies then [] else AddClausesCommands(c.engine.cache, r)
    case Uninstall(id, o) => if id in c.policies then DeleteClausesCommands(c.engine.cache, c.policies[id], o) else []
    case AddAddresses(id, t, addrs) =>
      var clause := CalledClause(c, id, t);
      if clause.None? then []
      else AddFlowsCommands(c.engine.cache, clause.value, AddressKeys(clause.value.ruleTable, t, addrs))
    case DeleteAddresses(id, t, addrs) =>
      var clause := CalledClause(c, id, t);
      if clause.None? then []
      else DeleteFlowsCommands(c.engine.cache, clause.value, AddressKeys(clause.value.ruleTable, t, addrs))
  }

  function CallCommands(p: Pipeline, c: Client, call: Call): seq<PolicyCommand> {
    OwnCommands(p, c, call) + KeyCommands(c, call)
  }

  lemma AddSideIssues(e: Engine, r: Rule, side: Side)
    ensures var x, i := AddSide(e, r, side), Issue(e.sw, AddSideCommands(e.cache, r, side));
            x.e.sw == i.sw && x.ok == i.ok && (x.ok ==> x.e.cache == AddSideCache(e.cache, r, side))
  {
    AddFlowsIssue(e, SideClause(r, side), SideKeys(r, side));
  }

  lemma DeleteSideIssues(e: Engine, c: Option<Clause>, keys: seq<Key>)
    ensures var x, i := DeleteSide(e, c, keys), Issue(e.sw, DeleteSideCommands(e.cache, c, keys));
            x.e.sw == i.sw && x.ok == i.ok && (x.ok ==> x.e.cache == DeleteSideCache(e.cache, c, keys))
  {
    if c.Some? {
      DeleteFlowsIssue(e, c.value, keys);
    }
  }

  /** InstallPolicyRuleFlows carries out its list of commands up to the first failure. */
  lemma InstallIssues(c: Client, p: Pipeline, r: Rule)
    ensures var x, i := InstallPolicyRuleFlows(c, p, r), Issue(c.engine.sw, InstallCommands(c, p, r));
            x.c.engine.sw == i.sw && (x.err.NoError? <==> i.ok)
  {
    hide Issue, AddSide, AddSideCommands, AddSideCache, ActionFlows, Adds;
    IssueOne(c.engine.sw, Add(DefaultDropFlow(0, Key(0, Unsupported, OfPort(0)))));
    if r.id !in c.policies {
      var flows := ActionFlows(r, Next(p, r.dir));
      ActionFlowsIssue(c.engine.sw, flows);
      var e := c.engine.(sw := AddActionFlows(c.engine.sw, flows).sw);
      AddSideIssues(e, r, From);
      var f := AddSide(e, r, From);
      AddSideIssues(f.e, r, To);
      var t := AddSide(f.e, r, To);
      AddSideIssues(t.e, r, Service);
      var afterFrom := AddSideCache(c.engine.cache, r, From);
      var afterTo := AddSideCache(afterFrom, r, To);
      var service := AddSideCommands(afterTo, r, Service);
      var to := AddSideCommands(afterFrom, r, To) + service;
      var from := AddSideCommands(c.engine.cache, r, From) + to;
      IssueSum(c.engine.sw, Adds(flows), from);
      IssueSum(e.sw, AddSideCommands(c.engine.cache, r, From), to);
      IssueSum(f.e.sw, AddSideCommands(afterFrom, r, To), service);
    }
  }

  lemma UninstallIssues(c: Client, id: RuleId, o: Orders)
    ensures var x, i := UninstallPolicyRuleFlows(c, id, o), Issue(c.engine.sw, UninstallCommands(c, id, o));
            x.c.engine.sw == i.sw && (x.err.NoError? <==> i.ok)
  {
    hide Issue, DeleteSide, DeleteSideCommands, DeleteSideCache, Deletes;
    IssueOne(c.engine.sw, Add(DefaultDropFlow(0, Key(0, Unsupported, OfPort(0)))));
    if id in c.policies {
      var conj := c.policies[id];
      ActionFlowsIssue(c.engine.sw, conj.actionFlows);
      var e := c.engine.(sw := DeleteActionFlows(c.engine.sw, conj.actionFlows).sw);
      DeleteSideIssues(e, conj.from, o.from);
      var f := DeleteSide(e, conj.from, o.from);
      DeleteSideIssues(f.e, conj.to, o.to);
      var t := DeleteSide(f.e, conj.to, o.to);
      DeleteSideIssues(t.e, conj.service, o.service);
      var afterFrom := DeleteSideCache(c.engine.cache, conj.from, o.from);
      var afterTo := DeleteSideCache(afterFrom, conj.to, o.to);
      var service := DeleteSideCommands(afterTo, conj.service, o.service);
      var to := DeleteSideCommands(afterFrom, conj.to, o.to) + service;
      var from := DeleteSideCommands(c.engine.cache, conj.from, o.from) + to;
      IssueSum(c.engine.sw, Deletes(conj.actionFlows), from);
      IssueSum(e.sw, DeleteSideCommands(c.engine.cache, conj.from, o.from), to);
      IssueSum(f.e.sw, DeleteSideCommands(afterFrom, conj.to, o.to), service);
    }
  }

  lemma InstallCommandsAre(p: Pipeline, c: Client, r: Rule)
    ensures CallCommands(p, c, Install(r)) == InstallCommands(c, p, r)
  {
    hide Adds, AddClausesCommands;
    var none: seq<PolicyCommand> := [];
    assert none + none == none;
  }

  lemma UninstallCommandsAre(p: Pipeline, c: Client, id: RuleId, o: Orders)
    ensures CallCommands(p, c, Uninstall(id, o)) == UninstallCommands(c, id, o)
  {
    hide Deletes, DeleteClausesCommands;
    var none: seq<PolicyCommand> := [];
    assert none + none == none;
  }

  /** Each of the four calls carries out its list of commands up to the first failure. */
  lemma CallIssues(p: Pipeline, c: Client, call: Call)
    ensures var x, i := DoCall(p, c, call), Issue(c.engine.sw, CallCommands(p, c, call));
            x.c.engine.sw == i.sw && (x.err.SwitchError? <==> !i.ok)
  {
    hide Issue, InstallPolicyRuleFlows, UninstallPolicyRuleFlows, AddFlows, DeleteFlows, CallCommands;
    match call {
      case Install(r) =>
        InstallIssues(c, p, r);
        InstallErrors(p, c, r);
        InstallCommandsAre(p, c, r);
      case Uninstall(id, o) =>
        UninstallIssues(c, id, o);
        UninstallErrors(c, id, o);
        UninstallCommandsAre(p, c, id, o);
      case AddAddresses(id, t, addrs) =>
        AddressCommandsAre(p, c, call);
        IssueOne(c.engine.sw, Add(DefaultDropFlow(0, Key(0, Unsupported, OfPort(0)))));
        var clause := CalledClause(c, id, t);
        if clause.Some? {
          AddFlowsIssue(c.engine, clause.value, AddressKeys(clause.value.ruleTable, t, addrs));
        }
      case DeleteAddresses(id, t, addrs) =>
        AddressCommandsAre(p, c, call);
        IssueOne(c.engine.sw, Add(DefaultDropFlow(0, Key(0, Unsupported, OfPort(0)))));
        var clause := CalledClause(c, id, t);
        if clause.Some? {
          DeleteFlowsIssue(c.engine, clause.value, AddressKeys(clause.value.ruleTable, t, addrs));
        }
    }
  }

  lemma AddressCommandsAre(p: Pipeline, c: Client, call: Call)
    requires call.AddAddresses? || call.DeleteAddresses?
    ensures CallCommands(p, c, call) == KeyCommands(c, call)
  {
    hide KeyCommands;
    assert [] + KeyCommands(c, call) == KeyCommands(c, call);
  }

  /***** The state at the n-th command *****/

  function StopsAfter(clock: nat, n: nat): nat -> bool {
    i => i >= clock + n
  }

  /** The client, if its switch is to fail after `n` more commands. */
  function Until(c: Client, n: nat): Client {
    c.(engine := c.engine.(sw := c.engine.sw.(fails := StopsAfter(c.engine.sw.clock, n))))
  }

  lemma {:induction false} IssueUntil(sw: PolicySwitch, cmds: seq<PolicyCommand>, n: nat, start: nat, total: nat)
    requires sw.fails == StopsAfter(start, total) && sw.clock + n == start + total && n <= |cmds|
    ensures Issue(sw, cmds).sw.flows == ApplyAll(sw.flows, cmds[..n]) && (Issue(sw, cmds).ok <==> n == |cmds|)
    decreases |cmds|
  {
    if n > 0 {
      assert cmds[..n][1..] == cmds[1..][..n - 1];
      IssueUntil(Exec(sw, cmds[0]), cmds[1..], n - 1, start, total);
    }
  }

  lemma SwitchOutlookIsIrrelevant(p: Pipeline, base: FlowTable, extra: Shares, spare: set<Key>, s: PlainStore, c: Client, n: nat)
    requires RepresentsAside(p, base, extra, spare, s, c)
    ensures RepresentsAside(p, base, extra, spare, s, Until(c, n))
  {
    hide Inv, ConjunctsOk, ConjunctOk, PlainConjuncts;
    SameFlowsKeepInv(SharesOf(c.policies) + extra, base, c.engine, Until(c, n).engine);
  }

  lemma RepresentedIsSafe(p: Pipeline, base: FlowTable, s: PlainStore, c: Client, dir: Direction, pkt: Packet, ch: RuleId)
    requires Represents(p, base, s, c) && MissFlows(p, base)
    requires Chosen(c.engine.sw.flows, RuleTable(dir), pkt, ch) && Walks(c.engine.sw.flows, dir, pkt, ch, Bypassed)
    ensures SafeBypass(s, c.engine.sw.flows, dir, pkt, ch)
  {
    hide Inv, AllBounded, Chosen, Walks, SafeBypass;
    LiveAreBounded(p, s);
    BypassIsSafe(p, s, SharesOf(c.policies), base, c.engine, dir, pkt, ch);
  }

  /**
   Step safety at every command of an installation, first attempt or retry: whatever table the first `n` commands have left,
   a packet that bypasses the default table there is allowed in full, and not excepted, by a live rule or by `r`.
   */
  lemma EveryInstallCommandIsSafe(p: Pipeline, base: FlowTable, s: PlainStore, r: Rule, c: Client, n: nat,
                                  dir: Direction, pkt: Packet, ch: RuleId)
    requires Interrupted(p, base, s, r, c) && MissFlows(p, base)
    requires n <= |InstallCommands(c, p, r)|
    requires var flows := ApplyAll(c.engine.sw.flows, InstallCommands(c, p, r)[..n]);
             Chosen(flows, RuleTable(dir), pkt, ch) && Walks(flows, dir, pkt, ch, Bypassed)
    ensures SafeBypass(s[r.id := PlainOf(r)], ApplyAll(c.engine.sw.flows, InstallCommands(c, p, r)[..n]), dir, pkt, ch)
  {
    hide Represents, RepresentsAside, PartialShare, RuleKeys, InstallPolicyRuleFlows, InstallCommands, Chosen, Walks, SafeBypass;
    var sh :| PartialShare(p, r, sh) && RepresentsAside(p, base, map[r.id := sh], RuleKeys(r), s, c);
    SwitchOutlookIsIrrelevant(p, base, map[r.id := sh], RuleKeys(r), s, c, n);
    var x := InstallPolicyRuleFlows(Until(c, n), p, r);
    InstallIssues(Until(c, n), p, r);
    SameCommands(c, p, r, n);
    IssueUntil(Until(c, n).engine.sw, InstallCommands(c, p, r), n, c.engine.sw.clock, n);
    AttemptResumes(p, base, s, r, Until(c, n));
    if x.err.NoError? {
      RepresentedIsSafe(p, base, s[r.id := PlainOf(r)], x.c, dir, pkt, ch);
    } else {
      InstallStepIsSafe(p, base, s, r, x.c, dir, pkt, ch);
    }
  }

  lemma SameCommands(c: Client, p: Pipeline, r: Rule, n: nat)
    ensures InstallCommands(Until(c, n), p, r) == InstallCommands(c, p, r)
    ensures forall id, o :: UninstallCommands(Until(c, n), id, o) == UninstallCommands(c, id, o)
  {
  }

  lemma DepartingOutlook(p: Pipeline, base: FlowTable, s: PlainStore, id: RuleId, c: Client, n: nat)
    requires Departing(p, base, s, id, c)
    ensures Departing(p, base, s, id, Until(c, n))
  {
    hide Inv, ConjunctsOk, PlainConjuncts, Leaving, Departed, HeldKeys;
    var sh :| Leaving(id, c.policies[id], sh) && Departed(p, id, s[id], sh)
              && Inv(SharesOf(c.policies - {id})[id := sh], base, c.engine)
              && Loose(SharesOf(c.policies - {id})[id := sh], c.engine, HeldKeys(c.policies[id]));
    SameFlowsKeepInv(SharesOf(c.policies - {id})[id := sh], base, c.engine, Until(c, n).engine);
  }

  /** The same at every command of an uninstallation, first attempt or retry. */
  lemma EveryUninstallCommandIsSafe(p: Pipeline, base: FlowTable, s: PlainStore, id: RuleId, c: Client, o: Orders, n: nat,
                                    dir: Direction, pkt: Packet, ch: RuleId)
    requires Departing(p, base, s, id, c) && Enumerates(o, c.policies[id]) && MissFlows(p, base)
    requires c.policies[id].actionFlows == ActionFlows(Template(id, s[id]), Next(p, s[id].dir))
    requires n <= |UninstallCommands(c, id, o)|
    requires var flows := ApplyAll(c.engine.sw.flows, UninstallCommands(c, id, o)[..n]);
             Chosen(flows, RuleTable(dir), pkt, ch) && Walks(flows, dir, pkt, ch, Bypassed)
    ensures SafeBypass(s, ApplyAll(c.engine.sw.flows, UninstallCommands(c, id, o)[..n]), dir, pkt, ch)
  {
    hide Represents, Departing, UninstallPolicyRuleFlows, UninstallCommands, Chosen, Walks, SafeBypass, ActionFlows, Enumerates;
    DepartingOutlook(p, base, s, id, c, n);
    var x := UninstallPolicyRuleFlows(Until(c, n), id, o);
    UninstallIssues(Until(c, n), id, o);
    SameCommands(c, p, Rule(0, Egress, None, [], None, [], None), n);
    IssueUntil(Until(c, n).engine.sw, UninstallCommands(c, id, o), n, c.engine.sw.clock, n);
    RemovalResumes(p, base, s, id, Until(c, n), o);
    if x.err.NoError? {
      RepresentedIsSafe(p, base, s - {id}, x.c, dir, pkt, ch);
      FewerRulesSafe(s, id, x.c.engine.sw.flows, dir, pkt, ch);
    } else {
      UninstallStepIsSafe(p, base, s, id, x.c, dir, pkt, ch);
    }
  }

  lemma FewerRulesSafe(s: PlainStore, id: RuleId, flows: FlowTable, dir: Direction, pkt: Packet, ch: RuleId)
    requires SafeBypass(s - {id}, flows, dir, pkt, ch)
    ensures SafeBypass(s, flows, dir, pkt, ch)
  {
  }
}
