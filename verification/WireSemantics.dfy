/**
 Flow commands as section 6.4 of the OpenFlow Switch Specification 1.3 defines them.  Modify and Delete are issued
 non-strict: they reach every entry of the table whose match is covered by theirs.  Add replaces an entry of the same
 priority whose match means the same.  Elsewhere this project reasons with module OpenFlow's Apply, which names entries
 exactly; this module says when the two agree.

 `ms` gives the match fields that a match puts on a flow.
 */
module WireSemantics {
  import opened OpenFlow

  type Match = seq<Matcher>

  /** For matches that are lists of fields already. */
  function AsIs(m: Match): Match {
    m
  }

  ghost predicate Covers(a: Match, b: Match) {
    forall p: Packet :: Hits(b, p) ==> Hits(a, p)
  }

  ghost predicate SameMeaning(a: Match, b: Match) {
    Covers(a, b) && Covers(b, a)
  }

  /** The entries that a non-strict Modify or Delete reaches. */
  ghost predicate Reached<M>(ms: M -> Match, target: Entry<M>, x: Entry<M>) {
    x.table == target.table && Covers(ms(target.on), ms(x.on))
  }

  ghost predicate Replaced<M>(ms: M -> Match, target: Entry<M>, x: Entry<M>) {
    x.table == target.table && x.priority == target.priority && SameMeaning(ms(x.on), ms(target.on))
  }

  ghost function WireApply<M, A>(ms: M -> Match, flows: map<Entry<M>, A>, cmd: Command<M, A>): map<Entry<M>, A> {
    match cmd
    case Add(f) => (map x | x in flows && !Replaced(ms, f.entry, x) :: flows[x])[f.entry := f.actions]
    case Modify(f) => map x | x in flows :: if Reached(ms, f.entry, x) then f.actions else flows[x]
    case Delete(f) => map x | x in flows && !Reached(ms, f.entry, x) :: flows[x]
  }

  /***** One command *****/

  lemma DeleteIsExactIff<M, A>(ms: M -> Match, flows: map<Entry<M>, A>, f: Flow<M, A>)
    ensures WireApply(ms, flows, Delete(f)) == Apply(flows, Delete(f)) <==>
            forall x | x in flows && Reached(ms, f.entry, x) :: x.on == f.entry.on
  {
    var wire, exact := WireApply(ms, flows, Delete(f)), Apply(flows, Delete(f));
    if wire == exact {
      forall x | x in flows && Reached(ms, f.entry, x) ensures x.on == f.entry.on {
        assert x !in wire;
        assert x !in exact;
      }
    }
  }

  lemma ModifyIsExactIff<M, A>(ms: M -> Match, flows: map<Entry<M>, A>, f: Flow<M, A>)
    ensures WireApply(ms, flows, Modify(f)) == Apply(flows, Modify(f)) <==>
            forall x | x in flows && Reached(ms, f.entry, x) :: x.on == f.entry.on || flows[x] == f.actions
  {
    var wire, exact := WireApply(ms, flows, Modify(f)), Apply(flows, Modify(f));
    if wire == exact {
      forall x | x in flows && Reached(ms, f.entry, x) ensures x.on == f.entry.on || flows[x] == f.actions {
        assert wire[x] == exact[x];
      }
    }
  }

  lemma AddIsExactIff<M, A>(ms: M -> Match, flows: map<Entry<M>, A>, f: Flow<M, A>)
    ensures WireApply(ms, flows, Add(f)) == Apply(flows, Add(f)) <==>
            forall x | x in flows && Replaced(ms, f.entry, x) :: x == f.entry
  {
    var wire, exact := WireApply(ms, flows, Add(f)), Apply(flows, Add(f));
    if wire == exact {
      forall x | x in flows && Replaced(ms, f.entry, x) ensures x == f.entry {
        assert x in exact;
        assert x in wire;
      }
    }
  }

  /** The command changes no flow beside the ones it names. */
  ghost predicate HitsItsTarget<M, A>(ms: M -> Match, flows: map<Entry<M>, A>, cmd: Command<M, A>) {
    match cmd
    case Add(f) => forall x | x in flows && Replaced(ms, f.entry, x) :: x == f.entry
    case Modify(f) => forall x | x in flows && Reached(ms, f.entry, x) :: x.on == f.entry.on || flows[x] == f.actions
    case Delete(f) => forall x | x in flows && Reached(ms, f.entry, x) :: x.on == f.entry.on
  }

  lemma CommandIsExactIff<M, A>(ms: M -> Match, flows: map<Entry<M>, A>, cmd: Command<M, A>)
    ensures WireApply(ms, flows, cmd) == Apply(flows, cmd) <==> HitsItsTarget(ms, flows, cmd)
  {
    hide WireApply, Apply;
    match cmd {
      case Add(f) => AddIsExactIff(ms, flows, f);
      case Modify(f) => ModifyIsExactIff(ms, flows, f);
      case Delete(f) => DeleteIsExactIff(ms, flows, f);
    }
  }

  /***** Runs *****/

  ghost function WireRun<M, A>(ms: M -> Match, flows: map<Entry<M>, A>, cmds: seq<Command<M, A>>): map<Entry<M>, A>
    decreases |cmds|
  {
    if cmds == [] then flows else WireRun(ms, WireApply(ms, flows, cmds[0]), cmds[1..])
  }

  /** Wherever the run is cut short, both semantics leave the same table. */
  ghost predicate AgreeThroughout<M, A>(ms: M -> Match, flows: map<Entry<M>, A>, cmds: seq<Command<M, A>>) {
    forall n: nat | n <= |cmds| :: WireRun(ms, flows, cmds[..n]) == ApplyAll(flows, cmds[..n])
  }

  /** Each command, on the table that the ones before it have left. */
  ghost predicate AllHitTheirTargets<M, A>(ms: M -> Match, flows: map<Entry<M>, A>, cmds: seq<Command<M, A>>)
    decreases |cmds|
  {
    cmds != [] ==> HitsItsTarget(ms, flows, cmds[0]) && AllHitTheirTargets(ms, Apply(flows, cmds[0]), cmds[1..])
  }

  /** The two semantics agree throughout a run if and only if no command of it changes a flow that it does not name. */
  lemma {:induction false} RunIsExactIff<M, A>(ms: M -> Match, flows: map<Entry<M>, A>, cmds: seq<Command<M, A>>)
    ensures AgreeThroughout(ms, flows, cmds) <==> AllHitTheirTargets(ms, flows, cmds)
    decreases |cmds|
  {
    hide Apply, WireApply, HitsItsTarget;
    if cmds == [] {
      assert cmds[..0] == [];
    } else {
      CommandIsExactIff(ms, flows, cmds[0]);
      assert cmds[..1] == [cmds[0]] && [cmds[0]][1..] == [];
      assert WireRun(ms, flows, cmds[..1]) == WireApply(ms, flows, cmds[0]) && ApplyAll(flows, cmds[..1]) == Apply(flows, cmds[0]);
      if WireApply(ms, flows, cmds[0]) == Apply(flows, cmds[0]) {
        RunIsExactIff(ms, Apply(flows, cmds[0]), cmds[1..]);
        AgreeFurther(ms, flows, cmds);
      }
    }
  }

  lemma AgreeFurther<M, A>(ms: M -> Match, flows: map<Entry<M>, A>, cmds: seq<Command<M, A>>)
    requires cmds != [] && WireApply(ms, flows, cmds[0]) == Apply(flows, cmds[0])
    ensures AgreeThroughout(ms, flows, cmds) <==> AgreeThroughout(ms, Apply(flows, cmds[0]), cmds[1..])
  {
    hide Apply, WireApply;
    var next := Apply(flows, cmds[0]);
    forall n: nat | n < |cmds|
      ensures WireRun(ms, flows, cmds[..n + 1]) == WireRun(ms, next, cmds[1..][..n])
      ensures ApplyAll(flows, cmds[..n + 1]) == ApplyAll(next, cmds[1..][..n])
    {
      assert cmds[..n + 1][1..] == cmds[1..][..n];
    }
    assert cmds[..0] == [];
    if AgreeThroughout(ms, next, cmds[1..]) {
      forall n: nat | n <= |cmds| ensures WireRun(ms, flows, cmds[..n]) == ApplyAll(flows, cmds[..n]) {
        if n > 0 {
          assert WireRun(ms, flows, cmds[..n - 1 + 1]) == WireRun(ms, next, cmds[1..][..n - 1]);
        }
      }
    }
  }

  ghost function Named<M, A>(flows: map<Entry<M>, A>, cmds: seq<Command<M, A>>): set<Entry<M>> {
    flows.Keys + set i | 0 <= i < |cmds| :: cmds[i].flow.entry
  }

  /**
   One-sided: the match that a Modify or Delete names covers no other match that is live or commanded in its table, and
   the match that an Add names means none of the same priority.  Flows that nobody modifies or deletes, as the miss flows,
   may cover whatever they like.
   */
  ghost predicate Apart<M, A>(ms: M -> Match, flows: map<Entry<M>, A>, cmds: seq<Command<M, A>>) {
    forall cmd, x | cmd in cmds && x in Named(flows, cmds) ::
      if cmd.Add? then Replaced(ms, cmd.flow.entry, x) ==> x == cmd.flow.entry
      else Reached(ms, cmd.flow.entry, x) ==> x.on == cmd.flow.entry.on
  }

  /** Then every run of Add, Modify and Delete, wherever it is cut short, leaves the same table under both semantics. */
  lemma {:induction false} NonStrictIsExactWhenApart<M, A>(ms: M -> Match, flows: map<Entry<M>, A>, cmds: seq<Command<M, A>>)
    requires Apart(ms, flows, cmds)
    ensures AgreeThroughout(ms, flows, cmds)
    decreases |cmds|
  {
    hide Covers;
    if cmds == [] {
      assert cmds[..0] == [];
    } else {
      assert cmds[0] in cmds;
      CommandIsExactIff(ms, flows, cmds[0]);
      NamedShrinks(flows, cmds);
      NonStrictIsExactWhenApart(ms, Apply(flows, cmds[0]), cmds[1..]);
      AgreeFurther(ms, flows, cmds);
    }
  }

  lemma NamedShrinks<M, A>(flows: map<Entry<M>, A>, cmds: seq<Command<M, A>>)
    requires cmds != []
    ensures Named(Apply(flows, cmds[0]), cmds[1..]) <= Named(flows, cmds)
  {
  }

  /***** Nets *****/

  lemma {:induction false} ShiftFurther(ip: nat, m: nat, n: nat)
    ensures ShiftRight(ip, m + n) == ShiftRight(ShiftRight(ip, m), n)
    decreases m
  {
    if m > 0 {
      ShiftFurther(ip / 2, m - 1, n);
    }
  }

  /** A shorter prefix contains every net that starts with it. */
  lemma NestedNets(ip: nat, net: nat, len: nat, inner: nat, innerLen: nat)
    requires len <= innerLen <= 32 && InNet(inner, net, len) && InNet(ip, inner, innerLen)
    ensures InNet(ip, net, len)
  {
    ShiftFurther(ip, 32 - innerLen, innerLen - len);
    ShiftFurther(inner, 32 - innerLen, innerLen - len);
  }

  lemma WholeMatchHits(m: Match, rest: Match, p: Packet)
    requires Hits(m + rest, p)
    ensures Hits(m, p) && Hits(rest, p)
  {
    forall i | 0 <= i < |m| ensures Hit(m[i], p) {
      assert (m + rest)[i] == m[i];
    }
    forall i | 0 <= i < |rest| ensures Hit(rest[i], p) {
      assert (m + rest)[|m| + i] == rest[i];
    }
  }
}
