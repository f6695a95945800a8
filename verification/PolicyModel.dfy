/** Rules, addresses, cache keys and flow constructors of the NetworkPolicy engine. */
module PolicyTypes {
  import opened OpenFlow

  const EGRESS_RULE_TABLE: TableId := 50
  const EGRESS_DEFAULT_TABLE: TableId := 60
  const INGRESS_RULE_TABLE: TableId := 90
  const INGRESS_DEFAULT_TABLE: TableId := 100

  type RuleId = nat

  datatype Direction = Ingress | Egress

  function RuleTable(dir: Direction): TableId {
    if dir.Egress? then EGRESS_RULE_TABLE else INGRESS_RULE_TABLE
  }

  function DefaultTable(dir: Direction): TableId {
    if dir.Egress? then EGRESS_DEFAULT_TABLE else INGRESS_DEFAULT_TABLE
  }

  /***** Addresses, service ports and the matches they denote *****/

  datatype AddressType = SrcAddress | DstAddress | UnknownAddressType

  datatype Address =
    | IPAddress(ip: nat)
    | IPNetAddress(net: nat, len: nat)
    | OFPortAddress(port: int)

  /** A NetworkPolicyPort: a protocol the API does not know is treated as TCP. */
  datatype ServicePort = ServicePort(proto: Protocol, intVal: int)

  datatype MatchType =
    | MatchDstIP | MatchSrcIP | MatchDstIPNet | MatchSrcIPNet | MatchDstOFPort | MatchSrcOFPort
    | MatchTCPDstPort | MatchUDPDstPort | MatchSCTPDstPort | Unsupported

  datatype Value = OfAddress(addr: Address) | OfPort(port: nat)

  /** A conjunctiveMatch; it is also its own key in the context cache. */
  datatype Key = Key(table: TableId, kind: MatchType, value: Value)

  function GetMatchKey(a: Address, t: AddressType): MatchType {
    match (a, t)
    case (IPAddress(_), SrcAddress) => MatchSrcIP
    case (IPAddress(_), DstAddress) => MatchDstIP
    case (IPNetAddress(_, _), SrcAddress) => MatchSrcIPNet
    case (IPNetAddress(_, _), DstAddress) => MatchDstIPNet
    case (OFPortAddress(_), SrcAddress) => MatchSrcOFPort
    case (OFPortAddress(_), DstAddress) => MatchDstOFPort
    case (_, UnknownAddressType) => Unsupported
  }

  function GetServiceMatchType(p: Protocol): MatchType {
    match p
    case TCP => MatchTCPDstPort
    case UDP => MatchUDPDstPort
    case SCTP => MatchSCTPDstPort
    case _ => MatchTCPDstPort
  }

  function AddressKey(table: TableId, t: AddressType, a: Address): Key {
    Key(table, GetMatchKey(a, t), OfAddress(a))
  }

  /** The port is truncated to 16 bits. */
  function PortKey(table: TableId, p: ServicePort): Key {
    Key(table, GetServiceMatchType(p.proto), OfPort(p.intVal % 0x1_0000))
  }

  function AddressKeys(table: TableId, t: AddressType, addrs: seq<Address>): (keys: seq<Key>)
    ensures |keys| == |addrs|
    ensures forall i | 0 <= i < |addrs| :: keys[i] == AddressKey(table, t, addrs[i])
  {
    seq(|addrs|, i requires 0 <= i < |addrs| => AddressKey(table, t, addrs[i]))
  }

  function PortKeys(table: TableId, ports: seq<ServicePort>): (keys: seq<Key>)
    ensures |keys| == |ports|
    ensures forall i | 0 <= i < |ports| :: keys[i] == PortKey(table, ports[i])
  {
    seq(|ports|, i requires 0 <= i < |ports| => PortKey(table, ports[i]))
  }

  /** The three clauses that a rule may have. */
  datatype Side = From | To | Service

  predicate IsSrcKind(kind: MatchType) {
    kind.MatchSrcIP? || kind.MatchSrcIPNet? || kind.MatchSrcOFPort?
  }

  predicate IsDstKind(kind: MatchType) {
    kind.MatchDstIP? || kind.MatchDstIPNet? || kind.MatchDstOFPort?
  }

  /** The match fields that addFlowMatch puts on a flow. */
  function KeyMatchers(kind: MatchType, value: Value): seq<Matcher> {
    match (kind, value)
    case (MatchDstIP, OfAddress(IPAddress(ip))) => [IP, NwDst(ip)]
    case (MatchSrcIP, OfAddress(IPAddress(ip))) => [IP, NwSrc(ip)]
    case (MatchDstIPNet, OfAddress(IPNetAddress(ip, len))) => [IP, NwDstNet(ip, len)]
    case (MatchSrcIPNet, OfAddress(IPNetAddress(ip, len))) => [IP, NwSrcNet(ip, len)]
    case (MatchDstOFPort, OfAddress(OFPortAddress(port))) => [IP, Reg1(port % 0x1_0000_0000)]
    case (MatchSrcOFPort, OfAddress(OFPortAddress(port))) => [IP, InPort(port % 0x1_0000_0000)]
    case (MatchTCPDstPort, OfPort(port)) => [TCPFlow, TcpDst(port)]
    case (MatchUDPDstPort, OfPort(port)) => [UDPFlow, UdpDst(port)]
    case (MatchSCTPDstPort, OfPort(port)) => [SCTPFlow, SctpDst(port)]
    case _ => []
  }

  /***** Policy rules *****/

  /** A PolicyRule as the controller hands it over; None stands for a nil slice. */
  datatype Rule = Rule(
    id: RuleId,
    dir: Direction,
    from: Option<seq<Address>>,
    exceptFrom: seq<Address>,
    to: Option<seq<Address>>,
    exceptTo: seq<Address>,
    service: Option<seq<ServicePort>>)

  function One<T>(x: Option<T>): nat {
    if x.Some? then 1 else 0
  }

  function FromId(r: Rule): nat { One(r.from) }
  function ToId(r: Rule): nat { One(r.from) + One(r.to) }
  function ServiceId(r: Rule): nat { One(r.from) + One(r.to) + One(r.service) }
  function NClause(r: Rule): nat { One(r.from) + One(r.to) + One(r.service) }

  /***** Flows *****/

  /** The matches of the policy tables: a key, a conjunction id, both, or any IP packet. */
  datatype PolicyMatch =
    | OnKey(kind: MatchType, value: Value)
    | OnConj(id: RuleId)
    | OnConjKey(id: RuleId, kind: MatchType, value: Value)
    | OnIP

  function Matchers(m: PolicyMatch): seq<Matcher> {
    match m
    case OnKey(kind, value) => KeyMatchers(kind, value)
    case OnConj(id) => [IP, ConjId(id)]
    case OnConjKey(id, kind, value) => [ConjId(id)] + KeyMatchers(kind, value)
    case OnIP => [IP]
  }

  /** The rule on whose conj_id a match insists. */
  function Conj(m: PolicyMatch): Option<RuleId> {
    match m
    case OnConj(id) => Some(id)
    case OnConjKey(id, _, _) => Some(id)
    case _ => None
  }

  /** A conjunctiveAction. */
  datatype Act = Act(conj: RuleId, clause: nat, n: nat)

  datatype FlowAction =
    | Conjunction(act: Act)
    | Resubmit(table: TableId)
    | Normal
    | Drop

  type PolicyEntry = Entry<PolicyMatch>
  type PolicyFlow = Flow<PolicyMatch, set<FlowAction>>
  type PolicySwitch = Switch<PolicyMatch, set<FlowAction>>

  function Conjunctions(acts: set<Act>): set<FlowAction> {
    set a | a in acts :: Conjunction(a)
  }

  function ConjEntry(k: Key): PolicyEntry {
    Entry(k.table, PRIORITY_NORMAL, OnKey(k.kind, k.value))
  }

  function DropEntry(t: TableId, k: Key): PolicyEntry {
    Entry(t, PRIORITY_NORMAL, OnKey(k.kind, k.value))
  }

  function ConjunctiveMatchFlow(k: Key, acts: set<Act>): PolicyFlow {
    Flow(ConjEntry(k), Conjunctions(acts))
  }

  function DefaultDropFlow(t: TableId, k: Key): PolicyFlow {
    Flow(DropEntry(t, k), {Drop})
  }

  function ConjunctionActionFlow(id: RuleId, table: TableId, next: TableId): PolicyFlow {
    Flow(Entry(table, PRIORITY_LOW, OnConj(id)), {Resubmit(next)})
  }

  function ConjunctionExceptionFlow(id: RuleId, table: TableId, next: TableId, t: AddressType, a: Address): PolicyFlow {
    Flow(Entry(table, PRIORITY_NORMAL, OnConjKey(id, GetMatchKey(a, t), OfAddress(a))), {Resubmit(next)})
  }

  function ExceptionFlows(id: RuleId, dir: Direction, t: AddressType, addrs: seq<Address>): (flows: seq<PolicyFlow>)
    ensures |flows| == |addrs|
    ensures forall i | 0 <= i < |addrs| ::
              flows[i] == ConjunctionExceptionFlow(id, RuleTable(dir), DefaultTable(dir), t, addrs[i])
  {
    seq(|addrs|, i requires 0 <= i < |addrs| =>
      ConjunctionExceptionFlow(id, RuleTable(dir), DefaultTable(dir), t, addrs[i]))
  }

  /** What a table does with packets that hit none of its flows. */
  datatype MissAction = MissDrop | MissNormal | MissNext

  datatype TableSpec = TableSpec(next: TableId, miss: MissAction)

  function DefaultFlow(t: TableId, spec: TableSpec): PolicyFlow {
    Flow(Entry(t, PRIORITY_MISS, OnIP),
         match spec.miss
         case MissNext => {Resubmit(spec.next)}
         case MissNormal => {Normal}
         case MissDrop => {Drop})
  }

  /** The conjunction action flow first, then one flow per except; none for a rule of at most one clause. */
  function ActionFlows(r: Rule, next: TableId): seq<PolicyFlow> {
    if NClause(r) <= 1 then []
    else
      [ConjunctionActionFlow(r.id, RuleTable(r.dir), next)]
      + ExceptionFlows(r.id, r.dir, SrcAddress, r.exceptFrom)
      + ExceptionFlows(r.id, r.dir, DstAddress, r.exceptTo)
  }

  /***** The pipeline *****/

  /** `GetNext` of the two default tables; neither leads back into the four policy tables. */
  datatype Pipeline = Pipeline(egressNext: TableId, ingressNext: TableId)

  function Next(p: Pipeline, dir: Direction): TableId {
    if dir.Egress? then p.egressNext else p.ingressNext
  }
}

/**
 The engine of `network_policy.go` as functions on values: the context cache, the conjunctive match flows and default
 drop flows, and the four calls of the client.  Every function follows the code statement by statement and stops at the
 first failing command.
 */
module PolicyEngine {
  import opened OpenFlow
  import opened PolicyTypes

  /***** conjMatchFlowContext *****/

  datatype Context = Context(
    actions: map<RuleId, Act>,
    denyAllRules: set<RuleId>,
    flow: Option<PolicyFlow>,
    dropFlow: Option<PolicyFlow>)

  const EMPTY_CONTEXT := Context(map[], {}, None, None)

  datatype ContextResult = ContextResult(ctx: Context, sw: PolicySwitch, ok: bool)

  function InstallOrUpdateFlow(ctx: Context, k: Key, acts: set<Act>, sw: PolicySwitch): ContextResult {
    if ctx.flow.None? then
      if acts == {} then ContextResult(ctx, sw, true)
      else
        var flow := ConjunctiveMatchFlow(k, acts);
        var sw' := Exec(sw, Add(flow));
        if WillFail(sw) then ContextResult(ctx, sw', false)
        else ContextResult(ctx.(flow := Some(flow)), sw', true)
    else
      var newFlow := Flow(ctx.flow.value.entry, Conjunctions(acts));
      var sw' := Exec(sw, Modify(newFlow));
      if WillFail(sw) then ContextResult(ctx, sw', false)
      else ContextResult(ctx.(flow := Some(newFlow)), sw', true)
  }

  /** The actions that stay when rule `id` leaves. */
  function LeftActions(actions: map<RuleId, Act>, id: RuleId): set<Act> {
    set a | a in actions.Values && a.conj != id
  }

  function DeleteAction(ctx: Context, k: Key, id: RuleId, sw: PolicySwitch): ContextResult {
    if |ctx.actions| == 1 && ctx.flow.Some? then
      var sw' := Exec(sw, Delete(ctx.flow.value));
      if WillFail(sw) then ContextResult(ctx, sw', false)
      else ContextResult(ctx.(flow := None, actions := ctx.actions - {id}), sw', true)
    else
      var r := InstallOrUpdateFlow(ctx, k, LeftActions(ctx.actions, id), sw);
      if r.ok then r.(ctx := r.ctx.(actions := r.ctx.actions - {id})) else r
  }

  function AddAction(ctx: Context, k: Key, act: Act, sw: PolicySwitch): ContextResult {
    if act.conj in ctx.actions then ContextResult(ctx, sw, true)
    else
      var r := InstallOrUpdateFlow(ctx, k, ctx.actions.Values + {act}, sw);
      if r.ok then r.(ctx := r.ctx.(actions := r.ctx.actions[act.conj := act])) else r
  }

  /***** clause *****/

  /** A clause; `dropTable` is None for a nil table. */
  datatype Clause = Clause(action: Act, matches: set<Key>, ruleTable: TableId, dropTable: Option<TableId>)

  datatype Engine = Engine(cache: map<Key, Context>, sw: PolicySwitch)

  datatype ClauseResult = ClauseResult(e: Engine, clause: Clause, ok: bool)

  /** The context that a clause works on: the cached one, or a new one together with its default drop flow. */
  function FindOrCreate(e: Engine, c: Clause, k: Key): (Option<Context>, PolicySwitch) {
    if k in e.cache then (Some(e.cache[k]), e.sw)
    else if c.dropTable.Some? then
      var dropFlow := DefaultDropFlow(c.dropTable.value, k);
      var sw' := Exec(e.sw, Add(dropFlow));
      if WillFail(e.sw) then (None, sw') else (Some(EMPTY_CONTEXT.(dropFlow := Some(dropFlow))), sw')
    else (Some(EMPTY_CONTEXT), e.sw)
  }

  function Claim(ctx: Context, k: Key, act: Act, sw: PolicySwitch): ContextResult {
    if act.n > 1 then AddAction(ctx, k, act, sw)
    else ContextResult(ctx.(denyAllRules := ctx.denyAllRules + {act.conj}), sw, true)
  }

  function AddConjunctiveMatchFlow(e: Engine, c: Clause, k: Key): ClauseResult {
    if k in c.matches then ClauseResult(e, c, true)
    else
      var (found, sw) := FindOrCreate(e, c, k);
      if found.None? then ClauseResult(e.(sw := sw), c, false)
      else
        var r := Claim(found.value, k, c.action, sw);
        ClauseResult(Engine(e.cache[k := r.ctx], r.sw), if r.ok then c.(matches := c.matches + {k}) else c, r.ok)
  }

  /** What deleteConjunctiveMatchFlow does to the context that the clause holds; `evict` removes its key from the cache. */
  datatype ReleaseResult = ReleaseResult(ctx: Context, sw: PolicySwitch, evict: bool, ok: bool)

  function Disclaim(ctx: Context, k: Key, act: Act, sw: PolicySwitch): ContextResult {
    if act.n > 1 then
      if act.conj in ctx.actions then DeleteAction(ctx, k, act.conj, sw) else ContextResult(ctx, sw, true)
    else ContextResult(ctx.(denyAllRules := ctx.denyAllRules - {act.conj}), sw, true)
  }

  function Release(ctx: Context, k: Key, act: Act, sw: PolicySwitch): ReleaseResult {
    var r := Disclaim(ctx, k, act, sw);
    if !r.ok then ReleaseResult(r.ctx, r.sw, false, false)
    else if r.ctx.actions == map[] && r.ctx.denyAllRules == {} then
      if r.ctx.dropFlow.Some? then
        var sw' := Exec(r.sw, Delete(r.ctx.dropFlow.value));
        if WillFail(r.sw) then ReleaseResult(r.ctx, sw', false, false)
        else ReleaseResult(r.ctx.(dropFlow := None), sw', true, true)
      else ReleaseResult(r.ctx, r.sw, true, true)
    else ReleaseResult(r.ctx, r.sw, false, true)
  }

  /**
   The context behind a key that a clause holds: the cached one, or what is left of it once it has left the cache.
   (A clause whose context died while a newer one took its key is treated in module PolicyStale.)
   */
  function HeldContext(e: Engine, k: Key): Context {
    if k in e.cache then e.cache[k] else EMPTY_CONTEXT
  }

  function DeleteConjunctiveMatchFlow(e: Engine, c: Clause, k: Key): ClauseResult {
    if k !in c.matches then ClauseResult(e, c, true)
    else
      var r := Release(HeldContext(e, k), k, c.action, e.sw);
      ClauseResult(
        Engine(if r.evict then e.cache - {k} else e.cache[k := r.ctx], r.sw),
        if r.ok then c.(matches := c.matches - {k}) else c,
        r.ok)
  }

  function AddFlows(e: Engine, c: Clause, keys: seq<Key>): ClauseResult
    decreases |keys|
  {
    if keys == [] then ClauseResult(e, c, true)
    else
      var r := AddConjunctiveMatchFlow(e, c, keys[0]);
      if r.ok then AddFlows(r.e, r.clause, keys[1..]) else r
  }

  /** `keys` may repeat: the second deletion finds nothing. */
  function DeleteFlows(e: Engine, c: Clause, keys: seq<Key>): ClauseResult
    decreases |keys|
  {
    if keys == [] then ClauseResult(e, c, true)
    else
      var r := DeleteConjunctiveMatchFlow(e, c, keys[0]);
      if r.ok then DeleteFlows(r.e, r.clause, keys[1..]) else r
  }

  /***** policyRuleConjunction and the calls of the client *****/

  datatype Conjunct = Conjunct(
    id: RuleId,
    from: Option<Clause>,
    to: Option<Clause>,
    service: Option<Clause>,
    actionFlows: seq<PolicyFlow>)

  datatype Client = Client(engine: Engine, policies: map<RuleId, Conjunct>)

  datatype Error = NoError | SwitchError | ConjunctionNotFound | NoClause

  datatype CallResult = CallResult(c: Client, err: Error)

  datatype SwitchResult = SwitchResult(sw: PolicySwitch, ok: bool)

  function AddActionFlows(sw: PolicySwitch, flows: seq<PolicyFlow>): SwitchResult
    decreases |flows|
  {
    if flows == [] then SwitchResult(sw, true)
    else
      var sw' := Exec(sw, Add(flows[0]));
      if WillFail(sw) then SwitchResult(sw', false) else AddActionFlows(sw', flows[1..])
  }

  function DeleteActionFlows(sw: PolicySwitch, flows: seq<PolicyFlow>): SwitchResult
    decreases |flows|
  {
    if flows == [] then SwitchResult(sw, true)
    else
      var sw' := Exec(sw, Delete(flows[0]));
      if WillFail(sw) then SwitchResult(sw', false) else DeleteActionFlows(sw', flows[1..])
  }

  function NewClause(id: RuleId, clause: nat, n: nat, ruleTable: TableId, dropTable: Option<TableId>): Clause {
    Clause(Act(id, clause, n), {}, ruleTable, dropTable)
  }

  function FromClause(r: Rule): Clause {
    NewClause(r.id, FromId(r), NClause(r), RuleTable(r.dir), if r.dir.Egress? then Some(DefaultTable(r.dir)) else None)
  }

  function ToClause(r: Rule): Clause {
    NewClause(r.id, ToId(r), NClause(r), RuleTable(r.dir), if r.dir.Egress? then None else Some(DefaultTable(r.dir)))
  }

  function ServiceClause(r: Rule): Clause {
    NewClause(r.id, ServiceId(r), NClause(r), RuleTable(r.dir), None)
  }

  function SideClause(r: Rule, side: Side): Clause {
    match side
    case From => FromClause(r)
    case To => ToClause(r)
    case Service => ServiceClause(r)
  }

  predicate SidePresent(r: Rule, side: Side) {
    match side
    case From => r.from.Some?
    case To => r.to.Some?
    case Service => r.service.Some?
  }

  function SideKeys(r: Rule, side: Side): seq<Key> {
    match side
    case From => if r.from.Some? then AddressKeys(RuleTable(r.dir), SrcAddress, r.from.value) else []
    case To => if r.to.Some? then AddressKeys(RuleTable(r.dir), DstAddress, r.to.value) else []
    case Service => if r.service.Some? then PortKeys(RuleTable(r.dir), r.service.value) else []
  }

  datatype SideResult = SideResult(e: Engine, clause: Option<Clause>, ok: bool)

  /** One of the three optional sides of a rule. */
  function AddSide(e: Engine, r: Rule, side: Side): SideResult {
    if !SidePresent(r, side) then SideResult(e, None, true)
    else
      var x := AddFlows(e, SideClause(r, side), SideKeys(r, side));
      SideResult(x.e, Some(x.clause), x.ok)
  }

  datatype InstallResult = InstallResult(e: Engine, conj: Conjunct, ok: bool)

  /** The clauses of a rule, in the order From, To, Service; the conjunct is complete only if `ok`. */
  function AddClauses(e: Engine, r: Rule, actionFlows: seq<PolicyFlow>): InstallResult {
    var f := AddSide(e, r, From);
    if !f.ok then InstallResult(f.e, Conjunct(r.id, f.clause, None, None, actionFlows), false)
    else
      var t := AddSide(f.e, r, To);
      if !t.ok then InstallResult(t.e, Conjunct(r.id, f.clause, t.clause, None, actionFlows), false)
      else
        var s := AddSide(t.e, r, Service);
        InstallResult(s.e, Conjunct(r.id, f.clause, t.clause, s.clause, actionFlows), s.ok)
  }

  function InstallPolicyRuleFlows(c: Client, p: Pipeline, r: Rule): CallResult {
    if r.id in c.policies then CallResult(c, NoError)
    else
      var a := AddActionFlows(c.engine.sw, ActionFlows(r, Next(p, r.dir)));
      if !a.ok then CallResult(c.(engine := c.engine.(sw := a.sw)), SwitchError)
      else
        var i := AddClauses(c.engine.(sw := a.sw), r, ActionFlows(r, Next(p, r.dir)));
        if !i.ok then CallResult(c.(engine := i.e), SwitchError)
        else CallResult(Client(i.e, c.policies[r.id := i.conj]), NoError)
  }

  /** The orders in which the three deleteAllMatches loops happen to meet the keys of their clauses. */
  datatype Orders = Orders(from: seq<Key>, to: seq<Key>, service: seq<Key>)

  function DeleteSide(e: Engine, c: Option<Clause>, keys: seq<Key>): SideResult {
    if c.None? then SideResult(e, None, true)
    else
      var r := DeleteFlows(e, c.value, keys);
      SideResult(r.e, Some(r.clause), r.ok)
  }

  function DeleteClauses(e: Engine, c: Conjunct, o: Orders): InstallResult {
    var f := DeleteSide(e, c.from, o.from);
    if !f.ok then InstallResult(f.e, c.(from := f.clause), false)
    else
      var t := DeleteSide(f.e, c.to, o.to);
      if !t.ok then InstallResult(t.e, c.(from := f.clause, to := t.clause), false)
      else
        var s := DeleteSide(t.e, c.service, o.service);
        InstallResult(s.e, c.(from := f.clause, to := t.clause, service := s.clause), s.ok)
  }

  function UninstallPolicyRuleFlows(c: Client, id: RuleId, o: Orders): CallResult {
    if id !in c.policies then CallResult(c, NoError)
    else
      var a := DeleteActionFlows(c.engine.sw, c.policies[id].actionFlows);
      if !a.ok then CallResult(c.(engine := c.engine.(sw := a.sw)), SwitchError)
      else
        var d := DeleteClauses(c.engine.(sw := a.sw), c.policies[id], o);
        if d.ok then CallResult(Client(d.e, c.policies - {id}), NoError)
        else CallResult(Client(d.e, c.policies[id := d.conj]), SwitchError)
  }

  function GetAddressClause(c: Conjunct, t: AddressType): Option<Clause> {
    match t
    case SrcAddress => c.from
    case DstAddress => c.to
    case UnknownAddressType => None
  }

  function SetAddressClause(c: Conjunct, t: AddressType, clause: Clause): Conjunct {
    match t
    case SrcAddress => c.(from := Some(clause))
    case DstAddress => c.(to := Some(clause))
    case UnknownAddressType => c
  }

  function AddPolicyRuleAddress(c: Client, id: RuleId, t: AddressType, addrs: seq<Address>): CallResult {
    if id !in c.policies then CallResult(c, ConjunctionNotFound)
    else
      var clause := GetAddressClause(c.policies[id], t);
      if clause.None? then CallResult(c, NoClause)
      else
        var r := AddFlows(c.engine, clause.value, AddressKeys(clause.value.ruleTable, t, addrs));
        CallResult(Client(r.e, c.policies[id := SetAddressClause(c.policies[id], t, r.clause)]),
                   if r.ok then NoError else SwitchError)
  }

  function DeletePolicyRuleAddress(c: Client, id: RuleId, t: AddressType, addrs: seq<Address>): CallResult {
    if id !in c.policies then CallResult(c, ConjunctionNotFound)
    else
      var clause := GetAddressClause(c.policies[id], t);
      if clause.None? then CallResult(c, NoClause)
      else
        var r := DeleteFlows(c.engine, clause.value, AddressKeys(clause.value.ruleTable, t, addrs));
        CallResult(Client(r.e, c.policies[id := SetAddressClause(c.policies[id], t, r.clause)]),
                   if r.ok then NoError else SwitchError)
  }
}
