/**
 Packets, match fields, flow entries, flow commands and the switch that executes them.

 The switch is generic in the type of its matches and of its action lists.  `fails` and `clock` stand for the outcome
 of the n-th `ovs-ofctl` invocation: a failed command changes no flow and no flow count.
 */
module OpenFlow {

  datatype Option<+T> = None | Some(value: T)

  /** Total lookup, so that two maps can be compared key by key. */
  function Look<K, V>(m: map<K, V>, k: K): Option<V> {
    if k in m then Some(m[k]) else None
  }

  lemma LookDetermines<K, V>(a: map<K, V>, b: map<K, V>)
    requires forall k :: Look(a, k) == Look(b, k)
    ensures a == b
  {
    forall k ensures k in a <==> k in b {
      assert Look(a, k) == Look(b, k);
    }
    forall k | k in a ensures a[k] == b[k] {
      assert Look(a, k) == Look(b, k);
    }
  }

  /***** Packets and match fields *****/

  datatype Protocol = TCP | UDP | SCTP | OtherIP | ARP | NonIP

  /** The header and metadata fields that some flow of the repository matches on.  An unset conj_id is 0. */
  datatype Packet = Packet(proto: Protocol, src: nat, dst: nat, inPort: nat, reg1: nat,
                           tpSrc: nat, tpDst: nat, arpOp: nat, conj: nat)

  datatype Matcher =
    | IP | TCPFlow | UDPFlow | SCTPFlow | ARPFlow
    | InPort(port: nat)
    | NwDst(ip: nat) | NwDstNet(ip: nat, len: nat)
    | NwSrc(ip: nat) | NwSrcNet(ip: nat, len: nat)
    | Reg1(data: nat)
    | TcpDst(port: nat) | UdpDst(port: nat) | SctpDst(port: nat) | TpSrc(port: nat)
    | ArpOp(op: nat)
    | ConjId(id: nat)

  predicate IsIP(p: Protocol) {
    p.TCP? || p.UDP? || p.SCTP? || p.OtherIP?
  }

  /** `ip` without its last `bits` bits. */
  function ShiftRight(ip: nat, bits: nat): nat {
    if bits == 0 then ip else ShiftRight(ip / 2, bits - 1)
  }

  /** The first `len` of 32 bits are those of `net`. */
  predicate InNet(ip: nat, net: nat, len: nat) {
    var bits := if len <= 32 then 32 - len else 0;
    len == 0 || ShiftRight(ip, bits) == ShiftRight(net, bits)
  }

  function Pow2(n: nat): (r: nat)
    ensures r > 0
  {
    if n == 0 then 1 else 2 * Pow2(n - 1)
  }

  lemma DivideTwice(ip: nat, b: nat)
    requires b > 0
    ensures ip / 2 / b == ip / (2 * b)
  {
    var q, r := ip / 2 / b, ip / 2 % b;
    assert ip == 2 * (b * q + r) + ip % 2;
    assert 2 * (b * q) == (2 * b) * q;
    Quotient(ip, 2 * b, q, 2 * r + ip % 2);
  }

  lemma Quotient(n: nat, b: nat, q: nat, r: nat)
    requires b > 0 && n == b * q + r && r < b
    ensures n / b == q
  {
    assert b * (n / b - q) == r - n % b;
    FarApart(b, n / b - q);
  }

  lemma FarApart(b: int, d: int)
    requires b >= 0
    ensures d >= 1 ==> b * d >= b
    ensures d <= -1 ==> b * d <= -b
  {
    if d >= 1 {
      assert b * d == b * (d - 1) + b;
    } else if d <= -1 {
      assert b * -d == b * (-d - 1) + b;
    }
  }

  lemma {:induction false} ShiftRightDivides(ip: nat, bits: nat)
    ensures ShiftRight(ip, bits) == ip / Pow2(bits)
    decreases bits
  {
    if bits > 0 {
      ShiftRightDivides(ip / 2, bits - 1);
      DivideTwice(ip, Pow2(bits - 1));
    }
  }

  /** A CIDR is an aligned block of 2^(32 - len) addresses: the one in which `net` lies. */
  lemma InNetIsBlock(ip: nat, net: nat, len: nat)
    requires ip < 0x1_0000_0000 && net < 0x1_0000_0000 && len <= 32
    ensures var b := Pow2(32 - len);
            InNet(ip, net, len) <==> net - net % b <= ip < net - net % b + b
  {
    hide Pow2, ShiftRight;
    var b := Pow2(32 - len);
    ShiftRightDivides(ip, 32 - len);
    ShiftRightDivides(net, 32 - len);
    SameBlock(ip, net, b);
    if len == 0 {
      WordSize();
    }
  }

  lemma FourMore(n: nat)
    ensures Pow2(n + 4) == 16 * Pow2(n)
  {
    assert Pow2(n + 4) == 4 * Pow2(n + 2);
  }

  lemma WordSize()
    ensures Pow2(32) == 0x1_0000_0000
  {
    FourMore(0);
    FourMore(4);
    FourMore(8);
    FourMore(12);
    FourMore(16);
    FourMore(20);
    FourMore(24);
    FourMore(28);
  }

  lemma SameBlock(ip: nat, net: nat, b: nat)
    requires b > 0
    ensures ip / b == net / b <==> net - net % b <= ip < net - net % b + b
  {
    var q := net / b;
    assert net - net % b == b * q;
    if b * q <= ip < b * q + b {
      Quotient(ip, b, q, ip - b * q);
    }
    assert ip == b * (ip / b) + ip % b;
  }

  predicate Hit(m: Matcher, p: Packet) {
    match m
    case IP => IsIP(p.proto)
    case TCPFlow => p.proto.TCP?
    case UDPFlow => p.proto.UDP?
    case SCTPFlow => p.proto.SCTP?
    case ARPFlow => p.proto.ARP?
    case InPort(n) => p.inPort == n
    case NwDst(ip) => p.dst == ip
    case NwDstNet(ip, len) => InNet(p.dst, ip, len)
    case NwSrc(ip) => p.src == ip
    case NwSrcNet(ip, len) => InNet(p.src, ip, len)
    case Reg1(data) => p.reg1 == data
    case TcpDst(n) => p.tpDst == n
    case UdpDst(n) => p.tpDst == n
    case SctpDst(n) => p.tpDst == n
    case TpSrc(n) => p.tpSrc == n
    case ArpOp(op) => p.arpOp == op
    case ConjId(id) => p.conj == id
  }

  predicate Hits(ms: seq<Matcher>, p: Packet) {
    forall i | 0 <= i < |ms| :: Hit(ms[i], p)
  }

  /***** Flows and commands *****/

  type TableId = t: int | 0 <= t < 256

  const PRIORITY_NORMAL: nat := 200
  const PRIORITY_LOW: nat := 190
  const PRIORITY_MISS: nat := 80

  datatype Entry<+M> = Entry(table: TableId, priority: nat, on: M)

  datatype Flow<+M, +A> = Flow(entry: Entry<M>, actions: A)

  datatype Command<+M, +A> =
    | Add(flow: Flow<M, A>)
    | Modify(flow: Flow<M, A>)
    | Delete(flow: Flow<M, A>)

  /** Delete and Modify name a table and a match, never a priority. */
  predicate SameSlot<M(==)>(a: Entry<M>, b: Entry<M>) {
    a.table == b.table && a.on == b.on
  }

  function Apply<M(==), A>(flows: map<Entry<M>, A>, cmd: Command<M, A>): map<Entry<M>, A> {
    match cmd
    case Add(f) => flows[f.entry := f.actions]
    case Modify(f) => map x | x in flows :: if SameSlot(x, f.entry) then f.actions else flows[x]
    case Delete(f) => map x | x in flows && !SameSlot(x, f.entry) :: flows[x]
  }

  function ApplyAll<M(==), A>(flows: map<Entry<M>, A>, cmds: seq<Command<M, A>>): map<Entry<M>, A>
    decreases |cmds|
  {
    if cmds == [] then flows else ApplyAll(Apply(flows, cmds[0]), cmds[1..])
  }

  /***** Flow counts *****/

  /** One more than the largest value of a 64-bit unsigned counter. */
  const UINT_LIMIT: nat := 0x1_0000_0000_0000_0000

  function Bump(count: nat, delta: int): nat {
    (count + delta) % UINT_LIMIT
  }

  function Delta<M, A>(cmd: Command<M, A>): int {
    match cmd
    case Add(_) => 1
    case Modify(_) => 0
    case Delete(_) => -1
  }

  /***** The switch *****/

  datatype Switch<M(==), A> = Switch(
    flows: map<Entry<M>, A>,
    counts: map<TableId, nat>,
    fails: nat -> bool,
    clock: nat)

  function Count(counts: map<TableId, nat>, t: TableId, delta: int): map<TableId, nat> {
    if t in counts then counts[t := Bump(counts[t], delta)] else counts
  }

  predicate WillFail<M, A>(sw: Switch<M, A>) {
    sw.fails(sw.clock)
  }

  function Exec<M(==), A>(sw: Switch<M, A>, cmd: Command<M, A>): Switch<M, A> {
    if WillFail(sw) then sw.(clock := sw.clock + 1)
    else Switch(Apply(sw.flows, cmd), Count(sw.counts, cmd.flow.entry.table, Delta(cmd)), sw.fails, sw.clock + 1)
  }
}
