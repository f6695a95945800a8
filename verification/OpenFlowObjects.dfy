/** The switch as the objects that the source keeps: tables that count their flows, and the bridge that runs commands. */
module OpenFlowObjects {
  import opened OpenFlow

  class CommandTable {
    const id: TableId
    const next: TableId
    var flowCount: nat

    constructor (id: TableId, next: TableId)
      ensures this.id == id && this.next == next && flowCount == 0
    {
      this.id, this.next, flowCount := id, next, 0;
    }

    predicate Valid()
      reads this
    {
      flowCount < UINT_LIMIT
    }

    /** The counter is unsigned: both branches wrap around. */
    method UpdateStatus(delta: int)
      requires Valid()
      modifies this`flowCount
      ensures Valid() && flowCount == Bump(old(flowCount), delta)
    {
      if delta < 0 {
        flowCount := (flowCount - (-delta)) % UINT_LIMIT;
      } else {
        flowCount := (flowCount + delta) % UINT_LIMIT;
      }
    }
  }

  /** `fails` decides which of its commands fail; nothing else does. */
  class Bridge<M(==), A> {
    const tables: map<TableId, CommandTable>
    const fails: nat -> bool
    var flows: map<Entry<M>, A>
    var clock: nat
    /** The tables once more, as a set for frames. */
    ghost const counters: set<CommandTable>

    constructor (tables: map<TableId, CommandTable>, fails: nat -> bool)
      requires forall t | t in tables :: tables[t].id == t && tables[t].Valid()
      ensures Valid() && this.tables == tables && this.fails == fails && counters == tables.Values
      ensures View() == Switch(map[], map t | t in tables :: tables[t].flowCount, fails, 0)
    {
      this.tables, this.fails, flows, clock := tables, fails, map[], 0;
      counters := tables.Values;
    }

    ghost predicate Valid()
      reads this, counters
    {
      forall t | t in tables :: tables[t] in counters && tables[t].id == t && tables[t].Valid()
    }

    ghost function View(): Switch<M, A>
      requires Valid()
      reads this, counters
    {
      Switch(flows, map t | t in tables :: tables[t].flowCount, fails, clock)
    }

    method Run(cmd: Command<M, A>) returns (ok: bool)
      requires Valid()
      modifies this, counters
      ensures Valid()
      ensures ok == !WillFail(old(View())) && View() == Exec(old(View()), cmd)
    {
      ok := !fails(clock);
      clock := clock + 1;
      if ok {
        flows := Apply(flows, cmd);
        var t := cmd.flow.entry.table;
        if t in tables {
          tables[t].UpdateStatus(Delta(cmd));
        }
      }
    }

    /** A command that `ovs-ofctl` refuses to send. */
    method Refuse()
      requires Valid()
      modifies this`clock
      ensures Valid() && View() == old(View()).(clock := old(View()).clock + 1)
    {
      clock := clock + 1;
    }

    method AddFlow(flow: Flow<M, A>) returns (ok: bool)
      requires Valid()
      modifies this, counters
      ensures Valid()
      ensures ok == !WillFail(old(View())) && View() == Exec(old(View()), Add(flow))
    {
      ok := Run(Add(flow));
    }

    method ModifyFlow(flow: Flow<M, A>) returns (ok: bool)
      requires Valid()
      modifies this, counters
      ensures Valid()
      ensures ok == !WillFail(old(View())) && View() == Exec(old(View()), Modify(flow))
    {
      ok := Run(Modify(flow));
    }

    method DeleteFlow(flow: Flow<M, A>) returns (ok: bool)
      requires Valid()
      modifies this, counters
      ensures Valid()
      ensures ok == !WillFail(old(View())) && View() == Exec(old(View()), Delete(flow))
    {
      ok := Run(Delete(flow));
    }
  }
}
