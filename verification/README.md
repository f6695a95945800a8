# Flow programming of ciccni: the policy engine and the live pipeline

This project models the two parts of ciccni that program Open vSwitch, and proves what they guarantee.

**The NetworkPolicy engine** (`pkg/openflow/network_policy.go`). A rule stands for the product From x To x Service minus
excepts. The engine installs one flow per member instead of one per combination, lets rules share these flows through a
reference-counted cache of contexts, and keeps the cache right while rules and addresses come and go and switch commands
fail.

**The live pipeline** (`pkg/openflow/client.go`, tables 0, 1 and 2 of `pkg/openflow/pipeline.go`, and the node loops of
`pkg/agent/agentFunc.go`). Flows are cached by match text, and a packet walks from the classifier through the CoreDNS
detour to the forwarding table.

## How it is built

| files | contents |
|---|---|
| `OpenFlow.dfy`, `OpenFlowObjects.dfy` | packets, matches, flow entries, commands that may fail, 64-bit flow counts; the table and bridge objects |
| `WireSemantics.dfy`, `PolicyWire.dfy` | non-strict commands, and when they equal the exact ones; the same for the commands of the policy engine |
| `KeyTexts.dfy` | match strings and global map keys as text |
| `PolicyModel.dfy` | rules, keys, flow constructors, and the engine as functions on values, statement by statement |
| `PolicyObjects.dfy` | the engine as the classes of the source, with contexts shared by reference; each method equals the function on values |
| `PolicyInvariant.dfy`, `PolicyInterleaving.dfy`, `PolicyLoops.dfy`, `PolicyRules.dfy` | the invariant: cache and flows are a function of what each rule claims; one locked step, any interleaving, one call |
| `PolicyStore.dfy` | the plain rule set, and that the engine refines it |
| `PolicyConcurrency.dfy` | whole calls of different rules, interleaved |
| `PolicyVerdict.dfy` | what the policy tables do to a packet |
| `PolicyFailures.dfy`, `PolicyAddresses.dfy`, `PolicySafety.dfy`, `PolicyCommands.dfy`, `PolicyPartial.dfy`, `PolicyStale.dfy`, `PolicyCounts.dfy` | retries of installs, uninstalls and address updates, step safety, calls as lists of commands, what half-installed rules accept, dead contexts, flow counts |
| `Forwarding.dfy`, `ForwardingPipeline.dfy`, `ForwardingCalls.dfy`, `ForwardingOutcomes.dfy` | the live tables, walks through them, and what packets see of each call |
| `FlowCaches.dfy`, `FlowClients.dfy` | the flow caches as functions on values and as objects |
| `NodeMap.dfy`, `AgentFlows.dfy` | the node list and the loops over it |
| `Sequences.dfy` | elements of sequences |

Outcomes of commands are an oracle: `fails(n)` says whether the n-th invocation of `ovs-ofctl` fails, and results hold for
every oracle. A call is a list of commands that the caches fix and the first failure ends (`PolicyCommands`), so that "at
every command" speaks about the prefixes of this list. `PolicyInterleaving` takes one
`addConjunctiveMatchFlow` or `deleteConjunctiveMatchFlow` as one atomic step, as the mutex
(`pkg/openflow/network_policy.go:334` and `:443`) makes it. Go's map order is left open: action lists are sets, and the
orders of the deletion loops are ghost results or arguments.

## Assumptions

- The exact reading of Add, Modify and Delete: in the policy engine a command names the entries with its table and match
  (Delete and Modify whatever their priority). The commands are in fact non-strict. For rules of plain addresses without
  excepts this makes no difference (`PolicyWire.PointRunsAreExact`); `PolicyWire.KeyCommandsAreExactIff` is exact about
  excepts, and `WireSemantics.RunIsExactIff` about any run. It does make one for a rule that excepts a part of one of its
  own CIDRs (`PolicyWire.ExceptFlowLost`) and for 0.0.0.0/0 (`PolicyWire.WholeNetWipesTable`). The flow caches are treated
  under both semantics.
- `ovs-ofctl` refuses to add or modify a flow without actions, as ovs-ofctl(8) says.
- Distinct keys denote distinct matches. A plain address and its /32 net do not (`PolicyWire.HostIsSlash32`), nor do
  source 0.0.0.0/0 and destination 0.0.0.0/0 in one table.
- The four policy tables exist and hold their miss flows (`MissFlows`), and the default tables do not lead to themselves.
  `NewClient` creates tables 0, 1 and 2 only (`pkg/openflow/pipeline.go:573-591`), and `Initialize` does not install
  `defaultFlows` (`pkg/openflow/pipeline.go:149-165`).
- Conjunctive matches behave as in "Conjunctive Match Fields" of ovs-fields(7). An unset conj_id is 0, so a
  rule with id 0 may let pass what satisfies no rule; `PolicyVerdict.VerdictIsPlainIff` is exact about it.
- `port.Protocol` and `port.Port` are not nil (`pkg/openflow/network_policy.go:386-401`).
- Among flows of equal priority that a packet hits in tables 0 to 2 the switch may choose any; results hold for every
  choice.

## Where the code does less than its comments say

- `pkg/openflow/network_policy.go:534-536` says that after an error in a clause the conjunction action flow is never hit.
  A failure inside the last clause may leave a rule that packets satisfy (`PolicySafety.FailedInstallMayAccept`);
  `PolicyPartial.RemarkIsTrueIff` says for which rules the remark is true. What always holds is that whatever is accepted
  is allowed in full (`PolicyCommands.EveryInstallCommandIsSafe`).
- Retrying a deletion whose drop-flow command failed evicts by key (`pkg/openflow/network_policy.go:472`) and may evict a
  newer context of other rules; a drop flow can then be freed while a rule needs it (`PolicyStale.StaleRetryFreesEarly`).
- The flow count of a rule table drifts when a call fails after its first action flow (`PolicyCounts.CountStaysRightIff`)
  and is repeated; it can wrap below zero (`PolicyCounts.RetryWrapsCounter`).
- A failed installation that is given up stays: uninstalling the rule does nothing (`PolicyFailures.GivenUpInstallStays`).
- A tunnel flow for a CIDR that is cached is not updated when the peer changes (`FlowCaches.TunnelKeepsFirstPeer`).
- Deleting the flows of one cache key may take flows of another from the switch (`FlowCaches.WireDeletionAgreesIff`).

## Model

| member | source | states |
|---|---|---|
| PolicyVerdict.ProductEncodingIsExact | pkg/openflow/network_policy.go:537-636 | The shared, incremental encoding means the product: a packet satisfies conjunction r on the switch (for some n > 1 every clause 1..n is hit by a flow carrying conjunction(r,k/n)) if and only if r is live, has more than one side, and the packet, by its own header fields, matches a current member of each side |
| PolicyVerdict.PortKeyHits | pkg/openflow/network_policy.go:386-407 | The match type chosen for a port matches exactly the packets of its protocol (UDP, SCTP, or TCP for every other name) to the port truncated to 16 bits |
| PolicyVerdict.AddressKeyHits | pkg/openflow/pipeline.go:523-546 | The match type chosen for an address and the fields it puts on a flow match exactly the IP packets from, or to, that address, CIDR or Pod port |
| OpenFlow.InNetIsBlock | pkg/openflow/pipeline.go:523-546 | For 32-bit addresses a CIDR match hits exactly the aligned block of 2^(32 - len) addresses in which the net address lies |
| PolicyVerdict.WalkIsPlainVerdict | pkg/openflow/pipeline.go:489-570 | Whichever satisfied conjunction the switch picks, walking rule table and default table gives an IP packet exactly one outcome (bypass, pass, drop) and it is the one computed from the plain rules, unless the packet satisfies nothing and the action flow of a rule with id 0 opens the way for it |
| PolicyVerdict.VerdictIsPlainIff | pkg/openflow/pipeline.go:489-494 | For each packet the outcome is the plain one if and only if it is not the case that the packet satisfies nothing while rule 0 has an action flow and does not except it |
| PolicyVerdict.BypassIsAllowed | pkg/openflow/network_policy.go:282-286 | A packet bypasses the default table if and only if the chosen rule is live, allows it in full and does not except it, or rule 0 opens the way for it |
| PolicyVerdict.ExceptedIsDropped | pkg/openflow/network_policy.go:282-299 | A packet that is excepted by every rule which allows it is always dropped, because the AppliedTo member it matches owns a drop flow |
| PolicyVerdict.UnselectedIsNotDropped | pkg/openflow/network_policy.go:298-299 | A packet in no AppliedTo set is never dropped; one in an AppliedTo set that no rule allows always is, unless rule 0 opens the way for it |
| PolicyVerdict.DropFlowLifetime | pkg/openflow/network_policy.go:178-183 | A match has a drop flow exactly while some live rule, normal or DENY-ALL, has it on its AppliedTo side |
| PolicyVerdict.ClauseHitIffHeld | pkg/openflow/pipeline.go:556-564 | A clause is hit if and only if the packet hits a match that some live clause holds under exactly this conjunctive action |
| PolicyVerdict.FreshClientRepresentsNothing | pkg/openflow/pipeline.go:572-593 | A client without rules over the miss flows represents the empty rule set, from which all runs start |
| PolicyStore.CallRefines | pkg/openflow/network_policy.go:537-739 | Each of the four calls, when no command fails, does to the plain rule set what it says (sets of members) and returns the same error |
| PolicyStore.CallRefinesAside | pkg/openflow/network_policy.go:537-739 | The same beside half-installed other rules that may share its matches |
| PolicyStore.RunRefines | pkg/openflow/network_policy.go:537-739 | Any failure-free run of calls on any number of rules represents the plain rule set of that run |
| PolicyStore.HistoryIndependence | pkg/openflow/network_policy.go:537-739 | Policy cache, context cache and switch depend only on the live rules and their members, not on the order of the calls |
| PolicyStore.InstallThenAdd | pkg/openflow/network_policy.go:703-716 | Installing with From (or To) = A + B leaves the same state as installing with A and adding B |
| PolicyStore.UninstallUndoesInstall | pkg/openflow/network_policy.go:661-699 | Install r, any calls on other rules, uninstall r: the same state as those other calls alone |
| PolicyInterleaving.InterleavingInvariant | pkg/openflow/network_policy.go:326-373 | For steps of many rules interleaved at lock granularity: a context is cached iff a finished or in-progress clause holds its key; its actions and DENY-ALL rules are exactly those of the clauses holding it, split by nClause > 1; its two flows follow from them |
| PolicyInterleaving.InterleavingsConverge | pkg/openflow/network_policy.go:435-478 | Two interleavings that leave the same clauses leave the same contexts, conjunctive match flows and drop flows |
| PolicyInterleaving.DropSharingIsSound | pkg/openflow/network_policy.go:345-355 | In every reachable world clauses that share a context agree on the rule table and on whether and which drop table they use, the drop flow is on the switch exactly if they ask for one, and two clauses of one rule never share a context |
| PolicyInterleaving.RuleClausesProper | pkg/openflow/network_policy.go:603-632 | The clauses that an installation builds, and the keys it puts into them, meet the conditions under which sharing is sound |
| PolicyConcurrency.InterleavedCallsRefine | pkg/openflow/network_policy.go:283-286 | Any failure-free interleaving, at lock granularity, of whole calls on any number of rules ends in a state that represents the plain rules that each rule's own calls make |
| PolicyConcurrency.InterleavingIsSerializable | pkg/openflow/network_policy.go:326-373 | Such an interleaving leaves the same contexts and flows as a run of calls one after the other that means the same |
| PolicyConcurrency.RunAdvances | pkg/openflow/network_policy.go:326-373 | In any interleaving each rule's clauses and own flows are those that its own steps alone would leave |
| PolicyConcurrency.CallAdvances | pkg/openflow/network_policy.go:537-739 | The steps of each of the four calls lead a rule to the state that the call means |
| PolicyCommands.EveryInstallCommandIsSafe | pkg/openflow/network_policy.go:578-633 | Step safety: on the table that any number of commands of an installation have left, first try or retry, a packet that bypasses the default table is allowed in full and not excepted by a live rule or by the rule being installed; one that satisfies nothing bypasses only while rule 0 has its action flow there |
| PolicyCommands.EveryUninstallCommandIsSafe | pkg/openflow/network_policy.go:667-694 | The same at every command of an uninstallation, because the action flow goes first |
| PolicyCommands.InstallIssues | pkg/openflow/network_policy.go:537-636 | An installation is a list of commands fixed by the caches, carried out up to the first failure |
| PolicyCommands.UninstallIssues | pkg/openflow/network_policy.go:661-699 | So is an uninstallation |
| PolicyCommands.CallIssues | pkg/openflow/network_policy.go:537-739 | Each of the four calls is a list of commands fixed by the caches, carried out up to the first failure |
| PolicySafety.InstallStepIsSafe | pkg/openflow/network_policy.go:578-633 | The same safety in every state that failed attempts to install a rule leave |
| PolicySafety.UninstallStepIsSafe | pkg/openflow/network_policy.go:667-694 | The same safety in every state that failed attempts to uninstall a rule leave |
| PolicySafety.ZeroWhileInstallingIff | pkg/openflow/pipeline.go:489-494 | In those states an IP packet that satisfies nothing bypasses the default table if and only if the action flow of rule 0 is there and no except flow of rule 0 stops it |
| PolicySafety.ZeroWhileUninstallingIff | pkg/openflow/pipeline.go:489-494 | The same in the states that failed attempts to uninstall a rule leave |
| PolicySafety.FailedInstallMayAccept | pkg/openflow/network_policy.go:534-536 | The stronger remark in the comment is false: an input where the installation fails and a packet already satisfies the conjunction |
| PolicyPartial.RemarkIsTrueIff | pkg/openflow/network_policy.go:534-536 | The exact condition: no failure of the installation of a new rule leaves a packet that satisfies its conjunction if and only if no packet hits a key of every side but the last and one of the last side that precedes another, new key there |
| PolicyPartial.MayBeAcceptedIff | pkg/openflow/network_policy.go:595-633 | The same for each packet: some pattern of failures leaves it satisfying the conjunction if and only if it hits such keys |
| PolicyPartial.PartIsSatisfiedIff | pkg/openflow/network_policy.go:595-633 | Of a rule that is there in part, beside any other rules, a packet satisfies the conjunction if and only if the rule has more than one side and the packet hits a claimed key of each |
| PolicyPartial.RemarkHoldsFor | pkg/openflow/network_policy.go:534-536 | The remark is true of rules with one side, with an empty side, or with a single key on the side that is installed last |
| PolicyFailures.InstallRetryConverges | pkg/openflow/network_policy.go:537-636 | After any pattern of failed attempts, with any clean calls on other rules in between, the first attempt that succeeds leaves the state of a client in which nothing failed |
| PolicyFailures.UninstallRetryConverges | pkg/openflow/network_policy.go:661-699 | After any pattern of failed attempts, with any clean calls on other rules in between that leave the keys alone which the rule has released but still holds, the first attempt that succeeds leaves the state of a client in which nothing failed |
| PolicyFailures.AttemptResumes | pkg/openflow/network_policy.go:537-636 | One attempt to install a rule of which any part is already there either completes it or leaves another such state |
| PolicyFailures.OthersMayProceed | pkg/openflow/network_policy.go:537-739 | A clean call on another rule does what it should beside an interrupted installation and leaves that one resumable |
| PolicyFailures.RemovalResumes | pkg/openflow/network_policy.go:661-699 | One attempt to uninstall a rule that is partly gone either completes the removal or leaves another such state |
| PolicyFailures.BesetStaysResumable | pkg/openflow/network_policy.go:444-477 | Throughout such a history the removal can be resumed, and every key that the rule still holds is cached |
| PolicyFailures.GivenUpInstallStays | pkg/openflow/network_policy.go:661-667 | Uninstalling a rule whose installation failed reports success and does nothing; the client represents the other rules if and only if the failed attempts have left nothing |
| PolicyFailures.RetryThenUninstallCleans | pkg/openflow/network_policy.go:537-699 | Repeating the installation until it succeeds and then uninstalling leaves the other rules alone |
| PolicyAddresses.AddRetryConverges | pkg/openflow/network_policy.go:703-716 | After any pattern of failed AddPolicyRuleAddress calls, with any clean calls on other rules in between, the first that succeeds leaves the state of a client in which nothing failed |
| PolicyAddresses.AdditionResumes | pkg/openflow/network_policy.go:703-716 | An attempt that fails leaves the rule with some of the addresses added, in policy cache, context cache and switch alike, and unclaimed contexts for keys of the call at most; one that succeeds leaves the rule with all of them and nothing else |
| PolicyAddresses.OthersProceedWhileAdding | pkg/openflow/network_policy.go:703-716 | A clean call on another rule does what it should beside a half-finished addition |
| PolicyAddresses.DeleteRetryConverges | pkg/openflow/network_policy.go:720-739 | After any pattern of failed DeletePolicyRuleAddress calls, with any clean calls on other rules in between that leave the keys alone which the rule has released but still holds, the first that succeeds leaves the state of a client in which nothing failed |
| PolicyAddresses.DeletionResumes | pkg/openflow/network_policy.go:720-739 | An attempt that fails leaves the rule with the addresses that were to stay and some of the others, of which some may have been released already; one that succeeds leaves exactly the addresses that were to stay |
| PolicyAddresses.OthersProceedWhileShedding | pkg/openflow/network_policy.go:720-739 | A clean call on another rule does what it should beside a half-finished deletion |
| PolicyAddresses.SheddingIsResumable | pkg/openflow/network_policy.go:661-739 | After failed deletions of addresses the whole rule can be uninstalled, retries included |
| PolicyStore.AddAddressAttempt | pkg/openflow/network_policy.go:411-421 | One addAddrFlows, beside half-installed rules and whatever fails: the clause records exactly the keys that the rule has claimed |
| PolicyAddresses.DeleteAddressAttempt | pkg/openflow/network_policy.go:482-492 | One deleteAddrFlows, beside any other rules and whatever fails: the clause keeps all keys but those deleted, and among those it keeps only keys of the call may have been released |
| PolicyStale.StaleDeleteIsSafeIff | pkg/openflow/network_policy.go:463-477 | A clause that still holds a context which has died may retry its deletion safely if and only if no newer context is cached under the key |
| PolicyStale.RetryStale | pkg/openflow/network_policy.go:463-477 | The method of the clause does exactly that step when its context has died, whatever is cached under the key |
| PolicyStale.ResumableKeepsKeysCached | pkg/openflow/network_policy.go:463-477 | While a removal is interrupted and its stuck keys are left alone, every key that any rule holds is cached |
| PolicyStale.CleanCallsKeepKeysCached | pkg/openflow/network_policy.go:370-372 | Between clean calls, also beside half-installed rules, every key that a live rule holds is cached, so no clause holds a dead context |
| PolicyStale.StaleRetryFreesEarly | pkg/openflow/network_policy.go:463-477 | A run of clauses over one client in which a drop-flow failure and three other rules on the same address end with a rule that holds its match but has lost its drop flow |
| PolicyCounts.FlowCountsConserved | pkg/ovs/openflow/cmd_table.go:60-71 | After a failure-free run each table counter, as a 64-bit unsigned number, shows what it showed at first plus the change of the ledger: recorded action flows, contexts with a conjunctive flow, contexts with a drop flow |
| PolicyCounts.LedgerByTable | pkg/ovs/openflow/cmd_table.go:60-71 | The ledger of a rule table is the action flows of its live rules plus the contexts with actions; that of a default table is the contexts whose key has a drop table |
| PolicyCounts.CallCounts | pkg/ovs/openflow/cmd_flow.go:50-83 | Whatever fails in a call, the counters follow the ledger but for the action flows that a failed call added or deleted in vain |
| PolicyCounts.CountStaysRightIff | pkg/openflow/network_policy.go:595-601 | A right counter stays right if and only if it is not the case that the call has action flows in that table and the first of its commands to fail is not its very first |
| PolicyCounts.NoUnderflow | pkg/ovs/openflow/cmd_table.go:64-65 | From right counters no command of a single call takes the number behind a counter below zero, wherever the call is cut short |
| PolicyCounts.RetryWrapsCounter | pkg/openflow/network_policy.go:668-674 | Repeating a failed uninstallation does: an input after which the counter shows 2^64 - 1 on an empty table |
| PolicyVerdict.DefaultFlowsAreMissFlows | pkg/openflow/pipeline.go:149-165 | On the four policy tables, with miss action Next, the default flows are the miss flows that the verdicts presuppose |
| PolicyVerdict.MissActsAsTold | pkg/openflow/pipeline.go:149-165 | With the default flows alone every IP packet of a table is dropped, leaves by Normal, or goes on to the next table, exactly as the miss action of the table says |
| PolicyObjects.DefaultFlows | pkg/openflow/pipeline.go:149-165 | The loop yields one default flow per table, by its miss action |
| PolicyObjects.PolicyFlowBuilder.AddConjunctions | pkg/openflow/pipeline.go:556-564 | The loop adds exactly one conjunction action per conjunctive action |
| PolicyObjects.PolicyFlowBuilder.CopyOf | pkg/ovs/openflow/cmd_flow.go:93-101 | The copy names the same entry and has no actions |
| PolicyInvariant.AddKeepsInv | pkg/openflow/network_policy.go:326-373 | Whatever command fails, the step claims the key for its rule or changes nobody's claims, and cache and every flow entry remain a function of the claims |
| PolicyInvariant.DeleteKeepsInv | pkg/openflow/network_policy.go:435-478 | Whatever command fails, the step releases the claim or leaves a context whose key stays in the clause; cache and flows remain a function of the claims |
| PolicyInvariant.ClaimLocal | pkg/openflow/network_policy.go:252-273 | Adding an action is all or nothing and touches the flow entry of one context only |
| PolicyInvariant.DisclaimLocal | pkg/openflow/network_policy.go:223-247 | Deleting an action is all or nothing; the flow goes with the last action and is otherwise updated to the actions that are left |
| PolicyInvariant.ReleaseLocal | pkg/openflow/network_policy.go:444-473 | A context leaves the cache exactly with its last claim, and then it has no flow left; a failure at the drop flow is the only half-way state |
| PolicyInvariant.StateDetermined | pkg/openflow/network_policy.go:168-184 | Two states in which the rules claim the same have the same cache and the same flows |
| PolicyLoops.AddFlowsKeepInv | pkg/openflow/network_policy.go:411-432 | The loop over addresses or ports claims all its keys if it succeeds, and a part of them if it stops |
| PolicyLoops.DeleteFlowsKeepInv | pkg/openflow/network_policy.go:482-504 | The deletion loops release all their keys if they succeed; a failure leaves the remaining keys in the clause |
| PolicyLoops.AddActionFlowsKeepInv | pkg/openflow/network_policy.go:595-600 | The loop adds the rule's own flows and no other entry changes |
| PolicyLoops.DeleteActionFlowsKeepInv | pkg/openflow/network_policy.go:668-674 | The loop deletes the rule's own flows, the conjunction action flow first, and no other entry changes |
| PolicyRules.RuleFlowsShape | pkg/openflow/network_policy.go:580-594 | The action flow resubmits past the default table below the priority of the except flows, which resubmit to it |
| PolicyRules.InstallAttempt | pkg/openflow/network_policy.go:537-636 | One attempt leaves a part of the rule whose claims come only after all its own flows, and all of it if no command fails |
| PolicyRules.UninstallAttempt | pkg/openflow/network_policy.go:661-699 | One attempt takes the action flow away before anything else, and the rule owns nothing if no command fails |
| PolicyObjects.ConjMatchFlowContext.InstallOrUpdateFlow | pkg/openflow/network_policy.go:188-218 | The context and the switch after the method, and its result, are those of the engine's function of the same name |
| PolicyObjects.ConjMatchFlowContext.LeftActions | pkg/openflow/network_policy.go:233-238 | The loop over the action map collects exactly the actions of other conjunctions |
| PolicyObjects.ConjMatchFlowContext.DeleteAction | pkg/openflow/network_policy.go:223-247 | As the engine's function; a context without actions has no flow |
| PolicyObjects.ConjMatchFlowContext.AddAction | pkg/openflow/network_policy.go:252-273 | As the engine's function; the action is kept under its own conjunction id |
| PolicyObjects.ConjMatchFlowContext.AddDenyAllRule | pkg/openflow/network_policy.go:275-281 | The rule joins the DENY-ALL set |
| PolicyObjects.Clause.AddConjunctiveMatchFlow | pkg/openflow/network_policy.go:326-373 | As the engine's function on cache, switch and clause; cached contexts are never replaced, and a context that has died is not touched |
| PolicyObjects.Clause.DeleteConjunctiveMatchFlow | pkg/openflow/network_policy.go:435-478 | The context that the clause holds is released and its key evicted if nothing is left in it, whatever is cached there; for a clause that holds the cached context or a dead one whose key is free this is the engine's function, and contexts that leave the cache are empty wherever they are still held |
| PolicyObjects.Client.Release | pkg/openflow/network_policy.go:444-473 | For any context a clause may hold: it is released, and the key leaves the cache whatever context is cached there |
| PolicyObjects.Clause.AddAddrFlows | pkg/openflow/network_policy.go:411-420 | The loop is the engine's fold over the keys of the addresses |
| PolicyObjects.Clause.AddServiceFlows | pkg/openflow/network_policy.go:423-432 | The loop is the engine's fold over the keys of the ports; PortKeyHits says which packets these keys match |
| PolicyObjects.Clause.DeleteAddrFlows | pkg/openflow/network_policy.go:482-492 | The loop is the engine's fold over the keys of the addresses |
| PolicyObjects.Clause.DeleteAllMatches | pkg/openflow/network_policy.go:496-504 | For some order that meets every key of the clause, the loop is the engine's fold in that order |
| PolicyObjects.Client.BuildActionFlows | pkg/openflow/network_policy.go:580-594 | The two loops build the action flow and one except flow per excepted address, in order |
| PolicyObjects.Client.InstallPolicyRuleFlows | pkg/openflow/network_policy.go:537-636 | The client after the method, and the error, are those of the engine's function, whichever command fails |
| PolicyObjects.Client.UninstallPolicyRuleFlows | pkg/openflow/network_policy.go:661-699 | The same, for some orders in which the deletion loops meet the keys |
| PolicyObjects.Client.AddPolicyRuleAddress | pkg/openflow/network_policy.go:703-716 | The same, with both error returns |
| PolicyObjects.Client.DeletePolicyRuleAddress | pkg/openflow/network_policy.go:721-737 | The same, with both error returns |
| OpenFlowObjects.CommandTable.UpdateStatus | pkg/ovs/openflow/cmd_table.go:60-71 | Both branches add the delta modulo 2^64 |
| OpenFlowObjects.Bridge.AddFlow | pkg/ovs/openflow/cmd_flow.go:50-57 | A command that fails changes no flow and no count; one that succeeds adds the entry and one to its table's count |
| OpenFlowObjects.Bridge.ModifyFlow | pkg/ovs/openflow/cmd_flow.go:59-69 | The same for a new action list under table and match, with no change of the count |
| OpenFlowObjects.Bridge.DeleteFlow | pkg/ovs/openflow/cmd_flow.go:71-77 | The same for a deletion by table and match, with one less |
| WireSemantics.DeleteIsExactIff | pkg/ovs/openflow/cmd_flow.go:71-77 | A non-strict Delete equals the exact one if and only if every entry it covers has its match |
| WireSemantics.ModifyIsExactIff | pkg/ovs/openflow/cmd_flow.go:59-69 | A non-strict Modify equals the exact one if and only if every entry it covers has its match or already its actions |
| WireSemantics.AddIsExactIff | pkg/ovs/openflow/cmd_flow.go:50-57 | An Add equals the exact one if and only if no other entry of its priority means the same |
| WireSemantics.RunIsExactIff | pkg/ovs/openflow/cmd_flow.go:50-77 | Both semantics leave the same table wherever a run is cut short, if and only if no command of it changes a flow that it does not name |
| WireSemantics.NonStrictIsExactWhenApart | pkg/ovs/openflow/cmd_flow.go:50-77 | One-sided condition on the matches: if none that is modified or deleted covers another live or commanded one of its table, and none that is added means the same as another, both semantics agree throughout |
| PolicyWire.PointRunsAreExact | pkg/openflow/network_policy.go:537-739 | For rules of plain addresses, ofports and service ports without excepts, over the miss flows: at every command of any clean run of calls both semantics leave the same table |
| PolicyWire.PointCallIsExact | pkg/openflow/network_policy.go:537-739 | The same for one call, wherever it is cut short |
| PolicyWire.KeyCommandsAreExactIff | pkg/openflow/network_policy.go:208-216 | With excepts, where keys do not cover one another: the work of a call on its keys is the same under both semantics if and only if it modifies or deletes no key that covers an except of a rule installed meanwhile |
| PolicyWire.OwnDeletesEndAlike | pkg/openflow/network_policy.go:668-674 | Deleting all flows of a rule leaves the same table under both semantics, although the first command may reach the except flows too |
| PolicyWire.CallEndsAlike | pkg/openflow/network_policy.go:537-739 | A call that hits no except leaves the same table under both semantics |
| PolicyWire.PointKeysAreApart | pkg/openflow/pipeline.go:523-546 | Matches on plain addresses, ofports and service ports never cover one another, nor the miss flow |
| PolicyWire.NetCoversExceptIff | pkg/openflow/pipeline.go:549-564 | The conjunctive match flow of a CIDR covers the except flow, of any rule, for a CIDR on the same side if and only if that CIDR lies inside it |
| PolicyWire.ExceptFlowLost | pkg/openflow/network_policy.go:208-216 | There a non-strict Modify overwrites the except flow and a Delete removes it |
| PolicyWire.WholeNetWipesTable | pkg/openflow/network_policy.go:527-529 | The match of 0.0.0.0/0, with which ALLOW-ALL rules are expressed, covers every flow of the rule table: a non-strict Modify of it overwrites all, a Delete leaves none |
| PolicyWire.HostIsSlash32 | pkg/openflow/network_policy.go:62-93 | A plain address and its /32 net have different keys but mean the same, on either side |
| KeyTexts.SplitUndoesJoin | pkg/ovs/openflow/cmd_flow.go:40-42 | Splitting at commas undoes the join of comma-free matchers |
| KeyTexts.DecimalIsRead | pkg/openflow/network_policy.go:152-154 | Reading the decimal text of a number gives the number, and it has no leading zero |
| KeyTexts.MatchStringDetermines | pkg/ovs/openflow/cmd_flow.go:34-48 | MatchString determines the table and the list of matchers |
| KeyTexts.GlobalMapKeyDetermines | pkg/openflow/network_policy.go:152-154 | The global map key determines table, match type and value text |
| KeyTexts.TextKeysAreKeys | pkg/openflow/network_policy.go:152-154 | Given value texts that determine the values, equal texts mean equal keys |
| ForwardingPipeline.EveryPacketReachesNormal | pkg/openflow/client.go:298-316 | From a table with the default flows, after any sequence of the client's commands, failed or not and exact or non-strict, every packet from table 0 ends in at least one Normal action; the walk terminates under the rank 0 > 2 > 1 |
| ForwardingPipeline.DefaultsAreOutOfReach | pkg/ovs/openflow/cmd_flow.go:71-77 | No match that the client caches covers that of a default flow |
| ForwardingPipeline.CommandKeepsLive | pkg/openflow/client.go:172-252 | Every command the client issues keeps the default flows and the shape of all others, under both semantics |
| ForwardingPipeline.CoreDNSDetourIsTransparent | pkg/openflow/pipeline.go:299-322 | The detour through table 2 changes at most the source address, only for UDP source port 53 from a CoreDNS port, and leaves the packet the same best flows of table 1 |
| ForwardingPipeline.DetourIsSourceRewriting | pkg/openflow/pipeline.go:292-331 | A walk of the pipeline is a walk of table 1 with exactly the source address that the installed CoreDNS flows say |
| ForwardingPipeline.InstalledFlowsAreCacheable | pkg/openflow/pipeline.go:282-373 | Every tunnel, local and CoreDNS flow, and every ARP flow with an address, has the shape on which totality rests |
| ForwardingCalls.CallsKeepPipelineTotal | pkg/openflow/client.go:172-252 | After any calls of the client, whichever of their commands fail and under either semantics, every packet reaches a Normal action |
| ForwardingCalls.EmptyArpListIsRefused | pkg/ovs/openflow/cmd_flow.go:43-53 | An ARP flow without addresses has no action text and is refused, so an empty list changes no flow |
| ForwardingOutcomes.AnswersComeFromService | pkg/openflow/pipeline.go:299-322 | If InstallCorednsFlow succeeds and neither of its flows was cached, under either semantics, every UDP packet from the port with source port 53 leaves with the requested service IP as its source, every other packet leaves with the source it would have left with before, and table 1 is untouched |
| ForwardingOutcomes.FailedInstallIsTransparent | pkg/openflow/client.go:242-248 | A first InstallCorednsFlow that fails leaves at most the classifier flow, and every packet keeps the source it would have left with |
| ForwardingOutcomes.AnswersKeepSource | pkg/openflow/client.go:250-252 | After an UninstallCorednsFlow that succeeds every packet from the port leaves with its own source address |
| ForwardingOutcomes.UninstallUndoesInstall | pkg/openflow/client.go:242-252 | Install and uninstall for a new container, under either semantics, leave caches and table as they were |
| ForwardingOutcomes.TunnelLeadsToPeer | pkg/openflow/client.go:172-189 | If InstallTunFlow succeeds for a destination that was not cached, IP packets for that CIDR, or for that address from that port, that hit no other flow of normal priority leave once, tunnelled to the requested peer; for all other packets table 1 is what it was |
| ForwardingOutcomes.LocalStaysLocal | pkg/openflow/client.go:220-240 | The same for InstallLocalIPFlow: packets for the destination, from any port, leave once without a tunnel |
| ForwardingOutcomes.UnparsableIsRefused | pkg/openflow/client.go:172-240 | A destination that does not parse is an error without a command; any other install of one flow succeeds if its command does |
| ForwardingOutcomes.OutputsCarrySource | pkg/openflow/pipeline.go:292-331 | Everything that leaves for a packet carries the source address that the detour left it |
| FlowCaches.CachesAlwaysAgree | pkg/openflow/client.go:116-157 | If keys own disjoint match texts with one action list each, then after any calls, whichever commands fail, the cached flows of each key are exactly its flows on the switch; with non-strict commands, if no planned match covers another one or that of a foreign flow |
| FlowCaches.AddMissingFlowsAgrees | pkg/openflow/client.go:116-132 | The same for one addMissingFlows |
| FlowCaches.DeleteFlowsAgrees | pkg/openflow/client.go:135-157 | The same for one deleteFlows, and a deletion that completes removes the key; DeletionOutcome says when it completes |
| FlowCaches.DeletionOutcome | pkg/openflow/client.go:135-157 | A deleteFlows succeeds if and only if as many commands succeed as flows are cached under the key; it issues one command per flow that leaves the cache, and one more if it fails; what leaves the cache has left the switch, a success leaves nothing under the key, and other keys keep their flows |
| FlowCaches.InstallOutcome | pkg/openflow/client.go:116-132 | An addMissingFlows succeeds if and only if as many commands succeed as texts are missing and no missing flow is without actions; then it has issued exactly these commands and every requested text is cached; cached flows, of this key or others, stay |
| FlowCaches.InitializeSucceedsIff | pkg/openflow/client.go:298-316 | Initialize succeeds if and only if the bridge can be reached and its four commands succeed; if it cannot be reached nothing changes |
| FlowCaches.InitializeStopsAtFailure | pkg/openflow/client.go:298-316 | On an empty switch each of the four default flows, in this order, is there exactly if its command and all before it succeed |
| FlowCaches.KeysAreNames | pkg/openflow/client.go:195-240 | Different nodes have different cache keys for their local flows, and these differ from the keys of tunnel and ARP flows, which differ from one another |
| FlowCaches.WireDeletionAgreesIff | pkg/openflow/client.go:135-157 | After a completed non-strict deletion the caches agree with the switch if and only if no flow cached under the key covers one cached under another key |
| FlowCaches.TunnelDeletionTakesLocal | pkg/openflow/client.go:191-193 | So deleting the tunnel flows takes the flow of a local CIDR inside a remote one from the switch, and its cache keeps it |
| FlowCaches.AddMissingMerges | pkg/openflow/client.go:121-130 | Each command that succeeds adds one flow to the cache; what a failed call leaves merges to the same as before |
| FlowCaches.ResumeIssuesOnlyMissing | pkg/openflow/client.go:121-130 | A resumed call issues one command per flow that is still missing and no other, and ends as one clean call would |
| FlowCaches.RepeatedInstallIsSilent | pkg/openflow/client.go:121-125 | Repeating an install whose flows are cached issues no command |
| FlowCaches.FirstWriterWins | pkg/openflow/client.go:121-125 | A cached flow is not replaced by a later one with the same match text and other actions |
| FlowCaches.RequestIsServedIff | pkg/openflow/client.go:121-130 | After an addMissingFlows that succeeds a requested flow is cached and on the switch if and only if the flow cached under its text was this very one, or none was and no earlier flow of the request has its text |
| FlowCaches.TunnelKeepsFirstPeer | pkg/openflow/client.go:172-189 | Installing a tunnel to a cached CIDR with another peer reports success, issues no command and changes nothing |
| FlowClients.FlowClient.AddMissingFlows | pkg/openflow/client.go:116-132 | The loop over cache and switch is the function on values |
| FlowClients.FlowClient.Add | pkg/ovs/openflow/cmd_flow.go:43-57 | A flow without actions is refused; any other is added as the switch does |
| FlowClients.FlowClient.DeleteFlows | pkg/openflow/client.go:135-157 | For some order that meets every cached flow, the loop and its deferred clean-up are the function on values, whose outcome DeletionOutcome states |
| FlowClients.FlowClient.InstallTunFlow | pkg/openflow/client.go:172-189 | As the function on values, with the error for a destination that does not parse |
| FlowClients.FlowClient.UninstallTunFlow | pkg/openflow/client.go:191-193 | As the function on values |
| FlowClients.FlowClient.InstallARPFlow | pkg/openflow/client.go:195-218 | As the function on values; the response flow is not tried if the request flow fails |
| FlowClients.FlowClient.InstallLocalIPFlow | pkg/openflow/client.go:220-240 | As the function on values |
| FlowClients.FlowClient.InstallCorednsFlow | pkg/openflow/client.go:242-248 | As the function on values; AnswersComeFromService says what packets see of it |
| FlowClients.FlowClient.UninstallCorednsFlow | pkg/openflow/client.go:250-252 | As the function on values; DeletionOutcome, AnswersKeepSource and UninstallUndoesInstall say what it does |
| FlowClients.FlowClient.Initialize | pkg/openflow/client.go:298-316 | As the function on values; stops at the first of the four flows that fails |
| FlowClients.ArpFlows | pkg/openflow/pipeline.go:362-373 | The loop fills both builders with one tunnel destination and one Normal per address, in order |
| FlowClients.FlowBuilder.Match | pkg/ovs/openflow/cmd_builder.go:31-34 | Appends one matcher |
| FlowClients.FlowBuilder.Act | pkg/ovs/openflow/cmd_action.go:19-30 | Appends one action |
| NodeMap.PacketsReachTheirNode | pkg/agent/agentFunc.go:246-273 | An IP packet for the Pod CIDR of another node that has an InternalIP leaves once, tunnelled to the InternalIP with none before it in the address list of the node; one for the local CIDR leaves once without a tunnel |
| NodeMap.FirstInternalIsFirst | pkg/agent/agentFunc.go:255-264 | The address found is ip if and only if ip is an InternalIP in the list with no InternalIP before it, and none is found if and only if there is none |
| NodeMap.DestinationsArePeers | pkg/agent/agentFunc.go:224-244 | There is an increasing list of exactly the positions of the other nodes with an InternalIP; the tunnel destinations have its length, and the k-th is the first InternalIP of the node at the k-th position |
| NodeMap.OtherPacketsAreNotTunnelled | pkg/openflow/pipeline.go:325-331 | A packet that is neither an IP packet for such a node nor ARP traffic for all of them leaves once without a tunnel |
| NodeMap.ArpVisitsEveryNode | pkg/agent/agentFunc.go:224-244 | The copies of an ARP request or response go to the first InternalIPs of the other nodes that have one: one for each, in the order of the list, and none to anybody else |
| NodeMap.SameDestinations | pkg/agent/agentFunc.go:224-273 | ARP and IP flows use the same set of tunnel destinations |
| NodeMap.ConstructedTable | pkg/agent/agentFunc.go:207-273 | From an empty cache, disjoint CIDRs and no failing command, the loops leave the old flows, two ARP flows and one flow per node |
| NodeMap.NodeGetsFlow | pkg/agent/agentFunc.go:246-273 | One round of the loop adds one flow: for another node a tunnel to its first InternalIP, hit exactly by IP packets for its Pod CIDR (from port 0 only, if that is a plain address); for this node Normal, for its own Pod CIDR |
| NodeMap.InitializeAddsDefaults | pkg/openflow/client.go:298-316 | A successful Initialize on an empty switch leaves exactly the four default flows |
| NodeMap.FreshAgentForwards | pkg/agent/agentFunc.go:207-273 | From an empty switch, with disjoint CIDRs and no failing command, Initialize and the loops leave tables under which every packet, whatever its protocol, leaves exactly as the node list says: each case named by positions in the lists of nodes and addresses |
| AgentFlows.Initializer.ConstructArpOpenflow | pkg/agent/agentFunc.go:224-244 | The nested loops collect the first InternalIP of each other node, as DestinationsArePeers states, and an empty list installs nothing |
| AgentFlows.Initializer.ConstructIPTunFlow | pkg/agent/agentFunc.go:246-273 | The loop installs one flow per node that has an address, to the one that FirstInternalIsFirst states, and goes on after errors |
| AgentFlows.Initializer.InitOpenFlow | pkg/agent/agentFunc.go:207-222 | ARP flows first, then the IP flows |

## Left out

- OVSDB transactions, `ovs-ofctl` itself, netlink, iptables, gRPC, the Kubernetes client and configuration: input and output around libraries.
- CNI add and delete in `pkg/cniserver`: mostly calls into other systems.
- Pod, node, gateway, conntrack, ARP-responder and spoof-guard flows: their tables are not created by `NewClient`.
- Parsing of addresses and CIDRs: destinations arrive parsed or marked as not parsable, and the InternalIPs of nodes are taken to parse.
- Field and action texts: match fields and actions are datatypes; only MatchString and the global map key are treated as text, given that the texts of single matchers and values determine them.
- Order of actions within a conjunctive match flow: Go takes it from a map; the model keeps the set.
- `established` connection flows, which bypass the rule tables and are not installed by `Initialize`.
- Update times of tables, logging, and retries with sleep.
- Data races on `policyCache` and `clause.matches` outside the lock: the source promises one goroutine per rule.
- InstallPolicyRuleFlows: the object method asks that every key held by a live rule is cached (`KeysCached`), which `PolicyStale.CleanCallsKeepKeysCached` gives between clean calls; after a drop-flow failure and interference by other rules it need not be, and that case is the subject of `PolicyStale`.
- AddPolicyRuleAddress: the same.
- UninstallPolicyRuleFlows: the object method asks that no clause holds a dead context while a newer one is cached under its key (`PolicyValid`); that case is the subject of `PolicyStale`.
- DeletePolicyRuleAddress: the same.
- DeleteAddrFlows: the same for one clause (`Linked`); `Clause.DeleteConjunctiveMatchFlow` itself is treated for every clause.
- DeleteAllMatches: the same.
- FreshAgentForwards: for commands that name entries exactly; totality (`ForwardingCalls.CallsKeepPipelineTotal`) and the caches are treated under both semantics.
